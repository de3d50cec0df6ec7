/**
 * The relay process: its resolved configuration, the process-wide channel registry, and the
 * connection, message and close handlers that update that registry in place. Node delivers these
 * events one at a time, so each handler is a method call on one `Relay` object. The transport is
 * abstracted to an outbox: the frames the server hands to sockets, in the order it hands them.
 */
module Server {
  import opened Wrappers
  import opened Admission
  import opened Channels

  /** A frame handed to a connection's transport: a text message, or a close with code and reason. */
  datatype Frame = Text(to: ConnId, payload: string) | Close(to: ConnId, code: int, reason: string)

  /** What the message and close handlers of an admitted connection capture: its socket and the
      channel resolved when it connected. */
  datatype Session = Session(conn: ConnId, channel: string)

  /** The text frames that hand `payload` to each of `recipients`, in that order. */
  function TextsTo(recipients: seq<ConnId>, payload: string): (frames: seq<Frame>)
    ensures |frames| == |recipients|
    ensures forall i :: 0 <= i < |frames| ==> frames[i] == Text(recipients[i], payload)
    decreases |recipients|
  {
    if recipients == [] then []
    else TextsTo(recipients[..|recipients| - 1], payload) + [Text(recipients[|recipients| - 1], payload)]
  }

  predicate Distinct(s: seq<ConnId>) {
    forall i, j :: 0 <= i < j < |s| ==> s[i] != s[j]
  }

  class Relay {
    const port: Json
    const secret: Json
    var channels: Registry
    var outbox: seq<Frame>
    /** Every socket that has reached the connection handler; each new one is a fresh object. */
    ghost var seen: set<ConnId>

    ghost predicate Valid()
      reads this
    {
      && NoEmptyChannel(channels)
      && Disjoint(channels)
      && (forall c, x :: IsMember(channels, c, x) ==> x in seen)
      && Truthy(secret)
    }

    /** Start-up: the configuration fallbacks, an empty registry and nothing sent yet. */
    constructor (configuredPort: Json, configuredToken: Json)
      ensures Valid()
      ensures port == ResolvePort(configuredPort) && secret == ResolveToken(configuredToken)
      ensures channels == map[] && outbox == [] && seen == {}
    {
      port := ResolvePort(configuredPort);
      secret := ResolveToken(configuredToken);
      channels := map[];
      outbox := [];
      seen := {};
    }

    /** The connection handler: admit or close the new socket; an admitted one is attached and
        welcomed, and the session its later handlers capture is returned. */
    method Connect(conn: ConnId, token: Option<string>, channel: Option<string>) returns (session: Option<Session>)
      requires Valid()
      requires conn !in seen
      modifies this
      ensures Valid()
      ensures seen == old(seen) + {conn}
      ensures match Admit(token, channel, secret)
        case Rejected(code, reason) =>
          && session == None
          && channels == old(channels)
          && outbox == old(outbox) + [Close(conn, code, reason)]
        case Admitted(c) =>
          && session == Some(Session(conn, c))
          && channels == Attached(old(channels), c, conn)
          && outbox == old(outbox) + [Text(conn, Welcome(c))]
    {
      var c := ResolveChannel(channel);
      seen := seen + {conn};
      if token.None? || token.value == "" || !IsValidToken(token.value, secret) {
        outbox := outbox + [Close(conn, PolicyViolation, InvalidTokenReason)];
        return None;
      }
      Attach(conn, c);
      session := Some(Session(conn, c));
    }

    /** Adds `conn` to the member set of `channel`, creating the set first if the channel is
        absent, then sends the welcome text to `conn` alone. */
    method Attach(conn: ConnId, channel: string)
      requires Valid() && conn in seen
      requires forall c :: IsMember(channels, c, conn) ==> c == channel
      modifies this`channels, this`outbox
      ensures Valid()
      ensures channels == Attached(old(channels), channel, conn)
      ensures IsMember(channels, channel, conn)
      ensures outbox == old(outbox) + [Text(conn, Welcome(channel))]
    {
      AttachedKeepsDisjoint(channels, channel, conn);
      if channel !in channels {
        channels := channels[channel := {}];
      }
      channels := channels[channel := channels[channel] + {conn}];
      assert channels == Attached(old(channels), channel, conn);
      assert forall c, x :: IsMember(channels, c, x) ==> IsMember(old(channels), c, x) || x == conn;
      outbox := outbox + [Text(conn, Welcome(channel))];
    }

    /** The message handler: the payload goes, unchanged and once each, to exactly the open
        members of the session's channel (the sender included), and so to no member of any other
        channel; the registry is not touched. */
    method Broadcast(session: Session, payload: string, open: set<ConnId>) returns (recipients: seq<ConnId>)
      requires Valid()
      modifies this`outbox
      ensures Distinct(recipients)
      ensures forall y :: y in recipients <==> y in Recipients(channels, session.channel, open)
      ensures forall c, y :: c != session.channel && IsMember(channels, c, y) ==> y !in recipients
      ensures outbox == old(outbox) + TextsTo(recipients, payload)
    {
      var pending := Members(channels, session.channel);
      ghost var visited: set<ConnId> := {};
      recipients := [];
      while pending != {}
        invariant pending + visited == Members(channels, session.channel)
        invariant pending !! visited
        invariant Distinct(recipients)
        invariant forall y :: y in recipients <==> y in visited && y in open
        invariant outbox == old(outbox) + TextsTo(recipients, payload)
        decreases pending
      {
        var client :| client in pending;
        if client in open {
          assert (recipients + [client])[..|recipients|] == recipients;
          outbox := outbox + [Text(client, payload)];
          recipients := recipients + [client];
        }
        pending := pending - {client};
        visited := visited + {client};
      }
    }

    /** The close handler: removes the socket from its channel's set and deletes the channel
        once that set is empty. */
    method Detach(session: Session)
      requires Valid()
      modifies this`channels
      ensures Valid()
      ensures channels == Detached(old(channels), session.channel, session.conn)
      ensures !IsMember(channels, session.channel, session.conn)
    {
      var c, x := session.channel, session.conn;
      DetachedKeepsDisjoint(channels, c, x);
      if c in channels {
        channels := channels[c := channels[c] - {x}];
      }
      if c in channels && |channels[c]| == 0 {
        channels := channels - {c};
      }
      assert channels == Detached(old(channels), c, x);
      assert forall c', y :: IsMember(channels, c', y) ==> IsMember(old(channels), c', y);
    }
  }

  /** Two clients with the right token join "room1", a third joins "room2", a fourth presents a
      wrong token and is closed; the first then sends "hi" while the three admitted sockets are open. */
  method ScenarioRooms() returns (recipients: seq<ConnId>, rejected: Option<Session>)
    ensures forall y :: y in recipients <==> y == 1 || y == 2
    ensures rejected == None
  {
    var relay := new Relay(Missing, Str("s3cret"));
    assert relay.secret == Str("s3cret");
    assert Admit(Some("s3cret"), Some("room1"), relay.secret) == Admitted("room1");
    assert Members(map[], "room1") + {1} == {1};
    var x := relay.Connect(1, Some("s3cret"), Some("room1"));
    assert relay.channels == map["room1" := {1}];
    var y := relay.Connect(2, Some("s3cret"), Some("room1"));
    assert relay.channels["room1"] == {1} + {2};
    assert Admit(Some("s3cret"), Some("room2"), relay.secret) == Admitted("room2");
    var z := relay.Connect(3, Some("s3cret"), Some("room2"));
    assert relay.channels.Keys == {"room1", "room2"} && relay.channels["room2"] == {3};
    assert "S3CRET" != "s3cret";
    rejected := relay.Connect(4, Some("S3CRET"), Some("room1"));
    assert relay.channels["room1"] == {1, 2};
    recipients := relay.Broadcast(x.value, "hi", {1, 2, 3});
  }
}
