/**
 * The channel registry as a value: the map from channel name to the set of connections attached
 * to it, the three updates the server makes to it, and what a sequence of such updates leaves.
 */
module Channels {
  import opened Wrappers

  /** An admitted connection, identified opaquely (the server keys its sets by socket object). */
  type ConnId = nat

  /** Channel name to member set. */
  type Registry = map<string, set<ConnId>>

  predicate IsMember(m: Registry, channel: string, x: ConnId) {
    channel in m && x in m[channel]
  }

  /** The members of a channel, or none when the channel is absent. */
  function Members(m: Registry, channel: string): set<ConnId> {
    if channel in m then m[channel] else {}
  }

  /** Every channel present has at least one member: empty channels are removed at once. */
  ghost predicate NoEmptyChannel(m: Registry) {
    forall channel :: channel in m ==> m[channel] != {}
  }

  /** Each connection is attached to at most one channel. */
  ghost predicate Disjoint(m: Registry) {
    forall c1, c2, x :: IsMember(m, c1, x) && IsMember(m, c2, x) ==> c1 == c2
  }

  /** The registry after `x` attaches to `channel`, creating the channel if needed. */
  function Attached(m: Registry, channel: string, x: ConnId): (r: Registry)
    ensures r.Keys == m.Keys + {channel}
    ensures forall y :: IsMember(r, channel, y) <==> y == x || IsMember(m, channel, y)
    ensures forall c :: c != channel && c in m ==> r[c] == m[c]
    ensures NoEmptyChannel(m) ==> NoEmptyChannel(r)
  {
    m[channel := Members(m, channel) + {x}]
  }

  /** The registry after `x` detaches from `channel`; the channel goes once its set is empty. */
  function Detached(m: Registry, channel: string, x: ConnId): (r: Registry)
    ensures !IsMember(r, channel, x)
    ensures forall y :: y != x ==> (IsMember(r, channel, y) <==> IsMember(m, channel, y))
    ensures r.Keys == if channel in m && m[channel] <= {x} then m.Keys - {channel} else m.Keys
    ensures forall c :: c != channel && c in m ==> r[c] == m[c]
    ensures NoEmptyChannel(m) ==> NoEmptyChannel(r)
  {
    if channel !in m then m
    else if m[channel] <= {x} then m - {channel}
    else m[channel := m[channel] - {x}]
  }

  /** Who receives a message broadcast on `channel`: its members whose transport is open. */
  function Recipients(m: Registry, channel: string, open: set<ConnId>): (r: set<ConnId>)
    ensures forall y :: y in r <==> IsMember(m, channel, y) && y in open
  {
    Members(m, channel) * open
  }

  /** Attaching a connection that is already a member changes nothing: sets hold no duplicates. */
  lemma AttachedIdempotent(m: Registry, channel: string, x: ConnId)
    ensures Attached(Attached(m, channel, x), channel, x) == Attached(m, channel, x)
  {
  }

  /** Detaching twice is the same as detaching once. */
  lemma DetachedIdempotent(m: Registry, channel: string, x: ConnId)
    ensures Detached(Detached(m, channel, x), channel, x) == Detached(m, channel, x)
  {
    var once := Detached(m, channel, x);
    if channel in once {
      assert once[channel] - {x} == once[channel];
      assert once[channel := once[channel] - {x}] == once;
    }
  }

  /** Detaching a connection that is not a member, or from an absent channel, changes nothing. */
  lemma DetachNonMemberIsNoOp(m: Registry, channel: string, x: ConnId)
    requires NoEmptyChannel(m) && !IsMember(m, channel, x)
    ensures Detached(m, channel, x) == m
  {
    if channel in m {
      assert m[channel] - {x} == m[channel];
      assert m[channel := m[channel] - {x}] == m;
    }
  }

  /** Detaching undoes attaching a connection that was not a member, including the removal of a
      channel the attach created. */
  lemma DetachUndoesAttach(m: Registry, channel: string, x: ConnId)
    requires NoEmptyChannel(m) && !IsMember(m, channel, x)
    ensures Detached(Attached(m, channel, x), channel, x) == m
  {
  }

  /** When the last member leaves, the channel is gone; a later attach under the same name starts
      a channel whose only member is the newcomer. */
  lemma LastMemberRemovesChannel(m: Registry, channel: string, x: ConnId, y: ConnId)
    requires channel in m && m[channel] == {x}
    ensures channel !in Detached(m, channel, x)
    ensures Attached(Detached(m, channel, x), channel, y)[channel] == {y}
  {
  }

  /** Attaching keeps each connection in one channel, provided the newcomer is in no other. */
  lemma AttachedKeepsDisjoint(m: Registry, channel: string, x: ConnId)
    requires Disjoint(m)
    requires forall c :: IsMember(m, c, x) ==> c == channel
    ensures Disjoint(Attached(m, channel, x))
  {
    var r := Attached(m, channel, x);
    forall c1, c2, y | IsMember(r, c1, y) && IsMember(r, c2, y)
      ensures c1 == c2
    {
      assert IsMember(m, c1, y) || (c1 == channel && y == x);
      assert IsMember(m, c2, y) || (c2 == channel && y == x);
    }
  }

  lemma DetachedKeepsDisjoint(m: Registry, channel: string, x: ConnId)
    requires Disjoint(m)
    ensures Disjoint(Detached(m, channel, x))
  {
    var r := Detached(m, channel, x);
    forall c1, c2, y | IsMember(r, c1, y) && IsMember(r, c2, y)
      ensures c1 == c2
    {
      assert IsMember(m, c1, y) && IsMember(m, c2, y);
    }
  }

  /** Isolation: a member of one channel receives nothing broadcast on another. */
  lemma Isolation(m: Registry, c1: string, c2: string, y: ConnId, open: set<ConnId>)
    requires Disjoint(m) && c1 != c2 && IsMember(m, c2, y)
    ensures y !in Recipients(m, c1, open)
  {
  }

  /** Self-echo: a sender that is an open member of its channel receives its own message. */
  lemma SelfEcho(m: Registry, channel: string, sender: ConnId, open: set<ConnId>)
    requires IsMember(m, channel, sender) && sender in open
    ensures sender in Recipients(m, channel, open)
  {
  }

  /** The events that reach the registry, one at a time. */
  datatype Event =
    | Join(conn: ConnId, channel: string)
    | Leave(conn: ConnId, channel: string)
    | Say(channel: string, open: set<ConnId>)

  function Step(m: Registry, e: Event): Registry {
    match e
    case Join(x, c) => Attached(m, c, x)
    case Leave(x, c) => Detached(m, c, x)
    case Say(_, _) => m
  }

  /** The registry after the events `es`, in order. */
  function Run(m: Registry, es: seq<Event>): Registry
    decreases |es|
  {
    if es == [] then m else Step(Run(m, es[..|es| - 1]), es[|es| - 1])
  }

  /** Whether the last event that attached `x` to or detached it from `channel` was a join. */
  function LastTouch(es: seq<Event>, channel: string, x: ConnId): Option<bool>
    decreases |es|
  {
    if es == [] then None
    else match es[|es| - 1]
      case Join(y, c) => if y == x && c == channel then Some(true) else LastTouch(es[..|es| - 1], channel, x)
      case Leave(y, c) => if y == x && c == channel then Some(false) else LastTouch(es[..|es| - 1], channel, x)
      case Say(_, _) => LastTouch(es[..|es| - 1], channel, x)
  }

  /** Every join is by a connection attached to no other channel at that moment (in the server
      each join is a fresh socket). */
  ghost predicate JoinsAreFresh(m: Registry, es: seq<Event>)
    decreases |es|
  {
    es != [] ==>
      var before := es[..|es| - 1];
      var e := es[|es| - 1];
      JoinsAreFresh(m, before) &&
      (e.Join? ==> forall c :: IsMember(Run(m, before), c, e.conn) ==> c == e.channel)
  }

  /** No sequence of joins, leaves and broadcasts ever leaves an empty channel behind. */
  lemma {:induction false} RunKeepsNoEmptyChannel(m: Registry, es: seq<Event>)
    requires NoEmptyChannel(m)
    ensures NoEmptyChannel(Run(m, es))
    decreases |es|
  {
    if es != [] {
      RunKeepsNoEmptyChannel(m, es[..|es| - 1]);
    }
  }

  /** Membership after a sequence of events is decided by the last join or leave of that
      connection on that channel, and otherwise by the starting registry. */
  lemma {:induction false} RunMembership(m: Registry, es: seq<Event>, channel: string, x: ConnId)
    ensures IsMember(Run(m, es), channel, x) <==>
      match LastTouch(es, channel, x)
      case Some(joined) => joined
      case None => IsMember(m, channel, x)
    decreases |es|
  {
    if es != [] {
      RunMembership(m, es[..|es| - 1], channel, x);
    }
  }

  /** With fresh joins, every connection stays in at most one channel, so channels are isolated
      from each other all along. */
  lemma {:induction false} RunKeepsDisjoint(m: Registry, es: seq<Event>)
    requires Disjoint(m) && JoinsAreFresh(m, es)
    ensures Disjoint(Run(m, es))
    decreases |es|
  {
    if es != [] {
      var before := es[..|es| - 1];
      RunKeepsDisjoint(m, before);
      match es[|es| - 1]
      case Join(x, c) => AttachedKeepsDisjoint(Run(m, before), c, x);
      case Leave(x, c) => DetachedKeepsDisjoint(Run(m, before), c, x);
      case Say(_, _) =>
    }
  }

  /** Two clients join "room1"; when the first leaves the channel holds only the second, and
      when the second leaves the channel is gone. */
  lemma ScenarioLeaveInTurn()
    ensures Run(map[], [Join(1, "room1"), Join(2, "room1"), Leave(1, "room1")]) == map["room1" := {2}]
    ensures Run(map[], [Join(1, "room1"), Join(2, "room1"), Leave(1, "room1"), Leave(2, "room1")]) == map[]
  {
    var e1, e2, e3, e4 := Join(1, "room1"), Join(2, "room1"), Leave(1, "room1"), Leave(2, "room1");
    assert [e1][..0] == [] && [e1, e2][..1] == [e1];
    assert [e1, e2, e3][..2] == [e1, e2] && [e1, e2, e3, e4][..3] == [e1, e2, e3];
    var r1 := Run(map[], [e1]);
    assert Run(map[], []) == map[];
    assert r1 == Step(map[], e1) == Attached(map[], "room1", 1);
    assert Members(map[], "room1") + {1} == {1};
    assert r1 == map["room1" := {1}];
    var r2 := Run(map[], [e1, e2]);
    assert r2 == Attached(r1, "room1", 2);
    assert Members(r1, "room1") + {2} == {1, 2};
    assert r2 == map["room1" := {1, 2}];
    assert Run(map[], [e1, e2, e3]) == Detached(r2, "room1", 1);
    assert {1, 2} - {1} == {2};
  }
}
