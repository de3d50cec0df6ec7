# WebSocket channel relay — Dafny model

This project models the core of a small WebSocket relay written in TypeScript. A client connects
with two query parameters, `token` and `channel`. If the token equals the configured secret, the
client joins the named channel, or `"default"` when none is given. From then on, every message a
member sends is forwarded unchanged to every member of that channel whose socket is open. This
includes the sender. A client with a bad token is closed with code 1008, which is the
"Policy Violation" code of section 7.4.1 of RFC 6455. When a socket closes, it leaves its channel,
and a channel whose last member leaves is deleted at once.

The model has four modules:

- `Wrappers` (`wrappers.dfy`) holds `Option`, used for a query parameter that may be absent.
- `Admission` (`admission.dfy`) holds the pure part. It has the configuration fallbacks for the
  port and the token, `isValidToken`, the channel fallback, the admission decision and the
  welcome text. Configuration values are a small JSON value type, `Json`. Each `||` fallback uses
  JavaScript truthiness, so `0`, `false`, `null`, `""` and a missing key all fall back to the
  default.
- `Channels` (`channels.dfy`) holds the channel registry as a value: a `map<string, set<ConnId>>`.
  It defines the attach and detach updates and the recipient set of a broadcast. It also defines
  `Run`, which applies a sequence of join, leave and broadcast events. No sequence leaves an
  empty channel behind (`RunKeepsNoEmptyChannel`); every connection stays in at most one channel
  provided each join is by a connection in no other channel (`RunKeepsDisjoint`).
- `Server` (`server.dfy`) holds the class `Relay`. It keeps the module-level state of the
  server: the resolved port and secret, the `channels` map, and an `outbox` of the frames handed
  to sockets. The connection, message and close handlers are the methods `Connect` (with
  `Attach`), `Broadcast` and `Detach`. Each method's `ensures` ties the new state to the
  `Channels` functions. `Broadcast` works through the member set in a loop, as the `forEach` in
  the source does. The class invariant `Valid()` says that no channel is empty and that every
  connection is in at most one channel. A ghost set `seen` records every socket that has reached
  the connection handler, and `Connect` takes only a socket not yet seen, as each connection in
  the source is a new socket object.

Each connection handler captures the socket and its resolved channel in a closure. The model
returns that pair from `Connect` as a `Session`, and the message and close handlers take it as an
argument. Sockets are opaque ids (`ConnId`). Whether a socket's `readyState` is OPEN is given by
the environment as the set `open`.

Behaviour of the code worth noting:

- The channel defaults to `"default"` both when the parameter is absent and when it is empty.
- Many relays skip the sender; this one sends the message back to it, because the sender is in
  the member set it iterates over.
- The token is compared with `===` against whatever the configuration file holds. A configured
  token that is not a string, such as a number, replaces the default but matches no query
  string, so every connection is rejected (`Admission.NonStringSecretAdmitsNobody`).

## Model

| member | source | states |
|---|---|---|
| `Admission.ResolvePort` | src/index.ts:7 | the port is always truthy; it is the configured value when that is truthy and 8080 otherwise |
| `Admission.ResolveToken` | src/index.ts:8 | the secret is always truthy, so never the empty string; it is the configured value when truthy and `'default-token'` otherwise |
| `Admission.ResolveChannel` | src/index.ts:28 | the channel is never empty; it is the requested name when that is present and non-empty, and `"default"` when it is absent or empty |
| `Admission.IsValidToken` | src/index.ts:19-21 | strict equality: valid exactly when the configured secret is a string with the same characters as the presented token |
| `Admission.Admit` | src/index.ts:28-34 | admitted iff the token is present, non-empty and equal to the secret; an admitted connection gets the resolved channel; a rejection carries code 1008 and the reason `Token inválido` |
| `Admission.AdmitsExactlyTheSecret` | src/index.ts:19-34 | with the secret resolved from the configuration, a connection is admitted iff its token equals that secret; the empty-token guard never changes the outcome |
| `Admission.DefaultSecretAdmission` | src/index.ts:8-30 | with no usable configured token, only the literal `default-token` is admitted |
| `Admission.NonStringSecretAdmitsNobody` | src/index.ts:5-20 | a truthy configured token that is not a string makes every connection be rejected with 1008 |
| `Admission.Welcome` | src/index.ts:45 | the welcome text quotes the channel name at a fixed position after the greeting |
| `Admission.WelcomeNamesChannel` | src/index.ts:45 | different channels get different welcome texts, so the channel can be read back from the text |
| `Channels.Attached` | src/index.ts:39-42 | the channel key exists afterwards; its members are the old ones plus the newcomer; every other channel is unchanged; no channel becomes empty |
| `Channels.Detached` | src/index.ts:63-68 | the connection is no longer a member; other members stay; the key is removed exactly when its set had nothing but the connection; other channels are unchanged; no channel becomes empty |
| `Channels.Recipients` | src/index.ts:52-57 | the recipients are exactly the members of the channel that are open; an absent channel has none |
| `Channels.AttachedIdempotent` | src/index.ts:42 | attaching an already-present connection again changes nothing, so no duplicate is created |
| `Channels.DetachedIdempotent` | src/index.ts:61-69 | detaching twice is the same as detaching once |
| `Channels.DetachNonMemberIsNoOp` | src/index.ts:63-68 | detaching a non-member, or from an absent channel, leaves the registry unchanged |
| `Channels.DetachUndoesAttach` | src/index.ts:39-68 | detach is the inverse of attaching a non-member, including the removal of a channel the attach created |
| `Channels.LastMemberRemovesChannel` | src/index.ts:39-68 | when the last member leaves, the key is removed; a later attach under that name makes a channel whose only member is the newcomer |
| `Channels.AttachedKeepsDisjoint` | src/index.ts:39-42 | attaching a connection that is in no other channel keeps every connection in at most one channel |
| `Channels.DetachedKeepsDisjoint` | src/index.ts:63-68 | detaching keeps every connection in at most one channel |
| `Channels.Isolation` | src/index.ts:52-57 | a member of another channel never receives a broadcast on this one |
| `Channels.SelfEcho` | src/index.ts:52-57 | an open sender that is a member of its channel receives its own message |
| `Channels.RunKeepsNoEmptyChannel` | src/index.ts:39-69 | after any sequence of joins, leaves and broadcasts, every channel key present has a non-empty set |
| `Channels.RunMembership` | src/index.ts:39-69 | after any sequence of events, a connection is a member of a channel iff its last join or leave of that channel was a join (or, with neither, iff it was a member at the start) |
| `Channels.RunKeepsDisjoint` | src/index.ts:24-69 | if every join uses a connection that is in no other channel, then every connection stays in at most one channel |
| `Channels.ScenarioLeaveInTurn` | src/index.ts:61-69 | two clients join "room1"; after the first leaves, the channel holds only the second; after the second leaves, the registry is empty |
| `Server.Relay.constructor` | src/index.ts:7-11 | start-up: the port and secret are resolved by the fallbacks, the registry is empty, nothing has been sent and no socket has been seen |
| `Server.Relay.Connect` | src/index.ts:24-46 | a rejected socket gets a single close frame (1008, `Token inválido`), the registry is unchanged, no welcome is sent and no session opens; an admitted socket is attached to its resolved channel, gets the welcome text alone, and its session is returned; the socket, which must be new, is recorded as seen; the invariant (no empty channel, one channel per connection) is kept |
| `Server.Relay.Attach` | src/index.ts:39-45 | for a seen socket in no other channel: the registry becomes `Attached` of the old one, the socket is a member, exactly one frame is sent (the welcome text, to this socket only), and the invariant is kept |
| `Server.Relay.Broadcast` | src/index.ts:48-58 | the payload is sent once each to exactly the open members of the session's channel, the sender included; no member of another channel receives it; the registry is unchanged |
| `Server.Relay.Detach` | src/index.ts:61-69 | the registry becomes `Detached` of the old one, so the socket is no longer a member and an emptied channel is gone; nothing is sent; the invariant is kept |
| `Server.ScenarioRooms` | src/index.ts:24-58 | "room1" has two members and "room2" one, and a wrong-case token is rejected; with the three admitted sockets open, a message in "room1" reaches both members there and not the member of "room2" |

## Left out

- Creating the WebSocket server, binding the port and registering event handlers are not modelled. They belong to the `ws` library and network I/O, so each event is a method call instead.
- Parsing the request URL and reading query parameters with `searchParams.get` are not modelled. The two parameters arrive as `Option<string>`.
- Reading and JSON-parsing `config.json` is not modelled. It is file I/O, and only the fallback rules on the parsed values are kept.
- Configuration numbers are integers. Fractional numbers and `NaN`, which is falsy in JavaScript, are left out.
- `console.log` calls are left out because they only log.
- Transport behaviour is not modelled. `ws.send` and `ws.close` append frames to `outbox`. Send failures, delivery, and changes of `readyState` are outside the model.
- Server.Relay.Broadcast: the `open` set is one snapshot for the whole broadcast. Sending never changes whether a socket is open.
- Message payloads are strings. The `ws` library can also deliver binary buffers, and the source forwards either one unchanged.
- Server.Relay.Broadcast: the model does not keep the order in which members are sent to. JavaScript's `Set.forEach` visits them in insertion order; the loop here picks them in any order, so the order of frames in `outbox` is arbitrary. Each recipient gets its own frame either way.
- Concurrency is not modelled. Node runs the handlers one at a time.
- scripts/copy-public.js is not part of this model. It copies a directory at build time using only file-system calls.
