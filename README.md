# Watch-together room registry, modelled in Dafny

The watch-together backend keeps one process-wide registry, `rooms`, that maps
a room id to a room: the members in join order (each a socket id and a display
name) and the room's current video URL. Socket handlers change it in place:

- `join-room` creates the room on first use (no members, URL `""`), appends the
  joiner, and sends the room its member list and its current URL;
- `change-video` overwrites the URL of an existing room and relays it;
- `disconnect` filters the leaving socket out of every room, sends each room
  its new member list, and deletes the rooms that became empty;
- `play`, `pause` and `send-message` only relay a message to a room.

The model has three modules:

- `Rooms` (`rooms.dfy`): the values (`Member`, `Room`, the broadcast
  `Outbound` with its `Payload`), the filter used by `disconnect`, and the
  effect of each handler on the registry as a function of the registry before
  the event (`JoinRooms`, `ChangeVideoRooms`, `DisconnectRooms`), with the
  lemmas that state what those effects are and which invariant they keep.
- `Registry` (`registry.dfy`): the class `RoomRegistry` whose field `rooms` is
  the registry; one method per handler. Each method is proved to leave the
  registry equal to the function above and returns the broadcasts it emits,
  in emission order. `Disconnect` runs the `for...in` loop of the source as a
  loop over the set of room ids still to visit. The object invariant `Valid()`
  says that every room present has at least one member.
- `PlainObject` (`plain_object.dfy`): how `rooms[roomId]` behaves on a plain
  JavaScript object, whose inherited properties it also finds, for the two
  findings below.

Two client methods, `Registry.JoinScenario` and `Registry.LeaveScenario`,
drive the class through two joins, a video change and two disconnects. Their
assertions about the registry after each step follow from the method
contracts alone.

A broadcast `io.to(roomId).emit(name, payload)` is modelled as the value
`Outbound(roomId, payload)`. Handlers return lists of these values. Delivery is
not modelled.

## Model

| member | source | states |
|---|---|---|
| `Rooms.FilterOut` | server.js:53 | the filtered list holds exactly the old entries whose socket id differs from the leaving one, and is never longer than the old list |
| `Rooms.FilterOutAppend` | server.js:53 | filtering a concatenation is the concatenation of the filtered parts, so the members who remain keep their relative order |
| `Rooms.FilterOutAbsent` | server.js:53 | a member list without the leaving socket passes the filter unchanged |
| `Rooms.FilterOutEmpty` | server.js:53-59 | the filtered list is empty exactly when every entry belonged to the leaving socket |
| `Rooms.JoinNewRoom` | server.js:21-26 | joining an unseen room id yields a room whose members are exactly the joiner and whose video URL is `""` |
| `Rooms.JoinExistingRoom` | server.js:26 | joining an existing room appends the joiner at the end, keeps earlier members in order and the URL unchanged, and raises the joiner's multiplicity by one even if already present (no duplicate check) |
| `Rooms.JoinFrame` | server.js:21-26 | a join adds only its own room id to the registry and leaves every other room unchanged |
| `Rooms.JoinKeepsNoEmptyRoom` | server.js:21-26 | if every room had a member before a join, every room has one after it |
| `Rooms.ChangeVideoEffect` | server.js:39 | a video change sets that room's URL, keeps its members and the set of room ids, leaves other rooms unchanged, and keeps every room non-empty |
| `Rooms.DisconnectAt` | server.js:53-61 | a room stays registered after a disconnect exactly when its filtered list is non-empty, and it then holds that filtered list with its URL |
| `Rooms.DisconnectRemovesSocket` | server.js:52-53 | after a disconnect no room contains a member with the leaving socket id |
| `Rooms.DisconnectSurvivors` | server.js:52-61 | a room survives a disconnect exactly when it held some member of another socket; each survivor holds its old members minus the leaving socket, in order, and its old URL |
| `Rooms.DisconnectKeepsUninvolvedRoom` | server.js:53 | a room that has members, none of them the leaving socket, comes through a disconnect unchanged, whatever the rest of the registry holds |
| `Rooms.DisconnectEstablishesNoEmptyRoom` | server.js:59-61 | whatever the registry held, after a disconnect every room present has at least one member |
| `Rooms.DisconnectIdempotent` | server.js:51-63 | a second disconnect of the same socket changes nothing |
| `Rooms.JoinThenDisconnect` | server.js:20-63 | a socket that was in no room, joins one and disconnects restores the registry exactly |
| `Registry.DistinctAudienceCount` | server.js:52-56 | a list of broadcasts with no room addressed twice has as many broadcasts as rooms addressed |
| `Registry.RoomRegistry.constructor` | server.js:15 | the registry starts empty and satisfies the invariant |
| `Registry.RoomRegistry.JoinRoom` | server.js:20-32 | the new registry is `JoinRooms` of the old one and keeps the invariant; the broadcasts are `update-members` with the room's new member list, then `change-video` with its current URL, both to that room |
| `Registry.RoomRegistry.SendMessage` | server.js:34-36 | emits exactly one `receive-message` with the sender's username and message to the room, and changes no state (the method has no `modifies` clause) |
| `Registry.RoomRegistry.ChangeVideo` | server.js:38-41 | requires the room to exist; the new registry is `ChangeVideoRooms` of the old one and keeps the invariant; the one broadcast is `change-video` with the new URL |
| `Registry.RoomRegistry.Play` | server.js:43-45 | emits exactly one `play` to the room and changes no state (the method has no `modifies` clause) |
| `Registry.RoomRegistry.Pause` | server.js:47-49 | emits exactly one `pause` to the room and changes no state (the method has no `modifies` clause) |
| `Registry.RoomRegistry.LeaveRoom` | server.js:53-61 | one pass of the disconnect loop: the room gets its filtered list, is deleted if that is empty, and is sent that list; a registry with no empty room keeps that invariant |
| `Registry.RoomRegistry.Disconnect` | server.js:51-63 | the new registry is `DisconnectRooms` of the old one and satisfies the invariant with no precondition; exactly one `update-members` goes to each room that existed before, carrying its filtered list, which is empty for a deleted room |
| `PlainObject.JoinAsWritten` | server.js:20-26 | join-room as written throws exactly when the id is not a key but `rooms[roomId]` is truthy through inheritance (an Object.prototype name, or a non-empty `videoUrl` written onto the prototype); otherwise it gives the same registry as the intended join |
| `PlainObject.JoinConstructorThrows` | server.js:21-26 | joining room `"constructor"` on an empty registry throws as written, while the intended join creates the room |
| `PlainObject.JoinCreatesEveryRoom` | server.js:21-26 | the intended join registers every room id, inherited property names included, with the joiner as a member |
| `PlainObject.ChangeVideoAsWritten` | server.js:38-41 | change-video as written throws exactly when the id is neither a key, nor an inherited name, nor an inherited `videoUrl`; on a key it is the intended change; otherwise the registry is unchanged, and only the id `"__proto__"` stores the URL on Object.prototype |
| `PlainObject.DisconnectAsWrittenOutcome` | server.js:51-63 | disconnect as written, which looks up every key `for...in` visits (own keys, plus an enumerable `videoUrl` on Object.prototype) and throws on one that is not a stored room, throws exactly when Object.prototype carries a `videoUrl` that no stored room shadows; otherwise it gives the intended disconnect's registry |
| `PlainObject.DisconnectAsWrittenPristine` | server.js:51-63 | while Object.prototype is untouched, disconnect as written returns the intended disconnect's registry |
| `PlainObject.ProtoVideoBreaksDisconnect` | server.js:39-53 | change-video on `"__proto__"` returns normally and writes the URL onto Object.prototype, after which a disconnect throws |
| `Rooms.ChangeVideoThenDisconnect` | server.js:39-61 | a video change commutes with a later disconnect: the same rooms survive with the same members, and the changed room, if it survives, has the new URL |

## Left out

- HTTP server, CORS settings, `server.listen` and logging (server.js:1-13, 18, 66-68): process wiring and I/O.
- Socket.io delivery: `socket.join` and the fan-out of `io.to(...).emit` (server.js:27, 30-31, 35, 40, 44, 48, 56). A broadcast is a value naming its room; who receives it is not modelled.
- Concurrency: Node runs one handler at a time, so each method is one atomic step.
- The visiting order of `for...in` (server.js:52): `Disconnect` picks the next room arbitrarily, and its contract does not depend on the order.
- Registry.RoomRegistry.ChangeVideo: for an id that is neither a key nor an inherited property, the source throws at server.js:39; the model makes the room's existence a precondition and does not model the throw. For inherited names, which do not throw there, see Findings; `PlainObject.ChangeVideoAsWritten` models them.
- PlainObject.DisconnectAsWritten: when it throws, the rooms the loop had already processed stay changed; the model records only that the handler throws, not that partial state.
- Registry.RoomRegistry.JoinRoom: a room id that is an inherited property name, or `videoUrl` once a non-empty URL has been written onto Object.prototype, throws in the source (see Findings); this method models the intended behaviour, and `PlainObject.JoinAsWritten` models the code as written.
- Every payload field (`roomId`, `name`, `url`, `username`, `message`) and the socket id is modelled as a string; JavaScript's conversion of other values to property keys, and payloads of other types, are not modelled. A client may send a non-string `url`, such as an object with a `members` array. Stored on Object.prototype by `change-video` on `"__proto__"`, such a value makes the `"videoUrl"` visit of disconnect's `for...in` filter that array and emit to room `videoUrl` without throwing, and makes a later `join-room` of `videoUrl` push onto it.
- PlainObject.DisconnectAsWrittenOutcome: its throw for an inherited `videoUrl` holds for a string URL only; an inherited object with a `members` array is not modelled.
- PlainObject.JoinAsWritten: its throw for a non-empty inherited `videoUrl` holds for a string URL only; an inherited object with a `members` array is not modelled.
- Leader election, playback position, seek, time reports and the resync handshake: not present in server.js.

## Findings

| source | as written | input that shows it | evidently intended | confidence | as-written member | corrected member |
|---|---|---|---|---|---|---|
| server.js:39 | `rooms[roomId].videoUrl = url` runs on a plain object, so for `roomId` `"__proto__"` it writes an enumerable `videoUrl` onto Object.prototype; every later `for...in` at line 52 visits that inherited key unless a room named `videoUrl` is stored, and `rooms["videoUrl"].members.filter` at line 53 throws a TypeError because a string has no `members` | `change-video {roomId: "__proto__", url: "v"}`, then any `disconnect` while no room named `videoUrl` is stored | change-video changes only a stored room, and disconnect never throws | high (JavaScript property lookup and assignment); not executed | `PlainObject.ProtoVideoBreaksDisconnect` | `Rooms.ChangeVideoThenDisconnect` |
| server.js:21 | the absence test `!rooms[roomId]` runs on a plain object `{}`, so it also finds inherited properties such as `constructor`, `toString` or `__proto__`; no room is created, and `rooms[roomId].members.push(...)` at line 26 throws a TypeError because the inherited value has no `members` | `join-room {roomId: "constructor", name: "a"}` on an empty registry | every room id, including these names, gets its own room | high (JavaScript property lookup); not executed | `PlainObject.JoinAsWritten` | `PlainObject.JoinCreatesEveryRoom` |

The rest of the model uses the intended join, `Rooms.JoinRooms`, about which
`PlainObject.JoinCreatesEveryRoom` is proved. It also uses the intended video
change `Rooms.ChangeVideoRooms` and disconnect `Rooms.DisconnectRooms`; these
commute (`Rooms.ChangeVideoThenDisconnect`), and the intended disconnect is
total.
