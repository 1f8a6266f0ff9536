/**
 * The registry is a plain JavaScript object (`let rooms = {}`), so reading
 * `rooms[roomId]` also finds the properties every object inherits from
 * Object.prototype, and writing `rooms["__proto__"].videoUrl` writes to
 * Object.prototype itself. This module models join-room, change-video and
 * disconnect with that lookup, exhibits the inputs on which they differ from
 * the intended behaviour (`Rooms.JoinRooms`, `Rooms.ChangeVideoRooms`,
 * `Rooms.DisconnectRooms`), and proves the intended behaviour of the model
 * used everywhere else.
 */
module PlainObject {
  import opened Rooms

  /** The property names a plain object inherits from Object.prototype (none of them enumerable). */
  const InheritedNames: set<string> := {
    "__proto__", "__defineGetter__", "__defineSetter__", "__lookupGetter__", "__lookupSetter__",
    "constructor", "hasOwnProperty", "isPrototypeOf", "propertyIsEnumerable",
    "toLocaleString", "toString", "valueOf"
  }

  datatype Option<T> = None | Some(value: T)

  /**
   * The registry object as JavaScript sees it: its own keys, and the string
   * that a `change-video` on "__proto__" may have stored as an enumerable
   * property `videoUrl` of Object.prototype (None while there is none).
   */
  datatype ObjectState = ObjectState(rooms: map<string, Room>, prototypeVideoUrl: Option<string>)

  /** The state at process start: `{}` and an untouched Object.prototype. */
  function Pristine(rooms: map<string, Room>): ObjectState
  {
    ObjectState(rooms, None)
  }

  /** What the expression `rooms[roomId]` evaluates to. */
  datatype Lookup =
    | OwnRoom(room: Room)           // a room stored under that key
    | Inherited                     // a function, or Object.prototype itself: truthy, no `members`, accepts new properties
    | InheritedString(url: string)  // the `videoUrl` string stored on Object.prototype
    | Missing                       // `undefined`

  /** Property lookup on the registry object: own keys first, then Object.prototype. */
  function LookUp(s: ObjectState, roomId: string): Lookup
  {
    if roomId in s.rooms then OwnRoom(s.rooms[roomId])
    else if roomId == "videoUrl" && s.prototypeVideoUrl.Some? then InheritedString(s.prototypeVideoUrl.value)
    else if roomId in InheritedNames then Inherited
    else Missing
  }

  /** Whether `!rooms[roomId]` is false although `roomId` is not a key of the registry. */
  predicate InheritsTruthy(s: ObjectState, roomId: string)
  {
    roomId !in s.rooms
      && (roomId in InheritedNames
          || (roomId == "videoUrl" && s.prototypeVideoUrl.Some? && s.prototypeVideoUrl.value != ""))
  }

  /** How one run of a handler ends: normally in a new state, or by throwing a TypeError. */
  datatype Outcome<S> = Returned(state: S) | TypeError

  /** `rooms[roomId].members.push(m)` on a room that is stored under `roomId`. */
  function Push(rooms: map<string, Room>, roomId: string, m: Member): map<string, Room>
    requires roomId in rooms
  {
    rooms[roomId := rooms[roomId].(members := rooms[roomId].members + [m])]
  }

  /**
   * join-room as written: the room is created only when the lookup is falsy,
   * and `rooms[roomId].members.push(...)` then runs on whatever was found.
   */
  function JoinAsWritten(s: ObjectState, roomId: string, sid: string, name: string): (r: Outcome<ObjectState>)
    ensures r.TypeError? <==> InheritsTruthy(s, roomId)
    ensures r.Returned? ==> r.state == s.(rooms := JoinRooms(s.rooms, roomId, sid, name))
  {
    match LookUp(s, roomId)
    case Missing => Returned(s.(rooms := Push(s.rooms[roomId := Room([], "")], roomId, Member(sid, name))))
    case InheritedString(url) =>
      if url == "" then Returned(s.(rooms := Push(s.rooms[roomId := Room([], "")], roomId, Member(sid, name))))
      else TypeError
    case OwnRoom(_) => Returned(s.(rooms := Push(s.rooms, roomId, Member(sid, name))))
    case Inherited => TypeError
  }

  /** The first viewer to join a room named "constructor" makes the handler throw and no room is created. */
  lemma JoinConstructorThrows(sid: string, name: string)
    ensures JoinAsWritten(Pristine(map[]), "constructor", sid, name) == TypeError
    ensures "constructor" in JoinRooms(map[], "constructor", sid, name)
  {
  }

  /**
   * The intended join, used by the rest of the model, registers every id,
   * inherited names included; an unseen id gets the room of `Rooms.JoinNewRoom`.
   */
  lemma JoinCreatesEveryRoom(rooms: map<string, Room>, roomId: string, sid: string, name: string)
    ensures roomId in JoinRooms(rooms, roomId, sid, name)
    ensures Member(sid, name) in JoinRooms(rooms, roomId, sid, name)[roomId].members
  {
  }

  /**
   * change-video as written, `rooms[roomId].videoUrl = url` in sloppy mode:
   * on a stored room it sets the URL; on `undefined` it throws; on an
   * inherited function it adds a harmless property; on "__proto__" it
   * writes `videoUrl` onto Object.prototype; on a string it is ignored.
   */
  function ChangeVideoAsWritten(s: ObjectState, roomId: string, url: string): (r: Outcome<ObjectState>)
    ensures r.TypeError? <==> roomId !in s.rooms && roomId !in InheritedNames
                              && !(roomId == "videoUrl" && s.prototypeVideoUrl.Some?)
    ensures r.Returned? && roomId in s.rooms ==> r.state == s.(rooms := ChangeVideoRooms(s.rooms, roomId, url))
    ensures r.Returned? && roomId !in s.rooms ==> r.state.rooms == s.rooms
    ensures r.Returned? ==>
      r.state.prototypeVideoUrl == if roomId == "__proto__" && roomId !in s.rooms then Some(url) else s.prototypeVideoUrl
  {
    match LookUp(s, roomId)
    case OwnRoom(room) => Returned(s.(rooms := s.rooms[roomId := room.(videoUrl := url)]))
    case Missing => TypeError
    case InheritedString(_) => Returned(s)
    case Inherited => if roomId == "__proto__" then Returned(s.(prototypeVideoUrl := Some(url))) else Returned(s)
  }

  /**
   * The keys `for (let roomId in rooms)` visits: the registry's own keys and
   * the enumerable properties of Object.prototype, of which only a stored
   * `videoUrl` exists; a name that is also an own key is visited once.
   */
  function ForInKeys(s: ObjectState): set<string>
  {
    s.rooms.Keys + (if s.prototypeVideoUrl.Some? then {"videoUrl"} else {})
  }

  /**
   * disconnect as written: the loop body runs
   * `rooms[roomId].members.filter(...)` on every visited key. On a key whose
   * lookup is not a stored room, `members` is `undefined` and calling
   * `filter` on it throws; when every visited key is a stored room, the
   * loop is the intended disconnect.
   */
  function DisconnectAsWritten(s: ObjectState, sid: string): Outcome<ObjectState>
  {
    if exists roomId :: roomId in ForInKeys(s) && !LookUp(s, roomId).OwnRoom? then TypeError
    else Returned(s.(rooms := DisconnectRooms(s.rooms, sid)))
  }

  /**
   * disconnect as written throws exactly when Object.prototype carries a
   * `videoUrl` that no stored room shadows; otherwise it is the intended
   * disconnect.
   */
  lemma DisconnectAsWrittenOutcome(s: ObjectState, sid: string)
    ensures DisconnectAsWritten(s, sid).TypeError? <==> s.prototypeVideoUrl.Some? && "videoUrl" !in s.rooms
    ensures DisconnectAsWritten(s, sid).Returned? ==>
      DisconnectAsWritten(s, sid).state == s.(rooms := DisconnectRooms(s.rooms, sid))
  {
    if s.prototypeVideoUrl.Some? && "videoUrl" !in s.rooms {
      assert "videoUrl" in ForInKeys(s) && LookUp(s, "videoUrl").InheritedString?;
    } else {
      assert ForInKeys(s) == s.rooms.Keys;
    }
  }

  /** While Object.prototype is untouched, disconnect as written is the intended disconnect. */
  lemma DisconnectAsWrittenPristine(rooms: map<string, Room>, sid: string)
    ensures DisconnectAsWritten(Pristine(rooms), sid) == Returned(Pristine(DisconnectRooms(rooms, sid)))
  {
  }

  /**
   * A change-video naming "__proto__" does not throw, but every later
   * disconnect throws once it reaches the inherited key "videoUrl", unless a
   * room named "videoUrl" is stored.
   */
  lemma ProtoVideoBreaksDisconnect(sid: string, name: string, url: string)
    ensures var before := Pristine(map["r1" := Room([Member(sid, name)], "")]);
      && ChangeVideoAsWritten(before, "__proto__", url) == Returned(before.(prototypeVideoUrl := Some(url)))
      && DisconnectAsWritten(before.(prototypeVideoUrl := Some(url)), sid) == TypeError
  {
    var before := Pristine(map["r1" := Room([Member(sid, name)], "")]);
    DisconnectAsWrittenOutcome(before.(prototypeVideoUrl := Some(url)), sid);
  }
}
