/**
 * The values held by the watch-together server's room registry, the
 * broadcasts it emits, and the effect of each socket handler on the
 * registry written as a function of the registry before the event.
 */
module Rooms {

  /** One connected participant as stored in a room: its socket id and its display name. */
  datatype Member = Member(id: string, username: string)

  /** A room: its members in join order and the shared video URL ("" until one is chosen). */
  datatype Room = Room(members: seq<Member>, videoUrl: string)

  /** What one broadcast carries: the outbound event name and its payload. */
  datatype Payload =
    | UpdateMembers(members: seq<Member>)
    | ChangeVideo(url: string)
    | Play
    | Pause
    | ReceiveMessage(username: string, message: string)

  /** One emission to every socket of the room `roomId`. */
  datatype Outbound = Outbound(roomId: string, payload: Payload)

  /** The registry invariant: every room present has at least one member. */
  predicate NoEmptyRoom(rooms: map<string, Room>)
  {
    forall id :: id in rooms ==> rooms[id].members != []
  }

  /** Whether some entry of `members` belongs to the socket `sid`. */
  predicate HasMember(members: seq<Member>, sid: string)
  {
    exists m :: m in members && m.id == sid
  }

  /** The room a join creates when the id is unseen: no members, no video. */
  function EmptyRoom(): Room
  {
    Room([], "")
  }

  /**
   * `members.filter(m => m.id !== sid)`: the members that do not belong to
   * the socket `sid`, in their original order.
   */
  function FilterOut(members: seq<Member>, sid: string): (r: seq<Member>)
    ensures |r| <= |members|
    ensures forall m :: m in r <==> m in members && m.id != sid
  {
    if members == [] then []
    else if members[0].id == sid then FilterOut(members[1..], sid)
    else [members[0]] + FilterOut(members[1..], sid)
  }

  /** Filtering distributes over concatenation, so the survivors keep their relative order. */
  lemma {:induction false} FilterOutAppend(a: seq<Member>, b: seq<Member>, sid: string)
    ensures FilterOut(a + b, sid) == FilterOut(a, sid) + FilterOut(b, sid)
  {
    if a == [] {
      assert a + b == b;
    } else {
      assert (a + b)[0] == a[0];
      assert (a + b)[1..] == a[1..] + b;
      FilterOutAppend(a[1..], b, sid);
    }
  }

  /** A member list without the socket `sid` passes the filter unchanged. */
  lemma {:induction false} FilterOutAbsent(members: seq<Member>, sid: string)
    requires !HasMember(members, sid)
    ensures FilterOut(members, sid) == members
  {
    if members != [] {
      assert members[0] in members;
      assert !HasMember(members[1..], sid) by {
        forall m | m in members[1..] ensures m.id != sid {
          assert m in members;
        }
      }
      FilterOutAbsent(members[1..], sid);
    }
  }

  /** The filter leaves nothing exactly when every entry belongs to `sid`. */
  lemma FilterOutEmpty(members: seq<Member>, sid: string)
    ensures FilterOut(members, sid) == [] <==> forall m :: m in members ==> m.id == sid
  {
    var r := FilterOut(members, sid);
    if r != [] {
      assert r[0] in r;
    }
  }

  // ---------------------------------------------------------------- join-room

  /** The registry after `join-room {roomId, name}` from socket `sid`. */
  function JoinRooms(rooms: map<string, Room>, roomId: string, sid: string, name: string): map<string, Room>
  {
    var room := if roomId in rooms then rooms[roomId] else EmptyRoom();
    rooms[roomId := room.(members := room.members + [Member(sid, name)])]
  }

  /** Joining an unseen room creates it holding the joiner alone and no video. */
  lemma JoinNewRoom(rooms: map<string, Room>, roomId: string, sid: string, name: string)
    requires roomId !in rooms
    ensures roomId in JoinRooms(rooms, roomId, sid, name)
    ensures JoinRooms(rooms, roomId, sid, name)[roomId] == Room([Member(sid, name)], "")
  {
  }

  /**
   * Joining an existing room appends exactly one member at the end and keeps
   * the video. No duplicate check: the joiner is appended even when present.
   */
  lemma JoinExistingRoom(rooms: map<string, Room>, roomId: string, sid: string, name: string)
    requires roomId in rooms
    ensures var after := JoinRooms(rooms, roomId, sid, name)[roomId];
      && after.members == rooms[roomId].members + [Member(sid, name)]
      && after.videoUrl == rooms[roomId].videoUrl
      && multiset(after.members)[Member(sid, name)] == multiset(rooms[roomId].members)[Member(sid, name)] + 1
  {
  }

  /** A join adds only its own room id and leaves every other room as it was. */
  lemma JoinFrame(rooms: map<string, Room>, roomId: string, sid: string, name: string)
    ensures JoinRooms(rooms, roomId, sid, name).Keys == rooms.Keys + {roomId}
    ensures forall id :: id in rooms && id != roomId ==> JoinRooms(rooms, roomId, sid, name)[id] == rooms[id]
  {
  }

  /** A join keeps every room non-empty. */
  lemma JoinKeepsNoEmptyRoom(rooms: map<string, Room>, roomId: string, sid: string, name: string)
    requires NoEmptyRoom(rooms)
    ensures NoEmptyRoom(JoinRooms(rooms, roomId, sid, name))
  {
  }

  // ------------------------------------------------------------- change-video

  /** The registry after `change-video {roomId, url}`; the room must exist. */
  function ChangeVideoRooms(rooms: map<string, Room>, roomId: string, url: string): map<string, Room>
    requires roomId in rooms
  {
    rooms[roomId := rooms[roomId].(videoUrl := url)]
  }

  /** A video change sets that room's URL, keeps its members, and touches no other room. */
  lemma ChangeVideoEffect(rooms: map<string, Room>, roomId: string, url: string)
    requires roomId in rooms
    ensures ChangeVideoRooms(rooms, roomId, url).Keys == rooms.Keys
    ensures ChangeVideoRooms(rooms, roomId, url)[roomId] == Room(rooms[roomId].members, url)
    ensures forall id :: id in rooms && id != roomId ==> ChangeVideoRooms(rooms, roomId, url)[id] == rooms[id]
    ensures NoEmptyRoom(rooms) ==> NoEmptyRoom(ChangeVideoRooms(rooms, roomId, url))
  {
  }

  // --------------------------------------------------------------- disconnect

  /**
   * The registry after socket `sid` disconnects: `sid` is filtered out of
   * every room, and the rooms left without members are deleted.
   */
  function DisconnectRooms(rooms: map<string, Room>, sid: string): map<string, Room>
  {
    map id | id in rooms && FilterOut(rooms[id].members, sid) != []
      :: rooms[id].(members := FilterOut(rooms[id].members, sid))
  }

  /** The `update-members` broadcast that disconnect sends to room `id`. */
  function DisconnectBroadcast(rooms: map<string, Room>, sid: string, id: string): Outbound
    requires id in rooms
  {
    Outbound(id, UpdateMembers(FilterOut(rooms[id].members, sid)))
  }

  /** One pass of the disconnect loop over room `id`: filter `sid` out, and drop the room if that empties it. */
  function LeaveRoomResult(rooms: map<string, Room>, id: string, sid: string): map<string, Room>
    requires id in rooms
  {
    var remaining := FilterOut(rooms[id].members, sid);
    if remaining == [] then rooms - {id} else rooms[id := rooms[id].(members := remaining)]
  }

  /** What a disconnect does to the one room `id`. */
  lemma DisconnectAt(rooms: map<string, Room>, sid: string, id: string)
    requires id in rooms
    ensures id in DisconnectRooms(rooms, sid) <==> FilterOut(rooms[id].members, sid) != []
    ensures id in DisconnectRooms(rooms, sid) ==>
      DisconnectRooms(rooms, sid)[id] == rooms[id].(members := FilterOut(rooms[id].members, sid))
  {
  }

  /** A registry that holds, for every room of `rooms`, exactly what a disconnect leaves of it is the disconnect's result. */
  lemma DisconnectRoomsUnique(rooms: map<string, Room>, sid: string, result: map<string, Room>)
    requires result.Keys <= rooms.Keys
    requires forall id :: id in rooms ==> (id in result <==> FilterOut(rooms[id].members, sid) != [])
    requires forall id :: id in result ==> result[id] == rooms[id].(members := FilterOut(rooms[id].members, sid))
    ensures result == DisconnectRooms(rooms, sid)
  {
    assert result.Keys == DisconnectRooms(rooms, sid).Keys;
  }

  /** After a disconnect no room holds a member with the socket id `sid`. */
  lemma DisconnectRemovesSocket(rooms: map<string, Room>, sid: string)
    ensures forall id, m :: id in DisconnectRooms(rooms, sid) && m in DisconnectRooms(rooms, sid)[id].members ==> m.id != sid
  {
  }

  /**
   * A room survives a disconnect exactly when it held a member of another
   * socket; survivors keep their video and the old member order minus `sid`.
   */
  lemma DisconnectSurvivors(rooms: map<string, Room>, sid: string)
    ensures forall id :: id in DisconnectRooms(rooms, sid) <==>
      id in rooms && exists m :: m in rooms[id].members && m.id != sid
    ensures forall id :: id in DisconnectRooms(rooms, sid) ==>
      DisconnectRooms(rooms, sid)[id] == Room(FilterOut(rooms[id].members, sid), rooms[id].videoUrl)
  {
    forall id | id in rooms {
      FilterOutEmpty(rooms[id].members, sid);
    }
  }

  /** A room that has members, none of them the leaving socket, comes through a disconnect unchanged. */
  lemma DisconnectKeepsUninvolvedRoom(rooms: map<string, Room>, sid: string, id: string)
    requires id in rooms && rooms[id].members != [] && !HasMember(rooms[id].members, sid)
    ensures id in DisconnectRooms(rooms, sid)
    ensures DisconnectRooms(rooms, sid)[id] == rooms[id]
  {
    FilterOutAbsent(rooms[id].members, sid);
  }

  /** Whatever the registry held before, after a disconnect every room is non-empty. */
  lemma DisconnectEstablishesNoEmptyRoom(rooms: map<string, Room>, sid: string)
    ensures NoEmptyRoom(DisconnectRooms(rooms, sid))
  {
  }

  /** Disconnecting the same socket twice is the same as once. */
  lemma DisconnectIdempotent(rooms: map<string, Room>, sid: string)
    ensures DisconnectRooms(DisconnectRooms(rooms, sid), sid) == DisconnectRooms(rooms, sid)
  {
    var once := DisconnectRooms(rooms, sid);
    forall id | id in once {
      FilterOutAbsent(once[id].members, sid);
    }
  }

  /**
   * A socket that joins one room and then disconnects, having been in no
   * room before, leaves the registry exactly as it found it.
   */
  lemma JoinThenDisconnect(rooms: map<string, Room>, roomId: string, sid: string, name: string)
    requires NoEmptyRoom(rooms)
    requires forall id :: id in rooms ==> !HasMember(rooms[id].members, sid)
    ensures DisconnectRooms(JoinRooms(rooms, roomId, sid, name), sid) == rooms
  {
    var joined := JoinRooms(rooms, roomId, sid, name);
    var back := DisconnectRooms(joined, sid);
    forall id | id in rooms
      ensures id in back && back[id] == rooms[id]
    {
      var ms := rooms[id].members;
      FilterOutAbsent(ms, sid);
      if id == roomId {
        FilterOutAppend(ms, [Member(sid, name)], sid);
      }
    }
    if roomId !in rooms {
      assert FilterOut(joined[roomId].members, sid) == [];
    }
    assert back.Keys == rooms.Keys;
  }

  /**
   * A video change and a later disconnect commute: the disconnect keeps and
   * trims the same rooms as without the change, and the changed room, if it
   * survives, keeps the new URL.
   */
  lemma ChangeVideoThenDisconnect(rooms: map<string, Room>, roomId: string, url: string, sid: string)
    requires roomId in rooms
    ensures var left := DisconnectRooms(rooms, sid);
      DisconnectRooms(ChangeVideoRooms(rooms, roomId, url), sid) ==
        if roomId in left then ChangeVideoRooms(left, roomId, url) else left
  {
    var left := DisconnectRooms(rooms, sid);
    var changed := DisconnectRooms(ChangeVideoRooms(rooms, roomId, url), sid);
    var expected := if roomId in left then ChangeVideoRooms(left, roomId, url) else left;
    assert changed.Keys == expected.Keys;
    forall id | id in changed ensures changed[id] == expected[id] {
    }
  }
}
