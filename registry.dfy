/**
 * The process-wide room registry and the six socket handlers that use it.
 * Each handler is one atomic step (the event loop runs handlers one at a
 * time) and returns the broadcasts it emits, in emission order.
 */
module Registry {
  import opened Rooms

  /** The set of rooms addressed by a list of broadcasts. */
  function Audience(events: seq<Outbound>): set<string>
  {
    set e | e in events :: e.roomId
  }

  /** No two broadcasts of the list address the same room. */
  predicate DistinctAudiences(events: seq<Outbound>)
  {
    forall i, j :: 0 <= i < j < |events| ==> events[i].roomId != events[j].roomId
  }

  /** Appending one broadcast adds its room to the audience. */
  lemma AudienceSnoc(events: seq<Outbound>, e: Outbound)
    ensures Audience(events + [e]) == Audience(events) + {e.roomId}
  {
    assert forall x :: x in events + [e] <==> x in events || x == e;
  }

  /** Appending a broadcast to a room not yet addressed keeps the audiences distinct. */
  lemma DistinctSnoc(events: seq<Outbound>, e: Outbound)
    requires DistinctAudiences(events)
    requires e.roomId !in Audience(events)
    ensures DistinctAudiences(events + [e])
  {
    var s := events + [e];
    forall i, j | 0 <= i < j < |s| ensures s[i].roomId != s[j].roomId {
      if j == |events| {
        assert s[i] in events;
      }
    }
  }

  /** A list addressing each room at most once has one broadcast per room addressed. */
  lemma {:induction false} DistinctAudienceCount(events: seq<Outbound>)
    requires DistinctAudiences(events)
    ensures |Audience(events)| == |events|
  {
    if events != [] {
      var init, last := events[..|events| - 1], events[|events| - 1];
      assert events == init + [last];
      assert DistinctAudiences(init);
      DistinctAudienceCount(init);
      AudienceSnoc(init, last);
      assert last.roomId !in Audience(init) by {
        forall e | e in init ensures e.roomId != last.roomId {
          var i :| 0 <= i < |init| && init[i] == e;
          assert events[i] == e;
        }
      }
    }
  }

  /**
   * The disconnect loop's invariant: the rooms in `done` have been through
   * one pass each, and all other rooms of `before` are still as they were.
   */
  ghost predicate PartlyDisconnected(before: map<string, Room>, sid: string, rooms: map<string, Room>, done: set<string>)
  {
    && done <= before.Keys
    && rooms.Keys <= before.Keys
    && (forall id :: id in before && id !in done ==> id in rooms && rooms[id] == before[id])
    && (forall id :: id in done ==> (id in rooms <==> FilterOut(before[id].members, sid) != []))
    && (forall id :: id in rooms && id in done ==> rooms[id] == before[id].(members := FilterOut(before[id].members, sid)))
  }

  /** One more pass of the disconnect loop keeps its invariant. */
  lemma PartlyDisconnectedStep(before: map<string, Room>, sid: string, rooms: map<string, Room>, done: set<string>, id: string)
    requires PartlyDisconnected(before, sid, rooms, done)
    requires id in before && id !in done
    ensures id in rooms
    ensures PartlyDisconnected(before, sid, LeaveRoomResult(rooms, id, sid), done + {id})
  {
  }

  /** Once every room has had its pass, the registry is the disconnect's result. */
  lemma PartlyDisconnectedAll(before: map<string, Room>, sid: string, rooms: map<string, Room>)
    requires PartlyDisconnected(before, sid, rooms, before.Keys)
    ensures rooms == DisconnectRooms(before, sid)
  {
    DisconnectRoomsUnique(before, sid, rooms);
  }

  /** The broadcasts of the disconnect loop so far: one per room in `done`, each carrying what is left of that room. */
  ghost predicate BroadcastsSoFar(before: map<string, Room>, sid: string, events: seq<Outbound>, done: set<string>)
  {
    && (forall e :: e in events ==> e.roomId in before && e == DisconnectBroadcast(before, sid, e.roomId))
    && Audience(events) == done
    && DistinctAudiences(events)
  }

  /** The broadcast of one more pass keeps the loop's account of its broadcasts. */
  lemma BroadcastsSoFarStep(before: map<string, Room>, sid: string, events: seq<Outbound>, done: set<string>, id: string)
    requires BroadcastsSoFar(before, sid, events, done)
    requires id in before && id !in done
    ensures BroadcastsSoFar(before, sid, events + [DisconnectBroadcast(before, sid, id)], done + {id})
  {
    AudienceSnoc(events, DisconnectBroadcast(before, sid, id));
    DistinctSnoc(events, DisconnectBroadcast(before, sid, id));
  }

  /** The `rooms` object: room id to room, mutated in place by the handlers. */
  class RoomRegistry {
    var rooms: map<string, Room>

    /** Every room present has at least one member. */
    ghost predicate Valid()
      reads this
    {
      NoEmptyRoom(rooms)
    }

    /** `let rooms = {}` at process start. */
    constructor ()
      ensures Valid()
      ensures rooms == map[]
    {
      rooms := map[];
    }

    /**
     * `join-room {roomId, name}` from socket `sid`: create the room if it is
     * unseen, append the member, then send the whole room its member list and
     * its current video URL.
     */
    method JoinRoom(roomId: string, sid: string, name: string) returns (events: seq<Outbound>)
      requires Valid()
      modifies this
      ensures Valid()
      ensures rooms == JoinRooms(old(rooms), roomId, sid, name)
      ensures roomId in rooms
      ensures events == [Outbound(roomId, UpdateMembers(rooms[roomId].members)),
                         Outbound(roomId, Payload.ChangeVideo(rooms[roomId].videoUrl))]
    {
      JoinKeepsNoEmptyRoom(rooms, roomId, sid, name);
      if roomId !in rooms {
        rooms := rooms[roomId := EmptyRoom()];
      }
      var room := rooms[roomId];
      rooms := rooms[roomId := room.(members := room.members + [Member(sid, name)])];
      events := [Outbound(roomId, UpdateMembers(rooms[roomId].members)),
                 Outbound(roomId, Payload.ChangeVideo(rooms[roomId].videoUrl))];
    }

    /** `send-message {roomId, username, message}`: relay to the room; the registry is not touched. */
    method SendMessage(roomId: string, username: string, message: string) returns (events: seq<Outbound>)
      ensures events == [Outbound(roomId, ReceiveMessage(username, message))]
    {
      events := [Outbound(roomId, ReceiveMessage(username, message))];
    }

    /**
     * `change-video {roomId, url}`: overwrite the room's URL and relay it to
     * the room. The handler dereferences the room unguarded, so it must exist.
     */
    method ChangeVideo(roomId: string, url: string) returns (events: seq<Outbound>)
      requires Valid()
      requires roomId in rooms
      modifies this
      ensures Valid()
      ensures rooms == ChangeVideoRooms(old(rooms), roomId, url)
      ensures events == [Outbound(roomId, Payload.ChangeVideo(url))]
    {
      ChangeVideoEffect(rooms, roomId, url);
      rooms := rooms[roomId := rooms[roomId].(videoUrl := url)];
      events := [Outbound(roomId, Payload.ChangeVideo(url))];
    }

    /** `play roomId`: relay to the room; the registry is not touched. */
    method Play(roomId: string) returns (events: seq<Outbound>)
      ensures events == [Outbound(roomId, Payload.Play)]
    {
      events := [Outbound(roomId, Payload.Play)];
    }

    /** `pause roomId`: relay to the room; the registry is not touched. */
    method Pause(roomId: string) returns (events: seq<Outbound>)
      ensures events == [Outbound(roomId, Payload.Pause)]
    {
      events := [Outbound(roomId, Payload.Pause)];
    }

    /**
     * One pass of the disconnect loop for room `id`: filter `sid` out of its
     * members, send the room the new list, and delete the room if it is empty.
     */
    method LeaveRoom(id: string, sid: string) returns (e: Outbound)
      requires id in rooms
      modifies this
      ensures rooms == LeaveRoomResult(old(rooms), id, sid)
      ensures e == DisconnectBroadcast(old(rooms), sid, id)
      ensures old(Valid()) ==> Valid()
    {
      var room := rooms[id];
      rooms := rooms[id := room.(members := FilterOut(room.members, sid))];
      e := Outbound(id, UpdateMembers(rooms[id].members));
      if |rooms[id].members| == 0 {
        rooms := rooms - {id};
      }
    }

    /**
     * `disconnect` of socket `sid`: visit every room, in no particular order;
     * filter `sid` out of its members, send the room its new member list
     * (empty for a room about to go), and delete the room if it is now empty.
     */
    method Disconnect(sid: string) returns (events: seq<Outbound>)
      modifies this
      ensures Valid()
      ensures rooms == DisconnectRooms(old(rooms), sid)
      ensures forall e :: e in events ==> e.roomId in old(rooms) && e == DisconnectBroadcast(old(rooms), sid, e.roomId)
      ensures forall e :: e in events && e.roomId !in rooms ==> e.payload == UpdateMembers([])
      ensures Audience(events) == old(rooms).Keys
      ensures DistinctAudiences(events)
      ensures |events| == |old(rooms)|
    {
      ghost var before := rooms;
      ghost var done: set<string> := {};
      var pending := rooms.Keys;
      events := [];
      while pending != {}
        invariant pending == before.Keys - done
        invariant PartlyDisconnected(before, sid, rooms, done)
        invariant BroadcastsSoFar(before, sid, events, done)
        decreases pending
      {
        var id :| id in pending;
        PartlyDisconnectedStep(before, sid, rooms, done, id);
        BroadcastsSoFarStep(before, sid, events, done, id);
        var e := LeaveRoom(id, sid);
        events := events + [e];
        done := done + {id};
        pending := pending - {id};
      }
      PartlyDisconnectedAll(before, sid, rooms);
      DisconnectEstablishesNoEmptyRoom(before, sid);
      DistinctAudienceCount(events);
    }
  }

  /** Two viewers join one room in turn, and one of them picks a video. */
  method JoinScenario() returns (registry: RoomRegistry)
    ensures registry.Valid()
    ensures registry.rooms == map["r1" := Room([Member("a", "Ann"), Member("b", "Bob")], "v")]
  {
    registry := new RoomRegistry();
    var events := registry.JoinRoom("r1", "a", "Ann");
    assert registry.rooms["r1"] == Room([Member("a", "Ann")], "");
    assert events[1] == Outbound("r1", Payload.ChangeVideo(""));
    events := registry.JoinRoom("r1", "b", "Bob");
    assert registry.rooms["r1"].members == [Member("a", "Ann"), Member("b", "Bob")];
    events := registry.ChangeVideo("r1", "v");
  }

  /** The first viewer leaves the room of `JoinScenario`, then the second, and the room is gone. */
  method LeaveScenario(registry: RoomRegistry)
    requires registry.rooms == map["r1" := Room([Member("a", "Ann"), Member("b", "Bob")], "v")]
    modifies registry
  {
    ghost var both := registry.rooms;
    assert FilterOut(both["r1"].members, "a") == [Member("b", "Bob")];
    DisconnectAt(both, "a", "r1");
    var events := registry.Disconnect("a");
    assert registry.rooms.Keys == {"r1"};
    assert registry.rooms == map["r1" := Room([Member("b", "Bob")], "v")];
    assert FilterOut([Member("b", "Bob")], "b") == [];
    events := registry.Disconnect("b");
    assert registry.rooms == map[];
  }
}
