/** The persistent store as the core sees it: the message timeline as a
    sequence in insertion order and the rooms as a sequence of distinct ids. */
module Store {
  import opened Base
  import opened Domain

  /** The message collection; `save` of a new message appends it. */
  class MessageRepository {
    var messages: seq<Message>

    constructor ()
      ensures messages == []
    {
      messages := [];
    }

    method Save(m: Message)
      modifies this
      ensures messages == old(messages) + [m]
    {
      messages := messages + [m];
    }
  }

  predicate DistinctRoomIds(rooms: seq<ChatRoom>) {
    forall i, j :: 0 <= i < j < |rooms| ==> rooms[i].chatRoomId != rooms[j].chatRoomId
  }

  /** `findByChatRoomUuid`: the room with that id. */
  function FindRoom(rooms: seq<ChatRoom>, id: RoomId): (r: Option<ChatRoom>)
    ensures r.Some? ==> r.value in rooms && r.value.chatRoomId == id
    ensures r.None? <==> forall room :: room in rooms ==> room.chatRoomId != id
  {
    if rooms == [] then None
    else if rooms[0].chatRoomId == id then Some(rooms[0])
    else
      assert forall room :: room in rooms ==> room == rooms[0] || room in rooms[1..];
      FindRoom(rooms[1..], id)
  }

  /** `findByParticipants(a, b)`: the first saved room whose participants are
      a and b in that order. */
  function FindPair(rooms: seq<ChatRoom>, a: UserId, b: UserId): (r: Option<ChatRoom>)
    ensures r.Some? ==> r.value in rooms && r.value.participantA == a && r.value.participantB == b
    ensures r.None? <==> forall room :: room in rooms ==> !(room.participantA == a && room.participantB == b)
  {
    if rooms == [] then None
    else if rooms[0].participantA == a && rooms[0].participantB == b then Some(rooms[0])
    else
      assert forall room :: room in rooms ==> room == rooms[0] || room in rooms[1..];
      FindPair(rooms[1..], a, b)
  }

  /** `save(room)`: replaces the room with the same id, or appends it. */
  function SaveRoom(rooms: seq<ChatRoom>, room: ChatRoom): (r: seq<ChatRoom>)
    requires DistinctRoomIds(rooms)
    ensures DistinctRoomIds(r)
    ensures forall x :: x in r ==> x == room || x in rooms
    ensures room in r
  {
    if rooms == [] then [room]
    else if rooms[0].chatRoomId == room.chatRoomId then
      assert forall x :: x in rooms[1..] ==> x.chatRoomId != room.chatRoomId by {
        forall x | x in rooms[1..] ensures x.chatRoomId != room.chatRoomId {
          var k :| 0 <= k < |rooms[1..]| && rooms[1..][k] == x;
          assert rooms[k + 1] == x;
        }
      }
      [room] + rooms[1..]
    else
      var rest := SaveRoom(rooms[1..], room);
      assert forall x :: x in rest ==> x.chatRoomId != rooms[0].chatRoomId by {
        forall x | x in rest ensures x.chatRoomId != rooms[0].chatRoomId {
          if x != room {
            var k :| 0 <= k < |rooms[1..]| && rooms[1..][k] == x;
            assert rooms[k + 1] == x;
          }
        }
      }
      var r := [rooms[0]] + rest;
      assert forall i :: 1 <= i < |r| ==> r[i] == rest[i - 1];
      r
  }

  /** After a save, looking the saved id up yields the saved room and every
      other id yields what it did before. */
  lemma {:induction false} SaveRoomFind(rooms: seq<ChatRoom>, room: ChatRoom, id: RoomId)
    requires DistinctRoomIds(rooms)
    ensures FindRoom(SaveRoom(rooms, room), id)
         == if id == room.chatRoomId then Some(room) else FindRoom(rooms, id)
  {
    if rooms != [] && rooms[0].chatRoomId != room.chatRoomId {
      SaveRoomFind(rooms[1..], room, id);
    }
  }

  /** A saved room is the first match for its participants once no earlier
      room has them. */
  lemma {:induction false} SaveRoomFindsPair(rooms: seq<ChatRoom>, room: ChatRoom)
    requires DistinctRoomIds(rooms)
    requires FindPair(rooms, room.participantA, room.participantB).None?
    ensures FindPair(SaveRoom(rooms, room), room.participantA, room.participantB) == Some(room)
  {
    if rooms != [] && rooms[0].chatRoomId != room.chatRoomId {
      SaveRoomFindsPair(rooms[1..], room);
    }
  }

  /** The room collection; its two lookups are FindRoom and FindPair over
      `rooms`. */
  class ChatRoomRepository {
    var rooms: seq<ChatRoom>

    ghost predicate Valid()
      reads this
    {
      DistinctRoomIds(rooms)
    }

    constructor ()
      ensures Valid() && rooms == []
    {
      rooms := [];
    }

    method Save(room: ChatRoom)
      requires Valid()
      modifies this
      ensures Valid()
      ensures rooms == SaveRoom(old(rooms), room)
    {
      rooms := SaveRoom(rooms, room);
    }
  }
}
