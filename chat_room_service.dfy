/** The room service rules: create-or-get by participants, bulk marking of a
    receiver's messages as read, and the room lookups that reject unknown
    rooms and outsiders. */
module Rooms {
  import opened Base
  import opened Domain
  import opened Store
  import opened ChatEvents
  import opened Registry
  import opened MessageQueries

  /** What `createOrGetRoom` leaves behind: the rooms, the id it answers and
      whether it created a room. */
  datatype CreateOutcome = CreateOutcome(rooms: seq<ChatRoom>, chatRoomId: RoomId, created: bool)

  /** `createOrGetRoom` on the room collection; `newRoomId` is the id the new
      room would get. */
  function CreateOrGet(rooms: seq<ChatRoom>, a: UserId, b: UserId, newRoomId: RoomId): (r: CreateOutcome)
    requires DistinctRoomIds(rooms)
    ensures DistinctRoomIds(r.rooms)
    ensures !r.created <==> FindPair(rooms, a, b).Some?
    ensures !r.created ==> r.rooms == rooms && r.chatRoomId == FindPair(rooms, a, b).value.chatRoomId
    ensures r.created ==> r.chatRoomId == newRoomId
    ensures FindPair(r.rooms, a, b).Some? && FindPair(r.rooms, a, b).value.chatRoomId == r.chatRoomId
    ensures r.created ==> r.rooms == SaveRoom(rooms, NewRoom(newRoomId, a, b))
    ensures r.created ==> FindRoom(r.rooms, newRoomId) == Some(NewRoom(newRoomId, a, b))
    ensures forall id :: id != r.chatRoomId ==> FindRoom(r.rooms, id) == FindRoom(rooms, id)
  {
    match FindPair(rooms, a, b)
    case Some(room) => CreateOutcome(rooms, room.chatRoomId, false)
    case None =>
      var room := NewRoom(newRoomId, a, b);
      SaveRoomFindsPair(rooms, room);
      forall id ensures FindRoom(SaveRoom(rooms, room), id) == if id == newRoomId then Some(room) else FindRoom(rooms, id) {
        SaveRoomFind(rooms, room, id);
      }
      CreateOutcome(SaveRoom(rooms, room), newRoomId, true)
  }

  /** A second call for the same participants answers the first call's id and
      changes nothing, whatever id it would have used. */
  lemma CreateOrGetIdempotent(rooms: seq<ChatRoom>, a: UserId, b: UserId, id1: RoomId, id2: RoomId)
    requires DistinctRoomIds(rooms)
    ensures var first := CreateOrGet(rooms, a, b, id1);
      CreateOrGet(first.rooms, a, b, id2) == CreateOutcome(first.rooms, first.chatRoomId, false)
  {
  }

  /** The new room of `dto.toEntity()`: no last message yet. */
  function NewRoom(id: RoomId, a: UserId, b: UserId): (room: ChatRoom)
    ensures room.chatRoomId == id && room.participantA == a && room.participantB == b
    ensures room.lastMessageContent.None? && room.lastMessageTime.None?
  {
    ChatRoom(id, a, b, None, None)
  }

  /** The criteria of `markUnreadMessagesAsRead`. */
  predicate Selected(m: Message, room: RoomId, receiver: UserId) {
    m.chatRoomId == room && UnreadFor(m, receiver)
  }

  /** `updateMulti(query, set("read", true))` over the timeline. */
  function MarkedRead(store: seq<Message>, room: RoomId, receiver: UserId): (r: seq<Message>)
    ensures |r| == |store|
    ensures forall i :: 0 <= i < |store| ==>
      r[i] == if Selected(store[i], room, receiver) then store[i].(read := true) else store[i]
  {
    if store == [] then []
    else
      var m := store[0];
      var rest := MarkedRead(store[1..], room, receiver);
      var r := [if Selected(m, room, receiver) then m.(read := true) else m] + rest;
      assert forall i :: 1 <= i < |store| ==> r[i] == rest[i - 1] && store[i] == store[1..][i - 1];
      r
  }

  /** Marking clears that room's count for the receiver and leaves every other
      count of every receiver as it was. */
  lemma {:induction false} MarkedReadCount(store: seq<Message>, room: RoomId, receiver: UserId, who: UserId, r: RoomId)
    ensures CountUnread(MarkedRead(store, room, receiver), who, r)
         == if who == receiver && r == room then 0 else CountUnread(store, who, r)
  {
    if store != [] {
      var after := MarkedRead(store, room, receiver);
      assert after[1..] == MarkedRead(store[1..], room, receiver);
      MarkedReadCount(store[1..], room, receiver, who, r);
    }
  }

  /** Two unread-count maps agree when every room's count agrees. */
  lemma UnreadCountsEqual(s: seq<Message>, t: seq<Message>, who: UserId, drop: set<RoomId>)
    requires forall r :: CountUnread(s, who, r) == if r in drop then 0 else CountUnread(t, who, r)
    ensures UnreadCounts(s, who) == UnreadCounts(t, who) - drop
  {
    var a := UnreadCounts(s, who);
    var b := UnreadCounts(t, who) - drop;
    assert forall r :: r in a <==> r in b;
    assert a.Keys == b.Keys;
  }

  /** After marking, the receiver's unread counts lose exactly the room's
      entry, and every other receiver's counts are unchanged. */
  lemma MarkedReadUnreadCounts(store: seq<Message>, room: RoomId, receiver: UserId, who: UserId)
    ensures UnreadCounts(MarkedRead(store, room, receiver), who)
         == UnreadCounts(store, who) - (if who == receiver then {room} else {})
  {
    var drop: set<RoomId> := if who == receiver then {room} else {};
    forall r ensures CountUnread(MarkedRead(store, room, receiver), who, r) == if r in drop then 0 else CountUnread(store, who, r) {
      MarkedReadCount(store, room, receiver, who, r);
    }
    UnreadCountsEqual(MarkedRead(store, room, receiver), store, who, drop);
  }

  /** The exceptions of the two lookups. */
  datatype RoomError = RoomNotFound | NotParticipant

  /** The fields of the status map `getChatRoomStatus` answers. */
  datatype RoomStatus = RoomStatus(
    chatRoomId: RoomId,
    connectedUsers: set<UserId>,
    totalParticipants: int,
    isUserConnected: bool)

  class ChatRoomService {
    const chatRoomRepository: ChatRoomRepository
    const chatMessageRepository: MessageRepository
    const webSocketEventListener: WebSocketEventListener
    /** The calls made to the event service, in order. */
    ghost var journal: seq<JournalCall>

    constructor (rooms: ChatRoomRepository, messages: MessageRepository, listener: WebSocketEventListener)
      ensures chatRoomRepository == rooms && chatMessageRepository == messages && webSocketEventListener == listener
      ensures journal == []
    {
      chatRoomRepository := rooms;
      chatMessageRepository := messages;
      webSocketEventListener := listener;
      journal := [];
    }

    /** `createOrGetRoom`; `newRoomId` is the id `toEntity` generates. */
    method CreateOrGetRoom(a: UserId, b: UserId, newRoomId: RoomId) returns (chatRoomId: RoomId)
      requires chatRoomRepository.Valid()
      modifies chatRoomRepository, this`journal
      ensures chatRoomRepository.Valid()
      ensures var r := CreateOrGet(old(chatRoomRepository.rooms), a, b, newRoomId);
        && chatRoomRepository.rooms == r.rooms
        && chatRoomId == r.chatRoomId
        && journal == old(journal) + (if r.created then [JournalCall(newRoomId, RoomCreatedBy(a, a, b))] else [])
    {
      var existing := FindPair(chatRoomRepository.rooms, a, b);
      if existing.Some? {
        return existing.value.chatRoomId;
      }
      var room := NewRoom(newRoomId, a, b);
      chatRoomRepository.Save(room);
      journal := journal + [JournalCall(room.chatRoomId, RoomCreatedBy(a, a, b))];
      return room.chatRoomId;
    }

    /** Two calls for the same participants answer the same id and journal at
        most one creation. */
    method CreateOrGetRoomTwice(a: UserId, b: UserId, id1: RoomId, id2: RoomId) returns (first: RoomId, second: RoomId)
      requires chatRoomRepository.Valid()
      modifies chatRoomRepository, this`journal
      ensures chatRoomRepository.Valid()
      ensures first == second
      ensures chatRoomRepository.rooms == CreateOrGet(old(chatRoomRepository.rooms), a, b, id1).rooms
      ensures |journal| <= |old(journal)| + 1
    {
      CreateOrGetIdempotent(chatRoomRepository.rooms, a, b, id1, id2);
      first := CreateOrGetRoom(a, b, id1);
      second := CreateOrGetRoom(a, b, id2);
    }

    /** `markUnreadMessagesAsRead` */
    method MarkUnreadMessagesAsRead(room: RoomId, receiver: UserId)
      modifies chatMessageRepository
      ensures chatMessageRepository.messages == MarkedRead(old(chatMessageRepository.messages), room, receiver)
    {
      chatMessageRepository.messages := MarkedRead(chatMessageRepository.messages, room, receiver);
    }

    /** `getChatRoom`; the answer's mapping to a list entry is not modelled. */
    function GetChatRoom(member: UserId, room: RoomId): (r: Result<ChatRoom, RoomError>)
      reads chatRoomRepository
      ensures r.Failure? <==> forall x :: x in chatRoomRepository.rooms ==> x.chatRoomId != room
      ensures r.Failure? ==> r.error == RoomNotFound
      ensures r.Success? ==> r.value in chatRoomRepository.rooms && r.value.chatRoomId == room
    {
      match FindRoom(chatRoomRepository.rooms, room)
      case None => Failure(RoomNotFound)
      case Some(chatRoom) => Success(chatRoom)
    }

    /** `getChatRoomStatus` */
    function GetChatRoomStatus(room: RoomId, member: UserId): (r: Result<RoomStatus, RoomError>)
      reads chatRoomRepository, webSocketEventListener
      ensures var found := FindRoom(chatRoomRepository.rooms, room);
        && (found.None? <==> r == Failure(RoomNotFound))
        && ((found.Some? && found.value.participantA != member && found.value.participantB != member)
              <==> r == Failure(NotParticipant))
      ensures r.Success? ==>
        && r.value.chatRoomId == room
        && r.value.totalParticipants == 2
        && r.value.connectedUsers == webSocketEventListener.GetConnectedUsersInChatRoom(room)
        && (r.value.isUserConnected <==> member in r.value.connectedUsers)
        && exists x :: x in chatRoomRepository.rooms && x.chatRoomId == room && (x.participantA == member || x.participantB == member)
    {
      match FindRoom(chatRoomRepository.rooms, room)
      case None => Failure(RoomNotFound)
      case Some(chatRoom) =>
        if chatRoom.participantA != member && chatRoom.participantB != member then Failure(NotParticipant)
        else
          var connectedUsers := webSocketEventListener.GetConnectedUsersInChatRoom(room);
          Success(RoomStatus(room, connectedUsers, 2, webSocketEventListener.IsUserInChatRoom(room, member)))
    }
  }
}
