/** The delivery path of a chat message: persist it, refresh the room's last
    message, then route it by the presence the registry reports. */
module Delivery {
  import opened Base
  import opened Domain
  import opened Store
  import opened ChatEvents
  import opened Registry

  /** `room.updateLastMessage(content, sentAt)` */
  function WithLastMessage(room: ChatRoom, content: string, at: Timestamp): (r: ChatRoom)
    ensures r.chatRoomId == room.chatRoomId
    ensures r.participantA == room.participantA && r.participantB == room.participantB
    ensures r.lastMessageContent == Some(content) && r.lastMessageTime == Some(at)
  {
    room.(lastMessageContent := Some(content), lastMessageTime := Some(at))
  }

  /** The room collection after step 2 of `sendMessage`: the room, when it
      exists, saved with the message as its last one. */
  function RoomsAfterSend(rooms: seq<ChatRoom>, dto: SendRequest): (r: seq<ChatRoom>)
    requires DistinctRoomIds(rooms)
    ensures DistinctRoomIds(r)
    ensures FindRoom(rooms, dto.chatRoomId).None? ==> r == rooms
  {
    match FindRoom(rooms, dto.chatRoomId)
    case None => rooms
    case Some(room) => SaveRoom(rooms, WithLastMessage(room, dto.content, dto.sentAt))
  }

  /** A room that exists carries the message as its last one afterwards, with
      its participants kept; every other room is found as before. */
  lemma RoomsAfterSendFind(rooms: seq<ChatRoom>, dto: SendRequest, id: RoomId)
    requires DistinctRoomIds(rooms)
    ensures id != dto.chatRoomId ==> FindRoom(RoomsAfterSend(rooms, dto), id) == FindRoom(rooms, id)
    ensures id == dto.chatRoomId && FindRoom(rooms, id).Some? ==>
      var before := FindRoom(rooms, id).value;
      var after := FindRoom(RoomsAfterSend(rooms, dto), id);
      && after.Some?
      && after.value.participantA == before.participantA
      && after.value.participantB == before.participantB
      && after.value.lastMessageContent == Some(dto.content)
      && after.value.lastMessageTime == Some(dto.sentAt)
  {
    match FindRoom(rooms, dto.chatRoomId)
    case None =>
    case Some(room) =>
      SaveRoomFind(rooms, WithLastMessage(room, dto.content, dto.sentAt), id);
  }

  /** The pushes and journal calls of `sendMessageToConnectedUsers`. */
  datatype Routing = Routing(pushes: seq<Outbound>, journal: seq<JournalCall>)

  /** The routing decision, given the distinct users subscribed to the room. */
  function Route(dto: SendRequest, messageId: MessageId, roomUsers: set<UserId>): (p: Routing)
    ensures roomUsers == {} ==> p == Routing([], [])
    ensures roomUsers != {} ==>
      var receiverConnected := dto.receiverId in roomUsers;
      && |p.pushes| == (if dto.senderId == dto.receiverId then 1 else 2)
      && p.pushes[0] == (if receiverConnected then ToRoom(dto.chatRoomId, ChatFrame(dto))
                         else ToUser(dto.receiverId, PrivateQueue, ChatFrame(dto)))
      && p.journal == (if receiverConnected then [JournalCall(dto.chatRoomId, DeliveredTo(dto.receiverId, messageId))] else [])
      && (|p.pushes| == 2 ==>
            p.pushes[1] == ToUser(dto.senderId, SentQueue, SentAck(messageId, dto.chatRoomId, dto.sentAt, receiverConnected)))
  {
    if roomUsers == {} then Routing([], [])
    else
      var receiverConnected := dto.receiverId in roomUsers;
      var first := if receiverConnected then ToRoom(dto.chatRoomId, ChatFrame(dto))
                   else ToUser(dto.receiverId, PrivateQueue, ChatFrame(dto));
      var delivered := if receiverConnected then [JournalCall(dto.chatRoomId, DeliveredTo(dto.receiverId, messageId))] else [];
      var ack := if dto.senderId != dto.receiverId
                 then [ToUser(dto.senderId, SentQueue, SentAck(messageId, dto.chatRoomId, dto.sentAt, receiverConnected))]
                 else [];
      Routing([first] + ack, delivered)
  }

  /** Only a receiver found in the room gets the frame on the room topic; a
      receiver not found there gets it on the private queue and no delivered
      event is journaled. The acknowledgement reports which of the two
      happened. */
  lemma RouteDeliversOnce(dto: SendRequest, messageId: MessageId, roomUsers: set<UserId>)
    requires roomUsers != {}
    ensures var p := Route(dto, messageId, roomUsers);
      && |set i | 0 <= i < |p.pushes| && p.pushes[i].payload == ChatFrame(dto)| == 1
      && ((exists i :: 0 <= i < |p.pushes| && p.pushes[i].ToRoom?) <==> dto.receiverId in roomUsers)
      && (|p.journal| == 1 <==> dto.receiverId in roomUsers)
      && (forall i :: 0 <= i < |p.pushes| && p.pushes[i].payload.SentAck? ==>
           (p.pushes[i].payload.delivered <==> |p.journal| == 1))
      && p.pushes[0].Destination() == (if dto.receiverId in roomUsers then RoomTopicPrefix + dto.chatRoomId else PrivateQueue)
      && (|p.pushes| == 2 ==> p.pushes[1].Destination() == SentQueue && p.pushes[1].user == dto.senderId)
  {
    var p := Route(dto, messageId, roomUsers);
    assert (set i | 0 <= i < |p.pushes| && p.pushes[i].payload == ChatFrame(dto)) == {0};
  }

  class ChatMessageService {
    const messageRepository: MessageRepository
    const chatRoomRepository: ChatRoomRepository
    const webSocketEventListener: WebSocketEventListener
    /** The calls made to the event service, in order. */
    ghost var journal: seq<JournalCall>
    /** The frames handed to the messaging template, in order. */
    ghost var outbox: seq<Outbound>

    constructor (messages: MessageRepository, rooms: ChatRoomRepository, listener: WebSocketEventListener)
      ensures messageRepository == messages && chatRoomRepository == rooms && webSocketEventListener == listener
      ensures journal == [] && outbox == []
    {
      messageRepository := messages;
      chatRoomRepository := rooms;
      webSocketEventListener := listener;
      journal := [];
      outbox := [];
    }

    /** `sendMessage`; `messageId` is the id the store assigns. */
    method SendMessage(dto: SendRequest, messageId: MessageId) returns (result: Message)
      requires chatRoomRepository.Valid()
      modifies messageRepository, chatRoomRepository, this
      ensures chatRoomRepository.Valid()
      ensures result == ToEntity(dto, messageId)
      ensures messageRepository.messages == old(messageRepository.messages) + [result]
      ensures chatRoomRepository.rooms == RoomsAfterSend(old(chatRoomRepository.rooms), dto)
      ensures var p := Route(dto, messageId, webSocketEventListener.GetConnectedUsersInChatRoom(dto.chatRoomId));
        && outbox == old(outbox) + p.pushes
        && journal == old(journal) + p.journal
    {
      result := ToEntity(dto, messageId);
      messageRepository.Save(result);
      var found := FindRoom(chatRoomRepository.rooms, dto.chatRoomId);
      if found.Some? {
        chatRoomRepository.Save(WithLastMessage(found.value, dto.content, dto.sentAt));
      }
      SendMessageToConnectedUsers(dto, result.messageId);
    }

    /** `sendMessageToConnectedUsers` */
    method SendMessageToConnectedUsers(dto: SendRequest, messageId: MessageId)
      modifies this
      ensures var p := Route(dto, messageId, webSocketEventListener.GetConnectedUsersInChatRoom(dto.chatRoomId));
        && outbox == old(outbox) + p.pushes
        && journal == old(journal) + p.journal
    {
      var connectedUsers := webSocketEventListener.GetConnectedUsersInChatRoom(dto.chatRoomId);
      if connectedUsers == {} {
        return;
      }
      var receiverConnected := webSocketEventListener.IsUserInChatRoom(dto.chatRoomId, dto.receiverId);
      if receiverConnected {
        outbox := outbox + [ToRoom(dto.chatRoomId, ChatFrame(dto))];
        journal := journal + [JournalCall(dto.chatRoomId, DeliveredTo(dto.receiverId, messageId))];
      } else {
        outbox := outbox + [ToUser(dto.receiverId, PrivateQueue, ChatFrame(dto))];
      }
      if dto.senderId != dto.receiverId {
        outbox := outbox + [ToUser(dto.senderId, SentQueue, SentAck(messageId, dto.chatRoomId, dto.sentAt, receiverConnected))];
      }
    }
  }
}
