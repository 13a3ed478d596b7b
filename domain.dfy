/** The persistent entities (a message of the room timeline, a 1:1 room), the
    send request, and the frames the core pushes onto the transport. */
module Domain {
  import opened Base
  import opened MessageTypes

  /** One entry of a room's timeline: an ordinary chat message or a journaled
      system event. `eventData` is the encoded payload of a system event. */
  datatype Message = Message(
    messageId: MessageId,
    chatRoomId: RoomId,
    senderId: Option<UserId>,
    receiverId: Option<UserId>,
    content: string,
    sentAt: Timestamp,
    read: bool,
    messageType: MessageType,
    eventData: Option<string>)

  /** A 1:1 conversation with its denormalised last-message fields. */
  datatype ChatRoom = ChatRoom(
    chatRoomId: RoomId,
    participantA: UserId,
    participantB: UserId,
    lastMessageContent: Option<string>,
    lastMessageTime: Option<Timestamp>)

  /** The fields of a send request that the delivery path reads. */
  datatype SendRequest = SendRequest(
    chatRoomId: RoomId,
    senderId: UserId,
    receiverId: UserId,
    content: string,
    sentAt: Timestamp)

  /** What a pushed frame carries, by kind. */
  datatype Payload =
    | JoinNotice(user: UserId)
    | DisconnectNotice(user: UserId)
    | ChatFrame(request: SendRequest)
    | SentAck(messageId: MessageId, chatRoomId: RoomId, sentAt: Timestamp, delivered: bool)

  const RoomTopicPrefix := "/queue/messages/"
  const PrivateQueue := "/queue/private-messages"
  const SentQueue := "/queue/message-sent"

  /** One call of the messaging template: `convertAndSend` to a room's topic
      or `convertAndSendToUser` to one of a user's queues. */
  datatype Outbound =
    | ToRoom(chatRoomId: RoomId, payload: Payload)
    | ToUser(user: UserId, queue: string, payload: Payload)
  {
    /** The destination string the template is given. */
    function Destination(): string {
      match this
      case ToRoom(room, _) => RoomTopicPrefix + room
      case ToUser(_, queue, _) => queue
    }
  }

  /** The entity a send request is stored as: an unread CHAT message. */
  function ToEntity(dto: SendRequest, id: MessageId): (m: Message)
    ensures m.messageType == Chat && !m.read && m.eventData.None?
    ensures m.chatRoomId == dto.chatRoomId && m.messageId == id
  {
    Message(id, dto.chatRoomId, Some(dto.senderId), Some(dto.receiverId),
            dto.content, dto.sentAt, false, Chat, None)
  }
}
