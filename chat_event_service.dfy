/** The event journal: each presence or delivery transition becomes a
    message-shaped record appended to the same timeline as chat messages. */
module ChatEvents {
  import opened Base
  import opened MessageTypes
  import opened Domain
  import opened Store

  /** A value of a structured journal payload. */
  datatype PayloadValue = Text(text: string) | Time(time: Timestamp)

  /** The payload map handed to the JSON encoder. */
  type EventData = map<string, PayloadValue>

  /** A call of one of the service's public `save…` methods, with all its
      arguments except the room and the clock. */
  datatype EventRequest =
    | Joined(user: UserId)
    | Left(user: UserId)
    | Connected(user: UserId)
    | Disconnected(user: UserId)
    | RoomCreatedBy(creator: UserId, participantA: UserId, participantB: UserId)
    | ReadBy(reader: UserId, messageId: MessageId)
    | DeliveredTo(receiver: UserId, messageId: MessageId)
    | Notice(content: string, admin: UserId)

  /** A request to journal `request` in room `chatRoomId`; the listener, the
      router and the room service keep logs of these. */
  datatype JournalCall = JournalCall(chatRoomId: RoomId, request: EventRequest)

  /** The arguments a `save…` method passes to `saveSystemEvent`. */
  datatype SystemEvent = SystemEvent(
    sender: Option<UserId>,
    receiver: Option<UserId>,
    messageType: MessageType,
    eventData: EventData,
    customContent: Option<string>)

  /** The `action` tag each kind writes into its payload. */
  function ActionTag(req: EventRequest): string {
    match req
    case Joined(_) => "joined"
    case Left(_) => "left"
    case Connected(_) => "connected"
    case Disconnected(_) => "disconnected"
    case RoomCreatedBy(_, _, _) => "room_created"
    case ReadBy(_, _) => "message_read"
    case DeliveredTo(_, _) => "message_delivered"
    case Notice(_, _) => "system_notice"
  }

  /** The user on whose behalf the event is recorded. */
  function Actor(req: EventRequest): UserId {
    match req
    case Joined(u) => u
    case Left(u) => u
    case Connected(u) => u
    case Disconnected(u) => u
    case RoomCreatedBy(c, _, _) => c
    case ReadBy(r, _) => r
    case DeliveredTo(r, _) => r
    case Notice(_, admin) => admin
  }

  /** The builders of the eight `save…` methods: the message type, the two
      parties and the payload each one hands to `saveSystemEvent`. */
  function EventOf(req: EventRequest, now: Timestamp): (e: SystemEvent)
    ensures e.messageType.IsSystemEvent()
    ensures "action" in e.eventData && e.eventData["action"] == Text(ActionTag(req))
    ensures "timestamp" in e.eventData && e.eventData["timestamp"] == Time(now)
    ensures e.customContent.Some? <==> req.Notice?
    ensures req.DeliveredTo? ==> e.sender.None? && e.receiver == Some(req.receiver)
    ensures !req.DeliveredTo? ==> e.sender == Some(Actor(req)) && e.receiver.None?
  {
    match req
    case Joined(u) =>
      SystemEvent(Some(u), None, UserJoined,
        map["userUuid" := Text(u), "action" := Text("joined"), "timestamp" := Time(now)], None)
    case Left(u) =>
      SystemEvent(Some(u), None, UserLeft,
        map["userUuid" := Text(u), "action" := Text("left"), "timestamp" := Time(now)], None)
    case Connected(u) =>
      SystemEvent(Some(u), None, UserConnected,
        map["userUuid" := Text(u), "action" := Text("connected"), "timestamp" := Time(now)], None)
    case Disconnected(u) =>
      SystemEvent(Some(u), None, UserDisconnected,
        map["userUuid" := Text(u), "action" := Text("disconnected"), "timestamp" := Time(now)], None)
    case RoomCreatedBy(c, a, b) =>
      SystemEvent(Some(c), None, RoomCreated,
        map["creatorUuid" := Text(c), "participantAUuid" := Text(a), "participantBUuid" := Text(b),
            "action" := Text("room_created"), "timestamp" := Time(now)], None)
    case ReadBy(r, id) =>
      SystemEvent(Some(r), None, MessageRead,
        map["readerUuid" := Text(r), "messageUuid" := Text(id), "action" := Text("message_read"),
            "timestamp" := Time(now)], None)
    case DeliveredTo(r, id) =>
      SystemEvent(None, Some(r), MessageDelivered,
        map["receiverUuid" := Text(r), "messageUuid" := Text(id), "action" := Text("message_delivered"),
            "timestamp" := Time(now)], None)
    case Notice(content, admin) =>
      SystemEvent(Some(admin), None, SystemNotice,
        map["adminUuid" := Text(admin), "action" := Text("system_notice"), "timestamp" := Time(now)],
        Some(content))
  }

  /** The message type each `save…` method records. */
  function TypeOf(req: EventRequest): MessageType {
    match req
    case Joined(_) => UserJoined
    case Left(_) => UserLeft
    case Connected(_) => UserConnected
    case Disconnected(_) => UserDisconnected
    case RoomCreatedBy(_, _, _) => RoomCreated
    case ReadBy(_, _) => MessageRead
    case DeliveredTo(_, _) => MessageDelivered
    case Notice(_, _) => SystemNotice
  }

  /** The eight kinds record eight different message types under eight
      different action tags, and the tag determines the type. */
  lemma {:induction false} ActionTagDeterminesType(r1: EventRequest, r2: EventRequest, now: Timestamp)
    ensures EventOf(r1, now).messageType == TypeOf(r1)
    ensures ActionTag(r1) == ActionTag(r2) <==> TypeOf(r1) == TypeOf(r2)
  {
    match r1 {
      case Joined(_) => {}
      case Left(_) => {}
      case Connected(_) => {}
      case Disconnected(_) => {}
      case RoomCreatedBy(_, _, _) => {}
      case ReadBy(_, _) => {}
      case DeliveredTo(_, _) => {}
      case Notice(_, _) => {}
    }
  }

  /** The record `saveSystemEvent` builds once the payload is encoded. */
  function EventMessage(room: RoomId, e: SystemEvent, json: string, id: MessageId, now: Timestamp): Message {
    Message(id, room, e.sender, e.receiver,
            if e.customContent.Some? then e.customContent.value else e.messageType.Description(),
            now, false, e.messageType, Some(json))
  }

  /** Every journal record is an unread system event of the request's room and
      type; it has a receiver exactly for a delivery, and its content is the
      notice text for a system notice and the type's description otherwise. */
  lemma JournalRecordShape(room: RoomId, req: EventRequest, json: string, id: MessageId, now: Timestamp)
    ensures var m := EventMessage(room, EventOf(req, now), json, id, now);
      && m.chatRoomId == room && m.messageId == id && !m.read
      && m.messageType == TypeOf(req) && m.messageType.IsSystemEvent()
      && m.eventData == Some(json) && m.sentAt == now
      && (m.receiverId.Some? <==> req.DeliveredTo?)
      && m.content == (if req.Notice? then req.content else TypeOf(req).Description())
  {
    ActionTagDeterminesType(req, req, now);
  }

  class ChatEventService {
    const chatMessageRepository: MessageRepository
    /** `objectMapper.writeValueAsString`; None stands for a
        JsonProcessingException. */
    const encode: EventData -> Option<string>

    constructor (repository: MessageRepository, encode: EventData -> Option<string>)
      ensures chatMessageRepository == repository && this.encode == encode
    {
      chatMessageRepository := repository;
      this.encode := encode;
    }

    /** What a `saveSystemEvent` call appends: the record, or nothing when the
        payload cannot be encoded. */
    function Appended(room: RoomId, e: SystemEvent, id: MessageId, now: Timestamp): (ms: seq<Message>)
      ensures |ms| <= 1
      ensures |ms| == 1 <==> encode(e.eventData).Some?
      ensures encode(e.eventData).Some? ==> ms == [EventMessage(room, e, encode(e.eventData).value, id, now)]
    {
      match encode(e.eventData)
      case Some(json) => [EventMessage(room, e, json, id, now)]
      case None => []
    }

    /** The five-argument overload: no custom content. */
    method SaveSystemEvent(room: RoomId, sender: Option<UserId>, receiver: Option<UserId>,
                           messageType: MessageType, eventData: EventData, id: MessageId, now: Timestamp)
      modifies chatMessageRepository
      ensures chatMessageRepository.messages == old(chatMessageRepository.messages)
                + Appended(room, SystemEvent(sender, receiver, messageType, eventData, None), id, now)
    {
      SaveSystemEventWithContent(room, sender, receiver, messageType, eventData, None, id, now);
    }

    /** The six-argument overload; an encoding failure is caught and nothing is
        stored. */
    method SaveSystemEventWithContent(room: RoomId, sender: Option<UserId>, receiver: Option<UserId>,
                                      messageType: MessageType, eventData: EventData,
                                      customContent: Option<string>, id: MessageId, now: Timestamp)
      modifies chatMessageRepository
      ensures chatMessageRepository.messages == old(chatMessageRepository.messages)
                + Appended(room, SystemEvent(sender, receiver, messageType, eventData, customContent), id, now)
    {
      var json := encode(eventData);
      if json.Some? {
        var content := if customContent.Some? then customContent.value else messageType.Description();
        var record := Message(id, room, sender, receiver, content, now, false, messageType, json);
        chatMessageRepository.Save(record);
      }
    }

    method SaveUserJoinedEvent(room: RoomId, user: UserId, id: MessageId, now: Timestamp)
      modifies chatMessageRepository
      ensures chatMessageRepository.messages == old(chatMessageRepository.messages)
                + Appended(room, EventOf(Joined(user), now), id, now)
    {
      var e := EventOf(Joined(user), now);
      SaveSystemEvent(room, e.sender, e.receiver, e.messageType, e.eventData, id, now);
    }

    method SaveUserLeftEvent(room: RoomId, user: UserId, id: MessageId, now: Timestamp)
      modifies chatMessageRepository
      ensures chatMessageRepository.messages == old(chatMessageRepository.messages)
                + Appended(room, EventOf(Left(user), now), id, now)
    {
      var e := EventOf(Left(user), now);
      SaveSystemEvent(room, e.sender, e.receiver, e.messageType, e.eventData, id, now);
    }

    method SaveUserConnectedEvent(room: RoomId, user: UserId, id: MessageId, now: Timestamp)
      modifies chatMessageRepository
      ensures chatMessageRepository.messages == old(chatMessageRepository.messages)
                + Appended(room, EventOf(Connected(user), now), id, now)
    {
      var e := EventOf(Connected(user), now);
      SaveSystemEvent(room, e.sender, e.receiver, e.messageType, e.eventData, id, now);
    }

    method SaveUserDisconnectedEvent(room: RoomId, user: UserId, id: MessageId, now: Timestamp)
      modifies chatMessageRepository
      ensures chatMessageRepository.messages == old(chatMessageRepository.messages)
                + Appended(room, EventOf(Disconnected(user), now), id, now)
    {
      var e := EventOf(Disconnected(user), now);
      SaveSystemEvent(room, e.sender, e.receiver, e.messageType, e.eventData, id, now);
    }

    method SaveRoomCreatedEvent(room: RoomId, creator: UserId, a: UserId, b: UserId, id: MessageId, now: Timestamp)
      modifies chatMessageRepository
      ensures chatMessageRepository.messages == old(chatMessageRepository.messages)
                + Appended(room, EventOf(RoomCreatedBy(creator, a, b), now), id, now)
    {
      var e := EventOf(RoomCreatedBy(creator, a, b), now);
      SaveSystemEvent(room, e.sender, e.receiver, e.messageType, e.eventData, id, now);
    }

    method SaveMessageReadEvent(room: RoomId, reader: UserId, messageId: MessageId, id: MessageId, now: Timestamp)
      modifies chatMessageRepository
      ensures chatMessageRepository.messages == old(chatMessageRepository.messages)
                + Appended(room, EventOf(ReadBy(reader, messageId), now), id, now)
    {
      var e := EventOf(ReadBy(reader, messageId), now);
      SaveSystemEvent(room, e.sender, e.receiver, e.messageType, e.eventData, id, now);
    }

    method SaveMessageDeliveredEvent(room: RoomId, receiver: UserId, messageId: MessageId, id: MessageId, now: Timestamp)
      modifies chatMessageRepository
      ensures chatMessageRepository.messages == old(chatMessageRepository.messages)
                + Appended(room, EventOf(DeliveredTo(receiver, messageId), now), id, now)
    {
      var e := EventOf(DeliveredTo(receiver, messageId), now);
      SaveSystemEvent(room, e.sender, e.receiver, e.messageType, e.eventData, id, now);
    }

    method SaveSystemNotice(room: RoomId, content: string, admin: UserId, id: MessageId, now: Timestamp)
      modifies chatMessageRepository
      ensures chatMessageRepository.messages == old(chatMessageRepository.messages)
                + Appended(room, EventOf(Notice(content, admin), now), id, now)
    {
      var e := EventOf(Notice(content, admin), now);
      SaveSystemEventWithContent(room, e.sender, e.receiver, e.messageType, e.eventData, e.customContent, id, now);
    }

    /** Carries out one journal request: the `save…` method it names. */
    method Record(call: JournalCall, id: MessageId, now: Timestamp)
      modifies chatMessageRepository
      ensures chatMessageRepository.messages == old(chatMessageRepository.messages)
                + Appended(call.chatRoomId, EventOf(call.request, now), id, now)
    {
      var room := call.chatRoomId;
      match call.request
      case Joined(u) => SaveUserJoinedEvent(room, u, id, now);
      case Left(u) => SaveUserLeftEvent(room, u, id, now);
      case Connected(u) => SaveUserConnectedEvent(room, u, id, now);
      case Disconnected(u) => SaveUserDisconnectedEvent(room, u, id, now);
      case RoomCreatedBy(c, a, b) => SaveRoomCreatedEvent(room, c, a, b, id, now);
      case ReadBy(r, m) => SaveMessageReadEvent(room, r, m, id, now);
      case DeliveredTo(r, m) => SaveMessageDeliveredEvent(room, r, m, id, now);
      case Notice(content, admin) => SaveSystemNotice(room, content, admin, id, now);
    }
  }
}
