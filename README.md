# Presence-aware delivery core of a 1:1 chat service

A Dafny model of the core of chat-service, a Spring/STOMP backend for one-to-one chat rooms.
The model covers:

- **The connection registry** (`WebSocketEventListener`). It maps each WebSocket session to its user, and each room to the sessions subscribed to its topic `/queue/messages/{room}`. The connect, subscribe and disconnect handlers keep both maps current. They also journal presence events and push join and disconnect notices.
- **The delivery router** (`ChatMessageServiceImpl.sendMessage`). It persists a message, then refreshes the room's last-message fields. Then it picks one of three outcomes from what the registry reports:
  - no push, when nobody is in the room;
  - a broadcast to the room's topic plus a `MESSAGE_DELIVERED` event, when the receiver is there;
  - a private push to the receiver, otherwise.

  After a push, the sender gets an acknowledgement on `/queue/message-sent`, unless the sender is the receiver.
- **The message queries** (`ChatMessageCustomRepositoryImpl`). One query returns a cursor page of a room's timeline. The other counts a receiver's unread messages per room.
- **The event journal** (`ChatEventService`). It turns each lifecycle event into a message-shaped record on the same timeline. The record is dropped when its payload cannot be encoded.
- **The message-type enum** (`MessageType`). It has codes, descriptions, three classifications and `fromCode`.
- **The room service** (`ChatRoomServiceImpl`). It covers create-or-get by participants, bulk mark-as-read, and the room lookups that reject unknown rooms and non-participants.
- **The handshake interceptor**. It takes the user id from the `X-Member-UUID` header, or else from the `userUuid=` query parameter, and refuses the handshake when it finds none.

The model has one module per core file, on shared modules `Base` (option and result types, string predicates), `Domain` (the entities and pushed frames) and `Store` (the repositories):

- `Registry` (websocket_event_listener.dfy) is a class whose fields are the two maps. The handlers are methods with `modifies` frames. A class invariant `Valid()` says that the registry never holds an empty room and that every subscribed session is connected.
- Pushes and journal writes are recorded in ghost append-only logs (`outbox`, `journal`) of the classes that make them. Each journal entry (`JournalCall`) names the `save…` method of the event service that it calls. `ChatEvents.ChatEventService.Record` carries one entry out against the message store.
- `MessageQueries` specifies the query as filter, then sort, then `Page`. The method follows the source: fetch `size + 1` messages with Java `int` wrap-around, then cut the page to size.
- `Delivery`, `Rooms` and `Handshake` follow their classes.

The code does the following, which a reader might not expect:

- **No-cursor page.** A page is sorted ascending and bounded above by the cursor. A request without a cursor therefore returns the oldest messages, not the most recent ones.
- **Follow-up page.** A request with the returned `nextCursor` starts again at the oldest message. It does not continue after the previous page. `MessageQueries.FollowUpPageRestarts` proves this, so the model does not claim "no overlap, no gap".
- **Journal on disconnect.** Disconnect journals `USER_DISCONNECTED` in every room whose membership holds the user under any session, not only in the disconnecting session's rooms.
- **Disconnect notice.** Removal runs before the notice. So the notice reaches only the rooms where the user still has another session. A user with a single session, who leaves every room, gets none (`Registry.SingleSessionGetsNoNotice`).
- **Room lookup.** `createOrGetRoom` looks rooms up with `findByParticipants(a, b)`. The code of that lookup is not shown, and the model matches the ordered pair, not an unordered one.

## Model

| member | source | states |
|---|---|---|
| MessageTypes.FirstWithCode | src/main/java/com/example/chatservice/domain/enums/MessageType.java:59-64 | the position of the first constant in the list whose code matches, or the list length when none does |
| MessageTypes.MessageType.Code | src/main/java/com/example/chatservice/domain/enums/MessageType.java:11-30 | the code string of each constant, as the first constructor argument gives it; the codes are pairwise distinct by `MessageTypes.CodesDistinct` |
| MessageTypes.MessageType.Description | src/main/java/com/example/chatservice/domain/enums/MessageType.java:11-30 | the description string of each constant, as the second constructor argument gives it |
| MessageTypes.MessageType.IsSystemEvent | src/main/java/com/example/chatservice/domain/enums/MessageType.java:38-40 | every constant but CHAT; related to the other two classifications by `MessageTypes.ClassificationConsistent` |
| MessageTypes.MessageType.IsUserAction | src/main/java/com/example/chatservice/domain/enums/MessageType.java:45-47 | exactly USER_JOINED, USER_LEFT and MESSAGE_READ |
| MessageTypes.MessageType.IsConnectionEvent | src/main/java/com/example/chatservice/domain/enums/MessageType.java:52-54 | exactly USER_CONNECTED and USER_DISCONNECTED |
| MessageTypes.FindByCode | src/main/java/com/example/chatservice/domain/enums/MessageType.java:59-64 | the linear search returns a member carrying the code, the first one in the list, and returns nothing exactly when no member carries it |
| MessageTypes.FromCode | src/main/java/com/example/chatservice/domain/enums/MessageType.java:59-66 | a success carries the code; it fails, with the code in the error, exactly when no constant has that code |
| MessageTypes.ValuesComplete | src/main/java/com/example/chatservice/domain/enums/MessageType.java:8-30 | `values()` lists every constant |
| MessageTypes.CodesDistinct | src/main/java/com/example/chatservice/domain/enums/MessageType.java:11-30 | no two constants share a code |
| MessageTypes.FromCodeRoundTrip | src/main/java/com/example/chatservice/domain/enums/MessageType.java:59-64 | `fromCode(t.code) == t` for every constant |
| MessageTypes.FromCodeRejectsUnknown | src/main/java/com/example/chatservice/domain/enums/MessageType.java:65 | a code no constant carries fails with an unknown-type error |
| MessageTypes.ClassificationConsistent | src/main/java/com/example/chatservice/domain/enums/MessageType.java:38-54 | only CHAT is not a system event; connection events and user actions are disjoint and both are system events |
| Domain.ToEntity | src/main/java/com/example/chatservice/domain/application/ChatMessageServiceImpl.java:31 | a send request is stored as an unread CHAT message of its room under the assigned id |
| Domain.Outbound.Destination | src/main/java/com/example/chatservice/domain/application/ChatMessageServiceImpl.java:67-85 | the destination a frame is handed to: the room topic `/queue/messages/` plus the room id for a room broadcast, the named user queue otherwise |
| Base.StartsWith | src/main/java/com/example/chatservice/common/config/interceptor/WebSocketHandshakeInterceptor.java:69 | `startsWith`: the prefix is the text's first characters |
| Base.Contains | src/main/java/com/example/chatservice/common/config/interceptor/WebSocketHandshakeInterceptor.java:66 | `contains`, defined by scanning the offsets; characterised by `Base.ContainsOffset` |
| Base.ContainsSuffix | src/main/java/com/example/chatservice/common/config/interceptor/WebSocketHandshakeInterceptor.java:66 | an occurrence in a suffix of the text is an occurrence in the text |
| Base.ContainsOffset | src/main/java/com/example/chatservice/common/config/interceptor/WebSocketHandshakeInterceptor.java:66 | the text contains t exactly when t starts at some offset of it, as Java's `contains` promises |
| Store.MessageRepository.Save | src/main/java/com/example/chatservice/domain/application/ChatEventService.java:161 | saving appends the message to the timeline |
| Store.FindRoom | src/main/java/com/example/chatservice/domain/application/ChatRoomServiceImpl.java:94-95 | the lookup by id yields a stored room with that id, and nothing exactly when no room has it |
| Store.DistinctRoomIds | src/main/java/com/example/chatservice/domain/application/ChatRoomServiceImpl.java:94-95 | no two stored rooms share an id, so the lookup by id has at most one answer |
| Store.FindPair | src/main/java/com/example/chatservice/domain/application/ChatRoomServiceImpl.java:46-49 | the lookup by participants yields a stored room with participant A and B, and nothing exactly when none has them |
| Store.SaveRoom | src/main/java/com/example/chatservice/domain/application/ChatMessageServiceImpl.java:37 | saving keeps room ids distinct, stores the room, and adds no other room |
| Store.SaveRoomFind | src/main/java/com/example/chatservice/domain/application/ChatMessageServiceImpl.java:34-38 | after a save the saved id finds the saved room and every other id finds what it found before |
| Store.SaveRoomFindsPair | src/main/java/com/example/chatservice/domain/application/ChatRoomServiceImpl.java:46-59 | after saving a room for an unused participant pair, the pair lookup finds it |
| Store.ChatRoomRepository.Save | src/main/java/com/example/chatservice/domain/application/ChatRoomServiceImpl.java:59 | the room collection becomes the saved collection and keeps ids distinct |
| ChatEvents.EventOf | src/main/java/com/example/chatservice/domain/application/ChatEventService.java:27-130 | each builder records a system-event type, the action tag of its kind, the timestamp and custom content only for the notice; the delivered event has no sender and the receiver set, every other kind has the acting user as sender and no receiver |
| ChatEvents.ActionTag | src/main/java/com/example/chatservice/domain/application/ChatEventService.java:27-130 | the `action` value each of the eight `save…` methods writes into its payload |
| ChatEvents.Actor | src/main/java/com/example/chatservice/domain/application/ChatEventService.java:27-130 | the user each `save…` method records the event for: the user, creator, reader, receiver or notice author |
| ChatEvents.TypeOf | src/main/java/com/example/chatservice/domain/application/ChatEventService.java:27-130 | the message type each `save…` method passes; `EventOf` records it by `ChatEvents.ActionTagDeterminesType` |
| ChatEvents.EventMessage | src/main/java/com/example/chatservice/domain/application/ChatEventService.java:149-159 | the record the builder produces; its fields are stated by `ChatEvents.JournalRecordShape` |
| ChatEvents.ActionTagDeterminesType | src/main/java/com/example/chatservice/domain/application/ChatEventService.java:27-130 | the eight kinds carry eight different tags and types, and equal tags mean equal types |
| ChatEvents.JournalRecordShape | src/main/java/com/example/chatservice/domain/application/ChatEventService.java:143-159 | a record is unread, of the given room, id and time, of the request's type, carries the encoded payload, has a receiver exactly for a delivery, and its content is the notice text or the type's description |
| ChatEvents.ChatEventService.Appended | src/main/java/com/example/chatservice/domain/application/ChatEventService.java:145-167 | a save appends at most one record, exactly when the payload encodes, and that record is the one built from the encoded payload |
| ChatEvents.ChatEventService.SaveSystemEvent | src/main/java/com/example/chatservice/domain/application/ChatEventService.java:135-138 | the five-argument overload appends what the six-argument one does with no custom content |
| ChatEvents.ChatEventService.SaveSystemEventWithContent | src/main/java/com/example/chatservice/domain/application/ChatEventService.java:143-168 | the store grows by the built record on successful encoding and is unchanged on failure |
| ChatEvents.ChatEventService.SaveUserJoinedEvent | src/main/java/com/example/chatservice/domain/application/ChatEventService.java:27-35 | appends the joined record of the user, if its payload encodes |
| ChatEvents.ChatEventService.SaveUserLeftEvent | src/main/java/com/example/chatservice/domain/application/ChatEventService.java:40-48 | appends the left record of the user, if its payload encodes |
| ChatEvents.ChatEventService.SaveUserConnectedEvent | src/main/java/com/example/chatservice/domain/application/ChatEventService.java:53-61 | appends the connected record of the user, if its payload encodes |
| ChatEvents.ChatEventService.SaveUserDisconnectedEvent | src/main/java/com/example/chatservice/domain/application/ChatEventService.java:66-74 | appends the disconnected record of the user, if its payload encodes |
| ChatEvents.ChatEventService.SaveRoomCreatedEvent | src/main/java/com/example/chatservice/domain/application/ChatEventService.java:79-89 | appends the room-created record with the creator as sender, if its payload encodes |
| ChatEvents.ChatEventService.SaveMessageReadEvent | src/main/java/com/example/chatservice/domain/application/ChatEventService.java:94-103 | appends the read record with the reader as sender, if its payload encodes |
| ChatEvents.ChatEventService.SaveMessageDeliveredEvent | src/main/java/com/example/chatservice/domain/application/ChatEventService.java:108-117 | appends the delivered record addressed to the receiver, if its payload encodes |
| ChatEvents.ChatEventService.SaveSystemNotice | src/main/java/com/example/chatservice/domain/application/ChatEventService.java:122-130 | appends the notice record with the given text as content, if its payload encodes |
| ChatEvents.ChatEventService.Record | src/main/java/com/example/chatservice/domain/application/ChatEventService.java:27-130 | carrying out a journal request appends what the builder of its kind appends |
| Registry.ValuesAtMostKeys | src/main/java/com/example/chatservice/common/config/WebSocketEventListener.java:122-125 | a membership has no more distinct users than sessions |
| Registry.RoomsWithUser | src/main/java/com/example/chatservice/common/config/WebSocketEventListener.java:42-46 | the rooms whose membership `containsValue` the user, as the `forEach` scans test |
| Registry.NoEmptyRooms | src/main/java/com/example/chatservice/common/config/WebSocketEventListener.java:67-72 | no room entry has an empty membership, the state the removal loop restores by dropping emptied rooms |
| Registry.WithoutSession | src/main/java/com/example/chatservice/common/config/WebSocketEventListener.java:66-72 | after removal no membership holds the session, no empty room remains, every other session stays with its user, and a room stays exactly when it keeps another session |
| Registry.PartlyWithoutStep | src/main/java/com/example/chatservice/common/config/WebSocketEventListener.java:67-72 | one iteration of the removal loop removes the session from one room and drops the room if it is left empty |
| Registry.PartlyWithout | src/main/java/com/example/chatservice/common/config/WebSocketEventListener.java:67-72 | the table part way through the removal loop: pending rooms as they were, handled rooms without the session or dropped |
| Registry.PartlyWithoutAll | src/main/java/com/example/chatservice/common/config/WebSocketEventListener.java:67-72 | before the loop, with every room pending, the table is the original |
| Registry.PartlyWithoutNone | src/main/java/com/example/chatservice/common/config/WebSocketEventListener.java:67-72 | after the loop, with no room pending, the table is `WithoutSession` of the original |
| Registry.RoomsWithUserAfterRemoval | src/main/java/com/example/chatservice/common/config/WebSocketEventListener.java:67-72 | after the removal the user is found in exactly the rooms where another of their sessions is subscribed |
| Registry.SingleSessionGetsNoNotice | src/main/java/com/example/chatservice/common/config/WebSocketEventListener.java:67-75 | a user whose only subscribed session disconnects is in no room when the disconnect notice is sent |
| Registry.RemoveAllAbsent | src/main/java/com/example/chatservice/common/config/WebSocketEventListener.java:87 | `replace` leaves a text without the pattern unchanged |
| Registry.RemoveAll | src/main/java/com/example/chatservice/common/config/WebSocketEventListener.java:87 | `replace(prefix, "")`: every occurrence of the pattern removed, scanning left to right |
| Registry.SubscriptionRoom | src/main/java/com/example/chatservice/common/config/WebSocketEventListener.java:87 | the room id a destination names: the destination with the room topic prefix removed |
| Registry.IsRoomSubscription | src/main/java/com/example/chatservice/common/config/WebSocketEventListener.java:86 | the guard: a known session and a non-null destination under the room topic prefix |
| Registry.SubscriptionRoomOfTopic | src/main/java/com/example/chatservice/common/config/WebSocketEventListener.java:86-87 | for a destination with the prefix only at its front, the room id is the rest, and a frame pushed to that room goes to the destination subscribed to |
| Registry.Subscribed | src/main/java/com/example/chatservice/common/config/WebSocketEventListener.java:90-91 | the room's membership, created empty when absent, gains the session with its user, and other rooms are untouched |
| Registry.RoomsHolding | src/main/java/com/example/chatservice/common/config/WebSocketEventListener.java:42-46 | the scan over the rooms lists, once each, exactly the rooms whose membership holds the user |
| Registry.JournalCallsOncePerRoom | src/main/java/com/example/chatservice/common/config/WebSocketEventListener.java:60-64 | a journal call per listed room is one call per room holding the user and none elsewhere |
| Registry.RoomNoticesOncePerRoom | src/main/java/com/example/chatservice/common/config/WebSocketEventListener.java:132-142 | a notice per listed room is one notice per room holding the user and none elsewhere |
| Registry.JournalCoversRooms | src/main/java/com/example/chatservice/common/config/WebSocketEventListener.java:60-64 | every room holding the user gets its journal entry |
| Registry.JournalOncePerRoom | src/main/java/com/example/chatservice/common/config/WebSocketEventListener.java:60-64 | the journal calls name the request once in each room of the set and in no other room |
| Registry.NoticeOncePerRoom | src/main/java/com/example/chatservice/common/config/WebSocketEventListener.java:132-142 | the pushes send the payload once to each room of the set and to no other room |
| Registry.JournalCalls | src/main/java/com/example/chatservice/common/config/WebSocketEventListener.java:60-64 | one journal call per listed room, in the listed order |
| Registry.RoomNotices | src/main/java/com/example/chatservice/common/config/WebSocketEventListener.java:132-142 | one room notice per listed room, in the listed order |
| Registry.WebSocketEventListener.constructor | src/main/java/com/example/chatservice/common/config/WebSocketEventListener.java:26-29 | the registry starts with no sessions and no rooms |
| Registry.WebSocketEventListener.HandleConnect | src/main/java/com/example/chatservice/common/config/WebSocketEventListener.java:31-48 | a named user overwrites the session's mapping and journals one USER_CONNECTED per room already holding the user; no membership changes; a null user changes nothing |
| Registry.WebSocketEventListener.HandleDisconnect | src/main/java/com/example/chatservice/common/config/WebSocketEventListener.java:50-77 | an unknown session changes nothing; a known one is removed from the sessions and from every membership, empty rooms are pruned, one USER_DISCONNECTED is journaled per room that held the user before, and one notice is pushed per room that still holds the user after |
| Registry.WebSocketEventListener.HandleSubscribe | src/main/java/com/example/chatservice/common/config/WebSocketEventListener.java:79-102 | unless the session is known and the destination is under the room prefix nothing changes; otherwise the session joins the room `replace` yields, one USER_JOINED is journaled and one join notice is pushed there |
| Registry.WebSocketEventListener.IsUserConnected | src/main/java/com/example/chatservice/common/config/WebSocketEventListener.java:107-109 | holds exactly when some session maps to the user |
| Registry.WebSocketEventListener.GetConnectedUsersInChatRoom | src/main/java/com/example/chatservice/common/config/WebSocketEventListener.java:122-125 | the distinct users of the room's membership, empty for an unknown room, no more than its sessions |
| Registry.WebSocketEventListener.IsUserInChatRoom | src/main/java/com/example/chatservice/common/config/WebSocketEventListener.java:114-117 | equals membership of the user in the room's connected users |
| Registry.WebSocketEventListener.JournalRoomsWith | src/main/java/com/example/chatservice/common/config/WebSocketEventListener.java:42-46 | the journal grows by one call per room holding the user |
| Registry.WebSocketEventListener.RemoveSessionFromRooms | src/main/java/com/example/chatservice/common/config/WebSocketEventListener.java:67-72 | the loop leaves the table without the session and without empty rooms |
| Registry.WebSocketEventListener.NotifyUserDisconnected | src/main/java/com/example/chatservice/common/config/WebSocketEventListener.java:130-143 | the outbox grows by one disconnect notice per room holding the user |
| Registry.WebSocketEventListener.NotifyUserJoinedChatRoom | src/main/java/com/example/chatservice/common/config/WebSocketEventListener.java:148-156 | one join notice is pushed, to the room's topic `/queue/messages/{room}` |
| MessageQueries.AddInt32 | src/main/java/com/example/chatservice/domain/infrastructure/ChatMessageCustomRepositoryImpl.java:80 | `size + 1` as Java computes it: congruent to the sum modulo 2^32, and equal to it when the sum fits in an int |
| MessageQueries.PageSize | src/main/java/com/example/chatservice/domain/infrastructure/ChatMessageCustomRepositoryImpl.java:57 | the requested size, or 10 when none is given |
| MessageQueries.Matches | src/main/java/com/example/chatservice/domain/infrastructure/ChatMessageCustomRepositoryImpl.java:59-73 | the query criteria: the room, strictly before a given cursor, in a non-empty type list, and CHAT only when system events are excluded |
| MessageQueries.Filter | src/main/java/com/example/chatservice/domain/infrastructure/ChatMessageCustomRepositoryImpl.java:59-73 | exactly the stored messages of the room, before the cursor, of the listed types and CHAT-only when system events are excluded |
| MessageQueries.FilterMultiplicity | src/main/java/com/example/chatservice/domain/infrastructure/ChatMessageCustomRepositoryImpl.java:59-73 | the filter keeps every copy of a matching message and no copy of any other |
| MessageQueries.Insert | src/main/java/com/example/chatservice/domain/infrastructure/ChatMessageCustomRepositoryImpl.java:79 | inserting into a sorted sequence keeps it sorted and adds exactly one message |
| MessageQueries.SortedBySentAt | src/main/java/com/example/chatservice/domain/infrastructure/ChatMessageCustomRepositoryImpl.java:79 | ascending by send time |
| MessageQueries.SortedCons | src/main/java/com/example/chatservice/domain/infrastructure/ChatMessageCustomRepositoryImpl.java:79 | a message no later than every message of a sorted sequence can go in front of it |
| MessageQueries.SortBySentAt | src/main/java/com/example/chatservice/domain/infrastructure/ChatMessageCustomRepositoryImpl.java:79 | the result is sorted ascending by send time and a permutation of the input |
| MessageQueries.Ordered | src/main/java/com/example/chatservice/domain/infrastructure/ChatMessageCustomRepositoryImpl.java:78-82 | the query result without a limit: the matches sorted by send time; characterised by `MessageQueries.OrderedMatches` |
| MessageQueries.OrderedMatches | src/main/java/com/example/chatservice/domain/infrastructure/ChatMessageCustomRepositoryImpl.java:78-82 | the query result without limit is sorted and holds exactly the matching messages |
| MessageQueries.OrderedPrefix | src/main/java/com/example/chatservice/domain/infrastructure/ChatMessageCustomRepositoryImpl.java:78-85 | every prefix of the query result is sorted and holds only matches |
| MessageQueries.Find | src/main/java/com/example/chatservice/domain/infrastructure/ChatMessageCustomRepositoryImpl.java:78-82 | a positive limit keeps that many of the sorted matches; any other limit keeps them all |
| MessageQueries.Page | src/main/java/com/example/chatservice/domain/infrastructure/ChatMessageCustomRepositoryImpl.java:83-91 | the page fails exactly for a negative size, or size 0 with a match |
| MessageQueries.PageProperties | src/main/java/com/example/chatservice/domain/infrastructure/ChatMessageCustomRepositoryImpl.java:56-92 | the error cases; `hasNext` exactly when more than `size` match; at most `size` messages, exactly `size` when `hasNext`; a sorted prefix of the sorted matches, all in the room and before the cursor; `nextCursor` is the last message's time when `hasNext` and null otherwise |
| MessageQueries.CursorKeepsOldest | src/main/java/com/example/chatservice/domain/infrastructure/ChatMessageCustomRepositoryImpl.java:61-79 | adding a cursor keeps the earliest matching time when that time is before the cursor |
| MessageQueries.SortedFirstIsEarliest | src/main/java/com/example/chatservice/domain/infrastructure/ChatMessageCustomRepositoryImpl.java:79 | the first message of a sorted sequence is no later than any of its messages |
| MessageQueries.FollowUpPageRestarts | src/main/java/com/example/chatservice/domain/infrastructure/ChatMessageCustomRepositoryImpl.java:61-89 | the page fetched with a page's next cursor starts at the time of that page's first message |
| MessageQueries.FindChatMessagesByCursor | src/main/java/com/example/chatservice/domain/infrastructure/ChatMessageCustomRepositoryImpl.java:56-92 | the fetch of `size + 1` followed by the cut yields `Page` of the sorted matches |
| MessageQueries.Truncate | src/main/java/com/example/chatservice/domain/infrastructure/ChatMessageCustomRepositoryImpl.java:83-91 | from the fetch of `size + 1` the cut produces the page, including both exceptions |
| MessageQueries.CountUnread | src/main/java/com/example/chatservice/domain/infrastructure/ChatMessageCustomRepositoryImpl.java:37-41 | a group's count is positive exactly when the receiver has an unread message in the room |
| MessageQueries.UnreadFor | src/main/java/com/example/chatservice/domain/infrastructure/ChatMessageCustomRepositoryImpl.java:37-41 | the match stage: addressed to the receiver and not yet read |
| MessageQueries.UnreadRooms | src/main/java/com/example/chatservice/domain/infrastructure/ChatMessageCustomRepositoryImpl.java:37-41 | the groups of the aggregation: the rooms of the receiver's unread messages |
| MessageQueries.UnreadCounts | src/main/java/com/example/chatservice/domain/infrastructure/ChatMessageCustomRepositoryImpl.java:35-53 | room to the number of the receiver's unread messages there; rooms without any are absent and every count is at least 1 |
| MessageQueries.CountUnreadAppend | src/main/java/com/example/chatservice/domain/infrastructure/ChatMessageCustomRepositoryImpl.java:37-41 | the count over a concatenated timeline is the sum of the counts |
| Delivery.WithLastMessage | src/main/java/com/example/chatservice/domain/application/ChatMessageServiceImpl.java:36 | the room keeps its id and participants and gets the message's content and time as last message |
| Delivery.RoomsAfterSend | src/main/java/com/example/chatservice/domain/application/ChatMessageServiceImpl.java:34-38 | ids stay distinct, and an unknown room leaves the collection unchanged |
| Delivery.RoomsAfterSendFind | src/main/java/com/example/chatservice/domain/application/ChatMessageServiceImpl.java:34-38 | an existing room carries the message as last one with its participants kept, and every other room is found as before |
| Delivery.Route | src/main/java/com/example/chatservice/domain/application/ChatMessageServiceImpl.java:49-94 | an empty room gets nothing; a present receiver gets a room broadcast and one MESSAGE_DELIVERED with the message id; an absent one the private push and no event; the acknowledgement follows iff sender differs from receiver, with `delivered` equal to the receiver's presence |
| Delivery.RouteDeliversOnce | src/main/java/com/example/chatservice/domain/application/ChatMessageServiceImpl.java:62-93 | on a non-empty room the frame is pushed exactly once, on the room topic `/queue/messages/{room}` exactly when the receiver is present and on the private queue otherwise; a delivered event exactly then; the acknowledgement goes to the sender on `/queue/message-sent` and its flag says whether the receiver was present |
| Delivery.ChatMessageService.SendMessage | src/main/java/com/example/chatservice/domain/application/ChatMessageServiceImpl.java:28-44 | the message is stored once, the room updated as `RoomsAfterSend` says, then the routing of the registry's room users is pushed and journaled |
| Delivery.ChatMessageService.SendMessageToConnectedUsers | src/main/java/com/example/chatservice/domain/application/ChatMessageServiceImpl.java:49-94 | the pushes and journal calls are those of `Route` for the room's connected users |
| Rooms.CreateOrGet | src/main/java/com/example/chatservice/domain/application/ChatRoomServiceImpl.java:45-72 | an existing pair answers its room's id and changes nothing; otherwise the collection becomes `SaveRoom` of the old one with the new room, which the new id then finds, and the new id is answered; either way the pair lookup afterwards finds the answered room and every other id finds what it found before |
| Rooms.CreateOrGetIdempotent | src/main/java/com/example/chatservice/domain/application/ChatRoomServiceImpl.java:46-59 | a second call for the same participants answers the first call's id and creates nothing |
| Rooms.NewRoom | src/main/java/com/example/chatservice/domain/application/ChatRoomServiceImpl.java:58 | a new room has the participants and no last message |
| Rooms.Selected | src/main/java/com/example/chatservice/domain/application/ChatRoomServiceImpl.java:76-80 | the update's criteria: the room, addressed to the receiver, not yet read |
| Rooms.MarkedRead | src/main/java/com/example/chatservice/domain/application/ChatRoomServiceImpl.java:76-83 | exactly the unread messages of the room for the receiver become read; every other message is unchanged |
| Rooms.MarkedReadCount | src/main/java/com/example/chatservice/domain/application/ChatRoomServiceImpl.java:76-83 | marking zeroes that room's count for the receiver and keeps every other count |
| Rooms.UnreadCountsEqual | src/main/java/com/example/chatservice/domain/infrastructure/ChatMessageCustomRepositoryImpl.java:35-53 | unread-count maps agree when every room's count agrees, up to dropped rooms |
| Rooms.MarkedReadUnreadCounts | src/main/java/com/example/chatservice/domain/application/ChatRoomServiceImpl.java:76-83 | after marking, the receiver's unread counts lose exactly that room and other receivers' counts are unchanged |
| Rooms.ChatRoomService.CreateOrGetRoom | src/main/java/com/example/chatservice/domain/application/ChatRoomServiceImpl.java:45-72 | the rooms and answer are those of `CreateOrGet`; ROOM_CREATED with participant A as creator is journaled exactly when a room is created |
| Rooms.ChatRoomService.CreateOrGetRoomTwice | src/main/java/com/example/chatservice/domain/application/ChatRoomServiceImpl.java:46-59 | two calls answer the same id, leave the rooms of one call and journal at most one creation |
| Rooms.ChatRoomService.MarkUnreadMessagesAsRead | src/main/java/com/example/chatservice/domain/application/ChatRoomServiceImpl.java:74-84 | the timeline becomes `MarkedRead` of itself |
| Rooms.ChatRoomService.GetChatRoom | src/main/java/com/example/chatservice/domain/application/ChatRoomServiceImpl.java:92-98 | fails with not-found exactly when no room has the id, else answers that room |
| Rooms.ChatRoomService.GetChatRoomStatus | src/main/java/com/example/chatservice/domain/application/ChatRoomServiceImpl.java:111-132 | not found for an unknown room, then not-participant for a non-member; on success the room id, 2 participants, the registry's connected users and the member's presence among them |
| Handshake.Trim | src/main/java/com/example/chatservice/common/config/interceptor/WebSocketHandshakeInterceptor.java:60-61 | the result is a slice of the text with only characters up to U+0020 outside it, it neither starts nor ends with such a character, and it is empty exactly when the text is blank |
| Handshake.Trimmed | src/main/java/com/example/chatservice/common/config/interceptor/WebSocketHandshakeInterceptor.java:60-61 | the characters `trim` strips: code point U+0020 and below |
| Handshake.TrimStart | src/main/java/com/example/chatservice/common/config/interceptor/WebSocketHandshakeInterceptor.java:60-61 | a suffix of the text, starting with a non-blank character, with only blanks before it |
| Handshake.TrimEnd | src/main/java/com/example/chatservice/common/config/interceptor/WebSocketHandshakeInterceptor.java:60-61 | a prefix of the text, ending with a non-blank character, with only blanks after it |
| Handshake.StrippedEnds | src/main/java/com/example/chatservice/common/config/interceptor/WebSocketHandshakeInterceptor.java:60-61 | stripping blanks from the front, then from the back, leaves a slice of the text with only blanks outside it |
| Handshake.TrimIdempotent | src/main/java/com/example/chatservice/common/config/interceptor/WebSocketHandshakeInterceptor.java:60-61 | trimming a trimmed value leaves it unchanged |
| Handshake.SplitAll | src/main/java/com/example/chatservice/common/config/interceptor/WebSocketHandshakeInterceptor.java:67 | there is at least one piece, none holds `&`, and the first one is a prefix of the text |
| Handshake.JoinSplitAll | src/main/java/com/example/chatservice/common/config/interceptor/WebSocketHandshakeInterceptor.java:67 | joining the pieces with `&` gives the text back |
| Handshake.DropTrailingEmpty | src/main/java/com/example/chatservice/common/config/interceptor/WebSocketHandshakeInterceptor.java:67 | a prefix of the pieces that ends in a non-empty piece, with only empty pieces dropped |
| Handshake.JavaSplit | src/main/java/com/example/chatservice/common/config/interceptor/WebSocketHandshakeInterceptor.java:67 | `split("&")`: the text itself when it holds no separator, else the pieces with their trailing empty ones dropped; `Handshake.JavaSplitUserValue` relates it to the full list of pieces |
| Handshake.Join | src/main/java/com/example/chatservice/common/config/interceptor/WebSocketHandshakeInterceptor.java:67 | the pieces joined with `&`, the inverse of the full split by `Handshake.JoinSplitAll` |
| Handshake.FirstUserValuePrefix | src/main/java/com/example/chatservice/common/config/interceptor/WebSocketHandshakeInterceptor.java:67-72 | dropping trailing empty pieces keeps the first value |
| Handshake.SplitNoSeparator | src/main/java/com/example/chatservice/common/config/interceptor/WebSocketHandshakeInterceptor.java:67 | text without `&` is one piece |
| Handshake.JavaSplitUserValue | src/main/java/com/example/chatservice/common/config/interceptor/WebSocketHandshakeInterceptor.java:67-72 | Java's `split` and the full list of pieces yield the same value |
| Handshake.FirstUserValue | src/main/java/com/example/chatservice/common/config/interceptor/WebSocketHandshakeInterceptor.java:68-72 | the rest after `userUuid=` of the first piece starting with it, and nothing exactly when no piece starts with it |
| Handshake.UserUuidFrom | src/main/java/com/example/chatservice/common/config/interceptor/WebSocketHandshakeInterceptor.java:57-76 | a non-blank header, trimmed, takes precedence; else the first query piece's value, untrimmed and possibly empty; no query is null |
| Handshake.PieceContains | src/main/java/com/example/chatservice/common/config/interceptor/WebSocketHandshakeInterceptor.java:66-69 | a piece starting with the key puts the key in the query |
| Handshake.UserValueInQuery | src/main/java/com/example/chatservice/common/config/interceptor/WebSocketHandshakeInterceptor.java:66-72 | the `contains` guard never changes the outcome |
| Handshake.ScanUserValue | src/main/java/com/example/chatservice/common/config/interceptor/WebSocketHandshakeInterceptor.java:68-72 | the loop that returns at the first piece starting with `userUuid=` answers `FirstUserValue` of the pieces |
| Handshake.ExtractUserUuid | src/main/java/com/example/chatservice/common/config/interceptor/WebSocketHandshakeInterceptor.java:57-76 | the header check followed by the scan answers `UserUuidFrom` |
| Handshake.BeforeHandshake | src/main/java/com/example/chatservice/common/config/interceptor/WebSocketHandshakeInterceptor.java:16-37 | refuses and leaves the attributes alone without an id; else stores it under `userUuid` and accepts |

## Left out

- Spring and STOMP transport. `convertAndSend` and `convertAndSendToUser` become appends to ghost outbox logs.
- Pushed payloads are frame kinds, not maps. The `timestamp` of the join and disconnect notices is not modelled.
- MongoDB. The timeline is an in-memory sequence and the rooms are a sequence with distinct ids.
- `findByChatRoomUuid` and `findByParticipants` are modelled as first-match scans. Their implementation is not part of this model, so it is not proved that the room lookup ignores participant order.
- Jackson serialization is the function-valued field `encode`: None stands for a `JsonProcessingException`. The JSON text itself is not modelled.
- `LocalDateTime.now()` and `UUID.randomUUID()` become parameters.
  - One `now` serves a record's payload timestamp and its `sentAt`. The source reads the clock twice.
  - Freshness of generated ids is not assumed. Idempotence of create-or-get holds without it.
  - Which ids the journal entries get when carried out, and when, is not modelled: the listener, router and room service only log `JournalCall`s.
- The cursor is the timestamp value. Its `toString` form is not modelled.
- MessageQueries.SortBySentAt: messages with equal `sentAt` keep store order. MongoDB does not promise any order for ties.
- `intValue()` of the aggregated count is not modelled. Counts are unbounded naturals.
- Delivery.ChatMessageService.SendMessage: the store, the pushes and the journal calls are separate logs. So the model does not capture that the message is persisted before anything is pushed, or that the broadcast precedes the delivered event.
- Registry.WebSocketEventListener.HandleConnect and HandleDisconnect: the order in which rooms are journaled and notified is left open, as `ConcurrentHashMap` iteration order is unspecified.
- Concurrency. The model runs one handler at a time.
- Logging.
- `getChatRoomList`, `getChatMessages`, and the mapping of rooms and messages to response DTOs.
- `ChatMessageService.markMessagesAsRead`: only its interface exists.
- `afterHandshake`: it only logs.
- Null `sender` or `receiver` fields of a send request. When the room has connected users, a null receiver throws a NullPointerException at the `containsValue` lookup of the registry's concurrent map, and a null sender throws at `equals`. When the room has none, the early return means neither throws.
- Other null fields of a send request are not modelled either. A null `chatRoomUuid` throws at the registry's `chatRoomUsers.get`, because its `ConcurrentHashMap` rejects null keys. A null `sentAt` throws at the acknowledgement's `Map.of` whenever an acknowledgement is sent, because `Map.of` rejects null values.
- A request with both a non-empty `messageTypes` list and `includeSystemEvents == false` adds two clauses on `messageType`, which Spring's `Criteria` rejects with an exception. `Matches` takes the conjunction of the two clauses instead.
- Field mappings whose code is not part of this model are assumed:
  - `SendChatMessageReqDto.toEntity` (`Domain.ToEntity`);
  - `ChatRoom.updateLastMessage` (`Delivery.WithLastMessage`);
  - `CreateChatRoomReqDto.toEntity` (`Rooms.NewRoom`).
- Store.MessageRepository.Save: it always appends. MongoDB's `save` replaces a stored document with the same id. The two agree whenever saved ids are distinct, as generated UUIDs are meant to be.
