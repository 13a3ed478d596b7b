/** The two custom queries over the message timeline: one cursor page of a
    room's messages, and the per-room count of a receiver's unread messages.
    The store is the timeline in insertion order. */
module MessageQueries {
  import opened Base
  import opened MessageTypes
  import opened Domain

  /** A Java `int`. */
  newtype Int32 = x: int | -0x8000_0000 <= x < 0x8000_0000

  /** `int` addition, wrapping around on overflow. */
  function AddInt32(a: Int32, b: Int32): (r: Int32)
    ensures -0x8000_0000 <= a as int + b as int < 0x8000_0000 ==> r as int == a as int + b as int
    ensures (r as int - (a as int + b as int)) % 0x1_0000_0000 == 0
  {
    var s := a as int + b as int;
    if s >= 0x8000_0000 then (s - 0x1_0000_0000) as Int32
    else if s < -0x8000_0000 then (s + 0x1_0000_0000) as Int32
    else s as Int32
  }

  /** The query parameters of a page request; an absent field is a null. */
  datatype ChatMessageRequest = ChatMessageRequest(
    senderUuid: Option<UserId>,
    cursor: Option<Timestamp>,
    size: Option<Int32>,
    messageTypes: Option<seq<MessageType>>,
    includeSystemEvents: Option<bool>)

  const DefaultPageSize: Int32 := 10

  /** The page size: the requested one, or the default when none is given. */
  function PageSize(req: ChatMessageRequest): (size: Int32)
    ensures req.size.None? ==> size == DefaultPageSize
    ensures req.size.Some? ==> size == req.size.value
  {
    if req.size.Some? then req.size.value else DefaultPageSize
  }

  /** The query criteria: the room, the cursor bound, the type list and the
      CHAT-only switch. Both type clauses apply when both are given. */
  predicate Matches(m: Message, roomId: RoomId, req: ChatMessageRequest) {
    && m.chatRoomId == roomId
    && (req.cursor.Some? ==> m.sentAt < req.cursor.value)
    && (req.messageTypes.Some? && req.messageTypes.value != [] ==> m.messageType in req.messageTypes.value)
    && (req.includeSystemEvents == Some(false) ==> m.messageType == Chat)
  }

  /** The stored messages meeting the criteria, in store order. */
  function Filter(store: seq<Message>, roomId: RoomId, req: ChatMessageRequest): (r: seq<Message>)
    ensures |r| <= |store|
    ensures forall m :: m in r <==> m in store && Matches(m, roomId, req)
    ensures multiset(r) <= multiset(store)
  {
    if store == [] then []
    else
      var rest := Filter(store[1..], roomId, req);
      assert store == [store[0]] + store[1..];
      if Matches(store[0], roomId, req) then [store[0]] + rest else rest
  }

  /** Filtering keeps every copy of a matching message and no copy of any
      other. */
  lemma {:induction false} FilterMultiplicity(store: seq<Message>, roomId: RoomId, req: ChatMessageRequest, m: Message)
    ensures multiset(Filter(store, roomId, req))[m] == if Matches(m, roomId, req) then multiset(store)[m] else 0
  {
    if store != [] {
      FilterMultiplicity(store[1..], roomId, req, m);
      assert store == [store[0]] + store[1..];
    }
  }

  predicate SortedBySentAt(s: seq<Message>) {
    forall i, j :: 0 <= i < j < |s| ==> s[i].sentAt <= s[j].sentAt
  }

  /** A message no later than every message of a sorted sequence can go in
      front of it. */
  lemma SortedCons(x: Message, t: seq<Message>)
    requires SortedBySentAt(t) && forall y :: y in t ==> x.sentAt <= y.sentAt
    ensures SortedBySentAt([x] + t)
  {
    var r := [x] + t;
    forall i, j | 0 <= i < j < |r| ensures r[i].sentAt <= r[j].sentAt {
      assert r[j] == t[j - 1];
      if i > 0 { assert r[i] == t[i - 1]; }
    }
  }

  /** Places m before the first message that is not earlier than it. */
  function Insert(m: Message, s: seq<Message>): (r: seq<Message>)
    requires SortedBySentAt(s)
    ensures SortedBySentAt(r)
    ensures forall x :: x in r ==> x == m || x in s
    ensures multiset(r) == multiset(s) + multiset{m}
  {
    if s == [] then [m]
    else if m.sentAt <= s[0].sentAt then
      SortedCons(m, s);
      [m] + s
    else
      var rest := Insert(m, s[1..]);
      assert s == [s[0]] + s[1..];
      SortedCons(s[0], rest);
      [s[0]] + rest
  }

  /** `Sort.by(ASC, "sentAt")`: ascending by send time, equal times in store
      order. */
  function SortBySentAt(s: seq<Message>): (r: seq<Message>)
    ensures SortedBySentAt(r)
    ensures multiset(r) == multiset(s)
    ensures |r| == |s|
  {
    if s == [] then []
    else
      assert s == [s[0]] + s[1..];
      Insert(s[0], SortBySentAt(s[1..]))
  }

  /** What `find` returns without a limit: the matches, sorted. */
  function Ordered(store: seq<Message>, roomId: RoomId, req: ChatMessageRequest): seq<Message> {
    SortBySentAt(Filter(store, roomId, req))
  }

  /** The ordered matches are exactly the matches, sorted. */
  lemma OrderedMatches(store: seq<Message>, roomId: RoomId, req: ChatMessageRequest)
    ensures SortedBySentAt(Ordered(store, roomId, req))
    ensures forall m :: m in Ordered(store, roomId, req) <==> m in store && Matches(m, roomId, req)
    ensures |Ordered(store, roomId, req)| == |Filter(store, roomId, req)|
  {
    var f := Filter(store, roomId, req);
    var o := Ordered(store, roomId, req);
    forall m ensures m in o <==> m in f {
      assert m in o <==> m in multiset(o);
      assert m in f <==> m in multiset(f);
    }
  }

  /** A prefix of the ordered matches is sorted and holds only matches. */
  lemma OrderedPrefix(store: seq<Message>, roomId: RoomId, req: ChatMessageRequest, k: nat)
    requires k <= |Ordered(store, roomId, req)|
    ensures SortedBySentAt(Ordered(store, roomId, req)[..k])
    ensures forall m :: m in Ordered(store, roomId, req)[..k] ==> m in store && Matches(m, roomId, req)
  {
    OrderedMatches(store, roomId, req);
    var o := Ordered(store, roomId, req);
    assert forall m :: m in o[..k] ==> m in o;
  }

  /** `find(query.limit(limit))`: a positive limit caps the result, any
      other value is no limit. */
  function Find(store: seq<Message>, roomId: RoomId, req: ChatMessageRequest, limit: Int32): (r: seq<Message>)
    ensures var o := Ordered(store, roomId, req);
      && (limit > 0 && limit as int <= |o| ==> r == o[..limit])
      && (limit <= 0 || limit as int > |o| ==> r == o)
  {
    var o := Ordered(store, roomId, req);
    if limit > 0 && limit as int <= |o| then o[..limit] else o
  }

  /** `CursorPage.of(content, hasNext, nextCursor)` */
  datatype CursorPage = CursorPage(content: seq<Message>, hasNext: bool, nextCursor: Option<Timestamp>)

  /** The exceptions the truncation step can throw. */
  datatype PageError =
    | SubListRange      // subList(0, size) with size < 0
    | NoLastElement     // get(-1) on an empty page

  /** The page over the ordered matches `o`: its first `size` messages, with
      the last one's time as the next cursor when more remain. */
  function Page(o: seq<Message>, size: int): (r: Result<CursorPage, PageError>)
    ensures r.Failure? <==> size < 0 || (size == 0 && |o| > 0)
  {
    if size < 0 then Failure(SubListRange)
    else if |o| > size then
      if size == 0 then Failure(NoLastElement)
      else Success(CursorPage(o[..size], true, Some(o[size - 1].sentAt)))
    else Success(CursorPage(o, false, None))
  }

  /** What a page of a query promises: the failing sizes; then a sorted
      prefix of the ordered matches, of at most `size` messages and exactly
      `size` when more remain, each in the room and before the cursor, with
      the next cursor at the last one. */
  lemma PageProperties(store: seq<Message>, roomId: RoomId, req: ChatMessageRequest)
    ensures var r := Page(Ordered(store, roomId, req), PageSize(req) as int);
      var n := |Filter(store, roomId, req)|; var size := PageSize(req) as int;
      && (r.Failure? <==> size < 0 || (size == 0 && n > 0))
      && (r.Failure? ==> r.error == if size < 0 then SubListRange else NoLastElement)
    ensures var r := Page(Ordered(store, roomId, req), PageSize(req) as int);
      r.Success? ==>
      var page := r.value; var o := Ordered(store, roomId, req); var size := PageSize(req) as int;
      && (page.hasNext <==> |o| > size)
      && |page.content| <= size
      && (page.hasNext ==> |page.content| == size)
      && (!page.hasNext ==> page.content == o)
      && page.content == o[..|page.content|]
      && SortedBySentAt(page.content)
      && (forall m :: m in page.content ==> m.chatRoomId == roomId && m in store && Matches(m, roomId, req))
      && (req.cursor.Some? ==> forall m :: m in page.content ==> m.sentAt < req.cursor.value)
      && page.nextCursor == (if page.hasNext then Some(page.content[|page.content| - 1].sentAt) else None)
  {
    var o := Ordered(store, roomId, req);
    var size := PageSize(req) as int;
    var r := Page(o, size);
    if r.Success? {
      OrderedPrefix(store, roomId, req, |r.value.content|);
    }
  }

  /** The ordered matches under a cursor start as early as those without one,
      when the earliest match is before the cursor: the cursor bounds from
      above only. */
  lemma CursorKeepsOldest(store: seq<Message>, roomId: RoomId, req: ChatMessageRequest, c: Timestamp)
    requires req.cursor.None?
    requires |Ordered(store, roomId, req)| > 0 && Ordered(store, roomId, req)[0].sentAt < c
    ensures var o2 := Ordered(store, roomId, req.(cursor := Some(c)));
      |o2| > 0 && o2[0].sentAt == Ordered(store, roomId, req)[0].sentAt
  {
    var o := Ordered(store, roomId, req);
    var req2 := req.(cursor := Some(c));
    var o2 := Ordered(store, roomId, req2);
    OrderedMatches(store, roomId, req);
    OrderedMatches(store, roomId, req2);
    var x := o[0];
    assert x in o;
    assert Matches(x, roomId, req2);
    assert x in o2;
    var y := o2[0];
    assert y in o2;
    assert Matches(y, roomId, req);
    assert y in o;
    SortedFirstIsEarliest(o, y);
    SortedFirstIsEarliest(o2, x);
  }

  lemma SortedFirstIsEarliest(o: seq<Message>, x: Message)
    requires SortedBySentAt(o) && x in o
    ensures o[0].sentAt <= x.sentAt
  {
    var i :| 0 <= i < |o| && o[i] == x;
    if i > 0 {
      assert o[0].sentAt <= o[i].sentAt;
    }
  }

  /** Following a page's next cursor does not continue after that page: the
      follow-up page starts again at the time of the first page's first
      message. */
  lemma FollowUpPageRestarts(store: seq<Message>, roomId: RoomId, req: ChatMessageRequest)
    requires req.cursor.None?
    requires var r := Page(Ordered(store, roomId, req), PageSize(req) as int);
      r.Success? && r.value.hasNext && r.value.content[0].sentAt < r.value.nextCursor.value
    ensures var first := Page(Ordered(store, roomId, req), PageSize(req) as int).value;
      var next := Page(Ordered(store, roomId, req.(cursor := first.nextCursor)), PageSize(req) as int);
      next.Success? && |next.value.content| > 0 && next.value.content[0].sentAt == first.content[0].sentAt
  {
    var o := Ordered(store, roomId, req);
    var first := Page(o, PageSize(req) as int).value;
    CursorKeepsOldest(store, roomId, req, first.nextCursor.value);
  }

  /** `findChatMessagesByCursor`: fetch one more than the page size, then cut
      the surplus off. */
  method FindChatMessagesByCursor(store: seq<Message>, roomId: RoomId, req: ChatMessageRequest)
    returns (r: Result<CursorPage, PageError>)
    ensures r == Page(Ordered(store, roomId, req), PageSize(req) as int)
  {
    var size := PageSize(req);
    var limit := AddInt32(size, 1);
    var messages := Find(store, roomId, req, limit);
    r := Truncate(Ordered(store, roomId, req), messages, size, limit);
  }

  /** The steps after the query: `hasNext` from the surplus message, the cut
      to `size` and the next cursor. */
  method Truncate(ghost o: seq<Message>, fetched: seq<Message>, size: Int32, limit: Int32)
    returns (r: Result<CursorPage, PageError>)
    requires limit == AddInt32(size, 1)
    requires fetched == if limit > 0 && limit as int <= |o| then o[..limit] else o
    ensures r == Page(o, size as int)
  {
    var messages := fetched;
    if 0 < limit && limit as int <= |o| {
      assert limit as int == size as int + 1;
    }
    var hasNext := |messages| > size as int;
    if hasNext {
      if size < 0 {
        return Failure(SubListRange);
      }
      messages := messages[..size];
      assert messages == o[..size];
    }
    var nextCursor := None;
    if hasNext {
      if |messages| == 0 {
        return Failure(NoLastElement);
      }
      nextCursor := Some(messages[|messages| - 1].sentAt);
    }
    return Success(CursorPage(messages, hasNext, nextCursor));
  }

  /** A message the receiver has not read yet. */
  predicate UnreadFor(m: Message, receiver: UserId) {
    m.receiverId == Some(receiver) && !m.read
  }

  /** The size of one group of the aggregation. */
  function CountUnread(store: seq<Message>, receiver: UserId, room: RoomId): (n: nat)
    ensures n <= |store|
    ensures n > 0 <==> exists m :: m in store && UnreadFor(m, receiver) && m.chatRoomId == room
  {
    if store == [] then 0
    else
      var rest := CountUnread(store[1..], receiver, room);
      assert store == [store[0]] + store[1..];
      if UnreadFor(store[0], receiver) && store[0].chatRoomId == room then rest + 1 else rest
  }

  /** The rooms of the receiver's unread messages. */
  function UnreadRooms(store: seq<Message>, receiver: UserId): set<RoomId> {
    set m | m in store && UnreadFor(m, receiver) :: m.chatRoomId
  }

  /** `getUnreadMessageCountByChatRoom`: room to the number of the receiver's
      unread messages there; rooms without any are absent. */
  function UnreadCounts(store: seq<Message>, receiver: UserId): (counts: map<RoomId, int>)
    ensures forall room :: room in counts <==> CountUnread(store, receiver, room) > 0
    ensures forall room :: room in counts ==> counts[room] == CountUnread(store, receiver, room) >= 1
  {
    map room | room in UnreadRooms(store, receiver) :: CountUnread(store, receiver, room) as int
  }

  /** The counts add up to the number of the receiver's unread messages. */
  lemma {:induction false} CountUnreadAppend(s: seq<Message>, t: seq<Message>, receiver: UserId, room: RoomId)
    ensures CountUnread(s + t, receiver, room) == CountUnread(s, receiver, room) + CountUnread(t, receiver, room)
  {
    if s == [] {
      assert s + t == t;
    } else {
      assert (s + t)[1..] == s[1..] + t;
      CountUnreadAppend(s[1..], t, receiver, room);
    }
  }
}
