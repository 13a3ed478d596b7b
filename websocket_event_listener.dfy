/** The connection registry: which session belongs to which user, and which
    sessions are subscribed to which room, kept up to date by the connect,
    subscribe and disconnect handlers. */
module Registry {
  import opened Base
  import opened Domain
  import opened ChatEvents

  /** A room's subscribers: session id to user id. */
  type Membership = map<SessionId, UserId>

  /** `chatRoomUsers`: room id to its subscribers. */
  type RoomTable = map<RoomId, Membership>

  /** A map has no more distinct values than keys. */
  lemma {:induction false} ValuesAtMostKeys<K, V>(m: map<K, V>)
    ensures |m.Values| <= |m.Keys|
    decreases |m.Keys|
  {
    if m.Keys != {} {
      var k :| k in m.Keys;
      var m' := m - {k};
      ValuesAtMostKeys(m');
      assert m.Keys == m'.Keys + {k};
      assert m.Values <= m'.Values + {m[k]} by {
        forall v | v in m.Values ensures v in m'.Values + {m[k]} {
          var k2 :| k2 in m && m[k2] == v;
          if k2 != k { assert k2 in m' && m'[k2] == v; }
        }
      }
      SubsetCardinality(m.Values, m'.Values + {m[k]});
    }
  }

  lemma {:induction false} SubsetCardinality<T>(a: set<T>, b: set<T>)
    requires a <= b
    ensures |a| <= |b|
  {
    assert b == a + (b - a);
  }

  /** The rooms whose membership holds user u under some session
      (`users.containsValue(u)`). */
  function RoomsWithUser(rooms: RoomTable, u: UserId): set<RoomId> {
    set r | r in rooms && u in rooms[r].Values
  }

  /** No room entry has an empty membership. */
  predicate NoEmptyRooms(rooms: RoomTable) {
    forall r :: r in rooms ==> rooms[r] != map[]
  }

  /** The table after session s is removed from every membership and every
      membership left empty is dropped. */
  function WithoutSession(rooms: RoomTable, s: SessionId): (r: RoomTable)
    ensures NoEmptyRooms(r)
    ensures forall room :: room in r ==> s !in r[room]
    ensures forall room :: room in r <==> room in rooms && rooms[room] - {s} != map[]
    ensures forall room, s2 :: room in r && s2 in r[room] ==> s2 in rooms[room] && r[room][s2] == rooms[room][s2]
    ensures forall room, s2 :: room in rooms && s2 in rooms[room] && s2 != s ==> room in r && s2 in r[room]
  {
    assert forall room, s2 :: room in rooms && s2 in rooms[room] && s2 != s ==> s2 in rooms[room] - {s};
    map room | room in rooms && rooms[room] - {s} != map[] :: rooms[room] - {s}
  }

  /** The table part way through the removal loop: the rooms in `pending`
      are as they were, the others have lost s or been dropped. */
  function PartlyWithout(rooms: RoomTable, s: SessionId, pending: set<RoomId>): RoomTable {
    map room | room in rooms && (room in pending || rooms[room] - {s} != map[]) ::
      if room in pending then rooms[room] else rooms[room] - {s}
  }

  lemma PartlyWithoutAll(rooms: RoomTable, s: SessionId)
    ensures PartlyWithout(rooms, s, rooms.Keys) == rooms
  {
  }

  lemma PartlyWithoutNone(rooms: RoomTable, s: SessionId)
    ensures PartlyWithout(rooms, s, {}) == WithoutSession(rooms, s)
  {
  }

  /** Handling one pending room of the loop. */
  lemma PartlyWithoutStep(rooms: RoomTable, s: SessionId, pending: set<RoomId>, r: RoomId)
    requires pending <= rooms.Keys && r in pending
    ensures var t := PartlyWithout(rooms, s, pending);
      PartlyWithout(rooms, s, pending - {r})
        == if rooms[r] - {s} == map[] then t - {r} else t[r := rooms[r] - {s}]
  {
    var t := PartlyWithout(rooms, s, pending);
    var t' := PartlyWithout(rooms, s, pending - {r});
    var e := if rooms[r] - {s} == map[] then t - {r} else t[r := rooms[r] - {s}];
    assert t'.Keys == e.Keys;
  }

  /** After session s leaves, u is still in exactly the rooms where u has a
      subscribed session other than s. */
  lemma RoomsWithUserAfterRemoval(rooms: RoomTable, s: SessionId, u: UserId, room: RoomId)
    ensures room in RoomsWithUser(WithoutSession(rooms, s), u)
        <==> room in rooms && exists s2 :: s2 in rooms[room] && s2 != s && rooms[room][s2] == u
  {
    var after := WithoutSession(rooms, s);
    if room in rooms && exists s2 :: s2 in rooms[room] && s2 != s && rooms[room][s2] == u {
      var s2 :| s2 in rooms[room] && s2 != s && rooms[room][s2] == u;
      assert after[room][s2] == u;
    }
  }

  /** A user whose only subscribed session is s receives no disconnect notice
      in any room once s leaves. */
  lemma SingleSessionGetsNoNotice(rooms: RoomTable, s: SessionId, u: UserId)
    requires forall room, s2 :: room in rooms && s2 in rooms[room] && rooms[room][s2] == u ==> s2 == s
    ensures RoomsWithUser(WithoutSession(rooms, s), u) == {}
  {
    forall room | room in RoomsWithUser(WithoutSession(rooms, s), u) ensures false {
      RoomsWithUserAfterRemoval(rooms, s, u, room);
    }
  }

  /** `chatRoomUuid = destination.replace("/queue/messages/", "")`: every
      occurrence of the prefix is removed, scanning left to right. */
  function RemoveAll(s: string, pat: string): string
    requires |pat| > 0
    decreases |s|
  {
    if |s| < |pat| then s
    else if s[..|pat|] == pat then RemoveAll(s[|pat|..], pat)
    else [s[0]] + RemoveAll(s[1..], pat)
  }

  /** A text without any occurrence of the pattern is left as it is. */
  lemma {:induction false} RemoveAllAbsent(s: string, pat: string)
    requires |pat| > 0 && !Contains(s, pat)
    ensures RemoveAll(s, pat) == s
    decreases |s|
  {
    if |s| >= |pat| {
      assert s[1..] == s[1..];
      RemoveAllAbsent(s[1..], pat);
    }
  }

  function SubscriptionRoom(destination: string): RoomId {
    RemoveAll(destination, RoomTopicPrefix)
  }

  /** When the prefix occurs only at the front, the room id is the rest of the
      destination, and a frame pushed to that room goes to the destination
      subscribed to. */
  lemma SubscriptionRoomOfTopic(destination: string, p: Payload)
    requires StartsWith(destination, RoomTopicPrefix)
    requires !Contains(destination[|RoomTopicPrefix|..], RoomTopicPrefix)
    ensures SubscriptionRoom(destination) == destination[|RoomTopicPrefix|..]
    ensures RoomTopicPrefix + SubscriptionRoom(destination) == destination
    ensures ToRoom(SubscriptionRoom(destination), p).Destination() == destination
  {
    RemoveAllAbsent(destination[|RoomTopicPrefix|..], RoomTopicPrefix);
  }

  /** The subscribe handler runs only for a known session and a destination
      under the room topic prefix. */
  predicate IsRoomSubscription(connected: map<SessionId, UserId>, sessionId: SessionId, destination: Option<string>) {
    sessionId in connected && destination.Some? && StartsWith(destination.value, RoomTopicPrefix)
  }

  /** `computeIfAbsent(room, …).put(sessionId, u)` */
  function Subscribed(rooms: RoomTable, room: RoomId, s: SessionId, u: UserId): (r: RoomTable)
    ensures r.Keys == rooms.Keys + {room}
    ensures r[room] == (if room in rooms then rooms[room] else map[])[s := u]
    ensures forall other :: other in rooms && other != room ==> r[other] == rooms[other]
  {
    rooms[room := (if room in rooms then rooms[room] else map[])[s := u]]
  }

  /** `calls` journals `req` exactly once in each room of `rooms` and nowhere else. */
  ghost predicate JournalOncePerRoom(calls: seq<JournalCall>, rooms: set<RoomId>, req: EventRequest) {
    && |calls| == |rooms|
    && (forall i :: 0 <= i < |calls| ==> calls[i].request == req && calls[i].chatRoomId in rooms)
    && (forall i, j :: 0 <= i < j < |calls| ==> calls[i].chatRoomId != calls[j].chatRoomId)
  }

  /** `pushes` sends `p` to each room of `rooms` exactly once and nowhere else. */
  ghost predicate NoticeOncePerRoom(pushes: seq<Outbound>, rooms: set<RoomId>, p: Payload) {
    && |pushes| == |rooms|
    && (forall i :: 0 <= i < |pushes| ==> pushes[i].ToRoom? && pushes[i].payload == p && pushes[i].chatRoomId in rooms)
    && (forall i, j :: 0 <= i < j < |pushes| ==> pushes[i].chatRoomId != pushes[j].chatRoomId)
  }

  /** The rooms named in a log of distinct rooms are as many as its entries. */
  lemma {:induction false} DistinctRoomsCount(rs: seq<RoomId>)
    requires forall i, j :: 0 <= i < j < |rs| ==> rs[i] != rs[j]
    ensures |set i | 0 <= i < |rs| :: rs[i]| == |rs|
  {
    if rs != [] {
      var last := |rs| - 1;
      DistinctRoomsCount(rs[..last]);
      var front := set i | 0 <= i < last :: rs[..last][i];
      assert (set i | 0 <= i < |rs| :: rs[i]) == front + {rs[last]} by {
        forall i | 0 <= i < last ensures rs[..last][i] == rs[i] {}
      }
      assert rs[last] !in front;
    }
  }

  /** A journal log that names each of its rooms once, as many times as there
      are rooms, names every room of the set. */
  lemma JournalCoversRooms(calls: seq<JournalCall>, rooms: set<RoomId>, req: EventRequest, r: RoomId)
    requires JournalOncePerRoom(calls, rooms, req) && r in rooms
    ensures exists i :: 0 <= i < |calls| && calls[i] == JournalCall(r, req)
  {
    var rs := seq(|calls|, i requires 0 <= i < |calls| => calls[i].chatRoomId);
    DistinctRoomsCount(rs);
    var named := set i | 0 <= i < |rs| :: rs[i];
    assert named <= rooms;
    if r !in named {
      SubsetCardinality(named, rooms - {r});
      assert false;
    }
    var i :| 0 <= i < |rs| && rs[i] == r;
    assert calls[i] == JournalCall(r, req);
  }

  /** Rooms listed once each. */
  predicate DistinctRooms(rs: seq<RoomId>) {
    forall i, j :: 0 <= i < j < |rs| ==> rs[i] != rs[j]
  }

  /** The `forEach` over the table's entries, keeping the rooms whose
      membership holds u: each such room once, in the iteration order. */
  method RoomsHolding(table: RoomTable, u: UserId) returns (rs: seq<RoomId>)
    ensures DistinctRooms(rs)
    ensures forall r :: r in rs <==> r in RoomsWithUser(table, u)
  {
    rs := [];
    var rest := table.Keys;
    while rest != {}
      invariant rest <= table.Keys
      invariant DistinctRooms(rs)
      invariant forall r :: r in rs <==> r in RoomsWithUser(table, u) && r !in rest
      decreases rest
    {
      var r :| r in rest;
      if u in table[r].Values {
        rs := rs + [r];
      }
      rest := rest - {r};
    }
  }

  /** Listing each room of a set once yields as many entries as the set has. */
  lemma DistinctRoomsCover(rs: seq<RoomId>, rooms: set<RoomId>)
    requires DistinctRooms(rs) && forall r :: r in rs <==> r in rooms
    ensures |rs| == |rooms|
  {
    DistinctRoomsCount(rs);
    assert (set i | 0 <= i < |rs| :: rs[i]) == rooms;
  }

  /** The journal calls for a room list, in its order. */
  function JournalCalls(rs: seq<RoomId>, req: EventRequest): (calls: seq<JournalCall>)
    ensures |calls| == |rs|
    ensures forall i :: 0 <= i < |rs| ==> calls[i] == JournalCall(rs[i], req)
  {
    seq(|rs|, i requires 0 <= i < |rs| => JournalCall(rs[i], req))
  }

  /** The room notices for a room list, in its order. */
  function RoomNotices(rs: seq<RoomId>, p: Payload): (pushes: seq<Outbound>)
    ensures |pushes| == |rs|
    ensures forall i :: 0 <= i < |rs| ==> pushes[i] == ToRoom(rs[i], p)
  {
    seq(|rs|, i requires 0 <= i < |rs| => ToRoom(rs[i], p))
  }

  lemma JournalCallsOncePerRoom(rs: seq<RoomId>, rooms: set<RoomId>, req: EventRequest)
    requires DistinctRooms(rs) && forall r :: r in rs <==> r in rooms
    ensures JournalOncePerRoom(JournalCalls(rs, req), rooms, req)
  {
    DistinctRoomsCover(rs, rooms);
  }

  lemma RoomNoticesOncePerRoom(rs: seq<RoomId>, rooms: set<RoomId>, p: Payload)
    requires DistinctRooms(rs) && forall r :: r in rs <==> r in rooms
    ensures NoticeOncePerRoom(RoomNotices(rs, p), rooms, p)
  {
    DistinctRoomsCover(rs, rooms);
  }

  class WebSocketEventListener {
    var connectedUsers: map<SessionId, UserId>
    var chatRoomUsers: RoomTable
    /** The calls made to the event service, in order. */
    ghost var journal: seq<JournalCall>
    /** The frames handed to the messaging template, in order. */
    ghost var outbox: seq<Outbound>

    /** No empty room entry, and every subscribed session is connected. */
    ghost predicate Valid()
      reads this
    {
      && NoEmptyRooms(chatRoomUsers)
      && forall r, s :: r in chatRoomUsers && s in chatRoomUsers[r] ==> s in connectedUsers
    }

    constructor ()
      ensures Valid()
      ensures connectedUsers == map[] && chatRoomUsers == map[] && journal == [] && outbox == []
    {
      connectedUsers := map[];
      chatRoomUsers := map[];
      journal := [];
      outbox := [];
    }

    /** `handleWebSocketConnectListener`; `user` is the principal's name, None
        when the session has no principal. */
    method HandleConnect(sessionId: SessionId, user: Option<UserId>)
      requires Valid()
      modifies this
      ensures Valid()
      ensures chatRoomUsers == old(chatRoomUsers) && outbox == old(outbox)
      ensures user.None? ==> connectedUsers == old(connectedUsers) && journal == old(journal)
      ensures user.Some? ==> connectedUsers == old(connectedUsers)[sessionId := user.value]
      ensures user.Some? ==> |old(journal)| <= |journal| && journal[..|old(journal)|] == old(journal)
      ensures user.Some? ==> JournalOncePerRoom(journal[|old(journal)|..],
                                                RoomsWithUser(chatRoomUsers, user.value), Connected(user.value))
    {
      if user.Some? {
        var u := user.value;
        connectedUsers := connectedUsers[sessionId := u];
        JournalRoomsWith(u, Connected(u));
      }
    }

    /** `handleWebSocketDisconnectListener` */
    method HandleDisconnect(sessionId: SessionId)
      requires Valid()
      modifies this
      ensures Valid()
      ensures sessionId !in old(connectedUsers) ==>
        && connectedUsers == old(connectedUsers) && chatRoomUsers == old(chatRoomUsers)
        && journal == old(journal) && outbox == old(outbox)
      ensures sessionId in old(connectedUsers) ==>
        var u := old(connectedUsers)[sessionId];
        && connectedUsers == old(connectedUsers) - {sessionId}
        && chatRoomUsers == WithoutSession(old(chatRoomUsers), sessionId)
        && |old(journal)| <= |journal| && journal[..|old(journal)|] == old(journal)
        && JournalOncePerRoom(journal[|old(journal)|..], RoomsWithUser(old(chatRoomUsers), u), Disconnected(u))
        && |old(outbox)| <= |outbox| && outbox[..|old(outbox)|] == old(outbox)
        && NoticeOncePerRoom(outbox[|old(outbox)|..], RoomsWithUser(chatRoomUsers, u), DisconnectNotice(u))
    {
      if sessionId in connectedUsers {
        var u := connectedUsers[sessionId];
        connectedUsers := connectedUsers - {sessionId};
        JournalRoomsWith(u, Disconnected(u));
        RemoveSessionFromRooms(sessionId);
        NotifyUserDisconnected(u);
      }
    }

    /** `handleWebSocketSubscribeListener` */
    method HandleSubscribe(sessionId: SessionId, destination: Option<string>)
      requires Valid()
      modifies this
      ensures Valid()
      ensures connectedUsers == old(connectedUsers)
      ensures !IsRoomSubscription(old(connectedUsers), sessionId, destination) ==>
        chatRoomUsers == old(chatRoomUsers) && journal == old(journal) && outbox == old(outbox)
      ensures IsRoomSubscription(old(connectedUsers), sessionId, destination) ==>
        var room := SubscriptionRoom(destination.value);
        var u := old(connectedUsers)[sessionId];
        && chatRoomUsers == Subscribed(old(chatRoomUsers), room, sessionId, u)
        && journal == old(journal) + [JournalCall(room, Joined(u))]
        && outbox == old(outbox) + [ToRoom(room, JoinNotice(u))]
    {
      if sessionId in connectedUsers && destination.Some? && StartsWith(destination.value, RoomTopicPrefix) {
        var u := connectedUsers[sessionId];
        var room := SubscriptionRoom(destination.value);
        var members := if room in chatRoomUsers then chatRoomUsers[room] else map[];
        assert sessionId in members[sessionId := u];
        chatRoomUsers := chatRoomUsers[room := members[sessionId := u]];
        journal := journal + [JournalCall(room, Joined(u))];
        NotifyUserJoinedChatRoom(room, u);
      }
    }

    /** `isUserConnected` */
    function IsUserConnected(u: UserId): (r: bool)
      reads this
      ensures r <==> exists s :: s in connectedUsers && connectedUsers[s] == u
    {
      u in connectedUsers.Values
    }

    /** `getConnectedUsersInChatRoom`: the distinct users subscribed to the room. */
    function GetConnectedUsersInChatRoom(room: RoomId): (users: set<UserId>)
      reads this
      ensures room !in chatRoomUsers ==> users == {}
      ensures forall u :: u in users <==>
                room in chatRoomUsers && exists s :: s in chatRoomUsers[room] && chatRoomUsers[room][s] == u
      ensures room in chatRoomUsers ==> |users| <= |chatRoomUsers[room]|
    {
      if room in chatRoomUsers then
        ValuesAtMostKeys(chatRoomUsers[room]);
        chatRoomUsers[room].Values
      else {}
    }

    /** `isUserInChatRoom` */
    function IsUserInChatRoom(room: RoomId, u: UserId): (r: bool)
      reads this
      ensures r == (u in GetConnectedUsersInChatRoom(room))
      ensures r <==> room in RoomsWithUser(chatRoomUsers, u)
    {
      room in chatRoomUsers && u in chatRoomUsers[room].Values
    }

    /** The `forEach` over the rooms that journals `req` in each room holding u. */
    method JournalRoomsWith(u: UserId, req: EventRequest)
      modifies this`journal
      ensures |old(journal)| <= |journal| && journal[..|old(journal)|] == old(journal)
      ensures JournalOncePerRoom(journal[|old(journal)|..], RoomsWithUser(chatRoomUsers, u), req)
    {
      var rs := RoomsHolding(chatRoomUsers, u);
      JournalCallsOncePerRoom(rs, RoomsWithUser(chatRoomUsers, u), req);
      journal := journal + JournalCalls(rs, req);
      assert journal[|old(journal)|..] == JournalCalls(rs, req);
    }

    /** The `forEach` that removes the session from every room and prunes the
        rooms left empty. */
    method RemoveSessionFromRooms(s: SessionId)
      modifies this`chatRoomUsers
      ensures chatRoomUsers == WithoutSession(old(chatRoomUsers), s)
    {
      var table := chatRoomUsers;
      ghost var orig := chatRoomUsers;
      var rest := table.Keys;
      PartlyWithoutAll(orig, s);
      while rest != {}
        invariant rest <= orig.Keys
        invariant table == PartlyWithout(orig, s, rest)
        decreases rest
      {
        var r :| r in rest;
        var members := table[r] - {s};
        if members == map[] {
          table := table - {r};
        } else {
          table := table[r := members];
        }
        PartlyWithoutStep(orig, s, rest, r);
        rest := rest - {r};
      }
      PartlyWithoutNone(orig, s);
      chatRoomUsers := table;
    }

    /** `notifyUserDisconnected` */
    method NotifyUserDisconnected(u: UserId)
      modifies this`outbox
      ensures |old(outbox)| <= |outbox| && outbox[..|old(outbox)|] == old(outbox)
      ensures NoticeOncePerRoom(outbox[|old(outbox)|..], RoomsWithUser(chatRoomUsers, u), DisconnectNotice(u))
    {
      var rs := RoomsHolding(chatRoomUsers, u);
      RoomNoticesOncePerRoom(rs, RoomsWithUser(chatRoomUsers, u), DisconnectNotice(u));
      outbox := outbox + RoomNotices(rs, DisconnectNotice(u));
      assert outbox[|old(outbox)|..] == RoomNotices(rs, DisconnectNotice(u));
    }

    /** `notifyUserJoinedChatRoom` */
    method NotifyUserJoinedChatRoom(room: RoomId, u: UserId)
      modifies this`outbox
      ensures outbox == old(outbox) + [ToRoom(room, JoinNotice(u))]
      ensures outbox[|outbox| - 1].Destination() == RoomTopicPrefix + room
    {
      outbox := outbox + [ToRoom(room, JoinNotice(u))];
    }
  }
}
