/** The closed set of message kinds, their wire codes and descriptions, the
    three classification predicates and the lookup by code. */
module MessageTypes {
  import opened Base

  datatype MessageType =
    | Chat
    | UserJoined | UserLeft | UserConnected | UserDisconnected
    | RoomCreated | RoomDeleted
    | MessageRead | MessageDelivered | MessageFailed
    | SystemNotice | MaintenanceNotice
  {
    /** The code stored with a message and accepted by FromCode. */
    function Code(): string {
      match this
      case Chat => "CHAT"
      case UserJoined => "USER_JOINED"
      case UserLeft => "USER_LEFT"
      case UserConnected => "USER_CONNECTED"
      case UserDisconnected => "USER_DISCONNECTED"
      case RoomCreated => "ROOM_CREATED"
      case RoomDeleted => "ROOM_DELETED"
      case MessageRead => "MESSAGE_READ"
      case MessageDelivered => "MESSAGE_DELIVERED"
      case MessageFailed => "MESSAGE_FAILED"
      case SystemNotice => "SYSTEM_NOTICE"
      case MaintenanceNotice => "MAINTENANCE_NOTICE"
    }

    /** The human-readable text a journal record carries when no custom
        content is given. */
    function Description(): string {
      match this
      case Chat => "일반 채팅 메시지"
      case UserJoined => "사용자 입장"
      case UserLeft => "사용자 퇴장"
      case UserConnected => "사용자 연결"
      case UserDisconnected => "사용자 연결 해제"
      case RoomCreated => "채팅방 생성"
      case RoomDeleted => "채팅방 삭제"
      case MessageRead => "메시지 읽음"
      case MessageDelivered => "메시지 전달됨"
      case MessageFailed => "메시지 전송 실패"
      case SystemNotice => "시스템 공지"
      case MaintenanceNotice => "점검 공지"
    }

    predicate IsSystemEvent() {
      this != Chat
    }

    predicate IsUserAction() {
      this == UserJoined || this == UserLeft || this == MessageRead
    }

    predicate IsConnectionEvent() {
      this == UserConnected || this == UserDisconnected
    }
  }

  /** The constants in declaration order, as `values()` yields them. */
  const Values: seq<MessageType> :=
    [Chat, UserJoined, UserLeft, UserConnected, UserDisconnected, RoomCreated,
     RoomDeleted, MessageRead, MessageDelivered, MessageFailed, SystemNotice,
     MaintenanceNotice]

  /** The exception `fromCode` throws for a code no constant has. */
  datatype LookupError = UnknownMessageType(code: string)

  /** The position of the first type in `types` whose code equals `code`,
      or `|types|` when there is none. */
  function FirstWithCode(types: seq<MessageType>, code: string): (i: nat)
    ensures i <= |types|
    ensures i < |types| ==> types[i].Code() == code
    ensures forall j :: 0 <= j < i ==> types[j].Code() != code
  {
    if types == [] then 0
    else if types[0].Code() == code then 0
    else
      var i := 1 + FirstWithCode(types[1..], code);
      assert forall j :: 1 <= j < i ==> types[j] == types[1..][j - 1];
      i
  }

  /** The linear search of `fromCode`: the first type in `types` whose code
      equals `code`. */
  function FindByCode(types: seq<MessageType>, code: string): (r: Option<MessageType>)
    ensures r.Some? ==> r.value in types && r.value.Code() == code
    ensures r.None? <==> forall t :: t in types ==> t.Code() != code
    ensures r.Some? ==> exists i :: 0 <= i < |types| && types[i] == r.value &&
                          forall j :: 0 <= j < i ==> types[j].Code() != code
  {
    var i := FirstWithCode(types, code);
    if i < |types| then Some(types[i]) else None
  }

  function FromCode(code: string): (r: Result<MessageType, LookupError>)
    ensures r.Success? ==> r.value.Code() == code
    ensures r.Failure? ==> r.error == UnknownMessageType(code)
    ensures r.Failure? <==> forall t: MessageType :: t.Code() != code
  {
    ValuesComplete();
    match FindByCode(Values, code)
    case Some(t) => Success(t)
    case None => Failure(UnknownMessageType(code))
  }

  /** Every constant is listed in Values. */
  lemma ValuesComplete()
    ensures forall t: MessageType :: t in Values
  {
    forall t: MessageType ensures t in Values {
      match t
      case Chat => assert Values[0] == t;
      case UserJoined => assert Values[1] == t;
      case UserLeft => assert Values[2] == t;
      case UserConnected => assert Values[3] == t;
      case UserDisconnected => assert Values[4] == t;
      case RoomCreated => assert Values[5] == t;
      case RoomDeleted => assert Values[6] == t;
      case MessageRead => assert Values[7] == t;
      case MessageDelivered => assert Values[8] == t;
      case MessageFailed => assert Values[9] == t;
      case SystemNotice => assert Values[10] == t;
      case MaintenanceNotice => assert Values[11] == t;
    }
  }

  /** No two constants share a code. */
  lemma CodesDistinct(s: MessageType, t: MessageType)
    ensures s.Code() == t.Code() ==> s == t
  {
    if s != t {
      assert |s.Code()| != |t.Code()| || s.Code() != t.Code() by {
        match s
        case Chat => {}
        case UserJoined => {}
        case UserLeft => {}
        case UserConnected => {}
        case UserDisconnected => {}
        case RoomCreated => {}
        case RoomDeleted => {}
        case MessageRead => {}
        case MessageDelivered => {}
        case MessageFailed => {}
        case SystemNotice => {}
        case MaintenanceNotice => {}
      }
    }
  }

  /** `fromCode(t.getCode()) == t` for every constant. */
  lemma FromCodeRoundTrip(t: MessageType)
    ensures FromCode(t.Code()) == Success(t)
  {
    var r := FromCode(t.Code());
    assert r.Success?;
    CodesDistinct(r.value, t);
  }

  /** A code no constant carries is rejected. */
  lemma FromCodeRejectsUnknown(code: string)
    requires forall t: MessageType :: t.Code() != code
    ensures FromCode(code) == Failure(UnknownMessageType(code))
  {
  }

  /** The connection kinds and the user actions are disjoint system events. */
  lemma ClassificationConsistent(t: MessageType)
    ensures t.IsConnectionEvent() ==> t.IsSystemEvent() && !t.IsUserAction()
    ensures t.IsUserAction() ==> t.IsSystemEvent() && !t.IsConnectionEvent()
    ensures !t.IsSystemEvent() <==> t == Chat
  {
  }
}
