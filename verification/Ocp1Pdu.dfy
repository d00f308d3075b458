/** OCP.1 PDUs: encoding, decoding, and cutting them off a stream. */
module Ocp1Pdu {
  import opened Bytes
  import opened Framing
  import opened Ocp1Value
  import opened Wrappers

  const SYNC_VAL: byte := 0x3B
  const PROTOCOL_VERSION: u16 := 1
  const HEADER_LEN := 10
  const PDU_SIZE_OVERHEAD := 9
  const SPAN32 := 0x1_0000_0000

  datatype PduType = Commands | CommandsAnswered | Notifications | Responses | KeepAlives

  datatype MemberId = MemberId(defLevel: u16, index: u16)

  datatype Message =
    | Response(handle: u32, status: byte, paramCount: byte, params: seq<byte>)
    | Notification(emitter: u32, property: MemberId, value: seq<byte>)
    | KeepAlive(heartbeatSecs: u16)
    | Command(handle: u32, target: u32, member: MemberId, paramCount: byte, params: seq<byte>)

  function Code(t: PduType): byte {
    match t
    case Commands => 0
    case CommandsAnswered => 1
    case Notifications => 2
    case Responses => 3
    case KeepAlives => 4
  }

  function TypeOf(code: byte): Result<PduType, Error> {
    if code == 0 then Ok(Commands)
    else if code == 1 then Ok(CommandsAnswered)
    else if code == 2 then Ok(Notifications)
    else if code == 3 then Ok(Responses)
    else if code == 4 then Ok(KeepAlives)
    else Err(UnknownPduType(code))
  }

  // ---------------------------------------------------------------- encoding

  /** The size field is the 32-bit cast of the payload's length and the header's own share. */
  function Header(t: PduType, payload: nat, count: u16): (h: seq<byte>)
    ensures |h| == HEADER_LEN
  {
    [SYNC_VAL] + PutU16(PROTOCOL_VERSION) + PutU32((PDU_SIZE_OVERHEAD + payload) % SPAN32) + [Code(t)] + PutU16(count)
  }

  function Pdu(t: PduType, count: u16, payload: seq<byte>): seq<byte> {
    Header(t, |payload|, count) + payload
  }

  function PutMember(m: MemberId): seq<byte> {
    PutU16(m.defLevel) + PutU16(m.index)
  }

  /** The fixed part of a command. */
  datatype CommandHead = CommandHead(size: u32, handle: u32, target: u32, member: MemberId, paramCount: byte)

  function PutCommand(h: CommandHead, params: seq<byte>): seq<byte> {
    PutU32(h.size) + (PutU32(h.handle) + (PutU32(h.target) + (PutMember(h.member) + ([h.paramCount] + params))))
  }

  function HeadOf(m: Message): CommandHead
    requires m.Command?
  {
    CommandHead((17 + |m.params|) % SPAN32, m.handle, m.target, m.member, m.paramCount)
  }

  function CommandBody(m: Message): seq<byte> {
    if m.Command? then PutCommand(HeadOf(m), m.params) else []
  }

  /** The fixed part of a response. */
  datatype ResponseHead = ResponseHead(size: u32, handle: u32, status: byte, paramCount: byte)

  function PutResponse(h: ResponseHead, params: seq<byte>): seq<byte> {
    PutU32(h.size) + (PutU32(h.handle) + ([h.status] + ([h.paramCount] + params)))
  }

  function ResponseBody(m: Message): seq<byte> {
    if m.Response? then
      PutResponse(ResponseHead((10 + |m.params|) % SPAN32, m.handle, m.status, m.paramCount), m.params)
    else []
  }

  /** What a controller is not told about in a notification. */
  datatype Envelope = Envelope(target: u32, invoked: MemberId, paramCount: byte, id: seq<byte>, event: MemberId)

  function NotificationParams(e: Envelope, m: Message): seq<byte>
    requires m.Notification?
  {
    PutU32(e.target) + (PutMember(e.invoked) + ([e.paramCount]
    + (PutBytes(e.id) + (PutU32(m.emitter) + (PutMember(e.event) + (PutMember(m.property) + m.value))))))
  }

  function NotificationBody(e: Envelope, m: Message): seq<byte> {
    if m.Notification? then
      PutU32((4 + |NotificationParams(e, m)|) % SPAN32) + NotificationParams(e, m)
    else []
  }

  method WriteHeader(w: Writer, t: PduType, payload: nat, count: u16)
    modifies w
    ensures w.buf == old(w.buf) + Header(t, payload, count)
  {
    w.U8(SYNC_VAL);
    w.U16(PROTOCOL_VERSION);
    w.U32((PDU_SIZE_OVERHEAD + payload) % SPAN32);
    w.U8(Code(t));
    w.U16(count);
  }

  method EncodeCommand(m: Message, responseRequired: bool) returns (pdu: seq<byte>)
    requires m.Command?
    ensures pdu == Pdu(if responseRequired then CommandsAnswered else Commands, 1, CommandBody(m))
  {
    var body := new Writer();
    body.U32((17 + |m.params|) % SPAN32);
    body.U32(m.handle);
    body.U32(m.target);
    body.U16(m.member.defLevel);
    body.U16(m.member.index);
    body.U8(m.paramCount);
    body.Raw(m.params);
    assert body.buf == PutCommand(HeadOf(m), m.params);
    var out := new Writer();
    WriteHeader(out, if responseRequired then CommandsAnswered else Commands, |body.buf|, 1);
    out.Raw(body.buf);
    pdu := out.buf;
  }

  method EncodeResponse(m: Message) returns (pdu: seq<byte>)
    requires m.Response?
    ensures pdu == Pdu(Responses, 1, ResponseBody(m))
  {
    var body := new Writer();
    body.U32((10 + |m.params|) % SPAN32);
    body.U32(m.handle);
    body.U8(m.status);
    body.U8(m.paramCount);
    body.Raw(m.params);
    assert body.buf == ResponseBody(m);
    var out := new Writer();
    WriteHeader(out, Responses, |body.buf|, 1);
    out.Raw(body.buf);
    pdu := out.buf;
  }

  method EncodeKeepalive(secs: u16) returns (pdu: seq<byte>)
    ensures pdu == Pdu(KeepAlives, 1, PutU16(secs))
  {
    var out := new Writer();
    WriteHeader(out, KeepAlives, 2, 1);
    out.U16(secs);
    pdu := out.buf;
  }

  // ---------------------------------------------------------------- decoding

  /** The length of the first PDU of a buffer; `None` until it has all arrived. */
  function PduLen(b: seq<byte>): (r: Result<Option<nat>, Error>)
    ensures r.Ok? && r.value.Some? ==> HEADER_LEN <= r.value.value <= |b|
  {
    if |b| < HEADER_LEN then Ok(None)
    else if b[0] != SYNC_VAL then Err(BadSync(b[0]))
    else if U16Of(b[1..3]) != PROTOCOL_VERSION then Err(BadVersion(U16Of(b[1..3])))
    else
      var size := U32Of(b[3..7]);
      if size < PDU_SIZE_OVERHEAD then Err(BadLength(size))
      else if |b| < size + 1 then Ok(None)
      else Ok(Some(size + 1))
  }

  /** Seconds as a `u16` or milliseconds as a `u32`, told apart by how many bytes are left. */
  function GetKeepalive(b: seq<byte>): Parsed<Message> {
    if |b| <= 3 then
      var (secs, b) :- GetU16(b);
      Got(KeepAlive(secs), b)
    else
      var (ms, b) :- GetU32(b);
      Got(KeepAlive((if ms / 1000 < 1 then 1 else ms / 1000) % 0x1_0000), b)
  }

  function GetMember(b: seq<byte>): Parsed<MemberId> {
    var (level, b) :- GetU16(b);
    var (index, b) :- GetU16(b);
    Got(MemberId(level, index), b)
  }

  /** The parameters of a message whose size field, counting `fixed` octets besides them, is `size`. */
  function GetParams(size: nat, fixed: nat, b: seq<byte>): Parsed<seq<byte>> {
    if size < fixed then Bad(BadLength(size)) else GetRaw(size - fixed, b)
  }

  function GetResponseHead(b: seq<byte>): Parsed<ResponseHead> {
    var (size, b) :- GetU32(b);
    var (handle, b) :- GetU32(b);
    var (status, b) :- GetU8(b);
    var (count, b) :- GetU8(b);
    Got(ResponseHead(size, handle, status, count), b)
  }

  function ResponseAfter(h: ResponseHead, b: seq<byte>): Parsed<Message> {
    var (params, b) :- GetParams(h.size, 10, b);
    Got(Response(h.handle, h.status, h.paramCount, params), b)
  }

  function GetResponse(b: seq<byte>): Parsed<Message> {
    var (head, b) :- GetResponseHead(b);
    ResponseAfter(head, b)
  }

  function GetCommandHead(b: seq<byte>): Parsed<CommandHead> {
    var (size, b) :- GetU32(b);
    var (handle, b) :- GetU32(b);
    var (target, b) :- GetU32(b);
    var (member, b) :- GetMember(b);
    var (count, b) :- GetU8(b);
    Got(CommandHead(size, handle, target, member, count), b)
  }

  function CommandAfter(h: CommandHead, b: seq<byte>): Parsed<Message> {
    var (params, b) :- GetParams(h.size, 17, b);
    Got(Command(h.handle, h.target, h.member, h.paramCount, params), b)
  }

  function GetCommand(b: seq<byte>): Parsed<Message> {
    var (head, b) :- GetCommandHead(b);
    CommandAfter(head, b)
  }

  function GetNotificationParams(b: seq<byte>): Parsed<Message> {
    var (_, b) :- GetU32(b);
    var (_, b) :- GetMember(b);
    var (_, b) :- GetU8(b);
    var (_, b) :- GetBytes(b);
    var (emitter, b) :- GetU32(b);
    var (_, b) :- GetMember(b);
    var (property, b) :- GetMember(b);
    Got(Notification(emitter, property, b), [])
  }

  function GetNotification(b: seq<byte>): Parsed<Message> {
    var (size, b) :- GetU32(b);
    var (body, b) :- GetParams(size, 4, b);
    var (m, _) :- GetNotificationParams(body);
    Got(m, b)
  }

  function Decoder(t: PduType): Item<Message> {
    match t
    case KeepAlives => GetKeepalive
    case Responses => GetResponse
    case Notifications => GetNotification
    case Commands => GetCommand
    case CommandsAnswered => GetCommand
  }

  function DecodePdu(pdu: seq<byte>): Result<seq<Message>, Error> {
    match PduLen(pdu)
    case Err(e) => Err(e)
    case Ok(None) => Err(Truncated)
    case Ok(Some(total)) =>
      match TypeOf(pdu[7])
      case Err(e) => Err(e)
      case Ok(t) =>
        match Items(Decoder(t), U16Of(pdu[8..10]), pdu[HEADER_LEN..total])
        case Got(ms, _) => Ok(ms)
        case Bad(e) => Err(e)
  }

  // ---------------------------------------------------------------- the decoder's cursor

  method ReadMember(r: Reader) returns (m: Result<MemberId, Error>)
    requires r.Valid()
    modifies r
    ensures r.Valid() && Follows(m, r.Remaining(), GetMember(old(r.Remaining())))
  {
    var level := r.U16();
    if level.Err? { return Err(level.error); }
    var index := r.U16();
    if index.Err? { return Err(index.error); }
    m := Ok(MemberId(level.value, index.value));
  }

  method ReadParams(r: Reader, size: nat, fixed: nat) returns (params: Result<seq<byte>, Error>)
    requires r.Valid()
    modifies r
    ensures r.Valid() && Follows(params, r.Remaining(), GetParams(size, fixed, old(r.Remaining())))
  {
    if size < fixed { return Err(BadLength(size)); }
    if size - fixed > |r.Remaining()| { return Err(Truncated); }
    params := Ok(r.Remaining()[..size - fixed]);
    r.Restart(size - fixed);
  }

  method DecodeKeepalive(r: Reader) returns (m: Result<Message, Error>)
    requires r.Valid()
    modifies r
    ensures r.Valid() && Follows(m, r.Remaining(), GetKeepalive(old(r.Remaining())))
  {
    if |r.Remaining()| <= 3 {
      var secs := r.U16();
      if secs.Err? { return Err(secs.error); }
      m := Ok(KeepAlive(secs.value));
    } else {
      var ms := r.U32();
      match ms {
        case Err(e) => m := Err(e);
        case Ok(v) => m := Ok(KeepAlive((if v / 1000 < 1 then 1 else v / 1000) % 0x1_0000));
      }
    }
  }

  method DecodeResponse(r: Reader) returns (m: Result<Message, Error>)
    requires r.Valid()
    modifies r
    ensures r.Valid() && Follows(m, r.Remaining(), GetResponse(old(r.Remaining())))
  {
    var size := r.U32();
    if size.Err? { return Err(size.error); }
    var handle := r.U32();
    if handle.Err? { return Err(handle.error); }
    var status := r.U8();
    if status.Err? { return Err(status.error); }
    var count := r.U8();
    if count.Err? { return Err(count.error); }
    var params := ReadParams(r, size.value, 10);
    if params.Err? { return Err(params.error); }
    m := Ok(Response(handle.value, status.value, count.value, params.value));
  }

  method DecodeCommand(r: Reader) returns (m: Result<Message, Error>)
    requires r.Valid()
    modifies r
    ensures r.Valid() && Follows(m, r.Remaining(), GetCommand(old(r.Remaining())))
  {
    var size := r.U32();
    if size.Err? { return Err(size.error); }
    var handle := r.U32();
    if handle.Err? { return Err(handle.error); }
    var target := r.U32();
    if target.Err? { return Err(target.error); }
    var member := ReadMember(r);
    if member.Err? { return Err(member.error); }
    var count := r.U8();
    if count.Err? { return Err(count.error); }
    var params := ReadParams(r, size.value, 17);
    if params.Err? { return Err(params.error); }
    m := Ok(Command(handle.value, target.value, member.value, count.value, params.value));
  }

  method DecodeNotificationParams(b: Reader) returns (m: Result<Message, Error>)
    requires b.Valid()
    modifies b
    ensures Follows(m, [], GetNotificationParams(old(b.Remaining())))
  {
    var target := b.U32();
    if target.Err? { return Err(target.error); }
    var invoked := ReadMember(b);
    if invoked.Err? { return Err(invoked.error); }
    var count := b.U8();
    if count.Err? { return Err(count.error); }
    var id := b.Bytes();
    if id.Err? { return Err(id.error); }
    var emitter := b.U32();
    if emitter.Err? { return Err(emitter.error); }
    var event := ReadMember(b);
    if event.Err? { return Err(event.error); }
    var property := ReadMember(b);
    if property.Err? { return Err(property.error); }
    m := Ok(Notification(emitter.value, property.value, b.Remaining()));
  }

  method DecodeNotification(r: Reader) returns (m: Result<Message, Error>)
    requires r.Valid()
    modifies r
    ensures r.Valid() && Follows(m, r.Remaining(), GetNotification(old(r.Remaining())))
  {
    var size := r.U32();
    if size.Err? { return Err(size.error); }
    var body := ReadParams(r, size.value, 4);
    if body.Err? { return Err(body.error); }
    var b := new Reader(body.value);
    m := DecodeNotificationParams(b);
  }

  ghost predicate Reads(item: Item<Message>, t: PduType) {
    forall b {:trigger Decoder(t)(b)} :: item(b) == Decoder(t)(b)
  }

  method DecodeNext(r: Reader, t: PduType, ghost item: Item<Message>) returns (m: Result<Message, Error>)
    requires r.Valid() && Reads(item, t)
    modifies r
    ensures r.Valid() && Follows(m, r.Remaining(), item(old(r.Remaining())))
  {
    assert item(r.Remaining()) == Decoder(t)(r.Remaining());
    match t {
      case KeepAlives => m := DecodeKeepalive(r);
      case Responses => m := DecodeResponse(r);
      case Notifications => m := DecodeNotification(r);
      case Commands => m := DecodeCommand(r);
      case CommandsAnswered => m := DecodeCommand(r);
    }
  }

  /** The messages of a payload, one after another until `count` of them are read or one fails. */
  method DecodeMessages(t: PduType, ghost item: Item<Message>, count: nat, payload: seq<byte>)
    returns (r: Result<seq<Message>, Error>)
    requires Reads(item, t)
    ensures r == match Items(item, count, payload) case Got(ms, _) => Ok(ms) case Bad(e) => Err(e)
  {
    var reader := new Reader(payload);
    var out: seq<Message> := [];
    var k := 0;
    AfterNothing(Items(item, count, payload));
    while k < count
      invariant 0 <= k <= count && reader.Valid() && fresh(reader)
      invariant Items(item, count, payload) == After(out, Items(item, count - k, reader.Remaining()))
    {
      ghost var here := reader.Remaining();
      var m := DecodeNext(reader, t, item);
      AfterItem(out, item, count - k, here, m, reader.Remaining());
      if m.Err? { return Err(m.error); }
      out := out + [m.value];
      k := k + 1;
    }
    assert out + [] == out;
    r := Ok(out);
  }

  method Decode(pdu: seq<byte>) returns (r: Result<seq<Message>, Error>)
    ensures r == DecodePdu(pdu)
  {
    var len := PduLen(pdu);
    if len.Err? { return Err(len.error); }
    if len.value.None? { return Err(Truncated); }
    var total := len.value.value;
    var kind := TypeOf(pdu[7]);
    if kind.Err? { return Err(kind.error); }
    r := DecodeMessages(kind.value, Decoder(kind.value), U16Of(pdu[8..10]), pdu[HEADER_LEN..total]);
  }

  // ---------------------------------------------------------------- whole PDUs

  /** The header of a PDU whose size fits its field says how long the PDU is, and of what. */
  lemma HeaderReads(t: PduType, count: u16, payload: seq<byte>)
    requires PDU_SIZE_OVERHEAD + |payload| < SPAN32
    ensures var pdu := Pdu(t, count, payload);
            && PduLen(pdu) == Ok(Some(|pdu|)) && |pdu| == HEADER_LEN + |payload|
            && TypeOf(pdu[7]) == Ok(t) && U16Of(pdu[8..10]) == count && pdu[HEADER_LEN..|pdu|] == payload
  {
    HeaderFields(t, count, payload);
  }

  lemma HeaderFields(t: PduType, count: u16, payload: seq<byte>)
    ensures var pdu := Pdu(t, count, payload);
            && pdu[0] == SYNC_VAL && U16Of(pdu[1..3]) == PROTOCOL_VERSION
            && U32Of(pdu[3..7]) == (PDU_SIZE_OVERHEAD + |payload|) % SPAN32
            && pdu[7] == Code(t) && U16Of(pdu[8..10]) == count && pdu[HEADER_LEN..] == payload
  {
    var pdu := Pdu(t, count, payload);
    var size := (PDU_SIZE_OVERHEAD + |payload|) % SPAN32;
    assert pdu[1..3] == PutU16(PROTOCOL_VERSION) && pdu[3..7] == PutU32(size) && pdu[8..10] == PutU16(count);
    U16Inverse(PROTOCOL_VERSION, pdu[1..3]);
    U32Inverse(size, pdu[3..7]);
    U16Inverse(count, pdu[8..10]);
  }

  lemma PduReads(t: PduType, count: u16, payload: seq<byte>)
    requires PDU_SIZE_OVERHEAD + |payload| < SPAN32
    ensures DecodePdu(Pdu(t, count, payload))
            == match Items(Decoder(t), count, payload) case Got(ms, _) => Ok(ms) case Bad(e) => Err(e)
  {
    HeaderReads(t, count, payload);
  }

  /** A PDU of any messages whose decoder undoes their encoding decodes to exactly those, in order. */
  lemma PduRoundTrip(t: PduType, put: Message -> seq<byte>, ms: seq<Message>)
    requires |ms| < 0x1_0000 && PDU_SIZE_OVERHEAD + |PutAll(put, ms)| < SPAN32
    requires forall m :: m in ms ==> Inverse(Decoder(t), put, m)
    ensures DecodePdu(Pdu(t, |ms|, PutAll(put, ms))) == Ok(ms)
  {
    HeaderReads(t, |ms|, PutAll(put, ms));
    ItemsRoundTrip(Decoder(t), put, ms, []);
    assert PutAll(put, ms) + [] == PutAll(put, ms);
  }

  lemma GetPutU8(v: byte, rest: seq<byte>)
    ensures GetU8([v] + rest) == Got(v, rest)
  {
    assert ([v] + rest)[1..] == rest;
  }

  lemma GetPutMember(m: MemberId, rest: seq<byte>)
    ensures GetMember(PutMember(m) + rest) == Got(m, rest)
  {
    assert PutMember(m) + rest == PutU16(m.defLevel) + (PutU16(m.index) + rest);
    GetPutU16(m.defLevel, PutU16(m.index) + rest);
    GetPutU16(m.index, rest);
  }

  lemma GetPutRaw(v: seq<byte>, rest: seq<byte>)
    ensures GetRaw(|v|, v + rest) == Got(v, rest)
  {}

  lemma ResponseHeadBack(h: ResponseHead, params: seq<byte>, rest: seq<byte>)
    ensures GetResponseHead(PutResponse(h, params) + rest) == Got(h, params + rest)
  {
    var p3 := [h.paramCount] + params;
    var p2 := [h.status] + p3;
    var p1 := PutU32(h.handle) + p2;
    Assoc(PutU32(h.size), p1, rest);
    GetPutU32(h.size, p1 + rest);
    Assoc(PutU32(h.handle), p2, rest);
    GetPutU32(h.handle, p2 + rest);
    Assoc([h.status], p3, rest);
    GetPutU8(h.status, p3 + rest);
    Assoc([h.paramCount], params, rest);
    GetPutU8(h.paramCount, params + rest);
  }

  lemma ResponseAfterHead(h: ResponseHead, params: seq<byte>, rest: seq<byte>)
    requires h.size == 10 + |params|
    ensures ResponseAfter(h, params + rest) == Got(Response(h.handle, h.status, h.paramCount, params), rest)
  {
    GetPutRaw(params, rest);
  }

  lemma ResponseBack(m: Message, rest: seq<byte>)
    requires m.Response? && 10 + |m.params| < SPAN32
    ensures GetResponse(ResponseBody(m) + rest) == Got(m, rest)
  {
    hide PutU32, PutU16, U32Of, U16Of;
    var h := ResponseHead(10 + |m.params|, m.handle, m.status, m.paramCount);
    ResponseHeadBack(h, m.params, rest);
    ResponseAfterHead(h, m.params, rest);
  }

  lemma ResponseInverse(m: Message)
    requires m.Response? && |ResponseBody(m)| < SPAN32
    ensures Inverse(GetResponse, ResponseBody, m)
  {
    forall rest ensures ReadsBack(GetResponse, ResponseBody, m, rest) { ResponseBack(m, rest); }
  }

  lemma CommandHeadBack(h: CommandHead, params: seq<byte>, rest: seq<byte>)
    ensures GetCommandHead(PutCommand(h, params) + rest) == Got(h, params + rest)
  {
    var p4 := [h.paramCount] + params;
    var p3 := PutMember(h.member) + p4;
    var p2 := PutU32(h.target) + p3;
    var p1 := PutU32(h.handle) + p2;
    Assoc(PutU32(h.size), p1, rest);
    GetPutU32(h.size, p1 + rest);
    Assoc(PutU32(h.handle), p2, rest);
    GetPutU32(h.handle, p2 + rest);
    Assoc(PutU32(h.target), p3, rest);
    GetPutU32(h.target, p3 + rest);
    Assoc(PutMember(h.member), p4, rest);
    GetPutMember(h.member, p4 + rest);
    Assoc([h.paramCount], params, rest);
    GetPutU8(h.paramCount, params + rest);
  }

  lemma CommandAfterHead(h: CommandHead, params: seq<byte>, rest: seq<byte>)
    requires h.size == 17 + |params|
    ensures CommandAfter(h, params + rest) == Got(Command(h.handle, h.target, h.member, h.paramCount, params), rest)
  {
    GetPutRaw(params, rest);
  }

  lemma CommandBack(m: Message, rest: seq<byte>)
    requires m.Command? && 17 + |m.params| < SPAN32
    ensures GetCommand(CommandBody(m) + rest) == Got(m, rest)
  {
    hide PutU32, PutU16, U32Of, U16Of;
    CommandHeadBack(HeadOf(m), m.params, rest);
    CommandAfterHead(HeadOf(m), m.params, rest);
  }

  lemma CommandInverse(m: Message)
    requires m.Command? && |CommandBody(m)| < SPAN32
    ensures Inverse(GetCommand, CommandBody, m)
  {
    forall rest ensures ReadsBack(GetCommand, CommandBody, m, rest) { CommandBack(m, rest); }
  }

  lemma NotificationParamsRead(e: Envelope, m: Message)
    requires m.Notification? && |e.id| < 0x1_0000
    ensures GetNotificationParams(NotificationParams(e, m)) == Got(m, [])
  {
    var b6 := PutMember(m.property) + m.value;
    var b5 := PutMember(e.event) + b6;
    var b4 := PutU32(m.emitter) + b5;
    var b3 := PutBytes(e.id) + b4;
    var b2 := [e.paramCount] + b3;
    var b1 := PutMember(e.invoked) + b2;
    GetPutU32(e.target, b1);
    GetPutMember(e.invoked, b2);
    GetPutU8(e.paramCount, b3);
    BytesRoundTripIff(e.id, b4);
    GetPutU32(m.emitter, b5);
    GetPutMember(e.event, b6);
    GetPutMember(m.property, m.value);
  }

  lemma {:induction false} EachFits(put: Message -> seq<byte>, ms: seq<Message>, m: Message)
    requires m in ms
    ensures |put(m)| <= |PutAll(put, ms)|
  {
    if m != ms[0] { EachFits(put, ms[1..], m); }
  }

  /** A response PDU carrying any responses decodes to them in order, within the size fields. */
  lemma ResponsesRoundTrip(ms: seq<Message>)
    requires |ms| < 0x1_0000 && PDU_SIZE_OVERHEAD + |PutAll(ResponseBody, ms)| < SPAN32
    requires forall m :: m in ms ==> m.Response?
    ensures DecodePdu(Pdu(Responses, |ms|, PutAll(ResponseBody, ms))) == Ok(ms)
  {
    forall m | m in ms ensures Inverse(Decoder(Responses), ResponseBody, m) {
      EachFits(ResponseBody, ms, m);
      ResponseInverse(m);
    }
    PduRoundTrip(Responses, ResponseBody, ms);
  }

  lemma CommandsRoundTrip(ms: seq<Message>, t: PduType)
    requires |ms| < 0x1_0000 && PDU_SIZE_OVERHEAD + |PutAll(CommandBody, ms)| < SPAN32
    requires (t.Commands? || t.CommandsAnswered?) && forall m :: m in ms ==> m.Command?
    ensures DecodePdu(Pdu(t, |ms|, PutAll(CommandBody, ms))) == Ok(ms)
  {
    forall m | m in ms ensures Inverse(Decoder(t), CommandBody, m) {
      EachFits(CommandBody, ms, m);
      CommandInverse(m);
    }
    PduRoundTrip(t, CommandBody, ms);
  }

  /** Notifications come through whatever the fields a controller does not look at say. */
  lemma NotificationsRoundTrip(ms: seq<Message>, e: Envelope)
    requires |ms| < 0x1_0000 && |e.id| < 0x1_0000
    requires PDU_SIZE_OVERHEAD + |PutAll(m => NotificationBody(e, m), ms)| < SPAN32
    requires forall m :: m in ms ==> m.Notification?
    ensures DecodePdu(Pdu(Notifications, |ms|, PutAll(m => NotificationBody(e, m), ms))) == Ok(ms)
  {
    var put := m => NotificationBody(e, m);
    forall m | m in ms ensures Inverse(Decoder(Notifications), put, m) {
      EachFits(put, ms, m);
      forall rest ensures ReadsBack(GetNotification, put, m, rest) { NotificationReads(e, m, rest); }
    }
    PduRoundTrip(Notifications, put, ms);
  }

  lemma NotificationReads(e: Envelope, m: Message, rest: seq<byte>)
    requires m.Notification? && |e.id| < 0x1_0000 && 4 + |NotificationParams(e, m)| < SPAN32
    ensures GetNotification(NotificationBody(e, m) + rest) == Got(m, rest)
  {
    hide PutU32, PutU16, U32Of, U16Of, NotificationParams, GetNotificationParams;
    var params := NotificationParams(e, m);
    Assoc(PutU32(4 + |params|), params, rest);
    GetPutU32(4 + |params|, params + rest);
    GetPutRaw(params, rest);
    NotificationParamsRead(e, m);
  }

  /** A command sent comes back from the decoder as itself exactly if the PDU's size fits the field
      it is cast to. */
  lemma CommandRoundTripIff(m: Message, t: PduType)
    requires m.Command? && (t.Commands? || t.CommandsAnswered?)
    ensures DecodePdu(Pdu(t, 1, CommandBody(m))) == Ok([m]) <==> HEADER_LEN + 17 + |m.params| <= SPAN32
  {
    assert PutAll(CommandBody, [m]) == CommandBody(m) by { assert CommandBody(m) + [] == CommandBody(m); }
    if HEADER_LEN + 17 + |m.params| <= SPAN32 {
      CommandsRoundTrip([m], t);
    } else {
      HeaderFields(t, 1, CommandBody(m));
      OversizedCommand(m, t);
    }
  }

  /** What an oversized command's truncated size fields decode to is shorter than what was sent. */
  lemma OversizedCommand(m: Message, t: PduType)
    requires m.Command? && (t.Commands? || t.CommandsAnswered?) && HEADER_LEN + 17 + |m.params| > SPAN32
    ensures DecodePdu(Pdu(t, 1, CommandBody(m))) != Ok([m])
  {
    var pdu := Pdu(t, 1, CommandBody(m));
    HeaderFields(t, 1, CommandBody(m));
    var len := PduLen(pdu);
    if len.Ok? && len.value.Some? {
      var body := pdu[HEADER_LEN..len.value.value];
      assert TypeOf(pdu[7]) == Ok(t) && |body| < 17 + |m.params|;
      ShortBody(body, m);
    }
  }

  /** No body too short to hold a command's parameters decodes to it. */
  lemma ShortBody(body: seq<byte>, m: Message)
    requires m.Command? && |body| < 17 + |m.params|
    ensures !(Items(GetCommand, 1, body).Got? && Items(GetCommand, 1, body).value == [m])
  {
    OneItem(GetCommand, body);
    if GetCommand(body).Got? { ParamsAreWithin(body); }
  }

  lemma ParamsAreWithin(body: seq<byte>)
    requires GetCommand(body).Got?
    ensures |GetCommand(body).value.params| + 17 <= |body|
  {}

  /** The same of a response. */
  lemma ResponseRoundTripIff(m: Message)
    requires m.Response?
    ensures DecodePdu(Pdu(Responses, 1, ResponseBody(m))) == Ok([m]) <==> HEADER_LEN + 10 + |m.params| <= SPAN32
  {
    assert PutAll(ResponseBody, [m]) == ResponseBody(m) by { assert ResponseBody(m) + [] == ResponseBody(m); }
    if HEADER_LEN + 10 + |m.params| <= SPAN32 {
      ResponsesRoundTrip([m]);
    } else {
      OversizedResponse(m);
    }
  }

  lemma OversizedResponse(m: Message)
    requires m.Response? && HEADER_LEN + 10 + |m.params| > SPAN32
    ensures DecodePdu(Pdu(Responses, 1, ResponseBody(m))) != Ok([m])
  {
    var pdu := Pdu(Responses, 1, ResponseBody(m));
    HeaderFields(Responses, 1, ResponseBody(m));
    var len := PduLen(pdu);
    if len.Ok? && len.value.Some? {
      var body := pdu[HEADER_LEN..len.value.value];
      assert TypeOf(pdu[7]) == Ok(Responses) && |body| < 10 + |m.params|;
      OneItem(GetResponse, body);
      if GetResponse(body).Got? { ResponseParamsAreWithin(body); }
    }
  }

  lemma ResponseParamsAreWithin(body: seq<byte>)
    requires GetResponse(body).Got?
    ensures |GetResponse(body).value.params| + 10 <= |body|
  {}

  /** A heartbeat sent is the heartbeat received. */
  lemma KeepaliveRoundTrip(secs: u16)
    ensures DecodePdu(Pdu(KeepAlives, 1, PutU16(secs))) == Ok([KeepAlive(secs)])
  {
    HeaderReads(KeepAlives, 1, PutU16(secs));
    GetPutU16(secs, []);
    assert PutU16(secs) + [] == PutU16(secs);
    OneItem(GetKeepalive, PutU16(secs));
  }

  /** A heartbeat in milliseconds is rounded down to seconds, but never to none - until the seconds
      no longer fit sixteen bits. */
  lemma MillisecondsRead(ms: u32)
    ensures DecodePdu(Pdu(KeepAlives, 1, PutU32(ms))) == Ok([KeepAlive(if ms < 1000 then 1 else ms / 1000 % 0x1_0000)])
  {
    HeaderReads(KeepAlives, 1, PutU32(ms));
    GetPutU32(ms, []);
    assert PutU32(ms) + [] == PutU32(ms);
    OneItem(GetKeepalive, PutU32(ms));
  }

  function PutHeartbeat(m: Message): seq<byte> {
    if m.KeepAlive? then PutU16(m.heartbeatSecs) else []
  }

  lemma {:induction false} KeepalivesNeed(count: nat, b: seq<byte>)
    requires Items(GetKeepalive, count, b).Got?
    ensures |b| >= 2 * count && (count > 1 ==> |b| >= 2 * count + 2)
    decreases count
  {
    if count > 0 { KeepalivesNeed(count - 1, GetKeepalive(b).rest); }
  }

  lemma {:induction false} HeartbeatsLength(ms: seq<Message>)
    requires forall m :: m in ms ==> m.KeepAlive?
    ensures |PutAll(PutHeartbeat, ms)| == 2 * |ms|
  {
    if ms != [] { HeartbeatsLength(ms[1..]); }
  }

  lemma ManyHeartbeats(count: u16, payload: seq<byte>)
    requires count >= 2 && |payload| == 2 * count
    ensures DecodePdu(Pdu(KeepAlives, count, payload)).Err?
  {
    PduReads(KeepAlives, count, payload);
    if Items(GetKeepalive, count, payload).Got? { KeepalivesNeed(count, payload); }
  }

  lemma NoHeartbeats()
    ensures DecodePdu(Pdu(KeepAlives, 0, [])) == Ok([])
  {
    PduReads(KeepAlives, 0, []);
  }

  lemma OneHeartbeat(ms: seq<Message>)
    requires |ms| == 1 && ms[0].KeepAlive?
    ensures DecodePdu(Pdu(KeepAlives, 1, PutAll(PutHeartbeat, ms))) == Ok(ms)
  {
    assert ms[1..] == [] && PutU16(ms[0].heartbeatSecs) + [] == PutU16(ms[0].heartbeatSecs);
    KeepaliveRoundTrip(ms[0].heartbeatSecs);
    assert ms == [KeepAlive(ms[0].heartbeatSecs)];
  }

  /** Heartbeats in seconds survive only one to a PDU: two of them look like milliseconds. */
  lemma KeepalivesRoundTripIff(ms: seq<Message>)
    requires |ms| < 0x1_0000 && forall m :: m in ms ==> m.KeepAlive?
    ensures DecodePdu(Pdu(KeepAlives, |ms|, PutAll(PutHeartbeat, ms))) == Ok(ms) <==> |ms| <= 1
  {
    HeartbeatsLength(ms);
    var payload := PutAll(PutHeartbeat, ms);
    if |ms| == 0 {
      NoHeartbeats();
    } else if |ms| == 1 {
      OneHeartbeat(ms);
    } else {
      ManyHeartbeats(|ms|, payload);
    }
  }

  // ---------------------------------------------------------------- the stream

  /** One turn of the reader's inner loop: a whole PDU is cut off and decoded, one that does not decode
      is skipped, and a header that makes no sense ends the stream. */
  function ReadStep(s: (), b: seq<byte>): Cut<(), Message> {
    match PduLen(b)
    case Err(_) => Stop
    case Ok(None) => More
    case Ok(Some(n)) => Take(n, (), match DecodePdu(b[..n]) case Ok(ms) => ms case Err(_) => [])
  }

  lemma ReadStepStable()
    ensures Stable(ReadStep) && ReadStep((), []).More?
  {
    forall s, b ensures Cuts(ReadStep, s, b) {}
    forall s, b, c ensures Extends(ReadStep, s, b, c) { ReadStepExtends(s, b, c); }
  }

  lemma ReadStepExtends(s: (), b: seq<byte>, c: seq<byte>)
    ensures ReadStep(s, b).More? || ReadStep(s, b + c) == ReadStep(s, b)
  {
    if !ReadStep(s, b).More? {
      assert (b + c)[1..3] == b[1..3] && (b + c)[3..7] == b[3..7];
      if ReadStep(s, b).Take? {
        var n := ReadStep(s, b).n;
        assert (b + c)[..n] == b[..n];
      }
    }
  }

  predicate Frame(f: seq<byte>) {
    PduLen(f) == Ok(Some(|f|))
  }

  function Decoded(f: seq<byte>): seq<Message> {
    match DecodePdu(f) case Ok(ms) => ms case Err(_) => []
  }

  lemma FrameStep(f: seq<byte>)
    requires Frame(f)
    ensures CutsWhole(ReadStep, (), f, (), Decoded(f))
  {
    assert f[..|f|] == f;
  }

  /** A stream of PDUs is decoded frame by frame: a body that does not decode costs its own messages
      and nothing after it. */
  lemma FramesAreIndependent(fs: seq<seq<byte>>, tail: seq<byte>)
    requires forall f :: f in fs ==> Frame(f)
    ensures Stable(ReadStep)
    ensures Drain(ReadStep, (), Concat(fs) + tail)
            == Prepend(Concat(seq(|fs|, i requires 0 <= i < |fs| => Decoded(fs[i]))), Drain(ReadStep, (), tail))
  {
    ReadStepStable();
    var outs := seq(|fs|, i requires 0 <= i < |fs| => Decoded(fs[i]));
    var states := seq(|fs| + 1, i => ());
    forall k | 0 <= k < |fs| ensures CutsWhole(ReadStep, states[k], fs[k], states[k + 1], outs[k]) {
      FrameStep(fs[k]);
    }
    PiecesDrain(ReadStep, states, fs, outs, tail);
  }

  /** The messages a stream dispatches depend on its bytes and not on how they arrive. */
  lemma ReaderIgnoresChunking(chunks: seq<seq<byte>>)
    ensures Stable(ReadStep)
    ensures SameStream(FeedAll(ReadStep, Drained((), [], [], false), chunks), Drain(ReadStep, (), Concat(chunks)))
  {
    ReadStepStable();
    ChunksDontMatter(ReadStep, (), chunks);
  }
}
