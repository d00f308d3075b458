/** Where OCP.1's fields are on the wire, octet by octet, as AES70-3 lays them out. */
module Ocp1Layout {
  import opened Bytes
  import opened Ocp1Value
  import opened Ocp1Pdu
  import opened Wrappers

  function Octet(b: seq<byte>, at: nat): int
    requires at < |b|
  {
    b[at]
  }

  /** The 16-bit big-endian number at offset `at`. */
  predicate Has16(b: seq<byte>, at: nat, v: int) {
    at + 2 <= |b| && 256 * Octet(b, at) + Octet(b, at + 1) == v
  }

  /** The 32-bit big-endian number at offset `at`. */
  predicate Has32(b: seq<byte>, at: nat, v: int) {
    at + 4 <= |b|
    && 16777216 * Octet(b, at) + 65536 * Octet(b, at + 1) + 256 * Octet(b, at + 2) + Octet(b, at + 3) == v
  }

  // ---------------------------------------------------------------- numbers

  /** Numbers are big-endian, and reading one takes its octets at their weights. */
  lemma NumbersAreBigEndian(b: seq<byte>)
    ensures |b| == 2 ==> Has16(b, 0, U16Of(b))
    ensures |b| == 4 ==> Has32(b, 0, U32Of(b))
  {}

  // ---------------------------------------------------------------- fields, one after the other

  /** What is written at offset `k` is `a` and then `rest`. */
  lemma Next(b: seq<byte>, k: nat, a: seq<byte>, rest: seq<byte>)
    requires k <= |b| && b[k..] == a + rest
    ensures k + |a| <= |b| && b[k + |a|..] == rest && b[k..k + |a|] == a
  {
    assert b[k + |a|..] == b[k..][|a|..] && b[k..k + |a|] == b[k..][..|a|];
  }

  lemma Field8(b: seq<byte>, k: nat, v: byte, rest: seq<byte>)
    requires k <= |b| && b[k..] == [v] + rest
    ensures k + 1 <= |b| && b[k] == v && b[k + 1..] == rest
  {
    Next(b, k, [v], rest);
    assert b[k] == b[k..][0];
  }

  lemma Field16(b: seq<byte>, k: nat, v: u16, rest: seq<byte>)
    requires k <= |b| && b[k..] == PutU16(v) + rest
    ensures k + 2 <= |b| && Has16(b, k, v) && b[k + 2..] == rest
  {
    Next(b, k, PutU16(v), rest);
    assert b[k] == b[k..][0] && b[k + 1] == b[k..][1];
  }

  lemma Field32(b: seq<byte>, k: nat, v: u32, rest: seq<byte>)
    requires k <= |b| && b[k..] == PutU32(v) + rest
    ensures k + 4 <= |b| && Has32(b, k, v) && b[k + 4..] == rest
  {
    Next(b, k, PutU32(v), rest);
    assert b[k] == b[k..][0] && b[k + 1] == b[k..][1] && b[k + 2] == b[k..][2] && b[k + 3] == b[k..][3];
  }

  lemma FieldMember(b: seq<byte>, k: nat, m: MemberId, rest: seq<byte>)
    requires k <= |b| && b[k..] == PutMember(m) + rest
    ensures k + 4 <= |b| && Has16(b, k, m.defLevel) && Has16(b, k + 2, m.index) && b[k + 4..] == rest
  {
    var level, index := PutU16(m.defLevel), PutU16(m.index);
    assert (level + index) + rest == level + (index + rest);
    hide PutU16, Has16;
    Field16(b, k, m.defLevel, index + rest);
    Field16(b, k + 2, m.index, rest);
  }

  /** A length-prefixed value: its length in two octets, then itself. */
  lemma FieldBytes(b: seq<byte>, k: nat, v: seq<byte>, rest: seq<byte>)
    requires k <= |b| && b[k..] == PutBytes(v) + rest && |v| < 0x1_0000
    ensures k + 2 + |v| <= |b| && Has16(b, k, |v|) && b[k + 2..k + 2 + |v|] == v && b[k + 2 + |v|..] == rest
  {
    var length := PutU16(|v|);
    assert (length + v) + rest == length + (v + rest);
    hide PutU16, Has16;
    Field16(b, k, |v|, v + rest);
    Next(b, k + 2, v, rest);
  }

  // ---------------------------------------------------------------- the header

  /** Ten octets: the synchronisation octet 0x3B, the version 1, the size of everything after the synchronisation
      octet, the type of the messages, and how many there are. */
  ghost predicate HeaderIs(pdu: seq<byte>, kind: byte, count: u16) {
    && |pdu| >= 10
    && pdu[0] == 0x3B
    && Has16(pdu, 1, 1)
    && Has32(pdu, 3, (|pdu| - 1) % 0x1_0000_0000)
    && pdu[7] == kind
    && Has16(pdu, 8, count)
  }

  /** The types' numbers. */
  function Kind(t: PduType): byte {
    match t
    case Commands => 0
    case CommandsAnswered => 1
    case Notifications => 2
    case Responses => 3
    case KeepAlives => 4
  }

  lemma HeaderLayout(t: PduType, count: u16, payload: seq<byte>)
    ensures HeaderIs(Pdu(t, count, payload), Kind(t), count) && Pdu(t, count, payload)[10..] == payload
  {
    var size := (9 + |payload|) % 0x1_0000_0000;
    var pdu := Pdu(t, count, payload);
    var a, s, c := PutU16(1), PutU32(size), PutU16(count);
    assert pdu[0..] == [0x3B] + (a + (s + ([Code(t)] + (c + payload))));
    hide PutU16, PutU32, Has16, Has32, Pdu;
    Field8(pdu, 0, 0x3B, a + (s + ([Code(t)] + (c + payload))));
    Field16(pdu, 1, 1, s + ([Code(t)] + (c + payload)));
    Field32(pdu, 3, size, [Code(t)] + (c + payload));
    Field8(pdu, 7, Code(t), c + payload);
    Field16(pdu, 8, count, payload);
  }

  // ---------------------------------------------------------------- the messages

  /** A command: size, handle, target and method from octets 10, 14, 18 and 22 on, the number of parameters in octet
      26 and the parameters after it. */
  lemma CommandLayout(m: Message, answered: bool)
    requires m.Command?
    ensures var pdu := Pdu(if answered then CommandsAnswered else Commands, 1, CommandBody(m));
            && HeaderIs(pdu, if answered then 1 else 0, 1)
            && Has32(pdu, 10, (|pdu| - 10) % 0x1_0000_0000)
            && Has32(pdu, 14, m.handle)
            && Has32(pdu, 18, m.target)
            && Has16(pdu, 22, m.member.defLevel)
            && Has16(pdu, 24, m.member.index)
            && |pdu| == 27 + |m.params| && pdu[26] == m.paramCount
            && pdu[27..] == m.params
  {
    var t := if answered then CommandsAnswered else Commands;
    var pdu := Pdu(t, 1, CommandBody(m));
    HeaderLayout(t, 1, CommandBody(m));
    var h := HeadOf(m);
    var handle, target, method', count := PutU32(m.handle), PutU32(m.target), PutMember(m.member), [m.paramCount];
    assert pdu[10..] == PutU32(h.size) + (handle + (target + (method' + (count + m.params))));
    hide PutU16, PutU32, PutMember, Has16, Has32, HeaderIs, Pdu, CommandBody;
    Field32(pdu, 10, h.size, handle + (target + (method' + (count + m.params))));
    Field32(pdu, 14, m.handle, target + (method' + (count + m.params)));
    Field32(pdu, 18, m.target, method' + (count + m.params));
    FieldMember(pdu, 22, m.member, count + m.params);
    Field8(pdu, 26, m.paramCount, m.params);
  }

  /** A response: size and handle from octets 10 and 14 on, status and number of parameters in octets 18 and 19, and
      the parameters after them. */
  lemma ResponseLayout(m: Message)
    requires m.Response?
    ensures var pdu := Pdu(Responses, 1, ResponseBody(m));
            && HeaderIs(pdu, 3, 1)
            && Has32(pdu, 10, (|pdu| - 10) % 0x1_0000_0000)
            && Has32(pdu, 14, m.handle)
            && |pdu| == 20 + |m.params| && pdu[18] == m.status && pdu[19] == m.paramCount
            && pdu[20..] == m.params
  {
    var pdu := Pdu(Responses, 1, ResponseBody(m));
    HeaderLayout(Responses, 1, ResponseBody(m));
    var size := (10 + |m.params|) % 0x1_0000_0000;
    var handle, status, count := PutU32(m.handle), [m.status], [m.paramCount];
    assert pdu[10..] == PutU32(size) + (handle + (status + (count + m.params)));
    hide PutU16, PutU32, Has16, Has32, HeaderIs, Pdu, ResponseBody;
    Field32(pdu, 10, size, handle + (status + (count + m.params)));
    Field32(pdu, 14, m.handle, status + (count + m.params));
    Field8(pdu, 18, m.status, count + m.params);
    Field8(pdu, 19, m.paramCount, m.params);
  }

  /** A heartbeat is these twelve octets. */
  lemma KeepaliveLayout(secs: u16)
    ensures Pdu(KeepAlives, 1, PutU16(secs)) == [0x3B, 0, 1, 0, 0, 0, 11, 4, 0, 1, secs / 256, secs % 256]
  {}

  /** A notification: size, target, method and number of parameters from octets 10, 14, 18 and 22 on; the length of
      its context and the context from octet 23 on; then emitter, event, property and the value. */
  lemma NotificationLayout(e: Envelope, m: Message)
    requires m.Notification? && |e.id| < 0x1_0000
    ensures var pdu := Pdu(Notifications, 1, NotificationBody(e, m)); var k := 25 + |e.id|;
            && HeaderIs(pdu, 2, 1)
            && |pdu| == k + 12 + |m.value|
            && Has32(pdu, 10, (|pdu| - 10) % 0x1_0000_0000)
            && Has32(pdu, 14, e.target)
            && Has16(pdu, 18, e.invoked.defLevel) && Has16(pdu, 20, e.invoked.index)
            && pdu[22] == e.paramCount
            && Has16(pdu, 23, |e.id|) && pdu[25..k] == e.id
            && Has32(pdu, k, m.emitter)
            && Has16(pdu, k + 4, e.event.defLevel) && Has16(pdu, k + 6, e.event.index)
            && Has16(pdu, k + 8, m.property.defLevel) && Has16(pdu, k + 10, m.property.index)
            && pdu[k + 12..] == m.value
  {
    var params := NotificationParams(e, m);
    var size := (4 + |params|) % 0x1_0000_0000;
    var pdu := Pdu(Notifications, 1, NotificationBody(e, m));
    HeaderLayout(Notifications, 1, NotificationBody(e, m));
    var emitter, event, property := PutU32(m.emitter), PutMember(e.event), PutMember(m.property);
    var about := emitter + (event + (property + m.value));
    var method', count, id := PutMember(e.invoked), [e.paramCount], PutBytes(e.id);
    assert params == PutU32(e.target) + (method' + (count + (id + about)));
    assert pdu[10..] == PutU32(size) + params;
    hide PutU16, PutU32, PutMember, PutBytes, Has16, Has32, HeaderIs, Pdu, NotificationBody, NotificationParams;
    Field32(pdu, 10, size, params);
    Field32(pdu, 14, e.target, method' + (count + (id + about)));
    FieldMember(pdu, 18, e.invoked, count + (id + about));
    Field8(pdu, 22, e.paramCount, id + about);
    FieldBytes(pdu, 23, e.id, about);
    var k := 25 + |e.id|;
    Field32(pdu, k, m.emitter, event + (property + m.value));
    FieldMember(pdu, k + 4, e.event, property + m.value);
    FieldMember(pdu, k + 8, m.property, m.value);
  }

  // ---------------------------------------------------------------- reading the header

  /** What cutting a PDU off a buffer looks at: nothing until ten octets are there; then the synchronisation octet,
      the version and a size no smaller than the header's own; and then that all of it has come. */
  lemma PduLenIs(b: seq<byte>)
    ensures |b| < 10 ==> PduLen(b) == Ok(None)
    ensures |b| >= 10 && b[0] != 0x3B ==> PduLen(b) == Err(BadSync(b[0]))
    ensures |b| >= 10 && b[0] == 0x3B && !Has16(b, 1, 1) ==> PduLen(b) == Err(BadVersion(256 * Octet(b, 1) + Octet(b, 2)))
    ensures forall size: nat :: |b| >= 10 && b[0] == 0x3B && Has16(b, 1, 1) && Has32(b, 3, size) ==>
              PduLen(b) == if size < 9 then Err(BadLength(size))
                           else if |b| <= size then Ok(None) else Ok(Some(1 + size))
  {
    if |b| >= 10 {
      NumbersAreBigEndian(b[1..3]);
      NumbersAreBigEndian(b[3..7]);
    }
  }

  /** The types are read by their numbers, and there are no others. */
  lemma KindsAre(code: byte)
    ensures forall t :: TypeOf(code) == Ok(t) <==> code == Kind(t)
    ensures code > 4 <==> TypeOf(code) == Err(UnknownPduType(code))
  {}

  /** A PDU is refused with what is wrong with its header, or for not being all there, or for a type there is none of. */
  lemma DecodeRefuses(pdu: seq<byte>)
    ensures PduLen(pdu).Err? ==> DecodePdu(pdu) == Err(PduLen(pdu).error)
    ensures PduLen(pdu) == Ok(None) ==> DecodePdu(pdu) == Err(Truncated)
    ensures PduLen(pdu).Ok? && PduLen(pdu).value.Some? && pdu[7] > 4 ==> DecodePdu(pdu) == Err(UnknownPduType(pdu[7]))
  {
    hide PduLen;
  }

  /** The documented heartbeat frame of five seconds is read as one. */
  lemma FiveSeconds()
    ensures DecodePdu([0x3B, 0, 1, 0, 0, 0, 11, 4, 0, 1, 0, 5]) == Ok([KeepAlive(5)])
  {
    KeepaliveLayout(5);
    KeepaliveRoundTrip(5);
  }
}
