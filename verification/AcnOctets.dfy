/** E1.17 on the wire, octet by octet: how a PDU's flags and length are written and refused, how wide each property
    is, and a datagram captured from a receiver. */
module AcnOctets {
  import opened AcnDatagram
  import opened AcnDmp
  import opened AcnPdu
  import opened Bytes
  import opened Wrappers

  // ---------------------------------------------------------------- one PDU

  /** The high half of the first octet says, from its highest bit down, whether the length is long and whether vector,
      header and data are there. The rest of it and the next octet - the next two, if long - are the length of the
      whole PDU, and vector, header and data follow. */
  lemma PduOctets(p: Pdu, l: Layout)
    requires Fits(p, l)
    ensures var b := Put(p, l); var head := if l.long then 3 else 2;
            && |b| >= head
            && (b[0] / 128 == 1 <==> l.long)
            && (b[0] / 64 % 2 == 1 <==> l.vector)
            && (b[0] / 32 % 2 == 1 <==> l.header)
            && (b[0] / 16 % 2 == 1 <==> l.data)
            && |b| == Announced(b, l.long)
            && b[head..] == (if l.vector then p.vector else []) + (if l.header then p.header else [])
                            + (if l.data then p.data else [])
  {
    BodyIs(p, l);
    LengthBack(p, l, Put(p, l));
    var b, f := Put(p, l), Flags(l);
    assert 0 <= f < 16 && Long(f) == l.long && HasVector(f) == l.vector && HasHeader(f) == l.header && HasData(f) == l.data;
    HighHalf(b[0], f);
    hide Flags, Long, HasVector, HasHeader, HasData, Body, Length;
    assert b[if l.long then 3 else 2..] == Body(p, l);
  }

  /** The bits of an octet whose high half is `f`. */
  lemma HighHalf(x: byte, f: int)
    requires x / 16 == f
    ensures x / 128 == 1 <==> Long(f)
    ensures x / 64 % 2 == 1 <==> HasVector(f)
    ensures x / 32 % 2 == 1 <==> HasHeader(f)
    ensures x / 16 % 2 == 1 <==> HasData(f)
  {}

  lemma BodyIs(p: Pdu, l: Layout)
    ensures Body(p, l) == (if l.vector then p.vector else []) + (if l.header then p.header else [])
                          + (if l.data then p.data else [])
  {}

  /** The length field of a PDU. */
  function Announced(b: seq<byte>, long: bool): int
    requires |b| >= if long then 3 else 2
  {
    var first: int, second: int := b[0], b[1];
    if long then first % 16 * 65536 + second * 256 + b[2] else first % 16 * 256 + second
  }

  /** A block ends where there are not two octets more, or three for a long length, or where the length announced is
      less than its own octets or more than is there. */
  predicate EndsHere(b: seq<byte>) {
    || |b| < 2
    || (b[0] >= 128 && |b| < 3)
    || Announced(b, b[0] >= 128) < (if b[0] >= 128 then 3 else 2)
    || Announced(b, b[0] >= 128) > |b|
  }

  lemma BlockEnds(b: seq<byte>, vectorLen: nat, headerLen: nat, last: Pdu)
    ensures GetFrame(b) == None <==> EndsHere(b)
    ensures EndsHere(b) ==> Walk(b, vectorLen, headerLen, last) == []
  {
    if |b| >= 2 {
      var first: int := b[0];
      assert Long(first / 16) <==> first >= 128;
    }
  }

  /** It ends too at a PDU too short for the vector or the header it is to have. */
  lemma PartsTooShort(b: seq<byte>, vectorLen: nat, headerLen: nat, last: Pdu)
    requires !EndsHere(b)
    requires var need := (if b[0] / 64 % 2 == 1 then vectorLen else 0) + if b[0] / 32 % 2 == 1 then headerLen else 0;
             need > Announced(b, b[0] >= 128) - if b[0] >= 128 then 3 else 2
    ensures Walk(b, vectorLen, headerLen, last) == []
  {
    BlockEnds(b, vectorLen, headerLen, last);
    var first: int := b[0];
    assert Long(first / 16) <==> first >= 128;
    assert HasVector(first / 16) <==> first / 64 % 2 == 1;
    assert HasHeader(first / 16) <==> first / 32 % 2 == 1;
  }

  // ---------------------------------------------------------------- one property

  /** The properties whose width is known, by address. */
  lemma WidthsAre(address: u32)
    ensures KindOf(address) == Some(KText) <==> address in {0x01000000, 0x01000012, 0x02000001}
    ensures KindOf(address) == Some(KInt8) <==> address in {0x02000102, 0x02001100, 0x02001126}
    ensures KindOf(address) == Some(KUInt8) <==> address in {0x02000101, 0x02000815, 0x02000104}
    ensures KindOf(address) == Some(KInt16) <==> address in {0x02000812, 0x0200110A}
    ensures KindOf(address) == Some(KUInt32) <==> address == 0x02000804
    ensures KindOf(address) == Some(KInt32) <==> address == 0x02000114
  {}

  /** The number in big-endian octets, read as two's complement if `signed`. */
  function Number(b: seq<byte>, signed: bool): int {
    if b == [] then 0
    else if signed && |b| == 1 then (if b[0] < 128 then b[0] else b[0] - 256)
    else Number(b[..|b| - 1], signed) * 256 + b[|b| - 1]
  }

  lemma OneOctet(x: byte)
    ensures Number([x], false) == x && Number([x], true) == Signed(x, 0x100)
  {
    assert [x][..0] == [];
  }

  lemma NumbersAre(b: seq<byte>)
    ensures |b| == 2 ==> U16Of(b) == Number(b, false) && Signed(U16Of(b), 0x1_0000) == Number(b, true)
    ensures |b| == 4 ==> U32Of(b) == Number(b, false) && Signed(U32Of(b), 0x1_0000_0000) == Number(b, true)
  {
    if |b| == 2 {
      assert b[..1] == [b[0]];
      OneOctet(b[0]);
    }
    if |b| == 4 {
      NumbersAre(b[..2]);
      assert b[..3][..2] == b[..2];
      assert Number(b, false) == Number(b[..3], false) * 256 + b[3];
      assert Number(b, true) == Number(b[..3], true) * 256 + b[3];
      assert Number(b[..3], false) == Number(b[..2], false) * 256 + b[2];
      assert Number(b[..3], true) == Number(b[..2], true) * 256 + b[2];
    }
  }

  /** What a value's octets say, given its kind; nothing, if they are too few. */
  lemma ValuesAre(kind: PropertyKind, raw: seq<byte>)
    ensures DecodeValue(kind, raw) == match kind
            case KInt8 => if |raw| < 1 then None else Some(Int8(Number(raw[..1], true)))
            case KUInt8 => if |raw| < 1 then None else Some(UInt8(raw[0]))
            case KInt16 => if |raw| < 2 then None else Some(Int16(Number(raw[..2], true)))
            case KUInt32 => if |raw| < 4 then None else Some(UInt32(U32Of(raw[..4])))
            case KInt32 => if |raw| < 4 then None else Some(Int32(Number(raw[..4], true)))
            case KText =>
              if |raw| < 2 then None
              else if Number(raw[..2], false) < 2 then Some(Text([]))
              else if |raw| < Number(raw[..2], false) then None
              else Some(Text(raw[2..Number(raw[..2], false)]))
  {
    hide U32Of, U16Of;
    if |raw| >= 1 {
      assert raw[..1] == [raw[0]];
      OneOctet(raw[0]);
    }
    if |raw| >= 2 {
      NumbersAre(raw[..2]);
      assert raw[2..2] == [];
    }
    if |raw| >= 4 { NumbersAre(raw[..4]); }
  }

  /** A property: address form 2, four octets of address, and the value the table has a width for. Any other address
      form, an address not in the table or a value cut short is no property. */
  lemma PropertyIs(header: seq<byte>, data: seq<byte>)
    ensures header == [] || header[0] != 2 || |data| < 4 ==> DecodeProperty(header, data) == None
    ensures header != [] && header[0] == 2 && |data| >= 4 ==>
              Has4(data, U32Of(data[..4]))
              && match KindOf(U32Of(data[..4]))
                 case None => DecodeProperty(header, data) == None
                 case Some(kind) =>
                   match DecodeValue(kind, data[4..])
                   case None => DecodeProperty(header, data) == None
                   case Some(v) => DecodeProperty(header, data) == Some(Report(U32Of(data[..4]), v))
  {
    hide KindOf, DecodeValue, U32Of, Number;
    if |data| >= 4 { NumbersAre(data[..4]); }
  }

  /** Four octets of address. */
  predicate Has4(b: seq<byte>, v: u32) {
    |b| >= 4 && v == Number(b[..4], false)
  }

  // ---------------------------------------------------------------- a captured datagram

  const CID: seq<byte> := [0xDD, 0x47, 0xE0, 0xD7, 0, 0, 0x11, 0xDD, 0xA0, 0, 0, 0x0E, 0xDD, 0xCC, 0xCC, 0xCC]

  const WRAPPER_HEAD: seq<byte> :=
    [0xF1, 0x71, 0, 0, 0x1E, 0xE8, 0, 0, 0, 0x5C, 0, 0, 0, 0x5C, 0xFF, 0xFF, 0xFF, 0xFF, 0, 0]

  const EVENTS: seq<byte> :=
    [0x70, 9, 4, 2, 2, 0, 8, 0x15, 2]
    + ([0x70, 12, 4, 2, 2, 0, 1, 0x14, 0xFF, 0xFF, 0xFF, 0xCE]
    + ([0x70, 9, 4, 2, 2, 0, 1, 1, 0]
    + ([0x70, 10, 4, 2, 2, 0, 8, 0x12, 0xFF, 0xC9] + [])))

  const CLIENT_BLOCK: seq<byte> := [0x70, 0x32, 0xFF, 0xFF, 0, 0, 0, 2, 0, 0] + EVENTS

  const WRAPPED: seq<byte> := [0x70, 0x49, 2] + WRAPPER_HEAD + CLIENT_BLOCK

  /** The root layer of an event datagram from a receiver with no carrier present. */
  const CAPTURED: seq<byte> := [0x70, 0x5F, 0, 0, 0, 1] + CID + WRAPPED

  /** One event message of a property, in octets. */
  lemma EventOctets(r: Report, value: seq<byte>)
    requires Known(r) && PutValue(KindOf(r.address).value, r.value) == value && |value| <= 4
    ensures var p := Pdu([4], [2], PutReport(r));
            Fits(p, ALL_PARTS) && Put(p, ALL_PARTS) == [0x70, 8 + |value|, 4, 2] + PutU32(r.address) + value
  {
    hide KindOf, PutValue, PutU32;
    var p := Pdu([4], [2], PutReport(r));
    assert Body(p, ALL_PARTS) == [4] + ([2] + (PutU32(r.address) + value));
    assert Length(p, ALL_PARTS) == 8 + |value|;
    assert Flags(ALL_PARTS) == 7;
  }

  /** What the captured event says: the four properties it carries. */
  const INDICATOR := Report(PROP_UNRESOLVED_INDICATOR, UInt8(2))
  const RF_LEVEL := Report(PROP_RF_LEVEL_DBM, Int32(-50))
  const BARS := Report(PROP_RF_BARS, UInt8(0))
  const LEVEL := Report(PROP_UNRESOLVED_LEVEL, Int16(-55))

  function Said(r: Report): Event {
    Event(4, r, ALL_PARTS)
  }

  /** A block that leaves nothing out: its PDUs one after the other. */
  lemma {:induction false} AllPartsBlock(ps: seq<Pdu>, ls: seq<Layout>, octets: seq<seq<byte>>, vectorLen: nat, headerLen: nat,
                                         last: Pdu)
    requires |ls| == |ps| == |octets|
    requires forall k :: 0 <= k < |ps| ==> ls[k] == ALL_PARTS && WholePdu(ps[k], octets[k], vectorLen, headerLen)
    ensures AllAllowed(ps, ls, vectorLen, headerLen, last) && PutBlock(ps, ls) == Concat(octets)
    decreases |ps|
  {
    hide Put, Fits;
    if ps != [] {
      assert WholePdu(ps[0], octets[0], vectorLen, headerLen);
      AllPartsBlock(ps[1..], ls[1..], octets[1..], vectorLen, headerLen, ps[0]);
    }
  }

  predicate WholePdu(p: Pdu, octets: seq<byte>, vectorLen: nat, headerLen: nat) {
    Fits(p, ALL_PARTS) && Put(p, ALL_PARTS) == octets && |p.vector| == vectorLen && |p.header| == headerLen
  }

  lemma EventCaptured(r: Report, value: seq<byte>, octets: seq<byte>)
    requires Known(r) && PutValue(KindOf(r.address).value, r.value) == value && |value| <= 4
    requires octets == [0x70, 8 + |value|, 4, 2] + PutU32(r.address) + value
    ensures WholePdu(Pdu([4], [2], PutReport(r)), octets, 1, 1)
  {
    hide Put, Fits, Known, PutValue, KindOf, PutReport, PutU32;
    EventOctets(r, value);
  }

  const OCTETS: seq<seq<byte>> := [
    [0x70, 9, 4, 2, 2, 0, 8, 0x15, 2],
    [0x70, 12, 4, 2, 2, 0, 1, 0x14, 0xFF, 0xFF, 0xFF, 0xCE],
    [0x70, 9, 4, 2, 2, 0, 1, 1, 0],
    [0x70, 10, 4, 2, 2, 0, 8, 0x12, 0xFF, 0xC9]]

  lemma EachCaptured()
    ensures Known(INDICATOR) && WholePdu(Pdu([4], [2], PutReport(INDICATOR)), OCTETS[0], 1, 1)
    ensures Known(RF_LEVEL) && WholePdu(Pdu([4], [2], PutReport(RF_LEVEL)), OCTETS[1], 1, 1)
    ensures Known(BARS) && WholePdu(Pdu([4], [2], PutReport(BARS)), OCTETS[2], 1, 1)
    ensures Known(LEVEL) && WholePdu(Pdu([4], [2], PutReport(LEVEL)), OCTETS[3], 1, 1)
  {
    hide WholePdu, PutReport;
    EventCaptured(INDICATOR, [2], OCTETS[0]);
    EventCaptured(RF_LEVEL, [0xFF, 0xFF, 0xFF, 0xCE], OCTETS[1]);
    EventCaptured(BARS, [0], OCTETS[2]);
    EventCaptured(LEVEL, [0xFF, 0xC9], OCTETS[3]);
  }

  lemma EventsCaptured() returns (es: seq<Event>)
    ensures es == [Said(INDICATOR), Said(RF_LEVEL), Said(BARS), Said(LEVEL)]
    ensures EventsOk(es) && PutEvents(es) == EVENTS
  {
    es := [Said(INDICATOR), Said(RF_LEVEL), Said(BARS), Said(LEVEL)];
    EachCaptured();
    ConcatFour(OCTETS);
    hide WholePdu, Known, PutReport, PutBlock, AllAllowed, Concat;
    AllPartsBlock(EventPdus(es), EventLayouts(es), OCTETS, 1, 1, NOTHING);
  }

  lemma ConcatFour(s: seq<seq<byte>>)
    requires |s| == 4
    ensures Concat(s) == s[0] + (s[1] + (s[2] + (s[3] + [])))
  {
    var s1, s2, s3 := s[1..], s[1..][1..], s[1..][1..][1..];
    assert Concat(s) == s[0] + Concat(s1);
    assert Concat(s1) == s[1] + Concat(s2);
    assert Concat(s2) == s[2] + Concat(s3);
    assert Concat(s3) == s[3] + Concat(s3[1..]) && s3[1..] == [];
  }

  /** A layer of one PDU with all its parts. */
  lemma OnePdu(p: Pdu, vectorLen: nat, headerLen: nat, octets: seq<byte>)
    requires WholePdu(p, octets, vectorLen, headerLen)
    ensures AllAllowed([p], [ALL_PARTS], vectorLen, headerLen, NOTHING) && PutBlock([p], [ALL_PARTS]) == octets
  {
    hide WholePdu;
    AllPartsBlock([p], [ALL_PARTS], [octets], vectorLen, headerLen, NOTHING);
    assert [octets][1..] == [] && octets + [] == octets;
  }

  /** A PDU with all its parts, in octets. */
  lemma WholeOctets(p: Pdu)
    requires |p.vector| + |p.header| + |p.data| < 254
    ensures var n := |p.vector| + |p.header| + |p.data| + 2;
            Fits(p, ALL_PARTS) && Put(p, ALL_PARTS) == [0x70, n] + p.vector + p.header + p.data
  {
    assert Body(p, ALL_PARTS) == p.vector + p.header + p.data;
    assert Flags(ALL_PARTS) == 7;
  }

  const CLIENT := Pdu([0xFF, 0xFF], [0, 0, 0, 2, 0, 0], EVENTS)
  const WRAPPING := Pdu([2], [], WRAPPER_HEAD + CLIENT_BLOCK)
  const ROOT := Pdu([0, 0, 0, 1], CID, WRAPPED)

  lemma ClientWhole()
    ensures WholePdu(CLIENT, CLIENT_BLOCK, 2, 6)
  {
    assert |EVENTS| == 40;
    WholeOctets(CLIENT);
    assert [0x70, 0x32] + [0xFF, 0xFF] + [0, 0, 0, 2, 0, 0] == [0x70, 0x32, 0xFF, 0xFF, 0, 0, 0, 2, 0, 0];
  }

  lemma WrapperWhole()
    ensures WholePdu(WRAPPING, WRAPPED, 1, 0)
  {
    assert |EVENTS| == 40;
    WholeOctets(WRAPPING);
    assert [0x70, 0x49] + [2] + [] == [0x70, 0x49, 2];
    assert [0x70, 0x49, 2] + (WRAPPER_HEAD + CLIENT_BLOCK) == WRAPPED;
  }

  lemma RootWhole()
    ensures WholePdu(ROOT, CAPTURED, 4, 16)
  {
    assert |EVENTS| == 40 && |WRAPPED| == 73;
    WholeOctets(ROOT);
    assert [0x70, 0x5F] + [0, 0, 0, 1] == [0x70, 0x5F, 0, 0, 0, 1];
  }

  lemma BlocksCaptured(es: seq<Event>) returns (bs: seq<Block>)
    requires EventsOk(es) && PutEvents(es) == EVENTS
    ensures bs == [Block([0xFF, 0xFF], 2, [0, 0], es, ALL_PARTS)]
    ensures BlocksOk(bs) && PutBlocks(bs) == CLIENT_BLOCK
  {
    hide CLIENT_BLOCK, EVENTS, EventsOk, PutEvents, Put, Fits, PutBlock, AllAllowed, WholePdu;
    bs := [Block([0xFF, 0xFF], 2, [0, 0], es, ALL_PARTS)];
    assert PutU32(2) + [0, 0] == [0, 0, 0, 2, 0, 0];
    ClientWhole();
    assert BlockPdus(bs) == [CLIENT] && BlockLayouts(bs) == [ALL_PARTS];
    OnePdu(CLIENT, 2, 6, CLIENT_BLOCK);
  }

  lemma WrappersCaptured(bs: seq<Block>) returns (ws: seq<Wrapper>)
    requires BlocksOk(bs) && PutBlocks(bs) == CLIENT_BLOCK
    ensures ws == [Wrapper(2, WRAPPER_HEAD, bs, ALL_PARTS)]
    ensures WrappersOk(ws) && PutWrappers(ws) == WRAPPED
  {
    assert |WRAPPER_HEAD| == 20;
    hide CLIENT_BLOCK, WRAPPED, WRAPPER_HEAD, BlocksOk, PutBlocks, Put, Fits, PutBlock, AllAllowed, WholePdu;
    ws := [Wrapper(2, WRAPPER_HEAD, bs, ALL_PARTS)];
    WrapperWhole();
    assert WrapperPdus(ws) == [WRAPPING] && WrapperLayouts(ws) == [ALL_PARTS];
    OnePdu(WRAPPING, 1, 0, WRAPPED);
  }

  /** A datagram without the packet identifier is not read at all. */
  lemma OtherDatagramsAreIgnored(datagram: seq<byte>)
    ensures |PREAMBLE| == 16 && PREAMBLE[..4] == [0, 0x10, 0, 0] && PREAMBLE[13..] == [0, 0, 0]
    ensures forall i :: 0 <= i < 9 ==> PREAMBLE[4 + i] == "ASC-E1.17"[i] as int
    ensures !(PREAMBLE <= datagram) ==> PropertiesIn(datagram) == []
  {}

  /** The captured datagram decodes to what it is known to say: an indicator of 2, an RF level of -50 dBm, no RF bars
      and a level of -55. */
  lemma CapturedDecodes()
    ensures PropertiesIn(PREAMBLE + CAPTURED) == [INDICATOR, RF_LEVEL, BARS, LEVEL]
  {
    var es := EventsCaptured();
    var bs := BlocksCaptured(es);
    var ws := WrappersCaptured(bs);
    var rs := [Root([0, 0, 0, 1], CID, ws, ALL_PARTS)];
    RootCaptured(ws, rs);
    hide RootsOk, WrappersOk, PutDatagram, PropertiesIn;
    DatagramRoundTrip(rs);
    assert MeantByRoots(rs) == MeantByWrappers(ws) + MeantByRoots(rs[1..]) && rs[1..] == [];
    assert MeantByWrappers(ws) == MeantByBlocks(bs) + MeantByWrappers(ws[1..]) && ws[1..] == [];
    assert MeantByBlocks(bs) == Meant(es) + MeantByBlocks(bs[1..]) && bs[1..] == [];
    MeantCaptured(es);
  }

  lemma MeantCaptured(es: seq<Event>)
    requires es == [Said(INDICATOR), Said(RF_LEVEL), Said(BARS), Said(LEVEL)]
    ensures Meant(es) == [INDICATOR, RF_LEVEL, BARS, LEVEL]
  {
    var e1, e2, e3 := es[1..], es[1..][1..], es[1..][1..][1..];
    assert Meant(e3) == [LEVEL] + Meant(e3[1..]) && e3[1..] == [];
    assert Meant(e2) == [BARS] + Meant(e3);
    assert Meant(e1) == [RF_LEVEL] + Meant(e2);
    assert Meant(es) == [INDICATOR] + Meant(e1);
  }

  lemma RootCaptured(ws: seq<Wrapper>, rs: seq<Root>)
    requires WrappersOk(ws) && rs == [Root([0, 0, 0, 1], CID, ws, ALL_PARTS)]
    requires PutWrappers(ws) == WRAPPED
    ensures RootsOk(rs) && PutDatagram(rs) == PREAMBLE + CAPTURED
  {
    hide WRAPPED, CID, WrappersOk, PutWrappers, Put, Fits, PutBlock, AllAllowed, WholePdu;
    RootWhole();
    assert RootPdus(rs) == [ROOT] && RootLayouts(rs) == [ALL_PARTS];
    OnePdu(ROOT, 4, 16, CAPTURED);
  }
}
