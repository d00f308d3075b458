/** ANSI E1.17 PDU blocks: parts a PDU leaves out are those of the PDU before it. */
module AcnPdu {
  import opened Bytes
  import opened Wrappers

  /** One PDU with its vector and header resolved. */
  datatype Pdu = Pdu(vector: seq<byte>, header: seq<byte>, data: seq<byte>)

  /** The flags nibble: a long length, and which parts are present. */
  function Long(flags: int): bool { flags / 8 % 2 == 1 }
  function HasVector(flags: int): bool { flags / 4 % 2 == 1 }
  function HasHeader(flags: int): bool { flags / 2 % 2 == 1 }
  function HasData(flags: int): bool { flags % 2 == 1 }

  datatype Frame = Frame(flags: int, body: seq<byte>, length: nat)

  /** The length field: twenty bits over three octets, or twelve over two. */
  function LengthOf(b: seq<byte>, long: bool): nat
    requires |b| >= if long then 3 else 2
  {
    var high: int := b[0] % 16;
    var middle: int := b[1];
    if long then high * 0x1_0000 + middle * 0x100 + b[2] else high * 0x100 + middle
  }

  /** The PDU at the front of a block, if it is all there. */
  function GetFrame(b: seq<byte>): (r: Option<Frame>)
    ensures r.Some? ==> 2 <= r.value.length <= |b|
  {
    if |b| < 2 then None
    else
      var first: int := b[0];
      var flags := first / 16;
      if Long(flags) && |b| < 3 then None
      else
        var head := if Long(flags) then 3 else 2;
        var length := LengthOf(b, Long(flags));
        if length < head || length > |b| then None else Some(Frame(flags, b[head..length], length))
  }

  /** Resolves a PDU against the one before it. */
  function Resolve(f: Frame, vectorLen: nat, headerLen: nat, last: Pdu): Option<Pdu> {
    if HasVector(f.flags) && vectorLen > |f.body| then None
    else
      var vector := if HasVector(f.flags) then f.body[..vectorLen] else last.vector;
      var rest := if HasVector(f.flags) then f.body[vectorLen..] else f.body;
      if HasHeader(f.flags) && headerLen > |rest| then None
      else
        var header := if HasHeader(f.flags) then rest[..headerLen] else last.header;
        var data := if HasHeader(f.flags) then rest[headerLen..] else rest;
        Some(Pdu(vector, header, if HasData(f.flags) then data else []))
  }

  /** The PDUs of a block up to the first that is not whole. */
  function Walk(b: seq<byte>, vectorLen: nat, headerLen: nat, last: Pdu): seq<Pdu>
    decreases |b|
  {
    match GetFrame(b)
    case None => []
    case Some(f) =>
      match Resolve(f, vectorLen, headerLen, last)
      case None => []
      case Some(p) => [p] + Walk(b[f.length..], vectorLen, headerLen, p)
  }

  /** Before the first PDU there is nothing to inherit. */
  const NOTHING := Pdu([], [], [])

  method WalkPdus(buf: seq<byte>, vectorLen: nat, headerLen: nat) returns (out: seq<Pdu>)
    ensures out == Walk(buf, vectorLen, headerLen, NOTHING)
  {
    hide GetFrame, Resolve;
    out := [];
    var offset := 0;
    var last := NOTHING;
    assert buf[0..] == buf;
    while true
      invariant 0 <= offset <= |buf|
      invariant out + Walk(buf[offset..], vectorLen, headerLen, last) == Walk(buf, vectorLen, headerLen, NOTHING)
      decreases |buf| - offset
    {
      var frame := GetFrame(buf[offset..]);
      if frame.None? {
        break;
      }
      var resolved := Resolve(frame.value, vectorLen, headerLen, last);
      if resolved.None? {
        break;
      }
      ghost var rest := Walk(buf[offset..][frame.value.length..], vectorLen, headerLen, resolved.value);
      assert buf[offset..][frame.value.length..] == buf[offset + frame.value.length..];
      assert out + ([resolved.value] + rest) == (out + [resolved.value]) + rest;
      last := resolved.value;
      out := out + [last];
      offset := offset + frame.value.length;
    }
  }

  // ---------------------------------------------------------------- writing a block

  /** How one PDU is written: with a long length, and with which of its parts. */
  datatype Layout = Layout(long: bool, vector: bool, header: bool, data: bool)

  const EXPLICIT := Layout(true, true, true, true)

  function Flags(l: Layout): (f: int)
    ensures 0 <= f < 16
    ensures Long(f) == l.long && HasVector(f) == l.vector && HasHeader(f) == l.header && HasData(f) == l.data
  {
    (if l.long then 8 else 0) + (if l.vector then 4 else 0) + (if l.header then 2 else 0) + if l.data then 1 else 0
  }

  function Body(p: Pdu, l: Layout): seq<byte> {
    (if l.vector then p.vector else []) + ((if l.header then p.header else []) + if l.data then p.data else [])
  }

  function Length(p: Pdu, l: Layout): nat {
    |Body(p, l)| + if l.long then 3 else 2
  }

  /** The length fits its field: twenty bits, or twelve. */
  predicate Fits(p: Pdu, l: Layout) {
    Length(p, l) < if l.long then 0x10_0000 else 0x1000
  }

  function Put(p: Pdu, l: Layout): seq<byte>
    requires Fits(p, l)
  {
    var n := Length(p, l);
    (if l.long then [Flags(l) * 16 + n / 0x1_0000, n / 0x100 % 0x100, n % 0x100]
     else [Flags(l) * 16 + n / 0x100, n % 0x100]) + Body(p, l)
  }

  predicate AllFit(ps: seq<Pdu>, ls: seq<Layout>) {
    |ps| == |ls| && forall k :: 0 <= k < |ps| ==> Fits(ps[k], ls[k])
  }

  /** A part may be left out only where leaving it out says the same to this walk. */
  predicate Allowed(p: Pdu, l: Layout, vectorLen: nat, headerLen: nat, last: Pdu) {
    && Fits(p, l) && |p.vector| == vectorLen && |p.header| == headerLen
    && (!l.vector ==> p.vector == last.vector)
    && (!l.header ==> p.header == last.header)
    && (!l.data ==> p.data == [])
  }

  ghost predicate AllAllowed(ps: seq<Pdu>, ls: seq<Layout>, vectorLen: nat, headerLen: nat, last: Pdu)
    decreases |ps|
  {
    && AllFit(ps, ls)
    && (ps == [] || (Allowed(ps[0], ls[0], vectorLen, headerLen, last)
                     && AllAllowed(ps[1..], ls[1..], vectorLen, headerLen, ps[0])))
  }

  function PutBlock(ps: seq<Pdu>, ls: seq<Layout>): seq<byte>
    requires AllFit(ps, ls)
    decreases |ps|
  {
    if ps == [] then [] else Put(ps[0], ls[0]) + PutBlock(ps[1..], ls[1..])
  }

  lemma FrameBack(p: Pdu, l: Layout, rest: seq<byte>)
    requires Fits(p, l)
    ensures GetFrame(Put(p, l) + rest) == Some(Frame(Flags(l), Body(p, l), |Put(p, l)|))
    ensures |Put(p, l)| == Length(p, l)
  {
    hide Body, Long, HasVector, HasHeader, HasData, Flags;
    var n := Length(p, l);
    var b := Put(p, l) + rest;
    var head := if l.long then 3 else 2;
    LengthBack(p, l, b);
    assert b[head..n] == Body(p, l);
  }

  /** The octets of the length field say the length. */
  lemma LengthBack(p: Pdu, l: Layout, b: seq<byte>)
    requires Fits(p, l) && Put(p, l) <= b
    ensures |Put(p, l)| == Length(p, l) >= if l.long then 3 else 2
    ensures b[0] / 16 == Flags(l) && LengthOf(b, l.long) == Length(p, l)
  {
    hide Body, Long, HasVector, HasHeader, HasData, Flags;
    var n := Length(p, l);
    assert b[0] == Put(p, l)[0] && b[1] == Put(p, l)[1];
    if l.long { assert b[2] == Put(p, l)[2]; }
  }

  lemma ResolveBack(p: Pdu, l: Layout, vectorLen: nat, headerLen: nat, last: Pdu, length: nat)
    requires Allowed(p, l, vectorLen, headerLen, last)
    ensures Resolve(Frame(Flags(l), Body(p, l), length), vectorLen, headerLen, last) == Some(p)
  {
    hide Long, HasVector, HasHeader, HasData, Length;
    var tail := (if l.header then p.header else []) + p.data;
    assert (if l.data then p.data else []) == p.data;
    var rest := if l.vector then Body(p, l)[vectorLen..] else Body(p, l);
    assert rest == tail && (l.vector ==> Body(p, l)[..vectorLen] == p.vector);
    assert l.header ==> tail[..headerLen] == p.header && tail[headerLen..] == p.data;
    assert !l.header ==> tail == p.data;
  }

  /** Whatever a writer leaves out and however it writes lengths, the block walks to the PDUs meant. */
  lemma {:induction false} BlockRoundTrip(ps: seq<Pdu>, ls: seq<Layout>, vectorLen: nat, headerLen: nat, last: Pdu)
    requires AllAllowed(ps, ls, vectorLen, headerLen, last)
    ensures Walk(PutBlock(ps, ls), vectorLen, headerLen, last) == ps
    decreases |ps|
  {
    hide Body, Long, HasVector, HasHeader, HasData, Flags, Put, GetFrame, Resolve;
    if ps != [] {
      var rest := PutBlock(ps[1..], ls[1..]);
      FrameBack(ps[0], ls[0], rest);
      ResolveBack(ps[0], ls[0], vectorLen, headerLen, last, |Put(ps[0], ls[0])|);
      assert (Put(ps[0], ls[0]) + rest)[|Put(ps[0], ls[0])|..] == rest;
      BlockRoundTrip(ps[1..], ls[1..], vectorLen, headerLen, ps[0]);
    } else {
      NothingWalks(vectorLen, headerLen, last);
    }
  }

  lemma NothingWalks(vectorLen: nat, headerLen: nat, last: Pdu)
    ensures Walk([], vectorLen, headerLen, last) == []
  {}

  /** Inheritance preserves meaning: a block that leaves parts out walks to the same PDUs as the block
      that spells every part of every PDU out. */
  lemma InheritanceIsTransparent(ps: seq<Pdu>, ls: seq<Layout>, vectorLen: nat, headerLen: nat)
    requires AllAllowed(ps, ls, vectorLen, headerLen, NOTHING)
    requires AllAllowed(ps, seq(|ps|, _ => EXPLICIT), vectorLen, headerLen, NOTHING)
    ensures Walk(PutBlock(ps, ls), vectorLen, headerLen, NOTHING)
            == Walk(PutBlock(ps, seq(|ps|, _ => EXPLICIT)), vectorLen, headerLen, NOTHING)
            == ps
  {
    BlockRoundTrip(ps, ls, vectorLen, headerLen, NOTHING);
    BlockRoundTrip(ps, seq(|ps|, _ => EXPLICIT), vectorLen, headerLen, NOTHING);
  }

  /** A block cut short walks to the first of the PDUs the whole of it walks to, and nothing else. */
  lemma {:induction false} CutShortWalksToPrefix(b: seq<byte>, c: seq<byte>, vectorLen: nat, headerLen: nat, last: Pdu)
    ensures Walk(b, vectorLen, headerLen, last) <= Walk(b + c, vectorLen, headerLen, last)
    decreases |b|
  {
    hide Resolve;
    var f := GetFrame(b);
    if f.Some? {
      assert (b + c)[..f.value.length] == b[..f.value.length];
      var head := if Long(f.value.flags) then 3 else 2;
      assert (b + c)[head..f.value.length] == b[head..f.value.length];
      assert GetFrame(b + c) == f;
      var p := Resolve(f.value, vectorLen, headerLen, last);
      if p.Some? {
        assert (b + c)[f.value.length..] == b[f.value.length..] + c;
        CutShortWalksToPrefix(b[f.value.length..], c, vectorLen, headerLen, p.value);
      }
    }
  }

  // ---------------------------------------------------------------- data left out

  /** What ANSI E1.17 lets a sender leave out: any part that is that of the PDU before, its data too. */
  predicate StandardAllowed(p: Pdu, l: Layout, vectorLen: nat, headerLen: nat, last: Pdu) {
    && |p.vector| == vectorLen && |p.header| == headerLen
    && (!l.vector ==> p.vector == last.vector)
    && (!l.header ==> p.header == last.header)
    && (!l.data ==> p.data == last.data)
  }

  ghost predicate StandardBlock(ps: seq<Pdu>, ls: seq<Layout>, vectorLen: nat, headerLen: nat, last: Pdu)
    decreases |ps|
  {
    && AllFit(ps, ls)
    && (ps == [] || (StandardAllowed(ps[0], ls[0], vectorLen, headerLen, last)
                     && StandardBlock(ps[1..], ls[1..], vectorLen, headerLen, ps[0])))
  }

  function Written(p: Pdu, l: Layout): Pdu {
    if l.data then p else p.(data := [])
  }

  function AllWritten(ps: seq<Pdu>, ls: seq<Layout>): seq<Pdu>
    requires |ps| == |ls|
  {
    seq(|ps|, k requires 0 <= k < |ps| => Written(ps[k], ls[k]))
  }

  lemma WrittenSame(p: Pdu, l: Layout)
    ensures Fits(Written(p, l), l) <==> Fits(p, l)
    ensures Fits(p, l) ==> Put(Written(p, l), l) == Put(p, l)
  {
    assert Body(Written(p, l), l) == Body(p, l);
  }

  /** To this walk a block is the block of what is written of it. */
  lemma {:induction false} WrittenAllowed(ps: seq<Pdu>, ls: seq<Layout>, vectorLen: nat, headerLen: nat, last: Pdu, last': Pdu)
    requires StandardBlock(ps, ls, vectorLen, headerLen, last)
    requires last'.vector == last.vector && last'.header == last.header
    ensures AllAllowed(AllWritten(ps, ls), ls, vectorLen, headerLen, last')
    ensures PutBlock(AllWritten(ps, ls), ls) == PutBlock(ps, ls)
    decreases |ps|
  {
    var ws := AllWritten(ps, ls);
    hide Fits, Put;
    forall k | 0 <= k < |ws| ensures Fits(ws[k], ls[k]) { WrittenSame(ps[k], ls[k]); }
    if ps != [] {
      WrittenSame(ps[0], ls[0]);
      WrittenAllowed(ps[1..], ls[1..], vectorLen, headerLen, ps[0], ws[0]);
      assert ws[1..] == AllWritten(ps[1..], ls[1..]);
    }
  }

  /** A block that leaves data out as the standard allows walks to its PDUs without that data, and so to
      the PDUs meant exactly if every PDU whose data is left out has none. */
  lemma StandardBlockIff(ps: seq<Pdu>, ls: seq<Layout>, vectorLen: nat, headerLen: nat, last: Pdu)
    requires StandardBlock(ps, ls, vectorLen, headerLen, last)
    ensures var walked := Walk(PutBlock(ps, ls), vectorLen, headerLen, last);
            && walked == AllWritten(ps, ls)
            && (walked == ps <==> forall k :: 0 <= k < |ps| && !ls[k].data ==> ps[k].data == [])
  {
    WrittenAllowed(ps, ls, vectorLen, headerLen, last, last);
    BlockRoundTrip(AllWritten(ps, ls), ls, vectorLen, headerLen, last);
    var ws := AllWritten(ps, ls);
    if forall k :: 0 <= k < |ps| && !ls[k].data ==> ps[k].data == [] {
      assert ws == ps;
    } else {
      var k :| 0 <= k < |ps| && !ls[k].data && ps[k].data != [];
      assert ws[k].data == [];
    }
  }

  const FIRST := Pdu([2], [1], [7])
  const SECOND := Pdu([2], [9], [7])
  const ALL_PARTS := Layout(false, true, true, true)
  const HEADER_ONLY := Layout(false, false, true, false)

  lemma TwoPut()
    ensures Fits(FIRST, ALL_PARTS) && Put(FIRST, ALL_PARTS) == [0x70, 5, 2, 1, 7]
    ensures Fits(SECOND, HEADER_ONLY) && Put(SECOND, HEADER_ONLY) == [0x20, 3, 9]
  {
    assert Body(FIRST, ALL_PARTS) == [2, 1, 7] && Body(SECOND, HEADER_ONLY) == [9];
  }

  /** Two reports of one value, the second leaving the value to the first: the second arrives empty. */
  lemma InheritedDataIsLost()
    ensures var (ps, ls) := ([FIRST, SECOND], [ALL_PARTS, HEADER_ONLY]);
            && StandardBlock(ps, ls, 1, 1, NOTHING)
            && PutBlock(ps, ls) == [0x70, 5, 2, 1, 7] + [0x20, 3, 9]
            && Walk(PutBlock(ps, ls), 1, 1, NOTHING) == [FIRST, SECOND.(data := [])]
  {
    var (ps, ls) := ([FIRST, SECOND], [ALL_PARTS, HEADER_ONLY]);
    TwoPut();
    hide Put, Fits, Walk;
    assert ps[1..] == [SECOND] && ls[1..] == [HEADER_ONLY] && ps[1..][1..] == [] && ls[1..][1..] == [];
    assert StandardBlock([], [], 1, 1, SECOND);
    assert StandardBlock([SECOND], [HEADER_ONLY], 1, 1, FIRST);
    assert PutBlock([SECOND], [HEADER_ONLY]) == [0x20, 3, 9];
    StandardBlockIff(ps, ls, 1, 1, NOTHING);
    assert AllWritten(ps, ls) == [FIRST, SECOND.(data := [])];
  }
}
