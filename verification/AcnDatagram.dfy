/** An SDT/DMP datagram end to end: four layers of PDU blocks, one inside another. */
module AcnDatagram {
  import opened AcnDmp
  import opened AcnPdu
  import opened Bytes

  /** The ACN packet identifier: a preamble, a postamble size and "ASC-E1.17". */
  const PREAMBLE: seq<byte> :=
    [0x00, 0x10, 0x00, 0x00, 0x41, 0x53, 0x43, 0x2D, 0x45, 0x31, 0x2E, 0x31, 0x37, 0x00, 0x00, 0x00]

  const PROTOCOL_DMP: u32 := 2
  const SDT_RELIABLE_WRAPPER: byte := 1
  const SDT_UNRELIABLE_WRAPPER: byte := 2
  const DMP_SET_PROPERTY: byte := 2
  const DMP_GET_PROPERTY_REPLY: byte := 3
  const DMP_EVENT: byte := 4

  /** Channel, sequence numbers and acknowledgement range, in front of a wrapper's client blocks. */
  const WRAPPER_HEADER: nat := 20

  predicate Reporting(vector: byte) {
    vector == DMP_EVENT || vector == DMP_GET_PROPERTY_REPLY || vector == DMP_SET_PROPERTY
  }

  predicate Wrapping(vector: byte) {
    vector == SDT_UNRELIABLE_WRAPPER || vector == SDT_RELIABLE_WRAPPER
  }

  // ---------------------------------------------------------------- reading

  /** What one PDU of each layer contributes. */
  function FromDmp(p: Pdu): seq<Report> {
    if p.vector == [] || !Reporting(p.vector[0]) then []
    else match DecodeProperty(p.header, p.data) case Some(r) => [r] case None => []
  }

  function FromBlock(p: Pdu): seq<Report> {
    if |p.header| < 4 || U32Of(p.header[..4]) != PROTOCOL_DMP then []
    else Gather(FromDmp, Walk(p.data, 1, 1, NOTHING))
  }

  function FromSdt(p: Pdu): seq<Report> {
    if p.vector == [] || !Wrapping(p.vector[0]) || |p.data| < WRAPPER_HEADER then []
    else Gather(FromBlock, Walk(p.data[WRAPPER_HEADER..], 2, 6, NOTHING))
  }

  function FromRoot(p: Pdu): seq<Report> {
    Gather(FromSdt, Walk(p.data, 1, 0, NOTHING))
  }

  function Gather(from: Pdu -> seq<Report>, ps: seq<Pdu>): seq<Report> {
    if ps == [] then [] else from(ps[0]) + Gather(from, ps[1..])
  }

  function PropertiesIn(datagram: seq<byte>): seq<Report> {
    if PREAMBLE <= datagram then Gather(FromRoot, Walk(datagram[|PREAMBLE|..], 4, 16, NOTHING)) else []
  }

  lemma {:induction false} GatherSnoc(from: Pdu -> seq<Report>, ps: seq<Pdu>, p: Pdu)
    ensures Gather(from, ps + [p]) == Gather(from, ps) + from(p)
  {
    if ps == [] {
      assert (ps + [p])[1..] == [];
      assert Gather(from, [p]) == from(p) + [];
    } else {
      assert (ps + [p])[0] == ps[0] && (ps + [p])[1..] == ps[1..] + [p];
      GatherSnoc(from, ps[1..], p);
    }
  }

  method ReadBlock(block: Pdu) returns (out: seq<Report>)
    ensures out == FromBlock(block)
  {
    hide Walk, DecodeProperty, U32Of;
    out := [];
    if |block.header| < 4 || U32Of(block.header[..4]) != PROTOCOL_DMP {
      return;
    }
    var dmps := WalkPdus(block.data, 1, 1);
    var k := 0;
    while k < |dmps|
      invariant 0 <= k <= |dmps| && out == Gather(FromDmp, dmps[..k])
    {
      GatherSnoc(FromDmp, dmps[..k], dmps[k]);
      assert dmps[..k + 1] == dmps[..k] + [dmps[k]];
      var dmp := dmps[k];
      if dmp.vector != [] && Reporting(dmp.vector[0]) {
        var report := DecodeProperty(dmp.header, dmp.data);
        if report.Some? { out := out + [report.value]; }
      }
      k := k + 1;
    }
    assert dmps[..k] == dmps;
  }

  method ReadSdt(sdt: Pdu) returns (out: seq<Report>)
    ensures out == FromSdt(sdt)
  {
    hide Walk, FromBlock;
    out := [];
    if sdt.vector == [] || !Wrapping(sdt.vector[0]) || |sdt.data| < WRAPPER_HEADER {
      return;
    }
    var blocks := WalkPdus(sdt.data[WRAPPER_HEADER..], 2, 6);
    var k := 0;
    while k < |blocks|
      invariant 0 <= k <= |blocks| && out == Gather(FromBlock, blocks[..k])
    {
      GatherSnoc(FromBlock, blocks[..k], blocks[k]);
      assert blocks[..k + 1] == blocks[..k] + [blocks[k]];
      var reports := ReadBlock(blocks[k]);
      out := out + reports;
      k := k + 1;
    }
    assert blocks[..k] == blocks;
  }

  method ReadRoot(root: Pdu) returns (out: seq<Report>)
    ensures out == FromRoot(root)
  {
    hide Walk, FromSdt;
    out := [];
    var sdts := WalkPdus(root.data, 1, 0);
    var k := 0;
    while k < |sdts|
      invariant 0 <= k <= |sdts| && out == Gather(FromSdt, sdts[..k])
    {
      GatherSnoc(FromSdt, sdts[..k], sdts[k]);
      assert sdts[..k + 1] == sdts[..k] + [sdts[k]];
      var reports := ReadSdt(sdts[k]);
      out := out + reports;
      k := k + 1;
    }
    assert sdts[..k] == sdts;
  }

  /** Every property report in a datagram. */
  method PropertiesInDatagram(datagram: seq<byte>) returns (out: seq<Report>)
    ensures out == PropertiesIn(datagram)
  {
    hide Walk, FromRoot;
    out := [];
    if !(PREAMBLE <= datagram) {
      return;
    }
    var roots := WalkPdus(datagram[|PREAMBLE|..], 4, 16);
    var k := 0;
    while k < |roots|
      invariant 0 <= k <= |roots| && out == Gather(FromRoot, roots[..k])
    {
      GatherSnoc(FromRoot, roots[..k], roots[k]);
      assert roots[..k + 1] == roots[..k] + [roots[k]];
      var reports := ReadRoot(roots[k]);
      out := out + reports;
      k := k + 1;
    }
    assert roots[..k] == roots;
  }

  // ---------------------------------------------------------------- writing

  /** What a sender means, and how it lays each PDU out. */
  datatype Event = Event(vector: byte, report: Report, layout: Layout)

  datatype Block = Block(member: seq<byte>, protocol: u32, association: seq<byte>, events: seq<Event>, layout: Layout)

  datatype Wrapper = Wrapper(vector: byte, head: seq<byte>, blocks: seq<Block>, layout: Layout)

  datatype Root = Root(vector: seq<byte>, cid: seq<byte>, wrappers: seq<Wrapper>, layout: Layout)

  ghost predicate EventsOk(es: seq<Event>) {
    && (forall e :: e in es ==> Known(e.report))
    && AllAllowed(EventPdus(es), EventLayouts(es), 1, 1, NOTHING)
  }

  function EventPdus(es: seq<Event>): seq<Pdu>
    requires forall e :: e in es ==> Known(e.report)
  {
    seq(|es|, i requires 0 <= i < |es| => assert es[i] in es;
        Pdu([es[i].vector], [2], PutReport(es[i].report)))
  }

  function EventLayouts(es: seq<Event>): seq<Layout> {
    seq(|es|, i requires 0 <= i < |es| => es[i].layout)
  }

  ghost function PutEvents(es: seq<Event>): seq<byte>
    requires EventsOk(es)
  {
    PutBlock(EventPdus(es), EventLayouts(es))
  }

  /** The reports a block of events means: those of set property, get property reply and event messages. */
  function Meant(es: seq<Event>): seq<Report> {
    if es == [] then []
    else (if es[0].vector in {2, 3, 4} then [es[0].report] else []) + Meant(es[1..])
  }

  ghost predicate BlocksOk(bs: seq<Block>) {
    && (forall b :: b in bs ==> EventsOk(b.events) && |b.member| == 2 && |b.association| == 2)
    && AllAllowed(BlockPdus(bs), BlockLayouts(bs), 2, 6, NOTHING)
  }

  ghost function BlockPdus(bs: seq<Block>): seq<Pdu>
    requires forall b :: b in bs ==> EventsOk(b.events)
  {
    seq(|bs|, i requires 0 <= i < |bs| => assert bs[i] in bs;
        Pdu(bs[i].member, PutU32(bs[i].protocol) + bs[i].association, PutEvents(bs[i].events)))
  }

  function BlockLayouts(bs: seq<Block>): seq<Layout> {
    seq(|bs|, i requires 0 <= i < |bs| => bs[i].layout)
  }

  ghost function PutBlocks(bs: seq<Block>): seq<byte>
    requires BlocksOk(bs)
  {
    PutBlock(BlockPdus(bs), BlockLayouts(bs))
  }

  function MeantByBlocks(bs: seq<Block>): seq<Report> {
    if bs == [] then []
    else (if bs[0].protocol == 2 then Meant(bs[0].events) else []) + MeantByBlocks(bs[1..])
  }

  ghost predicate WrappersOk(ws: seq<Wrapper>) {
    && (forall w :: w in ws ==> BlocksOk(w.blocks) && |w.head| == 20)
    && AllAllowed(WrapperPdus(ws), WrapperLayouts(ws), 1, 0, NOTHING)
  }

  ghost function WrapperPdus(ws: seq<Wrapper>): seq<Pdu>
    requires forall w :: w in ws ==> BlocksOk(w.blocks)
  {
    seq(|ws|, i requires 0 <= i < |ws| => assert ws[i] in ws;
        Pdu([ws[i].vector], [], ws[i].head + PutBlocks(ws[i].blocks)))
  }

  function WrapperLayouts(ws: seq<Wrapper>): seq<Layout> {
    seq(|ws|, i requires 0 <= i < |ws| => ws[i].layout)
  }

  ghost function PutWrappers(ws: seq<Wrapper>): seq<byte>
    requires WrappersOk(ws)
  {
    PutBlock(WrapperPdus(ws), WrapperLayouts(ws))
  }

  function MeantByWrappers(ws: seq<Wrapper>): seq<Report> {
    if ws == [] then []
    else (if ws[0].vector in {1, 2} then MeantByBlocks(ws[0].blocks) else []) + MeantByWrappers(ws[1..])
  }

  ghost predicate RootsOk(rs: seq<Root>) {
    && (forall r :: r in rs ==> WrappersOk(r.wrappers))
    && AllAllowed(RootPdus(rs), RootLayouts(rs), 4, 16, NOTHING)
  }

  ghost function RootPdus(rs: seq<Root>): seq<Pdu>
    requires forall r :: r in rs ==> WrappersOk(r.wrappers)
  {
    seq(|rs|, i requires 0 <= i < |rs| => assert rs[i] in rs; Pdu(rs[i].vector, rs[i].cid, PutWrappers(rs[i].wrappers)))
  }

  function RootLayouts(rs: seq<Root>): seq<Layout> {
    seq(|rs|, i requires 0 <= i < |rs| => rs[i].layout)
  }

  ghost function PutDatagram(rs: seq<Root>): seq<byte>
    requires RootsOk(rs)
  {
    PREAMBLE + PutBlock(RootPdus(rs), RootLayouts(rs))
  }

  function MeantByRoots(rs: seq<Root>): seq<Report> {
    if rs == [] then [] else MeantByWrappers(rs[0].wrappers) + MeantByRoots(rs[1..])
  }

  // ---------------------------------------------------------------- layer by layer

  lemma {:induction false} EventsMean(es: seq<Event>)
    requires forall e :: e in es ==> Known(e.report)
    ensures Gather(FromDmp, EventPdus(es)) == Meant(es)
  {
    hide DecodeProperty, PutReport, Known;
    if es != [] {
      assert es[0] in es;
      PropertyRoundTrip(es[0].report, [2], []);
      assert PutReport(es[0].report) + [] == PutReport(es[0].report);
      assert EventPdus(es)[1..] == EventPdus(es[1..]);
      EventsMean(es[1..]);
    }
  }

  lemma BlockMeans(b: Block)
    requires EventsOk(b.events)
    ensures FromBlock(Pdu(b.member, PutU32(b.protocol) + b.association, PutEvents(b.events)))
            == if b.protocol == 2 then Meant(b.events) else []
  {
    hide PutU32, U32Of, Walk, PutBlock, AllAllowed, EventPdus, Known;
    assert (PutU32(b.protocol) + b.association)[..4] == PutU32(b.protocol);
    U32Inverse(b.protocol, PutU32(b.protocol));
    BlockRoundTrip(EventPdus(b.events), EventLayouts(b.events), 1, 1, NOTHING);
    EventsMean(b.events);
  }

  lemma {:induction false} BlocksMean(bs: seq<Block>)
    requires forall b :: b in bs ==> EventsOk(b.events)
    ensures Gather(FromBlock, BlockPdus(bs)) == MeantByBlocks(bs)
  {
    hide EventsOk, FromBlock, PutEvents, Meant, PutU32;
    if bs != [] {
      assert bs[0] in bs;
      BlockMeans(bs[0]);
      assert BlockPdus(bs)[1..] == BlockPdus(bs[1..]);
      BlocksMean(bs[1..]);
    }
  }

  lemma WrapperMeans(w: Wrapper)
    requires BlocksOk(w.blocks) && |w.head| == 20
    ensures FromSdt(Pdu([w.vector], [], w.head + PutBlocks(w.blocks)))
            == if w.vector in {1, 2} then MeantByBlocks(w.blocks) else []
  {
    hide Walk, PutBlock, AllAllowed, BlockPdus, EventsOk, FromBlock;
    assert (w.head + PutBlocks(w.blocks))[WRAPPER_HEADER..] == PutBlocks(w.blocks);
    BlockRoundTrip(BlockPdus(w.blocks), BlockLayouts(w.blocks), 2, 6, NOTHING);
    BlocksMean(w.blocks);
  }

  lemma {:induction false} WrappersMean(ws: seq<Wrapper>)
    requires forall w :: w in ws ==> BlocksOk(w.blocks) && |w.head| == 20
    ensures Gather(FromSdt, WrapperPdus(ws)) == MeantByWrappers(ws)
  {
    hide BlocksOk, FromSdt, PutBlocks, MeantByBlocks;
    if ws != [] {
      assert ws[0] in ws;
      WrapperMeans(ws[0]);
      assert WrapperPdus(ws)[1..] == WrapperPdus(ws[1..]);
      WrappersMean(ws[1..]);
    }
  }

  lemma RootMeans(r: Root)
    requires WrappersOk(r.wrappers)
    ensures FromRoot(Pdu(r.vector, r.cid, PutWrappers(r.wrappers))) == MeantByWrappers(r.wrappers)
  {
    hide Walk, PutBlock, AllAllowed, WrapperPdus, BlocksOk, FromSdt;
    BlockRoundTrip(WrapperPdus(r.wrappers), WrapperLayouts(r.wrappers), 1, 0, NOTHING);
    WrappersMean(r.wrappers);
  }

  lemma {:induction false} RootsMean(rs: seq<Root>)
    requires forall r :: r in rs ==> WrappersOk(r.wrappers)
    ensures Gather(FromRoot, RootPdus(rs)) == MeantByRoots(rs)
  {
    hide WrappersOk, FromRoot, PutWrappers, MeantByWrappers;
    if rs != [] {
      assert rs[0] in rs;
      RootMeans(rs[0]);
      assert RootPdus(rs)[1..] == RootPdus(rs[1..]);
      RootsMean(rs[1..]);
    }
  }

  /** A datagram of any reports the table knows, through all four layers and with any parts of any PDU
      left to inheritance, decodes to exactly the reports its reporting DMP blocks carry, in order. */
  lemma DatagramRoundTrip(rs: seq<Root>)
    requires RootsOk(rs)
    ensures PropertiesIn(PutDatagram(rs)) == MeantByRoots(rs)
  {
    assert AllFit(RootPdus(rs), RootLayouts(rs));
    hide Walk, PutBlock, AllAllowed, RootPdus, WrappersOk, FromRoot;
    BlockRoundTrip(RootPdus(rs), RootLayouts(rs), 4, 16, NOTHING);
    assert PutDatagram(rs)[|PREAMBLE|..] == PutBlock(RootPdus(rs), RootLayouts(rs));
    RootsMean(rs);
  }
}
