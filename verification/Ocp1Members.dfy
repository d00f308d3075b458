/** The two forms a device's member list can come in, and telling them apart. */
module Ocp1Members {
  import opened Bytes
  import opened Ocp1Value
  import opened Wrappers

  datatype ClassId = ClassId(fields: seq<u16>, version: u32) {
    /** Only `OcaBlock` itself counts as a container. */
    predicate IsBlock() {
      fields == [1, 1, 3]
    }
  }

  datatype Member = Member(ono: u32, cls: Option<ClassId>)

  /** An object number with its class inline; a class of no fields is padding misread as a class. */
  function GetIdentification(b: seq<byte>): Parsed<Member> {
    var (ono, b) :- GetU32(b);
    var (fields, b) :- GetList(GetU16, b);
    var (version, b) :- GetU32(b);
    if fields == [] then Bad(Truncated) else Got(Member(ono, Some(ClassId(fields, version))), b)
  }

  function GetBareOno(b: seq<byte>): Parsed<Member> {
    var (ono, b) :- GetU32(b);
    Got(Member(ono, None), b)
  }

  function PutFields(fields: seq<u16>): seq<byte> {
    PutU16(|fields| % 0x1_0000) + PutAll(PutU16, fields)
  }

  function PutIdentification(m: Member): seq<byte> {
    if m.cls.Some? then PutU32(m.ono) + (PutFields(m.cls.value.fields) + PutU32(m.cls.value.version)) else []
  }

  function PutBareOno(m: Member): seq<byte> {
    PutU32(m.ono)
  }

  /** A list taken only if it accounts for the whole buffer. */
  function Whole(p: Parsed<seq<Member>>): Option<seq<Member>> {
    match p
    case Got(ms, rest) => if rest == [] then Some(ms) else None
    case Bad(_) => None
  }

  /** The richer form if it fits, else the plain one if that does, else nothing. */
  function ParseMembers(params: seq<byte>): seq<Member> {
    match Whole(GetList(GetIdentification, params))
    case Some(ms) => ms
    case None =>
      match Whole(GetList(GetBareOno, params))
      case Some(ms) => ms
      case None => []
  }

  function RichForm(ms: seq<Member>): seq<byte> {
    PutU16(|ms| % 0x1_0000) + PutAll(PutIdentification, ms)
  }

  function BareForm(ms: seq<Member>): seq<byte> {
    PutU16(|ms| % 0x1_0000) + PutAll(PutBareOno, ms)
  }

  predicate Classified(m: Member) {
    m.cls.Some? && 0 < |m.cls.value.fields| < 0x1_0000
  }

  predicate Unclassified(m: Member) {
    m.cls.None?
  }

  // ---------------------------------------------------------------- each form alone

  lemma U16Items()
    ensures forall v: u16 :: Inverse(GetU16, PutU16, v)
    ensures Canonical(GetU16, PutU16)
  {
    forall v: u16, rest ensures ReadsBack(GetU16, PutU16, v, rest) { GetPutU16(v, rest); }
    forall b ensures WritesBack(GetU16, PutU16, b) { if GetU16(b).Got? { PutGetU16(b); } }
  }

  lemma IdentificationInverse(m: Member)
    requires Classified(m)
    ensures Inverse(GetIdentification, PutIdentification, m)
  {
    forall rest ensures ReadsBack(GetIdentification, PutIdentification, m, rest) { IdentificationBack(m, rest); }
  }

  lemma IdentificationBack(m: Member, rest: seq<byte>)
    requires Classified(m)
    ensures GetIdentification(PutIdentification(m) + rest) == Got(m, rest)
  {
    hide PutU32, PutU16, U32Of, U16Of;
    var c := m.cls.value;
    U16Items();
    var b2 := PutU32(c.version) + rest;
    var b1 := PutFields(c.fields) + b2;
    assert PutIdentification(m) + rest == PutU32(m.ono) + b1;
    GetPutU32(m.ono, b1);
    ListRoundTrip(GetU16, PutU16, c.fields, b2);
    GetPutU32(c.version, rest);
  }

  lemma IdentificationCanonical(b: seq<byte>)
    requires GetIdentification(b).Got?
    ensures var r := GetIdentification(b);
            Classified(r.value) && b == PutIdentification(r.value) + r.rest && |b| >= 12 + |r.rest|
  {
    hide PutU32, PutU16, U32Of, U16Of;
    U16Items();
    var ono := GetU32(b);
    var fields := GetList(GetU16, ono.rest);
    var version := GetU32(fields.rest);
    assert GetIdentification(b) == Got(Member(ono.value, Some(ClassId(fields.value, version.value))), version.rest);
    PutGetU32(b);
    ListCanonical(GetU16, PutU16, ono.rest);
    PutGetU32(fields.rest);
    FieldsLength(fields.value);
    Joined(b, PutU32(ono.value), ono.rest, PutFields(fields.value), fields.rest, PutU32(version.value), version.rest);
  }

  lemma Joined(b: seq<byte>, x: seq<byte>, b1: seq<byte>, y: seq<byte>, b2: seq<byte>, z: seq<byte>, b3: seq<byte>)
    requires b == x + b1 && b1 == y + b2 && b2 == z + b3
    ensures b == (x + (y + z)) + b3
  {}

  lemma {:induction false} FieldsLength(fields: seq<u16>)
    ensures |PutAll(PutU16, fields)| == 2 * |fields|
  {
    if fields != [] { FieldsLength(fields[1..]); }
  }

  lemma BareOnoInverse(m: Member)
    requires Unclassified(m)
    ensures Inverse(GetBareOno, PutBareOno, m)
  {
    forall rest ensures ReadsBack(GetBareOno, PutBareOno, m, rest) { GetPutU32(m.ono, rest); }
  }

  lemma BareOnoCanonical(b: seq<byte>)
    requires GetBareOno(b).Got?
    ensures var r := GetBareOno(b); Unclassified(r.value) && b == PutBareOno(r.value) + r.rest
  {
    PutGetU32(b);
  }

  lemma {:induction false} BareLength(ms: seq<Member>)
    ensures |PutAll(PutBareOno, ms)| == 4 * |ms|
  {
    if ms != [] { BareLength(ms[1..]); }
  }

  /** Identifications take at least twelve octets each. */
  lemma {:induction false} IdentificationsNeed(count: nat, b: seq<byte>)
    requires Items(GetIdentification, count, b).Got?
    ensures |b| >= 12 * count
    decreases count
  {
    if count > 0 {
      IdentificationCanonical(b);
      IdentificationsNeed(count - 1, GetIdentification(b).rest);
    }
  }

  // ---------------------------------------------------------------- telling them apart

  lemma WholeRoundTrip(item: Item<Member>, put: Member -> seq<byte>, ms: seq<Member>)
    requires |ms| < 0x1_0000 && forall m :: m in ms ==> Inverse(item, put, m)
    ensures Whole(GetList(item, PutU16(|ms|) + PutAll(put, ms))) == Some(ms)
  {
    ListRoundTrip(item, put, ms, []);
    assert PutU16(|ms|) + PutAll(put, ms) + [] == PutU16(|ms|) + PutAll(put, ms);
  }

  /** Every list of classified members parses back to itself. */
  lemma RichFormParses(ms: seq<Member>)
    requires |ms| < 0x1_0000 && forall m :: m in ms ==> Classified(m)
    ensures ParseMembers(RichForm(ms)) == ms
  {
    hide PutU32, PutU16, U32Of, U16Of;
    forall m | m in ms ensures Inverse(GetIdentification, PutIdentification, m) { IdentificationInverse(m); }
    WholeRoundTrip(GetIdentification, PutIdentification, ms);
  }

  /** A list of one or more bare numbers is too short to be read as identifications. */
  lemma BareIsNotRich(ms: seq<Member>)
    requires 0 < |ms| < 0x1_0000
    ensures GetList(GetIdentification, BareForm(ms)).Bad?
  {
    hide PutU32, PutU16, U32Of, U16Of;
    BareLength(ms);
    GetPutU16(|ms|, PutAll(PutBareOno, ms));
    if Items(GetIdentification, |ms|, PutAll(PutBareOno, ms)).Got? {
      IdentificationsNeed(|ms|, PutAll(PutBareOno, ms));
    }
  }

  /** So is every list of bare numbers. */
  lemma BareFormParses(ms: seq<Member>)
    requires |ms| < 0x1_0000 && forall m :: m in ms ==> Unclassified(m)
    ensures ParseMembers(BareForm(ms)) == ms
  {
    hide PutU32, PutU16, U32Of, U16Of;
    if ms == [] {
      assert BareForm(ms) == RichForm(ms);
      RichFormParses([]);
    } else {
      BareIsNotRich(ms);
      forall m | m in ms ensures Inverse(GetBareOno, PutBareOno, m) { BareOnoInverse(m); }
      WholeRoundTrip(GetBareOno, PutBareOno, ms);
    }
  }

  ghost predicate YieldsAt(item: Item<Member>, p: Member -> bool, b: seq<byte>) {
    item(b).Got? ==> p(item(b).value)
  }

  ghost predicate Yields(item: Item<Member>, p: Member -> bool) {
    forall b :: YieldsAt(item, p, b)
  }

  lemma {:induction false} ItemsAre(item: Item<Member>, p: Member -> bool, count: nat, b: seq<byte>)
    requires Items(item, count, b).Got? && Yields(item, p)
    ensures forall m :: m in Items(item, count, b).value ==> p(m)
    decreases count
  {
    if count > 0 {
      assert YieldsAt(item, p, b);
      ItemsAre(item, p, count - 1, item(b).rest);
    }
  }

  /** Nothing is ever made up: a reply that yields members is, octet for octet, one of the two forms of
      exactly those members. */
  lemma ParsedMembersWereSent(b: seq<byte>)
    ensures var ms := ParseMembers(b);
            || ms == []
            || (b == RichForm(ms) && forall m :: m in ms ==> Classified(m))
            || (b == BareForm(ms) && forall m :: m in ms ==> Unclassified(m))
  {
    var rich := GetList(GetIdentification, b);
    var bare := GetList(GetBareOno, b);
    if Whole(rich).Some? {
      RichWasSent(b, Whole(rich).value);
    } else if Whole(bare).Some? {
      BareWasSent(b, Whole(bare).value);
    }
  }

  lemma IdentificationsCanonical()
    ensures Canonical(GetIdentification, PutIdentification) && Yields(GetIdentification, Classified)
  {
    forall b ensures WritesBack(GetIdentification, PutIdentification, b) && YieldsAt(GetIdentification, Classified, b) {
      if GetIdentification(b).Got? { IdentificationCanonical(b); }
    }
  }

  lemma WholeWasSent(item: Item<Member>, put: Member -> seq<byte>, p: Member -> bool, b: seq<byte>, ms: seq<Member>)
    requires Canonical(item, put) && Yields(item, p) && Whole(GetList(item, b)) == Some(ms)
    ensures |ms| < 0x1_0000 && b == PutU16(|ms|) + PutAll(put, ms) && forall m :: m in ms ==> p(m)
  {
    ListCanonical(item, put, b);
    ItemsAre(item, p, GetU16(b).value, GetU16(b).rest);
    assert PutU16(|ms|) + PutAll(put, ms) + [] == PutU16(|ms|) + PutAll(put, ms);
  }

  lemma RichWasSent(b: seq<byte>, ms: seq<Member>)
    requires Whole(GetList(GetIdentification, b)) == Some(ms)
    ensures b == RichForm(ms) && forall m :: m in ms ==> Classified(m)
  {
    hide PutU32, PutU16, U32Of, U16Of;
    IdentificationsCanonical();
    WholeWasSent(GetIdentification, PutIdentification, Classified, b, ms);
  }

  lemma BareWasSent(b: seq<byte>, ms: seq<Member>)
    requires Whole(GetList(GetBareOno, b)) == Some(ms)
    ensures b == BareForm(ms) && forall m :: m in ms ==> Unclassified(m)
  {
    forall b' ensures WritesBack(GetBareOno, PutBareOno, b') && YieldsAt(GetBareOno, Unclassified, b') {
      if GetBareOno(b').Got? { BareOnoCanonical(b'); }
    }
    WholeWasSent(GetBareOno, PutBareOno, Unclassified, b, ms);
  }

  // ---------------------------------------------------------------- the parser's cursor

  method ReadIdentification(r: Reader) returns (m: Result<Member, Error>)
    requires r.Valid()
    modifies r
    ensures r.Valid() && Follows(m, r.Remaining(), GetIdentification(old(r.Remaining())))
  {
    var ono := r.U32();
    if ono.Err? { return Err(ono.error); }
    var fields := r.ListOfU16();
    if fields.Err? { return Err(fields.error); }
    var version := r.U32();
    if version.Err? { return Err(version.error); }
    if fields.value == [] { return Err(Truncated); }
    m := Ok(Member(ono.value, Some(ClassId(fields.value, version.value))));
  }

  method ReadBareOno(r: Reader) returns (m: Result<Member, Error>)
    requires r.Valid()
    modifies r
    ensures r.Valid() && Follows(m, r.Remaining(), GetBareOno(old(r.Remaining())))
  {
    var ono := r.U32();
    if ono.Err? { return Err(ono.error); }
    m := Ok(Member(ono.value, None));
  }

  function Form(rich: bool): Item<Member> {
    if rich then GetIdentification else GetBareOno
  }

  ghost predicate Reads(item: Item<Member>, rich: bool) {
    forall b {:trigger Form(rich)(b)} :: item(b) == Form(rich)(b)
  }

  method ReadMember(r: Reader, rich: bool, ghost item: Item<Member>) returns (m: Result<Member, Error>)
    requires r.Valid() && Reads(item, rich)
    modifies r
    ensures r.Valid() && Follows(m, r.Remaining(), item(old(r.Remaining())))
  {
    assert item(r.Remaining()) == Form(rich)(r.Remaining());
    if rich { m := ReadIdentification(r); } else { m := ReadBareOno(r); }
  }

  /** A list of members in either form, taken only if it accounts for the whole buffer. */
  method ParseList(params: seq<byte>, rich: bool, ghost item: Item<Member>) returns (ms: Option<seq<Member>>)
    requires Reads(item, rich)
    ensures ms == Whole(GetList(item, params))
  {
    var r := new Reader(params);
    var count := r.U16();
    if count.Err? { return None; }
    ghost var start := r.Remaining();
    var out: seq<Member> := [];
    var k := 0;
    AfterNothing(Items(item, count.value, start));
    while k < count.value
      invariant 0 <= k <= count.value && r.Valid() && fresh(r)
      invariant Items(item, count.value, start) == After(out, Items(item, count.value - k, r.Remaining()))
    {
      ghost var here := r.Remaining();
      var m := ReadMember(r, rich, item);
      AfterItem(out, item, count.value - k, here, m, r.Remaining());
      if m.Err? { return None; }
      out := out + [m.value];
      k := k + 1;
    }
    assert out + [] == out;
    var empty := r.IsEmpty();
    ms := if empty then Some(out) else None;
  }

  method Parse(params: seq<byte>) returns (ms: seq<Member>)
    ensures ms == ParseMembers(params)
  {
    var rich := ParseList(params, true, GetIdentification);
    if rich.Some? { return rich.value; }
    var bare := ParseList(params, false, GetBareOno);
    ms := if bare.Some? then bare.value else [];
  }
}
