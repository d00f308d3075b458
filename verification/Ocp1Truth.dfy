/** Enumeration from the replies themselves: which octets a device answers each question with, and what the walk
    then returns. */
module Ocp1Truth {
  import opened Bytes
  import opened Ocp1Value
  import opened Ocp1Pdu
  import opened Ocp1Layout
  import opened Ocp1Members
  import opened Ocp1Enumerate
  import opened Wrappers

  // ---------------------------------------------------------------- replies, octet by octet

  /** A class identification from offset `k` on: how many fields there are, and the fields, in two octets each. */
  lemma {:induction false} FieldFields(b: seq<byte>, k: nat, fields: seq<u16>, rest: seq<byte>)
    requires k <= |b| && b[k..] == PutAll(PutU16, fields) + rest
    ensures k + 2 * |fields| <= |b| && b[k + 2 * |fields|..] == rest
    ensures forall i :: 0 <= i < |fields| ==> Has16(b, k + 2 * i, fields[i])
    decreases |fields|
  {
    if fields == [] {
      assert [] + rest == rest;
    } else {
      var more := PutAll(PutU16, fields[1..]) + rest;
      assert b[k..] == PutU16(fields[0]) + more;
      hide PutU16, Has16;
      Field16(b, k, fields[0], more);
      FieldFields(b, k + 2, fields[1..], rest);
      forall i | 0 <= i < |fields| ensures Has16(b, k + 2 * i, fields[i]) {
        if i > 0 { assert Has16(b, k + 2 + 2 * (i - 1), fields[1..][i - 1]); }
      }
    }
  }

  /** A member with its class: number, count of fields, fields and version. */
  lemma IdentificationLayout(m: Member)
    requires Classified(m)
    ensures var (b, n) := (PutIdentification(m), |m.cls.value.fields|);
            && |b| == 10 + 2 * n && Has32(b, 0, m.ono) && Has16(b, 4, n)
            && (forall i :: 0 <= i < n ==> Has16(b, 6 + 2 * i, m.cls.value.fields[i]))
            && Has32(b, 6 + 2 * n, m.cls.value.version)
  {
    var b, c := PutIdentification(m), m.cls.value;
    var n, all, version := PutU16(|c.fields|), PutAll(PutU16, c.fields), PutU32(c.version);
    assert b[0..] == PutU32(m.ono) + (n + (all + version));
    assert version == version + [];
    hide PutU16, PutU32, Has16, Has32, PutAll, PutIdentification;
    Field32(b, 0, m.ono, n + (all + version));
    Field16(b, 4, |c.fields|, all + version);
    FieldFields(b, 6, c.fields, version);
    Field32(b, 6 + 2 * |c.fields|, c.version, []);
  }

  /** A list of members with their classes: how many there are, and each of them. */
  lemma RichLayout(ms: seq<Member>)
    requires |ms| < 0x1_0000
    ensures Has16(RichForm(ms), 0, |ms|) && RichForm(ms)[2..] == PutAll(PutIdentification, ms)
  {
    hide PutU16, Has16, PutAll, PutIdentification;
    var count: u16, list := |ms|, PutAll(PutIdentification, ms);
    assert |ms| % 0x1_0000 == count;
    assert RichForm(ms) == PutU16(count) + list;
    CountFirst(count, list);
  }

  /** A list of bare numbers likewise. */
  lemma BareLayout(ms: seq<Member>)
    requires |ms| < 0x1_0000
    ensures Has16(BareForm(ms), 0, |ms|) && BareForm(ms)[2..] == PutAll(PutBareOno, ms)
  {
    hide PutU16, Has16, PutAll, PutBareOno;
    var count: u16, list := |ms|, PutAll(PutBareOno, ms);
    assert |ms| % 0x1_0000 == count;
    assert BareForm(ms) == PutU16(count) + list;
    CountFirst(count, list);
  }

  lemma CountFirst(count: u16, list: seq<byte>)
    ensures Has16(PutU16(count) + list, 0, count) && (PutU16(count) + list)[2..] == list
  {
    hide PutU16, Has16;
    var b := PutU16(count) + list;
    assert b[0..] == b;
    Field16(b, 0, count, list);
  }

  /** A member without its class: its number. */
  lemma BareOnoLayout(m: Member)
    ensures |PutBareOno(m)| == 4 && Has32(PutBareOno(m), 0, m.ono)
  {
    assert PutU32(m.ono)[0..] == PutU32(m.ono) + [];
    Field32(PutU32(m.ono), 0, m.ono, []);
  }

  // ---------------------------------------------------------------- a device that answers

  predicate RefusesMethod(r: Reply) {
    r.Answered? && (r.status == 8 || r.status == 11)
  }

  /** Asked for a block's members by method 5, then 4, then 3, as long as each is refused for being the wrong one. */
  ghost predicate TriedAt(device: Device, container: u32, asked: nat, k: nat, r: Reply) {
    && k < 3
    && device(asked + k, container, GetMembers([5, 4, 3][k])) == r
    && (k > 0 ==> RefusesMethod(device(asked, container, GetMembers(5))))
    && (k > 1 ==> RefusesMethod(device(asked + 1, container, GetMembers(4))))
  }

  /** The reply lists `ms`, with their classes or without. */
  ghost predicate ListReply(r: Reply, ms: seq<Member>) {
    && r.Answered? && r.status == 0 && |ms| < 0x1_0000
    && (|| (r.params == RichForm(ms) && forall m :: m in ms ==> Classified(m))
        || (r.params == BareForm(ms) && forall m :: m in ms ==> Unclassified(m)))
  }

  /** The reply is a class and its version; a version of 1 may be missing. */
  ghost predicate ClassReply(r: Reply, cls: ClassId) {
    && r.Answered? && r.status == 0 && |cls.fields| < 0x1_0000
    && (r.params == PutFields(cls.fields) + PutU32(cls.version) || (cls.version == 1 && r.params == PutFields(cls.fields)))
  }

  /** The reply is no class: an error, or fewer fields than it counts. */
  predicate NoClassReply(r: Reply) {
    r.Lost? || r.status != 0 || |r.params| < 2 || |r.params| < 2 + 2 * Counted(r.params)
  }

  /** The number in the first two octets. */
  function Counted(b: seq<byte>): int
    requires |b| >= 2
  {
    256 * Octet(b, 0) + Octet(b, 1)
  }

  /** The reply is a text and the role is that; or it is an error and the role is the object's number. */
  ghost predicate RoleReply(r: Reply, ono: u32, role: Role) {
    match role
    case Named(text) => r.Answered? && r.status == 0 && |text| < 0x1_0000 && r.params == PutBytes(text)
    case Unnamed(n) =>
      n == ono && (r.Lost? || r.status != 0 || |r.params| < 2 || |r.params| < 2 + Counted(r.params))
  }

  ghost predicate TellsMembers(device: Device, container: u32, ts: seq<Tree>, asked: nat) {
    exists ms, k, r :: TriedAt(device, container, asked, k, r) && ListReply(r, ms) && Lists(ms, ts)
  }

  /** A block that lists nothing: some method is answered with another error or not at all, or none is the right one. */
  ghost predicate TellsNoMembers(device: Device, container: u32, asked: nat) {
    exists k, r :: TriedAt(device, container, asked, k, r)
      && (r.Lost? || (r.status != 0 && !RefusesMethod(r)) || (k == 2 && RefusesMethod(r)))
  }

  ghost predicate TellsClass(device: Device, t: Tree, asked: nat) {
    var r := device(asked, t.ono, GetClass);
    match t.Class()
    case Some(cls) => ClassReply(r, cls)
    case None => NoClassReply(r)
  }

  ghost predicate TellsRole(device: Device, t: Tree, asked: nat)
    requires t.Leaf? || t.Block? || t.Closed?
  {
    RoleReply(device(asked, t.ono, GetRole), t.ono, t.role)
  }

  /** Whenever it is asked, the device answers for the trees. */
  ghost predicate Tells(device: Device, ts: seq<Tree>, depth: int) {
    ts == [] || (TellsOne(device, ts[0], depth) && Tells(device, ts[1..], depth))
  }

  ghost predicate TellsOne(device: Device, t: Tree, depth: int) {
    && (!t.Again? ==> forall asked: nat :: TellsClass(device, t, asked))
    && (t.Leaf? || t.Block? || t.Closed? ==> forall asked: nat :: TellsRole(device, t, asked))
    && (t.Block? ==> Tells(device, t.inside, depth - 1)
                     && forall asked: nat :: TellsMembers(device, t.ono, t.inside, asked))
    && (t.Closed? && depth > 1 ==> forall asked: nat :: TellsNoMembers(device, t.ono, asked))
  }

  // ---------------------------------------------------------------- what the walk hears

  lemma TryIs(device: Device, container: u32, asked: nat, k: nat, r: Reply)
    requires TriedAt(device, container, asked, k, r) && (k == 2 || !RefusesMethod(r))
    ensures TryMembers(device, asked, container, GET_MEMBERS_CANDIDATES).0
            == if r.Answered? && r.status == 0 then Some(ParseMembers(r.params)) else None
  {
    hide ParseMembers;
    assert [5, 4, 3][1..] == [4, 3] && [4, 3][1..] == [3] && [3][1..] == [];
    assert TryMembers(device, asked + 2, container, [3]).0
      == match device(asked + 2, container, GetMembers(3))
         case Lost => None
         case Answered(status, params) => if status == 0 then Some(ParseMembers(params)) else None by {
      assert TryMembers(device, asked + 3, container, []) == (None, asked + 3);
    }
  }

  lemma MembersHeard(device: Device, container: u32, ts: seq<Tree>, asked: nat)
    requires TellsMembers(device, container, ts, asked)
    ensures AnswersMembers(device, container, ts, asked)
  {
    hide ParseMembers, RichForm, BareForm, TryMembers;
    var ms, k, r :| TriedAt(device, container, asked, k, r) && ListReply(r, ms) && Lists(ms, ts);
    TryIs(device, container, asked, k, r);
    if r.params == RichForm(ms) && forall m :: m in ms ==> Classified(m) {
      RichFormParses(ms);
    } else {
      BareFormParses(ms);
    }
  }

  lemma NoMembersHeard(device: Device, container: u32, asked: nat)
    requires TellsNoMembers(device, container, asked)
    ensures AnswersNoMembers(device, container, asked)
  {
    hide ParseMembers, TryMembers;
    var k, r :| TriedAt(device, container, asked, k, r)
      && (r.Lost? || (r.status != 0 && !RefusesMethod(r)) || (k == 2 && RefusesMethod(r)));
    TryIs(device, container, asked, k, r);
  }

  lemma ClassHeard(device: Device, t: Tree, asked: nat)
    requires TellsClass(device, t, asked)
    ensures AnswersClass(device, t, asked)
  {
    match t.Class()
    case Some(cls) => ClassReadsBack(cls);
    case None =>
      var r := device(asked, t.ono, GetClass);
      if r.Answered? && r.status == 0 { FieldsAreThere(r.params); }
  }

  /** A class is read only where there are as many fields as it counts. */
  lemma FieldsAreThere(b: seq<byte>)
    ensures ParseClass(b) != None ==> |b| >= 2 && |b| >= 2 + 2 * Counted(b)
  {
    var list := GetList(GetU16, b);
    if list.Got? {
      U16Items();
      ListCanonical(GetU16, PutU16, b);
      FieldsLength(list.value);
      assert b[0..] == PutU16(|list.value|) + (PutAll(PutU16, list.value) + list.rest);
      Field16(b, 0, |list.value|, PutAll(PutU16, list.value) + list.rest);
    }
  }

  lemma RoleHeard(device: Device, t: Tree, asked: nat)
    requires (t.Leaf? || t.Block? || t.Closed?) && TellsRole(device, t, asked)
    ensures AnswersRole(device, t, asked)
  {
    match t.role
    case Named(text) =>
      BytesRoundTripIff(text, []);
      assert PutBytes(text) + [] == PutBytes(text);
    case Unnamed(_) =>
  }

  lemma {:induction false} TellingIsTruthful(device: Device, ts: seq<Tree>, depth: int)
    requires Tells(device, ts, depth)
    ensures Truthful(device, ts, depth)
    decreases ts, 0
  {
    hide TellsOne, TruthfulOne;
    if ts != [] {
      OneIsTruthful(device, ts[0], depth);
      TellingIsTruthful(device, ts[1..], depth);
    }
  }

  lemma {:induction false} OneIsTruthful(device: Device, t: Tree, depth: int)
    requires TellsOne(device, t, depth)
    ensures TruthfulOne(device, t, depth)
    decreases t, 0
  {
    hide TellsClass, TellsRole, TellsMembers, TellsNoMembers, AnswersClass, AnswersRole, AnswersMembers, AnswersNoMembers;
    if !t.Again? {
      forall asked: nat ensures AnswersClass(device, t, asked) { ClassHeard(device, t, asked); }
    }
    if t.Leaf? || t.Block? || t.Closed? {
      forall asked: nat ensures AnswersRole(device, t, asked) { RoleHeard(device, t, asked); }
    }
    if t.Block? {
      TellingIsTruthful(device, t.inside, depth - 1);
      forall asked: nat ensures AnswersMembers(device, t.ono, t.inside, asked) {
        MembersHeard(device, t.ono, t.inside, asked);
      }
    }
    if t.Closed? && depth > 1 {
      forall asked: nat ensures AnswersNoMembers(device, t.ono, asked) { NoMembersHeard(device, t.ono, asked); }
    }
  }

  /** From replies to objects: on a device whose every reply is the wire form of the truth, or a refusal, the walk
      returns exactly the objects the replies describe, with their classes, roles and container paths. */
  lemma EnumerationReadsReplies(device: Device, root: u32, ts: seq<Tree>)
    requires Proper(ts, 8, {root}) && Tells(device, ts, 8)
    requires forall asked: nat :: TellsMembers(device, root, ts, asked)
    ensures Enumerate(device, root) == Cap(Leaves(ts, []))
  {
    hide Proper, Tells, Truthful, TellsMembers, AnswersMembers, Enumerate;
    TellingIsTruthful(device, ts, 8);
    forall asked: nat ensures AnswersMembers(device, root, ts, asked) { MembersHeard(device, root, ts, asked); }
    EnumerateComplete(device, root, ts);
  }
}
