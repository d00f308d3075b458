/** Walking a device's object tree from its root block, over whatever graph the device claims to be. */
module Ocp1Enumerate {
  import opened Bytes
  import opened Ocp1Members
  import opened Ocp1Value
  import opened Wrappers

  /** How deep blocks are followed, and how many objects are collected. */
  const MAX_DEPTH: nat := 8
  const MAX_OBJECTS: nat := 4096

  const GET_MEMBERS_CANDIDATES: seq<u16> := [5, 4, 3]

  const NOT_IMPLEMENTED: byte := 8
  const BAD_METHOD: byte := 11

  datatype Query = GetMembers(index: u16) | GetClass | GetRole

  /** What a request to the device comes to. */
  datatype Reply = Answered(status: byte, params: seq<byte>) | Lost

  /** A device, asked about an object after so many other questions: it can answer anything, and
      answer the same question differently next time. */
  type Device = (nat, u32, Query) -> Reply

  /** An object's role, or its number where the device would not give one. */
  datatype Role = Named(text: seq<byte>) | Unnamed(ono: u32)

  datatype Found = Found(ono: u32, cls: ClassId, role: Role, path: seq<Role>)

  /** Everything a walk carries along: how many questions it has asked, which objects it has come
      across and what it has collected. */
  datatype Trail = Trail(asked: nat, seen: set<u32>, out: seq<Found>)

  // ---------------------------------------------------------------- asking

  /** Only an answer that the method is the wrong one justifies trying the next. */
  function TryMembers(device: Device, asked: nat, container: u32, candidates: seq<u16>): (Option<seq<Member>>, nat)
    decreases |candidates|
  {
    if candidates == [] then (None, asked)
    else
      match device(asked, container, GetMembers(candidates[0]))
      case Lost => (None, asked + 1)
      case Answered(status, params) =>
        if status == 0 then (Some(ParseMembers(params)), asked + 1)
        else if status == NOT_IMPLEMENTED || status == BAD_METHOD then
          TryMembers(device, asked + 1, container, candidates[1..])
        else (None, asked + 1)
  }

  /** Some devices leave the version out when it is 1. */
  function ParseClass(params: seq<byte>): Option<ClassId> {
    match GetList(GetU16, params)
    case Bad(_) => None
    case Got(fields, rest) =>
      match GetU32(rest)
      case Got(version, _) => Some(ClassId(fields, version))
      case Bad(_) => Some(ClassId(fields, 1))
  }

  function ClassOf(device: Device, asked: nat, ono: u32): Option<ClassId> {
    match device(asked, ono, GetClass)
    case Lost => None
    case Answered(status, params) => if status == 0 then ParseClass(params) else None
  }

  function RoleOf(device: Device, asked: nat, ono: u32): Role {
    match device(asked, ono, GetRole)
    case Lost => Unnamed(ono)
    case Answered(status, params) =>
      if status != 0 then Unnamed(ono)
      else match GetBytes(params) case Got(text, _) => Named(text) case Bad(_) => Unnamed(ono)
  }

  predicate WrongMethod(r: Reply) {
    r.Answered? && (r.status == NOT_IMPLEMENTED || r.status == BAD_METHOD)
  }

  /** The candidates are tried in order up to the first that is not answered with its being the wrong
      method, and that one decides: its members if it succeeds, and otherwise nothing. */
  lemma {:induction false} FirstAnswerDecides(device: Device, asked: nat, container: u32, candidates: seq<u16>, k: nat)
    requires k < |candidates| && !WrongMethod(device(asked + k, container, GetMembers(candidates[k])))
    requires forall j: nat :: j < k ==> WrongMethod(device(asked + j, container, GetMembers(candidates[j])))
    ensures TryMembers(device, asked, container, candidates)
            == (match device(asked + k, container, GetMembers(candidates[k]))
                case Lost => None
                case Answered(status, params) => if status == 0 then Some(ParseMembers(params)) else None,
                asked + k + 1)
    decreases k
  {
    if k > 0 {
      var first := device(asked + 0, container, GetMembers(candidates[0]));
      assert WrongMethod(first);
      forall j: nat | j < k - 1 ensures WrongMethod(device(asked + 1 + j, container, GetMembers(candidates[1..][j]))) {
        assert WrongMethod(device(asked + (j + 1), container, GetMembers(candidates[j + 1])));
      }
      FirstAnswerDecides(device, asked + 1, container, candidates[1..], k - 1);
    }
  }

  /** A device that knows none of the methods gives nothing. */
  lemma {:induction false} NoMethodFits(device: Device, asked: nat, container: u32, candidates: seq<u16>)
    requires forall j: nat :: j < |candidates| ==> WrongMethod(device(asked + j, container, GetMembers(candidates[j])))
    ensures TryMembers(device, asked, container, candidates) == (None, asked + |candidates|)
    decreases |candidates|
  {
    if candidates != [] {
      assert WrongMethod(device(asked + 0, container, GetMembers(candidates[0])));
      forall j: nat | j < |candidates[1..]|
        ensures WrongMethod(device(asked + 1 + j, container, GetMembers(candidates[1..][j])))
      {
        assert WrongMethod(device(asked + (j + 1), container, GetMembers(candidates[j + 1])));
      }
      NoMethodFits(device, asked + 1, container, candidates[1..]);
    }
  }

  /** A class comes back with its version, and with version 1 where a device leaves it out. */
  lemma ClassReadsBack(cls: ClassId)
    requires |cls.fields| < 0x1_0000
    ensures ParseClass(PutFields(cls.fields) + PutU32(cls.version)) == Some(cls)
    ensures ParseClass(PutFields(cls.fields)) == Some(ClassId(cls.fields, 1))
  {
    hide PutU32, PutU16, U32Of, U16Of;
    U16Items();
    ListRoundTrip(GetU16, PutU16, cls.fields, PutU32(cls.version));
    ListRoundTrip(GetU16, PutU16, cls.fields, []);
    assert PutFields(cls.fields) + [] == PutFields(cls.fields);
    GetPutU32(cls.version, []);
    assert PutU32(cls.version) + [] == PutU32(cls.version);
  }

  // ---------------------------------------------------------------- walking

  function Walk(device: Device, t: Trail, container: u32, path: seq<Role>, depth: nat): Trail
    decreases MAX_DEPTH - depth, 1, 0
  {
    if depth >= MAX_DEPTH || |t.out| >= MAX_OBJECTS then t
    else
      var (members, asked) := TryMembers(device, t.asked, container, GET_MEMBERS_CANDIDATES);
      match members
      case None => t.(asked := asked)
      case Some(ms) => WalkMembers(device, t.(asked := asked), ms, path, depth)
  }

  function WalkMembers(device: Device, t: Trail, ms: seq<Member>, path: seq<Role>, depth: nat): Trail
    requires depth < MAX_DEPTH
    decreases MAX_DEPTH - depth, 0, |ms|
  {
    if ms == [] || |t.out| >= MAX_OBJECTS then t
    else WalkMembers(device, WalkMember(device, t, ms[0], path, depth), ms[1..], path, depth)
  }

  /** One member: an object come across before is passed over, as is one whose class cannot be had. */
  function WalkMember(device: Device, t: Trail, m: Member, path: seq<Role>, depth: nat): Trail
    requires depth < MAX_DEPTH
    decreases MAX_DEPTH - depth, 0, 0
  {
    if m.ono in t.seen then t
    else
      var t1 := t.(seen := t.seen + {m.ono}, asked := t.asked + if m.cls.None? then 1 else 0);
      var cls := if m.cls.Some? then m.cls else ClassOf(device, t.asked, m.ono);
      if cls.None? then t1
      else
        var role := RoleOf(device, t1.asked, m.ono);
        var t2 := t1.(asked := t1.asked + 1);
        if cls.value.IsBlock() then Walk(device, t2, m.ono, path + [role], depth + 1)
        else t2.(out := t2.out + [Found(m.ono, cls.value, role, path)])
  }

  function Start(root: u32): Trail {
    Trail(0, {root}, [])
  }

  function Enumerate(device: Device, root: u32): seq<Found> {
    Walk(device, Start(root), root, [], 0).out
  }

  // ---------------------------------------------------------------- safe on any graph

  /** No object twice, none uncounted, no containers, not too many, and none nested too deep. */
  ghost predicate Orderly(t: Trail) {
    && |t.out| <= MAX_OBJECTS
    && (forall i :: 0 <= i < |t.out| ==>
          t.out[i].ono in t.seen && !t.out[i].cls.IsBlock() && |t.out[i].path| < MAX_DEPTH)
    && (forall i, j :: 0 <= i < j < |t.out| ==> t.out[i].ono != t.out[j].ono)
  }

  /** A later stage of the same walk, below containers `path`. */
  ghost predicate Extends(t: Trail, t': Trail, path: seq<Role>) {
    && t.asked <= t'.asked && t.seen <= t'.seen && t.out <= t'.out
    && (forall i :: |t.out| <= i < |t'.out| ==> t'.out[i].ono !in t.seen && path <= t'.out[i].path)
  }

  lemma ExtendsOn(t: Trail, t': Trail, t'': Trail, path: seq<Role>, deeper: seq<Role>)
    requires Extends(t, t', deeper) && Extends(t', t'', path) && path <= deeper
    ensures Extends(t, t'', path)
  {
    forall i | |t.out| <= i < |t''.out| ensures t''.out[i].ono !in t.seen && path <= t''.out[i].path {
      if i < |t'.out| { assert t''.out[i] == t'.out[i]; }
    }
  }

  lemma AskingCounts(device: Device, asked: nat, container: u32, candidates: seq<u16>)
    ensures asked <= TryMembers(device, asked, container, candidates).1 <= asked + |candidates|
    decreases |candidates|
  {
    if candidates != [] { AskingCounts(device, asked + 1, container, candidates[1..]); }
  }

  lemma {:induction false} WalkSafe(device: Device, t: Trail, container: u32, path: seq<Role>, depth: nat)
    requires Orderly(t) && |path| == depth
    ensures Orderly(Walk(device, t, container, path, depth))
    ensures Extends(t, Walk(device, t, container, path, depth), path)
    decreases MAX_DEPTH - depth, 1, 0
  {
    hide ClassOf, RoleOf, TryMembers, ParseClass;
    if depth < MAX_DEPTH && |t.out| < MAX_OBJECTS {
      AskingCounts(device, t.asked, container, GET_MEMBERS_CANDIDATES);
      var (members, asked) := TryMembers(device, t.asked, container, GET_MEMBERS_CANDIDATES);
      if members.Some? {
        WalkMembersSafe(device, t.(asked := asked), members.value, path, depth);
      }
    }
  }

  lemma {:induction false} WalkMembersSafe(device: Device, t: Trail, ms: seq<Member>, path: seq<Role>, depth: nat)
    requires Orderly(t) && |path| == depth < MAX_DEPTH
    ensures Orderly(WalkMembers(device, t, ms, path, depth))
    ensures Extends(t, WalkMembers(device, t, ms, path, depth), path)
    decreases MAX_DEPTH - depth, 0, |ms|
  {
    hide ClassOf, RoleOf, TryMembers, ParseClass;
    if ms != [] && |t.out| < MAX_OBJECTS {
      WalkMemberSafe(device, t, ms[0], path, depth);
      var t' := WalkMember(device, t, ms[0], path, depth);
      WalkMembersSafe(device, t', ms[1..], path, depth);
      ExtendsOn(t, t', WalkMembers(device, t', ms[1..], path, depth), path, path);
    }
  }

  lemma {:induction false} WalkMemberSafe(device: Device, t: Trail, m: Member, path: seq<Role>, depth: nat)
    requires Orderly(t) && |t.out| < MAX_OBJECTS && |path| == depth < MAX_DEPTH
    ensures Orderly(WalkMember(device, t, m, path, depth))
    ensures Extends(t, WalkMember(device, t, m, path, depth), path)
    decreases MAX_DEPTH - depth, 0, 0
  {
    hide ClassOf, RoleOf, TryMembers, ParseClass;
    if m.ono !in t.seen {
      var t1 := t.(seen := t.seen + {m.ono}, asked := t.asked + if m.cls.None? then 1 else 0);
      var cls := if m.cls.Some? then m.cls else ClassOf(device, t.asked, m.ono);
      if cls.Some? && cls.value.IsBlock() {
        var role := RoleOf(device, t1.asked, m.ono);
        var t2 := t1.(asked := t1.asked + 1);
        WalkSafe(device, t2, m.ono, path + [role], depth + 1);
        assert Extends(t, t2, path);
        var t' := Walk(device, t2, m.ono, path + [role], depth + 1);
        forall i | |t.out| <= i < |t'.out| ensures t'.out[i].ono !in t.seen && path <= t'.out[i].path {
          assert path <= path + [role] <= t'.out[i].path;
        }
      }
    }
  }

  /** Whatever graph a device claims to be - cyclic, shared, endless or changing underfoot - the walk
      ends, and returns no object twice, no container, no more than the limit and none deeper than it. */
  lemma EnumerateSafe(device: Device, root: u32)
    ensures var out := Enumerate(device, root);
            && |out| <= 4096
            && (forall i :: 0 <= i < |out| ==>
                  out[i].ono != root && out[i].cls.fields != [1, 1, 3] && |out[i].path| < 8)
            && (forall i, j :: 0 <= i < j < |out| ==> out[i].ono != out[j].ono)
  {
    WalkSafe(device, Start(root), root, [], 0);
  }

  lemma {:induction false} WalkAsks(device: Device, t: Trail, container: u32, path: seq<Role>, depth: nat)
    ensures var t' := Walk(device, t, container, path, depth);
            t'.asked <= t.asked + 3 + 5 * (|t'.seen| - |t.seen|) && |t.seen| <= |t'.seen|
    decreases MAX_DEPTH - depth, 1, 0
  {
    hide ClassOf, RoleOf, TryMembers, ParseClass;
    if depth < MAX_DEPTH && |t.out| < MAX_OBJECTS {
      AskingCounts(device, t.asked, container, GET_MEMBERS_CANDIDATES);
      var (members, asked) := TryMembers(device, t.asked, container, GET_MEMBERS_CANDIDATES);
      if members.Some? { WalkMembersAsks(device, t.(asked := asked), members.value, path, depth); }
    }
  }

  lemma {:induction false} WalkMembersAsks(device: Device, t: Trail, ms: seq<Member>, path: seq<Role>, depth: nat)
    requires depth < MAX_DEPTH
    ensures var t' := WalkMembers(device, t, ms, path, depth);
            t'.asked <= t.asked + 5 * (|t'.seen| - |t.seen|) && |t.seen| <= |t'.seen|
    decreases MAX_DEPTH - depth, 0, |ms|
  {
    if ms != [] && |t.out| < MAX_OBJECTS {
      WalkMemberAsks(device, t, ms[0], path, depth);
      WalkMembersAsks(device, WalkMember(device, t, ms[0], path, depth), ms[1..], path, depth);
    }
  }

  lemma {:induction false} WalkMemberAsks(device: Device, t: Trail, m: Member, path: seq<Role>, depth: nat)
    requires depth < MAX_DEPTH
    ensures var t' := WalkMember(device, t, m, path, depth);
            t'.asked <= t.asked + 5 * (|t'.seen| - |t.seen|) && |t.seen| <= |t'.seen|
    decreases MAX_DEPTH - depth, 0, 0
  {
    hide ClassOf, RoleOf, TryMembers, ParseClass;
    if m.ono !in t.seen {
      var t1 := t.(seen := t.seen + {m.ono}, asked := t.asked + if m.cls.None? then 1 else 0);
      var cls := if m.cls.Some? then m.cls else ClassOf(device, t.asked, m.ono);
      if cls.Some? && cls.value.IsBlock() {
        var role := RoleOf(device, t1.asked, m.ono);
        WalkAsks(device, t1.(asked := t1.asked + 1), m.ono, path + [role], depth + 1);
      }
    }
  }

  /** No device can keep the walk asking: it costs at most five questions for each different object
      come across, and three for the root. */
  lemma QuestionsAreBounded(device: Device, root: u32)
    ensures var t := Walk(device, Start(root), root, [], 0);
            t.asked <= 3 + 5 * (|t.seen| - 1)
  {
    WalkAsks(device, Start(root), root, [], 0);
  }

  // ---------------------------------------------------------------- complete on trees

  /** What a walk comes across: an object; a block and what it lists; a block that lists nothing the walk gets to see;
      an object that will not give its class; an object come across before. */
  datatype Tree =
    | Leaf(ono: u32, cls: ClassId, role: Role)
    | Block(ono: u32, version: u32, role: Role, inside: seq<Tree>)
    | Closed(ono: u32, version: u32, role: Role)
    | Mute(ono: u32)
    | Again(ono: u32)
  {
    function Class(): Option<ClassId> {
      match this
      case Leaf(_, cls, _) => Some(cls)
      case Block(_, version, _, _) => Some(ClassId([1, 1, 3], version))
      case Closed(_, version, _) => Some(ClassId([1, 1, 3], version))
      case Mute(_) => None
      case Again(_) => None
    }
  }

  /** Every object of some trees, in order, with the containers above it. */
  function Leaves(ts: seq<Tree>, path: seq<Role>): seq<Found> {
    if ts == [] then [] else LeavesOf(ts[0], path) + Leaves(ts[1..], path)
  }

  function LeavesOf(t: Tree, path: seq<Role>): seq<Found> {
    match t
    case Leaf(ono, cls, role) => [Found(ono, cls, role, path)]
    case Block(_, _, role, inside) => Leaves(inside, path + [role])
    case Closed(_, _, _) => []
    case Mute(_) => []
    case Again(_) => []
  }

  /** The objects come across for the first time. */
  function Onos(ts: seq<Tree>): set<u32> {
    if ts == [] then {} else OnosOf(ts[0]) + Onos(ts[1..])
  }

  function OnosOf(t: Tree): set<u32> {
    if t.Again? then {} else {t.ono} + if t.Block? then Onos(t.inside) else {}
  }

  /** After coming across `known`: each object is new or said to be come across again, no leaf has a container's
      class, and there are at most `depth` levels. */
  ghost predicate Proper(ts: seq<Tree>, depth: int, known: set<u32>) {
    ts == [] || (depth > 0 && ProperOne(ts[0], depth, known) && Proper(ts[1..], depth, known + OnosOf(ts[0])))
  }

  ghost predicate ProperOne(t: Tree, depth: int, known: set<u32>) {
    match t
    case Leaf(ono, cls, _) => ono !in known && cls.fields != [1, 1, 3]
    case Block(ono, _, _, inside) => ono !in known && depth > 1 && Proper(inside, depth - 1, known + {ono})
    case Closed(ono, _, _) => ono !in known
    case Mute(ono) => ono !in known
    case Again(ono) => ono in known
  }

  /** The members listed are the trees' roots, each with its class inline or not at all. */
  ghost predicate Lists(ms: seq<Member>, ts: seq<Tree>) {
    && |ms| == |ts|
    && forall k :: 0 <= k < |ts| ==>
         ms[k].ono == ts[k].ono && (ts[k].Again? || ms[k].cls.None? || ms[k].cls == ts[k].Class())
  }

  ghost predicate AnswersMembers(device: Device, container: u32, ts: seq<Tree>, asked: nat) {
    var r := TryMembers(device, asked, container, GET_MEMBERS_CANDIDATES).0;
    r.Some? && Lists(r.value, ts)
  }

  ghost predicate AnswersNoMembers(device: Device, container: u32, asked: nat) {
    TryMembers(device, asked, container, GET_MEMBERS_CANDIDATES).0 == None
  }

  ghost predicate AnswersClass(device: Device, t: Tree, asked: nat) {
    ClassOf(device, asked, t.ono) == t.Class()
  }

  ghost predicate AnswersRole(device: Device, t: Tree, asked: nat)
    requires t.Leaf? || t.Block? || t.Closed?
  {
    RoleOf(device, asked, t.ono) == t.role
  }

  /** Whenever it is asked, the device tells the truth about the trees. */
  ghost predicate Truthful(device: Device, ts: seq<Tree>, depth: int) {
    ts == [] || (TruthfulOne(device, ts[0], depth) && Truthful(device, ts[1..], depth))
  }

  /** A block on the last level is never asked for its members. */
  ghost predicate TruthfulOne(device: Device, t: Tree, depth: int) {
    && (!t.Again? ==> forall asked: nat :: AnswersClass(device, t, asked))
    && (t.Leaf? || t.Block? || t.Closed? ==> forall asked: nat :: AnswersRole(device, t, asked))
    && (t.Block? ==> Truthful(device, t.inside, depth - 1)
                     && forall asked: nat :: AnswersMembers(device, t.ono, t.inside, asked))
    && (t.Closed? && depth > 1 ==> forall asked: nat :: AnswersNoMembers(device, t.ono, asked))
  }

  /** A list of objects cut off at the limit. */
  function Cap(out: seq<Found>): seq<Found> {
    if |out| <= 4096 then out else out[..4096]
  }

  lemma CapTwice(a: seq<Found>, b: seq<Found>, c: seq<Found>)
    ensures Cap(Cap(a + b) + c) == Cap(a + (b + c))
  {
    assert a + (b + c) == (a + b) + c;
  }

  lemma FullStaysFull(a: seq<Found>, b: seq<Found>)
    requires |a| == 4096
    ensures Cap(a + b) == a
  {
    if |b| > 0 { assert (a + b)[..4096] == a; } else { assert a + b == a; }
  }

  /** Where the walk is, having come across the objects of `ts` after `t` - all of them, unless it was cut off. */
  ghost predicate Walked(t: Trail, t': Trail, ts: seq<Found>, onos: set<u32>) {
    t'.out == Cap(t.out + ts) && (|t'.out| < 4096 ==> t'.seen == t.seen + onos)
  }

  lemma {:induction false} WalkTree(device: Device, t: Trail, container: u32, ts: seq<Tree>, path: seq<Role>, depth: nat)
    requires |t.out| <= 4096 && Truthful(device, ts, 8 - depth)
    requires |t.out| < 4096 ==> Proper(ts, 8 - depth, t.seen)
    requires depth < 8 && forall asked: nat :: AnswersMembers(device, container, ts, asked)
    ensures Walked(t, Walk(device, t, container, path, depth), Leaves(ts, path), Onos(ts))
    decreases ts, 1
  {
    hide ClassOf, RoleOf, TryMembers, ParseClass;
    if |t.out| == 4096 {
      FullStaysFull(t.out, Leaves(ts, path));
    } else {
      assert AnswersMembers(device, container, ts, t.asked);
      var (members, asked) := TryMembers(device, t.asked, container, GET_MEMBERS_CANDIDATES);
      WalkTrees(device, t.(asked := asked), members.value, ts, path, depth);
    }
  }

  lemma {:induction false} WalkTrees(device: Device, t: Trail, ms: seq<Member>, ts: seq<Tree>, path: seq<Role>, depth: nat)
    requires |t.out| <= 4096 && depth < 8 && Lists(ms, ts) && Truthful(device, ts, 8 - depth)
    requires |t.out| < 4096 ==> Proper(ts, 8 - depth, t.seen)
    ensures Walked(t, WalkMembers(device, t, ms, path, depth), Leaves(ts, path), Onos(ts))
    decreases ts, 0
  {
    hide ClassOf, RoleOf, TryMembers, ParseClass;
    if |t.out| == 4096 {
      FullStaysFull(t.out, Leaves(ts, path));
    } else if ts == [] {
      assert t.out + [] == t.out && t.seen + {} == t.seen;
    } else {
      WalkOneTree(device, t, ms[0], ts[0], path, depth);
      var t' := WalkMember(device, t, ms[0], path, depth);
      WalkTrees(device, t', ms[1..], ts[1..], path, depth);
      CapTwice(t.out, LeavesOf(ts[0], path), Leaves(ts[1..], path));
      assert t.seen + OnosOf(ts[0]) + Onos(ts[1..]) == t.seen + Onos(ts);
    }
  }

  lemma {:induction false} WalkOneTree(device: Device, t: Trail, m: Member, tree: Tree, path: seq<Role>, depth: nat)
    requires |t.out| < 4096 && depth < 8 && m.ono == tree.ono
    requires tree.Again? || m.cls.None? || m.cls == tree.Class()
    requires ProperOne(tree, 8 - depth, t.seen) && TruthfulOne(device, tree, 8 - depth)
    ensures Walked(t, WalkMember(device, t, m, path, depth), LeavesOf(tree, path), OnosOf(tree))
    decreases tree, 0
  {
    hide ClassOf, RoleOf, TryMembers, ParseClass;
    assert t.out + [] == t.out;
    if !tree.Again? {
      assert AnswersClass(device, tree, t.asked);
      var t1 := t.(seen := t.seen + {m.ono}, asked := t.asked + if m.cls.None? then 1 else 0);
      var t2 := t1.(asked := t1.asked + 1);
      assert !tree.Mute? ==> AnswersRole(device, tree, t1.asked);
      if tree.Block? {
        WalkTree(device, t2, tree.ono, tree.inside, path + [tree.role], depth + 1);
        assert t.seen + {tree.ono} + Onos(tree.inside) == t.seen + OnosOf(tree);
      }
      if tree.Closed? && depth < 7 {
        assert AnswersNoMembers(device, tree.ono, t2.asked);
      }
    }
  }

  /** On a device that answers everything always the same way the walk returns, in order and with its exact container
      path, every object that gives a class other than a container's, where it is first come to - the first 4096 of
      them, if there are more. Blocks that loop back or share, blocks and objects that will not answer, and
      blocks nested too deep cost nothing but themselves. */
  lemma EnumerateComplete(device: Device, root: u32, ts: seq<Tree>)
    requires Proper(ts, 8, {root}) && Truthful(device, ts, 8)
    requires forall asked: nat :: AnswersMembers(device, root, ts, asked)
    ensures Enumerate(device, root) == Cap(Leaves(ts, []))
  {
    WalkTree(device, Start(root), root, ts, [], 0);
    assert [] + Leaves(ts, []) == Leaves(ts, []);
  }
}
