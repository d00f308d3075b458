/** Checking the gain-lock table before it is used, and what a checked table is good for. */
module GainConfig {
  import opened Wrappers
  import opened GainTable
  import opened GainSpec
  import opened GainRun
  import opened GainLaws
  import opened GainPaths
  import opened GainEcho

  datatype Config = Config(leader: string, signals: seq<Signal>)

  datatype ConfigError =
    | UnknownLeader
    | DuplicateSignal(i: nat)
    | UnknownDevice(i: nat, j: nat)
    | EmptyMember(i: nat, j: nat)
    | SharedTrim(i: nat, j: nat)
    | NoPreamp(i: nat)

  predicate MemberAt(ss: seq<Signal>, i: int, j: int) {
    0 <= i < |ss| && 0 <= j < |ss[i].members|
  }

  /** The trim a member receives its signal on. */
  predicate Receives(ss: seq<Signal>, i: int, j: int, t: Trim) {
    MemberAt(ss, i, j) && ss[i].members[j].input == Some(t.input) && ss[i].members[j].device == t.device
  }

  ghost predicate HasPreamp(s: Signal, leader: string) {
    exists j :: 0 <= j < |s.members| && s.members[j].device == leader && s.members[j].preamp.Some?
  }

  ghost predicate ValidConfig(c: Config, devices: set<string>) {
    && c.leader in devices
    && (forall i, k :: 0 <= i < k < |c.signals| ==> c.signals[i].name != c.signals[k].name)
    && (forall i, j :: MemberAt(c.signals, i, j) ==>
          c.signals[i].members[j].device in devices
          && (c.signals[i].members[j].preamp.Some? || c.signals[i].members[j].input.Some?))
    && OneSourcePerTrim(c.signals)
    && (forall i :: 0 <= i < |c.signals| ==> HasPreamp(c.signals[i], c.leader))
  }

  /** The defect an error names is there. */
  ghost predicate Defect(c: Config, devices: set<string>, e: ConfigError) {
    match e
    case UnknownLeader => c.leader !in devices
    case DuplicateSignal(i) => i < |c.signals| && exists k :: 0 <= k < i && c.signals[k].name == c.signals[i].name
    case UnknownDevice(i, j) => MemberAt(c.signals, i, j) && c.signals[i].members[j].device !in devices
    case EmptyMember(i, j) =>
      MemberAt(c.signals, i, j) && c.signals[i].members[j].preamp.None? && c.signals[i].members[j].input.None?
    case SharedTrim(i, j) =>
      exists k, l, t :: Receives(c.signals, k, l, t) && Receives(c.signals, i, j, t) && (k != i || l != j)
    case NoPreamp(i) => i < |c.signals| && !HasPreamp(c.signals[i], c.leader)
  }

  lemma DefectInvalid(c: Config, devices: set<string>, e: ConfigError)
    requires Defect(c, devices, e)
    ensures !ValidConfig(c, devices)
  {
    match e
    case SharedTrim(i, j) =>
      var k, l, t :| Receives(c.signals, k, l, t) && Receives(c.signals, i, j, t) && (k != i || l != j);
    case _ =>
  }

  /** Everything before member `j` of signal `i` has been looked at: `trims` are the trims taken. */
  ghost predicate TrimsSeen(ss: seq<Signal>, i: int, j: int, trims: set<Trim>) {
    && (forall k, l, t :: Receives(ss, k, l, t) && (k < i || (k == i && l < j)) ==> t in trims)
    && (forall t <- trims :: exists k, l :: (k < i || (k == i && l < j)) && Receives(ss, k, l, t))
    && (forall k, l, m, n, t ::
          Receives(ss, k, l, t) && (k < i || (k == i && l < j)) && Receives(ss, m, n, t) && (m < i || (m == i && n < j))
          ==> k == m && l == n)
  }

  /** Checks one signal's members, adding the trims they take. */
  method CheckMembers(c: Config, devices: set<string>, i: nat, trims: set<Trim>)
    returns (problem: Option<ConfigError>, trims': set<Trim>, leads: bool)
    requires i < |c.signals| && TrimsSeen(c.signals, i, 0, trims)
    ensures problem.Some? ==> Defect(c, devices, problem.value)
    ensures problem.None? ==>
              && TrimsSeen(c.signals, i + 1, 0, trims')
              && leads == HasPreamp(c.signals[i], c.leader)
              && forall j :: 0 <= j < |c.signals[i].members| ==>
                   c.signals[i].members[j].device in devices
                   && (c.signals[i].members[j].preamp.Some? || c.signals[i].members[j].input.Some?)
  {
    var ms := c.signals[i].members;
    trims', leads, problem := trims, false, None;
    for j := 0 to |ms|
      invariant TrimsSeen(c.signals, i, j, trims')
      invariant leads == exists k :: 0 <= k < j && ms[k].device == c.leader && ms[k].preamp.Some?
      invariant forall k :: 0 <= k < j ==> ms[k].device in devices && (ms[k].preamp.Some? || ms[k].input.Some?)
    {
      var m := ms[j];
      if m.device !in devices {
        return Some(UnknownDevice(i, j)), trims', leads;
      }
      if m.preamp.None? && m.input.None? {
        return Some(EmptyMember(i, j)), trims', leads;
      }
      if m.input.Some? {
        var t := Trim(m.device, m.input.value);
        assert Receives(c.signals, i, j, t);
        if t in trims' {
          return Some(SharedTrim(i, j)), trims', leads;
        }
        TrimTaken(c.signals, i, j, trims', t);
        trims' := trims' + {t};
      } else {
        TrimNone(c.signals, i, j, trims');
      }
      leads := leads || (m.device == c.leader && m.preamp.Some?);
    }
    RowDone(c.signals, i, trims');
  }

  lemma TrimTaken(ss: seq<Signal>, i: nat, j: nat, trims: set<Trim>, t: Trim)
    requires TrimsSeen(ss, i, j, trims) && Receives(ss, i, j, t) && t !in trims
    ensures TrimsSeen(ss, i, j + 1, trims + {t})
  {
    forall u | u in trims + {t} ensures exists k, l :: (k < i || (k == i && l < j + 1)) && Receives(ss, k, l, u) {
      if u == t {
        assert Receives(ss, i, j, u);
      } else {
        var k, l :| (k < i || (k == i && l < j)) && Receives(ss, k, l, u);
        assert Receives(ss, k, l, u);
      }
    }
  }

  lemma TrimNone(ss: seq<Signal>, i: nat, j: nat, trims: set<Trim>)
    requires TrimsSeen(ss, i, j, trims) && MemberAt(ss, i, j) && ss[i].members[j].input.None?
    ensures TrimsSeen(ss, i, j + 1, trims)
  {
    forall u | u in trims ensures exists k, l :: (k < i || (k == i && l < j + 1)) && Receives(ss, k, l, u) {
      var k, l :| (k < i || (k == i && l < j)) && Receives(ss, k, l, u);
      assert Receives(ss, k, l, u);
    }
  }

  lemma RowDone(ss: seq<Signal>, i: nat, trims: set<Trim>)
    requires i < |ss| && TrimsSeen(ss, i, |ss[i].members|, trims)
    ensures TrimsSeen(ss, i + 1, 0, trims)
  {
    forall u | u in trims ensures exists k, l :: (k < i + 1 || (k == i + 1 && l < 0)) && Receives(ss, k, l, u) {
      var k, l :| (k < i || (k == i && l < |ss[i].members|)) && Receives(ss, k, l, u);
      assert Receives(ss, k, l, u);
    }
  }

  lemma AllSeen(ss: seq<Signal>, trims: set<Trim>)
    requires TrimsSeen(ss, |ss|, 0, trims)
    ensures OneSourcePerTrim(ss)
  {
    forall i, j, k, l |
      0 <= i < |ss| && 0 <= j < |ss[i].members| && 0 <= k < |ss| && 0 <= l < |ss[k].members|
      && ss[i].members[j].input.Some? && ss[k].members[l].input.Some?
      && ss[i].members[j].device == ss[k].members[l].device && ss[i].members[j].input == ss[k].members[l].input
      ensures i == k && j == l
    {
      var t := Trim(ss[i].members[j].device, ss[i].members[j].input.value);
      assert Receives(ss, i, j, t) && Receives(ss, k, l, t);
    }
  }

  /** Accepts exactly the valid tables, and an error names a defect that is there. */
  method Validate(c: Config, devices: set<string>) returns (r: Result<(), ConfigError>)
    ensures r.Ok? <==> ValidConfig(c, devices)
    ensures r.Err? ==> Defect(c, devices, r.error)
  {
    if c.leader !in devices {
      return Err(UnknownLeader);
    }
    var names: set<string> := {};
    var trims: set<Trim> := {};
    for i := 0 to |c.signals|
      invariant names == set k | 0 <= k < i :: c.signals[k].name
      invariant forall k, m :: 0 <= k < m < i ==> c.signals[k].name != c.signals[m].name
      invariant TrimsSeen(c.signals, i, 0, trims)
      invariant forall k :: 0 <= k < i ==> HasPreamp(c.signals[k], c.leader)
      invariant forall k, j :: MemberAt(c.signals, k, j) && k < i ==>
                  c.signals[k].members[j].device in devices
                  && (c.signals[k].members[j].preamp.Some? || c.signals[k].members[j].input.Some?)
    {
      if c.signals[i].name in names {
        DefectInvalid(c, devices, DuplicateSignal(i));
        return Err(DuplicateSignal(i));
      }
      names := names + {c.signals[i].name};
      var problem, trims', leads := CheckMembers(c, devices, i, trims);
      if problem.Some? {
        DefectInvalid(c, devices, problem.value);
        return Err(problem.value);
      }
      trims := trims';
      if !leads {
        return Err(NoPreamp(i));
      }
    }
    AllSeen(c.signals, trims);
    return Ok(());
  }

  /** An engine built from a checked table starts with every invariant the laws of the gain lock
      ask for. */
  lemma CheckedEngineStartsSound(c: Config, devices: set<string>, desks: Desks, unit: real)
    requires ValidConfig(c, devices) && desks.Sound()
    requires unit >= EPSILON && forall d <- desks.kits :: OnLattice(desks.kits[d].law.step, unit)
    ensures var w := Resolve(World(c.leader, false, c.signals, [], {}, desks));
            Inv(w, desks.trims) && AllRest(w) && Fine(w, unit) && QueuesOk(w.live, 0)
  {
    var w := World(c.leader, false, c.signals, [], {}, desks);
    ResolveSane(w);
    ResolveFine(w, unit);
    ResolveOk(w, 0);
  }
}
