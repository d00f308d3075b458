/** Conservation over the reals: what a run loses is exactly what its ledger says - the leader's moves
    too small to act on, less the residues too small to keep - and nothing else costs anything. */
module GainLedger {
  import opened Wrappers
  import opened Law
  import opened GainTable
  import opened GainSpec
  import opened GainSettle
  import opened GainRun

  /** What has been lost for one follower since the lock: the changes of its signal that were ignored,
      and what was left of its own moves and written off. Only amounts other than nothing are listed. */
  datatype Ledger = Ledger(ignored: seq<real>, writtenOff: seq<real>)

  const NOTHING_LOST := Ledger([], [])

  function Sum(xs: seq<real>): real {
    if xs == [] then 0.0 else xs[0] + Sum(xs[1..])
  }

  function Amount(x: real): (r: seq<real>)
    ensures Sum(r) == x
    ensures forall k :: 0 <= k < |r| ==> r[k] == x && x != 0.0
  {
    if x == 0.0 then []
    else
      assert [x][1..] == [];
      [x]
  }

  function Plus(a: Ledger, b: Ledger): Ledger {
    Ledger(a.ignored + b.ignored, a.writtenOff + b.writtenOff)
  }

  function Balance(a: Ledger): real {
    Sum(a.ignored) - Sum(a.writtenOff)
  }

  lemma {:induction false} SumAppend(a: seq<real>, b: seq<real>)
    ensures Sum(a + b) == Sum(a) + Sum(b)
  {
    if a == [] {
      assert a + b == b;
    } else {
      assert (a + b)[0] == a[0] && (a + b)[1..] == a[1..] + b;
      SumAppend(a[1..], b);
    }
  }

  lemma PlusBalance(a: Ledger, b: Ledger)
    ensures Balance(Plus(a, b)) == Balance(a) + Balance(b)
    ensures Plus(a, NOTHING_LOST) == a
  {
    SumAppend(a.ignored, b.ignored);
    SumAppend(a.writtenOff, b.writtenOff);
  }

  // ---------------------------------------------------------------- what each operation loses

  /** A round of moves loses what a move it makes leaves over, if that is under EPSILON. */
  function LostSettling(w: World, answers: set<Trim>, scope: set<Trim>, i: int, j: int): Ledger {
    if !Place(w.live, i, j) then NOTHING_LOST
    else
      var f := w.live[i].followers[j];
      if f.Id() in scope && Taken(f, w.desks, w.down, answers) && Abs(f.owed - Change(w.desks, f.Id(), f.owed)) < EPSILON
      then Ledger([], Amount(f.owed - Change(w.desks, f.Id(), f.owed)))
      else NOTHING_LOST
  }

  /** An observation loses a change of an armed signal that is under EPSILON, or what its moves lose. */
  function LostObserving(w: World, index: nat, gain: real, answers: set<Trim>, i: int, j: int): Ledger
    requires index < |w.live|
  {
    if IsMove(w, index, gain) then LostSettling(Charged(w, index, gain), answers, TrimsOf(w.live[index]), i, j)
    else if w.locked && w.live[index].Armed() && i == index then Ledger(Amount(gain - w.live[index].gain.value), [])
    else NOTHING_LOST
  }

  function LostObservingAll(w: World, latest: seq<(nat, real)>, answers: seq<set<Trim>>, k: nat, i: int, j: int): Ledger
    decreases |latest|
  {
    if latest == [] then NOTHING_LOST
    else if latest[0].0 < |w.live| then
      var who := AnswersAt(answers, k);
      Plus(LostObserving(w, latest[0].0, latest[0].1, who, i, j),
           LostObservingAll(Observe(w, latest[0].0, latest[0].1, who), latest[1..], answers, k + 1, i, j))
    else LostObservingAll(w, latest[1..], answers, k + 1, i, j)
  }

  function LostPolling(w: World, readings: seq<Option<real>>, now: nat, answers: seq<set<Trim>>, k: nat, i: int, j: int)
    : Ledger
    decreases |w.live| - k
  {
    if k >= |w.live| then NOTHING_LOST
    else
      var l := w.live[k];
      if l.ono.None? || ReadAt(readings, k).None? then LostPolling(w, readings, now, answers, k + 1, i, j)
      else
        var gain := ReadAt(readings, k).value;
        var v := WithLive(w, k, Expecting(l, gain, now));
        Plus(LostObserving(v, k, gain, AnswersAt(answers, k), i, j),
             LostPolling(Observe(v, k, gain, AnswersAt(answers, k)), readings, now, answers, k + 1, i, j))
  }

  /** Only observations and rounds of moves lose anything. */
  function Lost(s: Step, w: World, i: int, j: int): Ledger {
    match s
    case SetGain(name, gain, accepted, now, who) =>
      if !Settable(w, name) || !accepted then NOTHING_LOST
      else
        var k := Named(w.live, name);
        LostObserving(WithLive(w, k, Expecting(w.live[k], gain, now)), k, gain, who, i, j)
    case Reports(batch, now, answers) =>
      var (live, latest) := HearAll(w.live, [], w.leader, batch, now);
      LostObservingAll(w.(live := live), latest, answers, 0, i, j)
    case Poll(readings, now, answers) => LostPolling(w, readings, now, answers, 0, i, j)
    case Back(back, who) =>
      if !w.locked || back == {} then NOTHING_LOST
      else LostSettling(w.(down := w.down - back), who, TrimsOn(w.live, back), i, j)
    case _ => NOTHING_LOST
  }

  /** A lock starts a new page. */
  function LedgerAfter(steps: seq<Step>, w: World, i: int, j: int, so: Ledger): Ledger
    decreases |steps|
  {
    if steps == [] then so
    else LedgerAfter(steps[1..], Apply(steps[0], w), i, j,
                     if steps[0].LockNow? then NOTHING_LOST else Plus(so, Lost(steps[0], w, i, j)))
  }

  // ---------------------------------------------------------------- the ledger is exact

  /** While locked the books of an armed follower are off by exactly the balance of its ledger, and
      nothing has been lost for one not yet armed. */
  ghost predicate Exact(w: World, i: int, j: int, so: Ledger) {
    (w.locked && Place(w.live, i, j)) ==>
      if w.live[i].Armed() then Drift(w.live[i], w.live[i].followers[j]) == Balance(so) else so == NOTHING_LOST
  }

  lemma SettlingExact(w: World, base: map<Trim, int>, answers: set<Trim>, scope: set<Trim>, i: int, j: int, so: Ledger)
    requires Inv(w, base) && Exact(w, i, j, so)
    ensures Exact(Settle(w, answers, scope), i, j, Plus(so, LostSettling(w, answers, scope, i, j)))
  {
    hide Change, Landing, Span, Sum;
    SettleShape(w, answers, scope);
    PlusBalance(so, LostSettling(w, answers, scope, i, j));
    if w.locked && Place(w.live, i, j) {
      var f := w.live[i].followers[j];
      SettleAt(w, answers, scope, i, j);
      assert BookOk(w.live[i], f, w.desks, base);
      if f.Id() in scope && Taken(f, w.desks, w.down, answers) {
        var left := f.owed - Change(w.desks, f.Id(), f.owed);
        NoneSum();
      } else {
        NoneSum();
      }
    }
  }

  lemma NoneSum()
    ensures Sum([]) == 0.0
  {}

  lemma ObservingExact(w: World, base: map<Trim, int>, index: nat, gain: real, answers: set<Trim>, i: int, j: int,
                       so: Ledger)
    requires Inv(w, base) && index < |w.live| && Exact(w, i, j, so)
    ensures Exact(Observe(w, index, gain, answers), i, j, Plus(so, LostObserving(w, index, gain, answers, i, j)))
  {
    var lost := LostObserving(w, index, gain, answers, i, j);
    PlusBalance(so, lost);
    if IsMove(w, index, gain) {
      ChargedInv(w, base, index, gain);
      ChargedExact(w, index, gain, i, j, so);
      SettlingExact(Charged(w, index, gain), base, answers, TrimsOf(w.live[index]), i, j, so);
    } else {
      NotedExact(w, base, index, gain, i, j, so);
    }
  }

  lemma ChargedExact(w: World, index: nat, gain: real, i: int, j: int, so: Ledger)
    requires index < |w.live| && w.live[index].Armed() && Exact(w, i, j, so)
    ensures Exact(Charged(w, index, gain), i, j, so)
  {
    if w.locked && Place(w.live, i, j) { assert Place(Charged(w, index, gain).live, i, j); }
  }

  lemma NotedExact(w: World, base: map<Trim, int>, index: nat, gain: real, i: int, j: int, so: Ledger)
    requires Inv(w, base) && index < |w.live| && !IsMove(w, index, gain) && Exact(w, i, j, so)
    ensures var lost := if w.locked && w.live[index].Armed() && i == index
                        then Ledger(Amount(gain - w.live[index].gain.value), []) else NOTHING_LOST;
            Exact(Noted(w, index, gain), i, j, Plus(so, lost))
  {
    PlusBalance(so, NOTHING_LOST);
    NoneSum();
    if w.locked && Place(w.live, i, j) {
      assert BookOk(w.live[i], w.live[i].followers[j], w.desks, base);
      if i == index && w.live[i].Armed() {
        PlusBalance(so, Ledger(Amount(gain - w.live[index].gain.value), []));
      }
    }
  }

  lemma {:induction false} ObservingAllExact(w: World, base: map<Trim, int>, latest: seq<(nat, real)>,
                                             answers: seq<set<Trim>>, k: nat, i: int, j: int, so: Ledger)
    requires Inv(w, base) && Exact(w, i, j, so)
    ensures Exact(ObserveAll(w, latest, answers, k), i, j, Plus(so, LostObservingAll(w, latest, answers, k, i, j)))
    decreases |latest|
  {
    PlusBalance(so, NOTHING_LOST);
    if latest != [] {
      if latest[0].0 < |w.live| {
        var (index, gain) := latest[0];
        var who := AnswersAt(answers, k);
        var lost := LostObserving(w, index, gain, who, i, j);
        ObserveInv(w, base, index, gain, who);
        ObservingExact(w, base, index, gain, who, i, j, so);
        ObservingAllExact(Observe(w, index, gain, who), base, latest[1..], answers, k + 1, i, j, Plus(so, lost));
        PlusAssoc(so, lost, LostObservingAll(Observe(w, index, gain, who), latest[1..], answers, k + 1, i, j));
      } else {
        ObservingAllExact(w, base, latest[1..], answers, k + 1, i, j, so);
      }
    }
  }

  lemma PlusAssoc(a: Ledger, b: Ledger, c: Ledger)
    ensures Plus(Plus(a, b), c) == Plus(a, Plus(b, c))
  {
    assert (a.ignored + b.ignored) + c.ignored == a.ignored + (b.ignored + c.ignored);
    assert (a.writtenOff + b.writtenOff) + c.writtenOff == a.writtenOff + (b.writtenOff + c.writtenOff);
  }

  lemma {:induction false} PollingExact(w: World, base: map<Trim, int>, readings: seq<Option<real>>, now: nat,
                                        answers: seq<set<Trim>>, k: nat, i: int, j: int, so: Ledger)
    requires Inv(w, base) && Exact(w, i, j, so)
    ensures Exact(PollFrom(w, readings, now, answers, k), i, j, Plus(so, LostPolling(w, readings, now, answers, k, i, j)))
    decreases |w.live| - k
  {
    hide Drift, Balance;
    PlusBalance(so, NOTHING_LOST);
    if k < |w.live| {
      var l := w.live[k];
      if l.ono.None? || ReadAt(readings, k).None? {
        PollingExact(w, base, readings, now, answers, k + 1, i, j, so);
      } else {
        var gain := ReadAt(readings, k).value;
        var who := AnswersAt(answers, k);
        var v := WithLive(w, k, Expecting(l, gain, now));
        ExpectInv(w, base, k, Expecting(l, gain, now).expected);
        ExpectedExact(w, k, Expecting(l, gain, now).expected, i, j, so);
        var lost := LostObserving(v, k, gain, who, i, j);
        ObserveInv(v, base, k, gain, who);
        ObservingExact(v, base, k, gain, who, i, j, so);
        PollingExact(Observe(v, k, gain, who), base, readings, now, answers, k + 1, i, j, Plus(so, lost));
        PlusAssoc(so, lost, LostPolling(Observe(v, k, gain, who), readings, now, answers, k + 1, i, j));
      }
    }
  }

  lemma ExpectedExact(w: World, k: nat, es: seq<Expect>, i: int, j: int, so: Ledger)
    requires k < |w.live| && Exact(w, i, j, so)
    ensures Exact(WithLive(w, k, w.live[k].(expected := es)), i, j, so)
  {}

  /** Hearing changes nothing but expectations. */
  lemma {:induction false} HearingFrom(live: seq<Live>, latest: seq<(nat, real)>, ono: nat, gain: real, now: nat, k: nat,
                                       i: int)
    requires 0 <= i < |live|
    ensures var live' := HearFrom(live, latest, ono, gain, now, k).0;
            |live'| == |live| && live'[i] == live[i].(expected := live'[i].expected)
    decreases |live| - k
  {
    if k < |live| {
      HearingFrom(live[k := HearRow(live[k], ono, gain, now)],
                  if Genuine(live[k], ono, gain, now) then Latest(latest, k, gain) else latest, ono, gain, now, k + 1, i);
    }
  }

  lemma {:induction false} Hearing(live: seq<Live>, latest: seq<(nat, real)>, leader: string, batch: seq<Report>,
                                   now: nat, i: int)
    requires 0 <= i < |live|
    ensures var live' := HearAll(live, latest, leader, batch, now).0;
            |live'| == |live| && live'[i] == live[i].(expected := live'[i].expected)
    decreases |batch|
  {
    if batch != [] {
      var r := batch[0];
      if r.device != leader || r.value.None? {
        Hearing(live, latest, leader, batch[1..], now, i);
      } else {
        HearingFrom(live, latest, r.ono, r.value.value, now, 0, i);
        var (live', latest') := HearFrom(live, latest, r.ono, r.value.value, now, 0);
        Hearing(live', latest', leader, batch[1..], now, i);
      }
    }
  }

  lemma HearingExact(w: World, base: map<Trim, int>, batch: seq<Report>, now: nat, i: int, j: int,
                                         so: Ledger)
    requires Inv(w, base) && Exact(w, i, j, so)
    ensures Exact(w.(live := HearAll(w.live, [], w.leader, batch, now).0), i, j, so)
  {
    HearAllInv(w, base, [], batch, now);
    if 0 <= i < |w.live| { Hearing(w.live, [], w.leader, batch, now, i); }
  }

  lemma LockExact(w: World, readings: seq<Option<real>>, now: nat, i: int, j: int)
    ensures Exact(Lock(w, readings, now), i, j, NOTHING_LOST)
  {
    hide ResolveRow;
    NoneSum();
    var (r, w') := (Resolve(w), Lock(w, readings, now));
    if Place(w'.live, i, j) {
      assert w'.live[i] == LockRow(r.live[i], ReadAt(readings, i), now);
      assert w'.live[i].followers == Cleared(r.live[i].followers);
    }
  }

  lemma StepExact(s: Step, w: World, base: map<Trim, int>, i: int, j: int, so: Ledger)
    requires Inv(w, base) && Exact(w, i, j, so)
    ensures Exact(Apply(s, w), i, j, if s.LockNow? then NOTHING_LOST else Plus(so, Lost(s, w, i, j)))
  {
    PlusBalance(so, NOTHING_LOST);
    match s
    case LockNow(readings, now) => LockExact(w, readings, now, i, j);
    case Unlock =>
    case ElectLeader(device) =>
    case SetGain(name, gain, accepted, now, who) =>
      if Settable(w, name) && accepted {
        var k := Named(w.live, name);
        ExpectInv(w, base, k, Expecting(w.live[k], gain, now).expected);
        ExpectedExact(w, k, Expecting(w.live[k], gain, now).expected, i, j, so);
        ObservingExact(WithLive(w, k, Expecting(w.live[k], gain, now)), base, k, gain, who, i, j, so);
      }
    case Reports(batch, now, answers) =>
      HearAllInv(w, base, [], batch, now);
      HearingExact(w, base, batch, now, i, j, so);
      var (live', latest) := HearAll(w.live, [], w.leader, batch, now);
      ObservingAllExact(w.(live := live'), base, latest, answers, 0, i, j, so);
    case Poll(readings, now, answers) => PollingExact(w, base, readings, now, answers, 0, i, j, so);
    case Back(back, who) =>
      if w.locked && back != {} {
        SettlingExact(w.(down := w.down - back), base, who, TrimsOn(w.live, back), i, j, so);
      }
    case Surface(t, index) =>
    case Link(connected) =>
  }

  lemma {:induction false} RunExact(steps: seq<Step>, w: World, base: map<Trim, int>, i: int, j: int, so: Ledger)
    requires Inv(w, base) && Exact(w, i, j, so)
    ensures Exact(Run(steps, w), i, j, LedgerAfter(steps, w, i, j, so))
    decreases |steps|
  {
    if steps != [] {
      StepInv(steps[0], w, base);
      StepExact(steps[0], w, base, i, j, so);
      RunExact(steps[1..], Apply(steps[0], w), Rebase(steps[0], w, base), i, j,
               if steps[0].LockNow? then NOTHING_LOST else Plus(so, Lost(steps[0], w, i, j)));
    }
  }

  // ---------------------------------------------------------------- every entry is small

  ghost predicate Small(xs: seq<real>) {
    forall k :: 0 <= k < |xs| ==> 0.0 < Abs(xs[k]) < EPSILON
  }

  ghost predicate SmallLedger(a: Ledger) {
    Small(a.ignored) && Small(a.writtenOff)
  }

  lemma LostIsSmall(w: World, index: nat, gain: real, answers: set<Trim>, i: int, j: int)
    requires index < |w.live|
    ensures SmallLedger(LostObserving(w, index, gain, answers, i, j))
  {}

  lemma {:induction false} AllLostIsSmall(w: World, latest: seq<(nat, real)>, answers: seq<set<Trim>>, k: nat, i: int, j: int)
    ensures SmallLedger(LostObservingAll(w, latest, answers, k, i, j))
    decreases |latest|
  {
    hide LostObserving;
    if latest != [] {
      if latest[0].0 < |w.live| {
        var who := AnswersAt(answers, k);
        LostIsSmall(w, latest[0].0, latest[0].1, who, i, j);
        AllLostIsSmall(Observe(w, latest[0].0, latest[0].1, who), latest[1..], answers, k + 1, i, j);
      } else {
        AllLostIsSmall(w, latest[1..], answers, k + 1, i, j);
      }
    }
  }

  lemma {:induction false} PolledIsSmall(w: World, readings: seq<Option<real>>, now: nat, answers: seq<set<Trim>>, k: nat,
                                         i: int, j: int)
    ensures SmallLedger(LostPolling(w, readings, now, answers, k, i, j))
    decreases |w.live| - k
  {
    hide LostObserving;
    if k < |w.live| {
      var l := w.live[k];
      if l.ono.None? || ReadAt(readings, k).None? {
        PolledIsSmall(w, readings, now, answers, k + 1, i, j);
      } else {
        var gain := ReadAt(readings, k).value;
        var v := WithLive(w, k, Expecting(l, gain, now));
        LostIsSmall(v, k, gain, AnswersAt(answers, k), i, j);
        PolledIsSmall(Observe(v, k, gain, AnswersAt(answers, k)), readings, now, answers, k + 1, i, j);
      }
    }
  }

  lemma StepIsSmall(s: Step, w: World, i: int, j: int)
    ensures SmallLedger(Lost(s, w, i, j))
  {
    match s
    case SetGain(name, gain, accepted, now, who) =>
      if Settable(w, name) && accepted {
        var k := Named(w.live, name);
        LostIsSmall(WithLive(w, k, Expecting(w.live[k], gain, now)), k, gain, who, i, j);
      }
    case Reports(batch, now, answers) =>
      var (live, latest) := HearAll(w.live, [], w.leader, batch, now);
      AllLostIsSmall(w.(live := live), latest, answers, 0, i, j);
    case Poll(readings, now, answers) => PolledIsSmall(w, readings, now, answers, 0, i, j);
    case Back(back, who) =>
    case _ =>
  }

  lemma {:induction false} LedgerIsSmall(steps: seq<Step>, w: World, i: int, j: int, so: Ledger)
    requires SmallLedger(so)
    ensures SmallLedger(LedgerAfter(steps, w, i, j, so))
    decreases |steps|
  {
    if steps != [] {
      StepIsSmall(steps[0], w, i, j);
      LedgerIsSmall(steps[1..], Apply(steps[0], w), i, j,
                    if steps[0].LockNow? then NOTHING_LOST else Plus(so, Lost(steps[0], w, i, j)));
    }
  }

  lemma {:induction false} SmallSum(xs: seq<real>)
    requires Small(xs)
    ensures Abs(Sum(xs)) <= |xs| as real * EPSILON
  {
    if xs != [] { SmallSum(xs[1..]); }
  }

  // ---------------------------------------------------------------- the law over the reals

  /** The ledger of one follower over a run that starts unlocked. */
  function LedgerOf(steps: seq<Step>, w: World, i: int, j: int): Ledger {
    LedgerAfter(steps, w, i, j, NOTHING_LOST)
  }

  /** Conservation as it really is, for every run: `applied + owed` is minus what the leader has gained
      since the lock, plus its moves that were ignored, less the residues written off. Nothing else a
      run can do - a set refused, a gain reported again, another signal's move, a hand on a desk, a desk
      unplugged - costs anything. */
  lemma ConservationIsExact(steps: seq<Step>, w: World, base: map<Trim, int>, i: int, j: int)
    requires Inv(w, base) && !w.locked
    requires var w' := Run(steps, w); w'.locked && Place(w'.live, i, j) && w'.live[i].Armed()
    ensures var l := Run(steps, w).live[i]; var so := LedgerOf(steps, w, i, j);
            && l.followers[j].applied + l.followers[j].owed
               == -(l.gain.value - l.reference.value) + Sum(so.ignored) - Sum(so.writtenOff)
            && SmallLedger(so)
  {
    RunExact(steps, w, base, i, j, NOTHING_LOST);
    LedgerIsSmall(steps, w, i, j, NOTHING_LOST);
  }

  /** The law as documented holds after a run exactly if what was ignored and what was written off
      balance - in particular if neither list has an entry. */
  lemma ConservedIff(steps: seq<Step>, w: World, base: map<Trim, int>, i: int, j: int)
    requires Inv(w, base) && !w.locked
    requires var w' := Run(steps, w); w'.locked && Place(w'.live, i, j) && w'.live[i].Armed()
    ensures var l := Run(steps, w).live[i]; var so := LedgerOf(steps, w, i, j);
            l.followers[j].applied + l.followers[j].owed == -(l.gain.value - l.reference.value)
            <==> Sum(so.ignored) == Sum(so.writtenOff)
  {
    ConservationIsExact(steps, w, base, i, j);
  }

  /** And it is never off by more than EPSILON for each change ignored and each residue written off. */
  lemma ConservationWithinDrift(steps: seq<Step>, w: World, base: map<Trim, int>, i: int, j: int)
    requires Inv(w, base) && !w.locked
    requires var w' := Run(steps, w); w'.locked && Place(w'.live, i, j) && w'.live[i].Armed()
    ensures var l := Run(steps, w).live[i]; var so := LedgerOf(steps, w, i, j);
            Abs(Drift(l, l.followers[j])) <= (|so.ignored| + |so.writtenOff|) as real * EPSILON
  {
    ConservationIsExact(steps, w, base, i, j);
    var so := LedgerOf(steps, w, i, j);
    SmallSum(so.ignored);
    SmallSum(so.writtenOff);
    assert (|so.ignored| + |so.writtenOff|) as real * EPSILON
           == |so.ignored| as real * EPSILON + |so.writtenOff| as real * EPSILON;
  }

  // ---------------------------------------------------------------- a run that drifts

  const KICK := Signal("Kick", [Member("foh", Some(1), None), Member("mon", None, Some(1))])
  const FOH := Kit(X32_TRIM, map[1 := 500], map[])
  const MON := Kit(X32_TRIM, map[], map[1 := 7])
  const RIG := Desks({"foh", "mon"}, map["foh" := FOH, "mon" := MON], map[Trim("mon", 1) := 72])

  /** The engine before its first lock. */
  const UNLOCKED := World("foh", false, [KICK], [], {}, RIG)

  const LOCK_AT_30 := LockNow([Some(30.0)], 0)

  function KickRow(gain: real, expected: seq<Expect>): Live {
    Live("Kick", Some(1), Some(500), Some(gain), Some(30.0), [Follower("mon", 1, Some(7), 0.0, 0.0)], expected)
  }

  lemma KickResolves()
    ensures Resolve(UNLOCKED).live
            == [Live("Kick", Some(1), Some(500), None, None, [Follower("mon", 1, Some(7), 0.0, 0.0)], [])]
  {
    var ms := KICK.members;
    assert Named([], "Kick") == 0;
    assert ms[1..] == [Member("mon", None, Some(1))] && ms[1..][1..] == [];
    assert LeaderIn(ms, "foh") == Some(1);
    assert Followers(ms[1..][1..], "foh", [], RIG) == [];
    assert Followers(ms[1..], "foh", [], RIG) == [Follower("mon", 1, Some(7), 0.0, 0.0)] + [];
    assert Followers(ms, "foh", [], RIG) == [Follower("mon", 1, Some(7), 0.0, 0.0)];
  }

  lemma KickLocks()
    ensures Apply(LOCK_AT_30, UNLOCKED)
            == UNLOCKED.(locked := true, live := [KickRow(30.0, [Expect(30.0, 0)])])
  {
    KickResolves();
    var row := Resolve(UNLOCKED).live[0];
    assert Cleared(row.followers) == [Follower("mon", 1, Some(7), 0.0, 0.0)];
    assert row.expected + [Expect(30.0, 0)] == [Expect(30.0, 0)];
    assert LockRow(row, Some(30.0), 0) == KickRow(30.0, [Expect(30.0, 0)]);
    assert ReadAt([Some(30.0)], 0) == Some(30.0);
    hide LockRow, Resolve, KickRow;
    assert Lock(UNLOCKED, [Some(30.0)], 0).live == [LockRow(row, Some(30.0), 0)];
  }

  /** Half an EPSILON more than last time is no move, however often it happens. */
  lemma KickCreeps(w: World, gain: real, es: seq<Expect>, now: nat)
    requires w.locked && w.live == [KickRow(gain, es)]
    ensures Apply(Poll([Some(gain + EPSILON / 2.0)], now, []), w)
            == w.(live := [KickRow(gain + EPSILON / 2.0, es + [Expect(gain + EPSILON / 2.0, now)])])
  {
    var more := gain + EPSILON / 2.0;
    var v := WithLive(w, 0, Expecting(w.live[0], more, now));
    assert ReadAt([Some(more)], 0) == Some(more);
    assert v.live == [KickRow(gain, es + [Expect(more, now)])];
    assert !IsMove(v, 0, more);
    var n := Noted(v, 0, more);
    assert n.live == [KickRow(more, es + [Expect(more, now)])];
    assert PollFrom(w, [Some(more)], now, [], 0) == PollFrom(n, [Some(more)], now, [], 1);
    assert PollFrom(n, [Some(more)], now, [], 1) == n;
  }

  lemma {:induction false} KickCreepsOn(w: World, gain: real, es: seq<Expect>, now: nat, n: nat)
    returns (steps: seq<Step>, es': seq<Expect>)
    requires w.locked && w.live == [KickRow(gain, es)]
    ensures |steps| == n && Run(steps, w).locked
    ensures Run(steps, w).live == [KickRow(gain + n as real * (EPSILON / 2.0), es')]
    decreases n
  {
    if n == 0 {
      steps, es' := [], es;
    } else {
      var poll := Poll([Some(gain + EPSILON / 2.0)], now, []);
      KickCreeps(w, gain, es, now);
      hide Apply;
      var more := gain + EPSILON / 2.0;
      var rest: seq<Step>;
      rest, es' := KickCreepsOn(Apply(poll, w), more, es + [Expect(more, now)], now + 1, n - 1);
      steps := [poll] + rest;
      assert steps[1..] == rest;
      assert more + (n - 1) as real * (EPSILON / 2.0) == gain + n as real * (EPSILON / 2.0);
    }
  }

  /** No bound that does not count what was ignored can hold: a leader that creeps half an EPSILON
      between one poll and the next gains any amount, and nothing is applied for it or owed. */
  lemma DriftIsUnbounded(n: nat) returns (steps: seq<Step>)
    ensures Inv(UNLOCKED, RIG.trims) && !UNLOCKED.locked && |steps| == n + 1
    ensures var w := Run(steps, UNLOCKED);
            && w.locked && Place(w.live, 0, 0) && w.live[0].Armed()
            && w.live[0].followers[0].applied + w.live[0].followers[0].owed == 0.0
            && w.live[0].gain.value - w.live[0].reference.value == n as real * (EPSILON / 2.0)
  {
    ShippedLawsAreWhole();
    KickLocks();
    hide Apply;
    var w1 := Apply(LOCK_AT_30, UNLOCKED);
    var rest, es := KickCreepsOn(w1, 30.0, [Expect(30.0, 0)], 1, n);
    steps := [LOCK_AT_30] + rest;
    assert steps[1..] == rest;
  }
}
