/** The conservation law of the gain lock, over every locked run in which every value lies on a
    lattice no finer than EPSILON. */
module GainLaws {
  import opened Wrappers
  import opened Law
  import opened GainTable
  import opened GainSpec
  import opened GainSettle
  import opened GainRun

  // ---------------------------------------------------------------- values on a lattice

  ghost predicate OnLattice(x: real, unit: real) {
    exists k: int :: x == Span(k, unit)
  }

  lemma LatticeSum(x: real, y: real, unit: real)
    requires unit > 0.0 && OnLattice(x, unit) && OnLattice(y, unit)
    ensures OnLattice(x - y, unit) && OnLattice(x + y, unit)
  {
    var j :| x == Span(j, unit);
    var k :| y == Span(k, unit);
    SpanApart(k, j, unit);
    SpanApart(-k, j, unit);
    SpanApart(k, 0, unit);
    assert x - y == Span(j - k, unit);
    assert x + y == Span(j + k, unit);
  }

  lemma LatticeZero(unit: real)
    requires unit > 0.0
    ensures OnLattice(0.0, unit)
  {
    SpanApart(0, 0, unit);
    assert 0.0 == Span(0, unit);
  }

  /** Nothing but zero is smaller than the lattice. */
  lemma LatticeSmall(x: real, unit: real)
    requires unit > 0.0 && OnLattice(x, unit) && Abs(x) < unit
    ensures x == 0.0
  {
    var k :| x == Span(k, unit);
    SpanApart(0, k, unit);
    SpanApart(k, 0, unit);
  }

  lemma LatticeSpan(n: int, step: real, unit: real)
    requires unit > 0.0 && OnLattice(step, unit)
    ensures OnLattice(Span(n, step), unit)
  {
    var m :| step == Span(m, unit);
    SpanTimes(n, m, unit);
    assert Span(n, step) == Span(n * m, unit);
  }

  lemma SpanTimes(n: int, m: int, unit: real)
    ensures Span(n, Span(m, unit)) == Span(n * m, unit)
  {
    assert (n * m) as real == n as real * m as real;
  }

  // ---------------------------------------------------------------- conservation

  /** Every gain, every step and every amount owed lies on a lattice no finer than EPSILON. */
  ghost predicate Fine(w: World, unit: real) {
    && unit >= EPSILON
    && (forall d <- w.desks.kits :: OnLattice(w.desks.kits[d].law.step, unit))
    && (forall i :: 0 <= i < |w.live| && w.live[i].gain.Some? ==> OnLattice(w.live[i].gain.value, unit))
    && (forall i, j :: Place(w.live, i, j) ==> OnLattice(w.live[i].followers[j].owed, unit))
  }

  ghost predicate FineReadings(readings: seq<Option<real>>, unit: real) {
    forall i :: 0 <= i < |readings| && readings[i].Some? ==> OnLattice(readings[i].value, unit)
  }

  ghost predicate FineBatch(batch: seq<Report>, unit: real) {
    forall i :: 0 <= i < |batch| && batch[i].value.Some? ==> OnLattice(batch[i].value.value, unit)
  }

  ghost predicate FineStep(s: Step, unit: real) {
    match s
    case LockNow(readings, _) => FineReadings(readings, unit)
    case SetGain(_, gain, _, _, _) => OnLattice(gain, unit)
    case Reports(batch, _, _) => FineBatch(batch, unit)
    case Poll(readings, _, _) => FineReadings(readings, unit)
    case _ => true
  }

  /** While locked, `applied + owed` is minus what the leader has gained since the lock. */
  ghost predicate Conserved(w: World, i: int) {
    (w.locked && 0 <= i < |w.live| && w.live[i].Armed()) ==>
      forall j :: 0 <= j < |w.live[i].followers| ==> Drift(w.live[i], w.live[i].followers[j]) == 0.0
  }

  // ---------------------------------------------------------------- one booking

  lemma BookedDrift(f: Follower, change: real, unit: real)
    requires unit >= EPSILON && OnLattice(f.owed, unit) && OnLattice(change, unit)
    ensures OnLattice(Booked(f, change).owed, unit)
    ensures Booked(f, change).applied + Booked(f, change).owed == f.applied + f.owed
  {
    LatticeSum(f.owed, change, unit);
    LatticeZero(unit);
    if Abs(f.owed - change) < EPSILON { LatticeSmall(f.owed - change, unit); }
  }

  lemma SettleFine(w: World, answers: set<Trim>, scope: set<Trim>, unit: real, i: int, j: int)
    requires Fine(w, unit) && Place(w.live, i, j)
    ensures var (f, f') := (w.live[i].followers[j], Settle(w, answers, scope).live[i].followers[j]);
            && OnLattice(f'.owed, unit)
            && f'.applied + f'.owed == f.applied + f.owed
  {
    var f := w.live[i].followers[j];
    if f.Id() in scope && Taken(f, w.desks, w.down, answers) {
      var step := w.desks.kits[f.device].law.step;
      LatticeSpan(Landing(w.desks, f.Id(), f.owed) - w.desks.trims[f.Id()], step, unit);
      BookedDrift(f, Change(w.desks, f.Id(), f.owed), unit);
    }
  }

  lemma SettleKeepsFine(w: World, answers: set<Trim>, scope: set<Trim>, unit: real)
    requires Fine(w, unit)
    ensures Fine(Settle(w, answers, scope), unit)
  {
    var w' := Settle(w, answers, scope);
    SettleShape(w, answers, scope);
    forall i, j | Place(w'.live, i, j) ensures OnLattice(w'.live[i].followers[j].owed, unit) {
      SettleFine(w, answers, scope, unit, i, j);
    }
  }

  lemma SettleConserves(w: World, answers: set<Trim>, scope: set<Trim>, unit: real, i: int)
    requires Fine(w, unit) && Conserved(w, i)
    ensures Conserved(Settle(w, answers, scope), i)
  {
    var w' := Settle(w, answers, scope);
    SettleShape(w, answers, scope);
    if w.locked && 0 <= i < |w.live| && w.live[i].Armed() {
      forall j | 0 <= j < |w'.live[i].followers| ensures Drift(w'.live[i], w'.live[i].followers[j]) == 0.0 {
        assert Place(w.live, i, j);
        SettleFine(w, answers, scope, unit, i, j);
        assert Drift(w.live[i], w.live[i].followers[j]) == 0.0;
      }
    }
  }

  // ---------------------------------------------------------------- one observation

  lemma NotedFine(w: World, index: nat, gain: real, unit: real)
    requires Fine(w, unit) && index < |w.live| && OnLattice(gain, unit)
    ensures Fine(Noted(w, index, gain), unit)
  {
    var w' := Noted(w, index, gain);
    forall i, j | Place(w'.live, i, j) ensures OnLattice(w'.live[i].followers[j].owed, unit) {
      assert Place(w.live, i, j);
    }
  }

  lemma ChargedFine(w: World, index: nat, gain: real, unit: real)
    requires Fine(w, unit) && index < |w.live| && w.live[index].Armed() && OnLattice(gain, unit)
    ensures Fine(Charged(w, index, gain), unit)
  {
    var w' := Charged(w, index, gain);
    var was := w.live[index].gain.value;
    forall i, j | Place(w'.live, i, j) ensures OnLattice(w'.live[i].followers[j].owed, unit) {
      assert Place(w.live, i, j);
      if i == index {
        LatticeSum(gain, was, unit);
        LatticeSum(w.live[i].followers[j].owed, gain - was, unit);
      }
    }
  }

  /** Arming starts from nothing, and on the lattice a report too small to act on is no change. */
  lemma NotedConserves(w: World, base: map<Trim, int>, index: nat, gain: real, unit: real, i: int)
    requires Inv(w, base) && Fine(w, unit) && index < |w.live| && OnLattice(gain, unit)
    requires Conserved(w, i) && !IsMove(w, index, gain)
    ensures Conserved(Noted(w, index, gain), i)
  {
    var w' := Noted(w, index, gain);
    if w.locked && i == index {
      var (l, l') := (w.live[i], w'.live[i]);
      forall j | 0 <= j < |l'.followers| ensures Drift(l', l'.followers[j]) == 0.0 {
        assert Place(w.live, i, j);
        if l.Armed() {
          assert Drift(l, l.followers[j]) == 0.0;
          LatticeSum(gain, l.gain.value, unit);
          LatticeSmall(gain - l.gain.value, unit);
        } else {
          assert BookOk(l, l.followers[j], w.desks, base);
        }
      }
    }
  }

  lemma ChargedConserves(w: World, index: nat, gain: real, i: int)
    requires index < |w.live| && w.live[index].Armed() && Conserved(w, i)
    ensures Conserved(Charged(w, index, gain), i)
  {
    var w' := Charged(w, index, gain);
    if w.locked && i == index {
      var (l, l') := (w.live[i], w'.live[i]);
      forall j | 0 <= j < |l'.followers| ensures Drift(l', l'.followers[j]) == 0.0 {
        assert Drift(l, l.followers[j]) == 0.0;
      }
    }
  }

  /** Other signals' trims are out of scope. */
  lemma OtherRow(live: seq<Live>, index: nat, i: int)
    requires Distinct(live) && index < |live| && i != index
    ensures forall j :: Place(live, i, j) ==> live[i].followers[j].Id() !in TrimsOf(live[index])
  {
    assert forall j, k ::
      (Place(live, i, j) && Place(live, index, k)) ==> live[i].followers[j].Id() != live[index].followers[k].Id();
  }

  lemma ObserveConserves(w: World, base: map<Trim, int>, index: nat, gain: real, answers: set<Trim>, unit: real, i: int)
    requires Inv(w, base) && Fine(w, unit) && index < |w.live| && OnLattice(gain, unit)
    requires Conserved(w, i)
    ensures Fine(Observe(w, index, gain, answers), unit)
    ensures Conserved(Observe(w, index, gain, answers), i)
  {
    if IsMove(w, index, gain) {
      var c := Charged(w, index, gain);
      ChargedFine(w, index, gain, unit);
      ChargedConserves(w, index, gain, i);
      SettleKeepsFine(c, answers, TrimsOf(w.live[index]), unit);
      SettleConserves(c, answers, TrimsOf(w.live[index]), unit, i);
    } else {
      NotedFine(w, index, gain, unit);
      NotedConserves(w, base, index, gain, unit, i);
    }
  }

  // ---------------------------------------------------------------- each operation

  lemma ExpectedFine(w: World, index: nat, es: seq<Expect>, unit: real, i: int)
    requires Fine(w, unit) && Conserved(w, i) && index < |w.live|
    ensures Fine(WithLive(w, index, w.live[index].(expected := es)), unit)
    ensures Conserved(WithLive(w, index, w.live[index].(expected := es)), i)
  {
    var w' := WithLive(w, index, w.live[index].(expected := es));
    forall a, b | Place(w'.live, a, b) ensures OnLattice(w'.live[a].followers[b].owed, unit) {
      assert Place(w.live, a, b);
    }
  }

  lemma {:induction false} HearFromFine(w: World, latest: seq<(nat, real)>, ono: nat, gain: real, now: nat, k: nat,
                                        unit: real, i: int)
    requires Fine(w, unit) && Conserved(w, i)
    ensures var (live', _) := HearFrom(w.live, latest, ono, gain, now, k);
            Fine(w.(live := live'), unit) && Conserved(w.(live := live'), i)
    decreases |w.live| - k
  {
    if k < |w.live| {
      var l := w.live[k];
      ExpectedFine(w, k, HearRow(l, ono, gain, now).expected, unit, i);
      assert HearRow(l, ono, gain, now) == l.(expected := HearRow(l, ono, gain, now).expected);
      HearFromFine(WithLive(w, k, HearRow(l, ono, gain, now)),
                   if Genuine(l, ono, gain, now) then Latest(latest, k, gain) else latest,
                   ono, gain, now, k + 1, unit, i);
    } else {
      assert w.(live := w.live) == w;
    }
  }

  /** How often signal `i` is to be observed. */
  function Times(latest: seq<(nat, real)>, i: int): nat {
    if latest == [] then 0 else (if latest[0].0 == i then 1 else 0) + Times(latest[1..], i)
  }

  /** At most once each, and only with values that were reported. */
  ghost predicate Fresh(latest: seq<(nat, real)>, unit: real) {
    && (forall i :: Times(latest, i) <= 1)
    && (forall k :: 0 <= k < |latest| ==> OnLattice(latest[k].1, unit))
  }

  lemma {:induction false} TimesLatest(latest: seq<(nat, real)>, index: nat, gain: real, i: int)
    ensures Times(Latest(latest, index, gain), i)
            == if i == index && Times(latest, i) == 0 then 1 else Times(latest, i)
  {
    if latest != [] {
      if latest[0].0 == index {
        assert ([(index, gain)] + latest[1..])[1..] == latest[1..];
      } else {
        TimesLatest(latest[1..], index, gain, i);
        assert ([latest[0]] + Latest(latest[1..], index, gain))[1..] == Latest(latest[1..], index, gain);
      }
    }
  }

  lemma {:induction false} RegularLatest(latest: seq<(nat, real)>, index: nat, gain: real, unit: real, k: nat)
    requires OnLattice(gain, unit)
    requires forall m :: 0 <= m < |latest| ==> OnLattice(latest[m].1, unit)
    requires k < |Latest(latest, index, gain)|
    ensures OnLattice(Latest(latest, index, gain)[k].1, unit)
  {
    if latest != [] && latest[0].0 != index && k > 0 {
      RegularLatest(latest[1..], index, gain, unit, k - 1);
    }
  }

  lemma LatestFresh(latest: seq<(nat, real)>, index: nat, gain: real, unit: real)
    requires Fresh(latest, unit) && OnLattice(gain, unit)
    ensures Fresh(Latest(latest, index, gain), unit)
  {
    forall i ensures Times(Latest(latest, index, gain), i) <= 1 { TimesLatest(latest, index, gain, i); }
    forall k | 0 <= k < |Latest(latest, index, gain)| ensures OnLattice(Latest(latest, index, gain)[k].1, unit) {
      RegularLatest(latest, index, gain, unit, k);
    }
  }

  lemma {:induction false} HearFromFresh(live: seq<Live>, latest: seq<(nat, real)>, ono: nat, gain: real, now: nat,
                                         k: nat, unit: real)
    requires Fresh(latest, unit) && OnLattice(gain, unit)
    ensures Fresh(HearFrom(live, latest, ono, gain, now, k).1, unit)
    decreases |live| - k
  {
    if k < |live| {
      var l := live[k];
      LatestFresh(latest, k, gain, unit);
      HearFromFresh(live[k := HearRow(l, ono, gain, now)],
                    if Genuine(l, ono, gain, now) then Latest(latest, k, gain) else latest,
                    ono, gain, now, k + 1, unit);
    }
  }

  lemma {:induction false} HearAllFine(w: World, latest: seq<(nat, real)>, batch: seq<Report>, now: nat, unit: real,
                                       i: int)
    requires Fine(w, unit) && Conserved(w, i) && Fresh(latest, unit) && FineBatch(batch, unit)
    ensures var (live', latest') := HearAll(w.live, latest, w.leader, batch, now);
            Fine(w.(live := live'), unit) && Conserved(w.(live := live'), i) && Fresh(latest', unit)
    decreases |batch|
  {
    if batch == [] {
      assert w.(live := w.live) == w;
    } else {
      var r := batch[0];
      if r.device != w.leader || r.value.None? {
        HearAllFine(w, latest, batch[1..], now, unit, i);
      } else {
        HearFromFine(w, latest, r.ono, r.value.value, now, 0, unit, i);
        HearFromFresh(w.live, latest, r.ono, r.value.value, now, 0, unit);
        var (live', latest') := HearFrom(w.live, latest, r.ono, r.value.value, now, 0);
        HearAllFine(w.(live := live'), latest', batch[1..], now, unit, i);
      }
    }
  }

  lemma {:induction false} ObserveAllConserves(w: World, base: map<Trim, int>, latest: seq<(nat, real)>,
                                               answers: seq<set<Trim>>, k: nat, unit: real, i: int)
    requires Inv(w, base) && Fine(w, unit) && Conserved(w, i)
    requires forall m :: 0 <= m < |latest| ==> OnLattice(latest[m].1, unit)
    ensures Fine(ObserveAll(w, latest, answers, k), unit) && Conserved(ObserveAll(w, latest, answers, k), i)
    decreases |latest|
  {
    if latest != [] {
      if latest[0].0 < |w.live| {
        var (index, gain) := latest[0];
        ObserveInv(w, base, index, gain, AnswersAt(answers, k));
        ObserveConserves(w, base, index, gain, AnswersAt(answers, k), unit, i);
        ObserveAllConserves(Observe(w, index, gain, AnswersAt(answers, k)), base, latest[1..], answers, k + 1, unit, i);
      } else {
        ObserveAllConserves(w, base, latest[1..], answers, k + 1, unit, i);
      }
    }
  }

  lemma {:induction false} PollConserves(w: World, base: map<Trim, int>, readings: seq<Option<real>>, now: nat,
                                         answers: seq<set<Trim>>, k: nat, unit: real, i: int)
    requires Inv(w, base) && Fine(w, unit) && Conserved(w, i) && FineReadings(readings, unit)
    ensures Fine(PollFrom(w, readings, now, answers, k), unit) && Conserved(PollFrom(w, readings, now, answers, k), i)
    decreases |w.live| - k
  {
    if k < |w.live| {
      var l := w.live[k];
      if l.ono.None? || ReadAt(readings, k).None? {
        PollConserves(w, base, readings, now, answers, k + 1, unit, i);
      } else {
        var gain := ReadAt(readings, k).value;
        ExpectInv(w, base, k, Expecting(l, gain, now).expected);
        ExpectedFine(w, k, Expecting(l, gain, now).expected, unit, i);
        var v := WithLive(w, k, Expecting(l, gain, now));
        ObserveInv(v, base, k, gain, AnswersAt(answers, k));
        ObserveConserves(v, base, k, gain, AnswersAt(answers, k), unit, i);
        PollConserves(Observe(v, k, gain, AnswersAt(answers, k)), base, readings, now, answers, k + 1, unit, i);
      }
    }
  }

  lemma {:induction false} FollowersFine(ms: seq<Member>, leader: string, previous: seq<Follower>, desks: Desks,
                                         unit: real, j: nat)
    requires unit >= EPSILON && j < |Followers(ms, leader, previous, desks)|
    requires forall k :: 0 <= k < |previous| ==> OnLattice(previous[k].owed, unit)
    ensures OnLattice(Followers(ms, leader, previous, desks)[j].owed, unit)
  {
    if ms[0].device == leader || ms[0].input.None? {
      FollowersFine(ms[1..], leader, previous, desks, unit, j);
    } else if j > 0 {
      FollowersFine(ms[1..], leader, previous, desks, unit, j - 1);
    } else {
      FindInHas(previous, Trim(ms[0].device, ms[0].input.value));
      LatticeZero(unit);
    }
  }

  lemma ResolveFine(w: World, unit: real)
    requires Fine(w, unit)
    ensures Fine(Resolve(w), unit)
  {
    var live := Resolve(w).live;
    forall i, j | Place(live, i, j) ensures OnLattice(live[i].followers[j].owed, unit) {
      var k := Named(w.live, w.signals[i].name);
      var previous := if k < |w.live| then w.live[k].followers else [];
      assert live[i].followers == Followers(w.signals[i].members, w.leader, previous, w.desks);
      forall m | 0 <= m < |previous| ensures OnLattice(previous[m].owed, unit) {
        assert Place(w.live, k, m);
      }
      FollowersFine(w.signals[i].members, w.leader, previous, w.desks, unit, j);
    }
  }

  lemma LockConserves(w: World, readings: seq<Option<real>>, now: nat, unit: real, i: int)
    requires Fine(w, unit) && FineReadings(readings, unit)
    ensures Fine(Lock(w, readings, now), unit)
    ensures Conserved(Lock(w, readings, now), i)
  {
    ResolveFine(w, unit);
    LatticeZero(unit);
    var (r, w') := (Resolve(w), Lock(w, readings, now));
    forall k | 0 <= k < |w'.live|
      ensures w'.live[k].followers == Cleared(r.live[k].followers)
      ensures w'.live[k].gain.Some? ==> OnLattice(w'.live[k].gain.value, unit)
      ensures w'.live[k].Armed() ==> w'.live[k].gain == w'.live[k].reference
    {
      assert w'.live[k] == LockRow(r.live[k], ReadAt(readings, k), now);
    }
  }

  // ---------------------------------------------------------------- the law, over runs

  lemma StepConserves(s: Step, w: World, base: map<Trim, int>, unit: real, i: int)
    requires Inv(w, base) && Fine(w, unit) && FineStep(s, unit) && Conserved(w, i)
    ensures Fine(Apply(s, w), unit) && Conserved(Apply(s, w), i)
  {
    match s
    case LockNow(readings, now) => LockConserves(w, readings, now, unit, i);
    case Unlock =>
    case ElectLeader(device) =>
      if !w.locked && CanLead(w.signals, device) { ResolveFine(w.(leader := device), unit); }
    case SetGain(name, gain, accepted, now, who) =>
      if Settable(w, name) && accepted {
        var k := Named(w.live, name);
        ExpectInv(w, base, k, Expecting(w.live[k], gain, now).expected);
        ExpectedFine(w, k, Expecting(w.live[k], gain, now).expected, unit, i);
        ObserveConserves(WithLive(w, k, Expecting(w.live[k], gain, now)), base, k, gain, who, unit, i);
      }
    case Reports(batch, now, answers) =>
      HearAllInv(w, base, [], batch, now);
      HearAllFine(w, [], batch, now, unit, i);
      var (live', latest) := HearAll(w.live, [], w.leader, batch, now);
      ObserveAllConserves(w.(live := live'), base, latest, answers, 0, unit, i);
    case Poll(readings, now, answers) => PollConserves(w, base, readings, now, answers, 0, unit, i);
    case Back(back, who) =>
      if w.locked && back != {} {
        SettleKeepsFine(w.(down := w.down - back), who, TrimsOn(w.live, back), unit);
        SettleConserves(w.(down := w.down - back), who, TrimsOn(w.live, back), unit, i);
      }
    case Surface(t, index) =>
    case Link(connected) =>
  }

  ghost predicate FineSteps(steps: seq<Step>, unit: real) {
    forall k :: 0 <= k < |steps| ==> FineStep(steps[k], unit)
  }

  lemma {:induction false} RunConserves(steps: seq<Step>, w: World, base: map<Trim, int>, unit: real, i: int)
    requires Inv(w, base) && Fine(w, unit) && FineSteps(steps, unit) && Conserved(w, i)
    ensures Conserved(Run(steps, w), i) && Fine(Run(steps, w), unit)
    decreases |steps|
  {
    if steps != [] {
      assert FineStep(steps[0], unit);
      StepInv(steps[0], w, base);
      StepConserves(steps[0], w, base, unit, i);
      RunConserves(steps[1..], Apply(steps[0], w), Rebase(steps[0], w, base), unit, i);
    }
  }

  /** With every gain and every trim step on a lattice no finer than EPSILON,
      `applied + owed == -(gain - reference)` for every armed follower after every run. */
  lemma ConservationOnLattice(steps: seq<Step>, w: World, base: map<Trim, int>, unit: real, i: int, j: int)
    requires Inv(w, base) && Fine(w, unit) && FineSteps(steps, unit) && !w.locked
    requires var w' := Run(steps, w); w'.locked && Place(w'.live, i, j) && w'.live[i].Armed()
    ensures var l := Run(steps, w).live[i];
            l.followers[j].applied + l.followers[j].owed == -(l.gain.value - l.reference.value)
  {
    RunConserves(steps, w, base, unit, i);
    assert Drift(Run(steps, w).live[i], Run(steps, w).live[i].followers[j]) == 0.0;
  }
}
