/** Where the trims end up: a settled trim depends on the leader's gain now and on nothing that
    happened in between, so bursts may be coalesced and outages made good in one move. */
module GainPaths {
  import opened Wrappers
  import opened Law
  import opened GainTable
  import opened GainSpec
  import opened GainSettle
  import opened GainRun
  import opened GainLaws

  // ---------------------------------------------------------------- everyone rests, unless down

  /** No hand on a desk and no desk plugged or unplugged. */
  predicate Quiet(s: Step) {
    !s.Surface? && !s.Link?
  }

  ghost predicate RestsAt(w: World, f: Follower) {
    f.ono.Some? ==> f.device in w.desks.connected && (Rested(w.desks, f) || f.device in w.down)
  }

  /** While locked, every follower is where its desk would leave it, or its desk is down. */
  ghost predicate AllRest(w: World) {
    w.locked ==> forall i, j :: Place(w.live, i, j) ==> RestsAt(w, w.live[i].followers[j])
  }

  /** A round of moves brings everyone in its scope to rest and disturbs no one else. */
  lemma SettleRests(w: World, base: map<Trim, int>, answers: set<Trim>, scope: set<Trim>, i: int, j: int)
    requires Inv(w, base) && w.locked && Place(w.live, i, j)
    requires var f := w.live[i].followers[j];
             f.ono.Some? ==> f.device in w.desks.connected && (f.Id() in scope || RestsAt(w, f))
    ensures RestsAt(Settle(w, answers, scope), Settle(w, answers, scope).live[i].followers[j])
  {
    var f := w.live[i].followers[j];
    var w' := Settle(w, answers, scope);
    SettleAt(w, answers, scope, i, j);
    SettleTrimsSound(w, answers, scope);
    assert BookOk(w.live[i], f, w.desks, base);
    if f.ono.Some? {
      if f.Id() in scope && Taken(f, w.desks, w.down, answers) {
        TakenMove(w.desks, f, base, w'.desks, w'.live[i].followers[j]);
      } else {
        SoundControls(w.desks, f.Id());
        LandingLocal(w.desks, w'.desks, f.Id(), f.owed);
        if f.Id() in scope {
          if Abs(f.owed) < EPSILON {
            SmallOwedRests(w.desks, f);
          } else if f.device !in w.down {
            FindIs(w.live, i, j);
            assert f.Id().device in w'.down;
          }
        }
      }
    }
  }

  lemma ObserveRests(w: World, base: map<Trim, int>, index: nat, gain: real, answers: set<Trim>)
    requires Inv(w, base) && AllRest(w) && index < |w.live|
    ensures AllRest(Observe(w, index, gain, answers))
  {
    if w.locked && IsMove(w, index, gain) {
      ChargedInv(w, base, index, gain);
      var c := Charged(w, index, gain);
      var w' := Observe(w, index, gain, answers);
      forall i, j | Place(w'.live, i, j) ensures RestsAt(w', w'.live[i].followers[j]) {
        assert Place(w.live, i, j) && RestsAt(w, w.live[i].followers[j]);
        SettleRests(c, base, answers, TrimsOf(w.live[index]), i, j);
      }
    } else if w.locked {
      var w' := Observe(w, index, gain, answers);
      forall i, j | Place(w'.live, i, j) ensures RestsAt(w', w'.live[i].followers[j]) {
        assert Place(w.live, i, j) && RestsAt(w, w.live[i].followers[j]);
      }
    }
  }

  lemma ExpectRests(w: World, index: nat, es: seq<Expect>)
    requires AllRest(w) && index < |w.live|
    ensures AllRest(WithLive(w, index, w.live[index].(expected := es)))
  {
    var w' := WithLive(w, index, w.live[index].(expected := es));
    if w.locked {
      forall i, j | Place(w'.live, i, j) ensures RestsAt(w', w'.live[i].followers[j]) {
        assert Place(w.live, i, j) && RestsAt(w, w.live[i].followers[j]);
      }
    }
  }

  lemma {:induction false} HearFromRests(w: World, latest: seq<(nat, real)>, ono: nat, gain: real, now: nat, k: nat)
    requires AllRest(w)
    ensures AllRest(w.(live := HearFrom(w.live, latest, ono, gain, now, k).0))
    decreases |w.live| - k
  {
    if k < |w.live| {
      var l := w.live[k];
      ExpectRests(w, k, HearRow(l, ono, gain, now).expected);
      assert HearRow(l, ono, gain, now) == l.(expected := HearRow(l, ono, gain, now).expected);
      HearFromRests(WithLive(w, k, HearRow(l, ono, gain, now)),
                    if Genuine(l, ono, gain, now) then Latest(latest, k, gain) else latest, ono, gain, now, k + 1);
    } else {
      assert w.(live := w.live) == w;
    }
  }

  lemma {:induction false} HearAllRests(w: World, latest: seq<(nat, real)>, batch: seq<Report>, now: nat)
    requires AllRest(w)
    ensures AllRest(w.(live := HearAll(w.live, latest, w.leader, batch, now).0))
    decreases |batch|
  {
    if batch == [] {
      assert w.(live := w.live) == w;
    } else {
      var r := batch[0];
      if r.device != w.leader || r.value.None? {
        HearAllRests(w, latest, batch[1..], now);
      } else {
        HearFromRests(w, latest, r.ono, r.value.value, now, 0);
        var (live', latest') := HearFrom(w.live, latest, r.ono, r.value.value, now, 0);
        HearAllRests(w.(live := live'), latest', batch[1..], now);
      }
    }
  }

  lemma {:induction false} ObserveAllRests(w: World, base: map<Trim, int>, latest: seq<(nat, real)>,
                                           answers: seq<set<Trim>>, k: nat)
    requires Inv(w, base) && AllRest(w)
    ensures AllRest(ObserveAll(w, latest, answers, k))
    decreases |latest|
  {
    if latest != [] {
      if latest[0].0 < |w.live| {
        ObserveInv(w, base, latest[0].0, latest[0].1, AnswersAt(answers, k));
        ObserveRests(w, base, latest[0].0, latest[0].1, AnswersAt(answers, k));
        ObserveAllRests(Observe(w, latest[0].0, latest[0].1, AnswersAt(answers, k)), base, latest[1..], answers, k + 1);
      } else {
        ObserveAllRests(w, base, latest[1..], answers, k + 1);
      }
    }
  }

  lemma {:induction false} PollRests(w: World, base: map<Trim, int>, readings: seq<Option<real>>, now: nat,
                                     answers: seq<set<Trim>>, i: nat)
    requires Inv(w, base) && AllRest(w)
    ensures AllRest(PollFrom(w, readings, now, answers, i))
    decreases |w.live| - i
  {
    if i < |w.live| {
      var l := w.live[i];
      if l.ono.None? || ReadAt(readings, i).None? {
        PollRests(w, base, readings, now, answers, i + 1);
      } else {
        var gain := ReadAt(readings, i).value;
        var v := WithLive(w, i, Expecting(l, gain, now));
        ExpectInv(w, base, i, Expecting(l, gain, now).expected);
        ExpectRests(w, i, Expecting(l, gain, now).expected);
        ObserveInv(v, base, i, gain, AnswersAt(answers, i));
        ObserveRests(v, base, i, gain, AnswersAt(answers, i));
        PollRests(Observe(v, i, gain, AnswersAt(answers, i)), base, readings, now, answers, i + 1);
      }
    }
  }

  lemma LockRests(w: World, readings: seq<Option<real>>, now: nat)
    requires w.desks.Sound() && OneSourcePerTrim(w.signals)
    ensures AllRest(Lock(w, readings, now))
  {
    LockInv(w, readings, now);
    var w' := Lock(w, readings, now);
    forall i, j | Place(w'.live, i, j) ensures RestsAt(w', w'.live[i].followers[j]) {
      assert w'.live[i].followers == Cleared(Resolve(w).live[i].followers);
      var m := ResolvePlace(w, i, j);
      var f := w'.live[i].followers[j];
      if f.ono.Some? { SmallOwedRests(w'.desks, f); }
    }
  }

  lemma RecoverRests(w: World, base: map<Trim, int>, back: set<string>, answers: set<Trim>)
    requires Inv(w, base) && AllRest(w)
    ensures AllRest(Recover(w, back, answers))
  {
    if w.locked && back != {} {
      var v := w.(down := w.down - back);
      var w' := Recover(w, back, answers);
      assert Inv(v, base);
      forall i, j | Place(w'.live, i, j) ensures RestsAt(w', w'.live[i].followers[j]) {
        var f := w.live[i].followers[j];
        assert Place(w.live, i, j) && RestsAt(w, f);
        assert f.device in back ==> f.Id() in TrimsOn(w.live, back);
        SettleRests(v, base, answers, TrimsOn(w.live, back), i, j);
      }
    }
  }

  lemma StepRests(s: Step, w: World, base: map<Trim, int>)
    requires Inv(w, base) && AllRest(w) && Quiet(s)
    ensures AllRest(Apply(s, w))
  {
    match s
    case LockNow(readings, now) => LockRests(w, readings, now);
    case Unlock =>
    case ElectLeader(device) =>
    case SetGain(name, gain, accepted, now, who) =>
      if Settable(w, name) && accepted {
        var k := Named(w.live, name);
        ExpectInv(w, base, k, Expecting(w.live[k], gain, now).expected);
        ExpectRests(w, k, Expecting(w.live[k], gain, now).expected);
        ObserveRests(WithLive(w, k, Expecting(w.live[k], gain, now)), base, k, gain, who);
      }
    case Reports(batch, now, answers) =>
      HearAllInv(w, base, [], batch, now);
      HearAllRests(w, [], batch, now);
      var (live', latest) := HearAll(w.live, [], w.leader, batch, now);
      ObserveAllRests(w.(live := live'), base, latest, answers, 0);
    case Poll(readings, now, answers) => PollRests(w, base, readings, now, answers, 0);
    case Back(back, who) => RecoverRests(w, base, back, who);
  }

  ghost predicate AllQuiet(steps: seq<Step>) {
    forall k :: 0 <= k < |steps| ==> Quiet(steps[k])
  }

  lemma {:induction false} RunRests(steps: seq<Step>, w: World, base: map<Trim, int>)
    requires Inv(w, base) && AllRest(w) && AllQuiet(steps)
    ensures AllRest(Run(steps, w))
    decreases |steps|
  {
    if steps != [] {
      assert Quiet(steps[0]);
      StepInv(steps[0], w, base);
      StepRests(steps[0], w, base);
      RunRests(steps[1..], Apply(steps[0], w), Rebase(steps[0], w, base));
    }
  }

  // ---------------------------------------------------------------- path independence

  /** The grid point exact compensation asks for: where the engineers have the trim, less what the
      leader has gained since the lock. */
  function Target(w: World, base: map<Trim, int>, i: int, j: int): int
    requires Place(w.live, i, j) && w.live[i].Armed()
    requires w.desks.Controls(w.live[i].followers[j].Id()) && w.live[i].followers[j].Id() in base
  {
    var t := w.live[i].followers[j].Id();
    Aim(w.desks.kits[t.device].law, base[t], w.live[i].reference.value - w.live[i].gain.value)
  }

  /** A settled trim is at its target: a function of the leader's gain now, the reference and the
      engineers' own setting - moves by hand included - and of nothing else. */
  lemma SettledIsOnTarget(w: World, base: map<Trim, int>, i: int, j: int)
    requires Inv(w, base) && w.locked && Place(w.live, i, j) && w.live[i].Armed()
    requires w.live[i].followers[j].ono.Some? && Conserved(w, i)
    ensures w.desks.Controls(w.live[i].followers[j].Id()) && w.live[i].followers[j].Id() in base
    ensures Rested(w.desks, w.live[i].followers[j])
            <==> w.desks.trims[w.live[i].followers[j].Id()] == Target(w, base, i, j)
  {
    var f := w.live[i].followers[j];
    assert BookOk(w.live[i], f, w.desks, base);
    assert Drift(w.live[i], f) == 0.0;
    SoundControls(w.desks, f.Id());
    RestedIffAimed(w.desks, f, base);
  }

  /** Path independence: after any run without a hand on the desks - any reports, sets, polls,
      clamps, outages and retries - a follower's trim stands where one move straight from the
      lock to the leader's gain now would have put it, or its desk is down and waiting. */
  lemma PathIndependence(steps: seq<Step>, w: World, base: map<Trim, int>, unit: real, i: int, j: int)
    requires Inv(w, base) && Fine(w, unit) && FineSteps(steps, unit) && AllQuiet(steps) && !w.locked
    requires var w' := Run(steps, w); w'.locked && Place(w'.live, i, j) && w'.live[i].Armed()
    requires Run(steps, w).live[i].followers[j].ono.Some?
    ensures var (w', base') := (Run(steps, w), BaseAfter(steps, w, base));
            var f := w'.live[i].followers[j];
            && w'.desks.Controls(f.Id()) && f.Id() in base'
            && (f.device in w'.down || w'.desks.trims[f.Id()] == Target(w', base', i, j))
  {
    RunInv(steps, w, base);
    RunRests(steps, w, base);
    RunConserves(steps, w, base, unit, i);
    SettledIsOnTarget(Run(steps, w), BaseAfter(steps, w, base), i, j);
    assert RestsAt(Run(steps, w), Run(steps, w).live[i].followers[j]);
  }

  /** After any run at all, moves by hand and desks unplugged included, a follower of an armed signal has
      nothing left to take exactly when its trim is at its target. */
  lemma SettledAfterAnyRun(steps: seq<Step>, w: World, base: map<Trim, int>, unit: real, i: int, j: int)
    requires Inv(w, base) && Fine(w, unit) && FineSteps(steps, unit) && !w.locked
    requires var w' := Run(steps, w); w'.locked && Place(w'.live, i, j) && w'.live[i].Armed()
    requires Run(steps, w).live[i].followers[j].ono.Some?
    ensures var (w', base') := (Run(steps, w), BaseAfter(steps, w, base));
            var f := w'.live[i].followers[j];
            && w'.desks.Controls(f.Id()) && f.Id() in base'
            && (Rested(w'.desks, f) <==> w'.desks.trims[f.Id()] == Target(w', base', i, j))
  {
    RunInv(steps, w, base);
    RunConserves(steps, w, base, unit, i);
    SettledIsOnTarget(Run(steps, w), BaseAfter(steps, w, base), i, j);
  }

  /** Back at the gain it was locked at, every settled trim is back where its engineer has it. */
  lemma ReturnsHome(w: World, base: map<Trim, int>, i: int, j: int)
    requires Inv(w, base) && w.locked && Place(w.live, i, j) && w.live[i].Armed()
    requires w.live[i].followers[j].ono.Some? && Conserved(w, i)
    requires Rested(w.desks, w.live[i].followers[j]) && w.live[i].gain == w.live[i].reference
    requires var t := w.live[i].followers[j].Id();
             t in base && w.desks.Controls(t) && 0 <= base[t] <= w.desks.kits[t.device].law.Steps()
    ensures w.desks.trims[w.live[i].followers[j].Id()] == base[w.live[i].followers[j].Id()]
    ensures w.live[i].followers[j].applied == 0.0 && w.live[i].followers[j].owed == 0.0
  {
    var f := w.live[i].followers[j];
    SettledIsOnTarget(w, base, i, j);
    SoundControls(w.desks, f.Id());
    var law := w.desks.kits[f.device].law;
    AtGrid(law, base[f.Id()]);
    SpanApart(0, 0, law.step);
    assert BookOk(w.live[i], f, w.desks, base);
    assert Drift(w.live[i], f) == 0.0;
  }

  /** Rounding never accumulates: a settled trim is within half a step of exact compensation,
      however many moves led there, unless that is beyond the end it is pinned at. */
  lemma RoundingNeverAccumulates(w: World, base: map<Trim, int>, i: int, j: int)
    requires Inv(w, base) && w.locked && Place(w.live, i, j) && w.live[i].Armed()
    requires w.live[i].followers[j].ono.Some? && Conserved(w, i) && Rested(w.desks, w.live[i].followers[j])
    ensures var t := w.live[i].followers[j].Id();
            && t in base && w.desks.Controls(t)
            && var law := w.desks.kits[t.device].law;
               var exact := law.min + Span(base[t], law.step) - (w.live[i].gain.value - w.live[i].reference.value);
               Abs(law.At(w.desks.trims[t]) - Clamp(exact, law.min, law.max)) <= law.step / 2.0
  {
    SettledIsOnTarget(w, base, i, j);
    var t := w.live[i].followers[j].Id();
    SoundControls(w.desks, t);
    var law := w.desks.kits[t.device].law;
    QuantizeNearest(law, law.min + Span(base[t], law.step) + (w.live[i].reference.value - w.live[i].gain.value), 0);
  }

  // ---------------------------------------------------------------- same gain, same trim

  /** The answering desks, as a set of devices: a desk answers for all its trims or for none. */
  ghost predicate DeskWide(live: seq<Live>, answers: set<Trim>, desks: set<string>) {
    forall i, j :: Place(live, i, j) ==>
      (live[i].followers[j].Id() in answers <==> live[i].followers[j].device in desks)
  }

  /** What every way of getting from `w` to the gain of `w'` has in common, at one place: a desk
      that answers has its trim on target; any other has not moved and owes the whole difference. */
  ghost predicate Reached(w: World, w': World, base: map<Trim, int>, desks: set<string>, i: int, j: int)
    requires Place(w.live, i, j) && Place(w'.live, i, j) && w'.live[i].Armed()
  {
    var (f, f') := (w.live[i].followers[j], w'.live[i].followers[j]);
    && f'.Id() == f.Id() && f'.ono == f.ono
    && Drift(w'.live[i], f') == 0.0
    && (if f.ono.Some? && f.device !in w.down && f.device in desks
        then Agrees(w'.desks, f', base) && Rested(w'.desks, f')
        else f'.applied == f.applied
             && (f.Id() in w.desks.trims ==>
                   f.Id() in w'.desks.trims && w'.desks.trims[f.Id()] == w.desks.trims[f.Id()]))
  }

  /** Two such ways that end at the same gain end with the same books and the same trim. */
  lemma ReachedOnce(w: World, w1: World, w2: World, base: map<Trim, int>, desks: set<string>, i: int, j: int)
    requires Place(w.live, i, j) && Place(w1.live, i, j) && Place(w2.live, i, j)
    requires w1.live[i].Armed() && w2.live[i].Armed()
    requires Reached(w, w1, base, desks, i, j) && Reached(w, w2, base, desks, i, j)
    requires w1.desks.Sound() && w2.desks.Sound() && w1.desks.kits == w2.desks.kits
    requires w1.live[i].gain == w2.live[i].gain && w1.live[i].reference == w2.live[i].reference
    ensures w1.live[i].followers[j] == w2.live[i].followers[j]
    ensures var t := w.live[i].followers[j].Id();
            t in w.desks.trims && t in w1.desks.trims && t in w2.desks.trims
            ==> w1.desks.trims[t] == w2.desks.trims[t]
  {
    var (f, f1, f2) := (w.live[i].followers[j], w1.live[i].followers[j], w2.live[i].followers[j]);
    if f.ono.Some? && f.device !in w.down && f.device in desks {
      RestedIffAimed(w1.desks, f1, base);
      RestedIffAimed(w2.desks, f2, base);
    }
  }

  /** A follower that was left alone for the whole round, or whose desk was. */
  ghost predicate SteadyDown(w: World, w': World, desks: set<string>) {
    w.down <= w'.down && forall d <- w'.down :: d in w.down || d !in desks
  }

  /** Everything one observation needs of the state it starts from. */
  ghost predicate Ready(w: World, base: map<Trim, int>, unit: real) {
    && Inv(w, base) && AllRest(w) && Fine(w, unit) && w.locked
    && forall i :: Conserved(w, i)
  }

  lemma ObserveReady(w: World, base: map<Trim, int>, unit: real, index: nat, gain: real, answers: set<Trim>)
    requires Ready(w, base, unit) && index < |w.live| && OnLattice(gain, unit)
    ensures Ready(Observe(w, index, gain, answers), base, unit)
  {
    ObserveInv(w, base, index, gain, answers);
    ObserveRests(w, base, index, gain, answers);
    ObserveConserves(w, base, index, gain, answers, unit, index);
    forall i ensures Conserved(Observe(w, index, gain, answers), i) {
      ObserveConserves(w, base, index, gain, answers, unit, i);
    }
  }

  /** The shape of an observation: one row's gain, and followers' `applied` and `owed`. */
  lemma ObserveShape(w: World, index: nat, gain: real, answers: set<Trim>)
    requires index < |w.live| && w.locked && w.live[index].Armed()
    ensures var w' := Observe(w, index, gain, answers);
            && w' == w.(live := w'.live, down := w'.down, desks := w.desks.(trims := w'.desks.trims))
            && |w'.live| == |w.live|
            && w'.live[index].gain == Some(gain)
            && (forall i :: 0 <= i < |w.live| ==>
                  && w'.live[i] == w.live[i].(gain := w'.live[i].gain, followers := w'.live[i].followers)
                  && (i != index ==> w'.live[i].gain == w.live[i].gain)
                  && |w'.live[i].followers| == |w.live[i].followers|)
            && (forall i, j :: Place(w.live, i, j) ==>
                  var (f, f') := (w.live[i].followers[j], w'.live[i].followers[j]);
                  f' == f.(applied := f'.applied, owed := f'.owed))
  {
    if IsMove(w, index, gain) {
      SettleShape(Charged(w, index, gain), answers, TrimsOf(w.live[index]));
    }
  }

  lemma ObserveDown(w: World, base: map<Trim, int>, index: nat, gain: real, answers: set<Trim>, desks: set<string>)
    requires Inv(w, base) && index < |w.live| && DeskWide(w.live, answers, desks)
    ensures SteadyDown(w, Observe(w, index, gain, answers), desks)
  {
    if IsMove(w, index, gain) {
      ChargedInv(w, base, index, gain);
      var c := Charged(w, index, gain);
      var scope := TrimsOf(w.live[index]);
      forall d | d in Settle(c, answers, scope).down && d !in w.down ensures d !in desks {
        var t :| t in scope && Find(c.live, t).Some? && t.device == d
          && Offered(Find(c.live, t).value, c.desks.connected, c.down)
          && !Taken(Find(c.live, t).value, c.desks, c.down, answers);
        var i, j := FindHas(c.live, t);
        assert Place(w.live, i, j) && w.live[i].followers[j].Id() == t;
        assert c.live[i].followers[j].ono.Some? && t in c.desks.trims;
        SoundControls(c.desks, t);
      }
    }
  }

  /** One more observation, seen from `w`. */
  lemma ReachedAfter(w: World, v: World, base: map<Trim, int>, unit: real, desks: set<string>, index: nat, gain: real,
                     answers: set<Trim>, i: int, j: int)
    requires Ready(v, base, unit) && DeskWide(v.live, answers, desks) && SteadyDown(w, v, desks)
    requires index < |v.live| && v.live[index].Armed() && OnLattice(gain, unit)
    requires Place(w.live, i, j) && Place(v.live, i, j) && v.live[i].Armed() && Reached(w, v, base, desks, i, j)
    ensures var w' := Observe(v, index, gain, answers);
            Place(w'.live, i, j) && w'.live[i].Armed() && Reached(w, w', base, desks, i, j)
  {
    var w' := Observe(v, index, gain, answers);
    ObserveShape(v, index, gain, answers);
    ObserveReady(v, base, unit, index, gain, answers);
    ObserveDown(v, base, index, gain, answers, desks);
    var (f, g, h) := (w.live[i].followers[j], v.live[i].followers[j], w'.live[i].followers[j]);
    assert h.Id() == g.Id() && h.ono == g.ono;
    assert Conserved(w', i);
    assert Drift(w'.live[i], h) == 0.0;
    if f.ono.Some? && f.device !in w.down && f.device in desks {
      assert BookOk(w'.live[i], h, w'.desks, base);
      assert RestsAt(w', h);
    } else {
      StandsStill(v, base, index, gain, answers, i, j);
    }
  }

  /** A follower without a control, or whose desk is down or silent, is not moved. */
  lemma StandsStill(v: World, base: map<Trim, int>, index: nat, gain: real, answers: set<Trim>, i: int, j: int)
    requires Inv(v, base) && index < |v.live| && Place(v.live, i, j) && v.locked && v.live[index].Armed()
    requires var g := v.live[i].followers[j]; g.ono.None? || g.device in v.down || g.Id() !in answers
    ensures var w' := Observe(v, index, gain, answers);
            && Place(w'.live, i, j) && w'.live[i].followers[j].applied == v.live[i].followers[j].applied
            && var t := v.live[i].followers[j].Id();
               t in v.desks.trims ==> t in w'.desks.trims && w'.desks.trims[t] == v.desks.trims[t]
  {
    if IsMove(v, index, gain) {
      ChargedInv(v, base, index, gain);
      var c := Charged(v, index, gain);
      assert Place(c.live, i, j);
      SettleAt(c, answers, TrimsOf(v.live[index]), i, j);
    }
  }
}
