/** What a round of moves and a gain learnt do to every field of the engine and to every trim, spelled out
    without the functions the engine is proved against; and that an engine not locked moves nothing. */
module GainEffects {
  import opened Wrappers
  import opened Law
  import opened GainTable
  import opened GainSpec
  import opened GainSettle
  import opened GainRun

  // ---------------------------------------------------------------- a round of moves

  /** A move of at least 0.0001 dB goes out, to a desk that is connected and not marked down. */
  predicate GoesOut(w: World, f: Follower) {
    && (f.owed >= 0.0001 || f.owed <= -0.0001)
    && f.ono != None
    && f.device in w.desks.connected
    && f.device !in w.down
  }

  /** The desk makes the move: it answers, and has a control there. */
  predicate IsMade(w: World, f: Follower, answers: set<Trim>) {
    && Trim(f.device, f.input) in answers
    && Trim(f.device, f.input) in w.desks.trims
    && f.device in w.desks.kits
    && w.desks.kits[f.device].law.Valid()
  }

  /** The grid point the desk moves to, and the books after: what the trim moved is applied and no longer owed,
      and a rest under 0.0001 dB is written off. */
  ghost predicate Follows(w: World, f: Follower, f': Follower, index: int)
    requires IsMade(w, f, {Trim(f.device, f.input)})
  {
    var law := w.desks.kits[f.device].law;
    var was := w.desks.trims[Trim(f.device, f.input)];
    var moved := (index - was) as real * law.step;
    var rest := f.owed - moved;
    && index == law.Index(law.At(was) + f.owed)
    && f' == Follower(f.device, f.input, f.ono, f.applied + moved, if -0.0001 < rest < 0.0001 then 0.0 else rest)
  }

  /** `w'` is what one round of moves for the trims in `scope` makes of `w`. */
  ghost predicate IsRound(w: World, w': World, answers: set<Trim>, scope: set<Trim>) {
    && w' == w.(live := w'.live, down := w'.down, desks := w.desks.(trims := w'.desks.trims))
    && w'.desks.trims.Keys == w.desks.trims.Keys
    && |w'.live| == |w.live|
    && (forall i :: 0 <= i < |w.live| ==> w'.live[i] == w.live[i].(followers := w'.live[i].followers))
    && (forall i :: 0 <= i < |w.live| ==> |w'.live[i].followers| == |w.live[i].followers|)
    && (forall i, j :: Place(w.live, i, j) ==> PlaceAfter(w, w', answers, scope, i, j))
    && (forall t <- w.desks.trims :: (forall i, j :: Place(w.live, i, j) ==> w.live[i].followers[j].Id() != t)
          ==> w'.desks.trims[t] == w.desks.trims[t])
    && (forall d :: d in w'.down <==> d in w.down || FoundDown(w, answers, scope, d))
  }

  /** One follower after the round, and its trim. */
  ghost predicate PlaceAfter(w: World, w': World, answers: set<Trim>, scope: set<Trim>, i: int, j: int)
    requires |w'.live| == |w.live| && w'.desks.trims.Keys == w.desks.trims.Keys
    requires Place(w.live, i, j) && Place(w'.live, i, j)
  {
    var f, f' := w.live[i].followers[j], w'.live[i].followers[j];
    var t := Trim(f.device, f.input);
    if t in scope && GoesOut(w, f) && IsMade(w, f, answers) then Follows(w, f, f', w'.desks.trims[t])
    else f' == f && (t in w.desks.trims ==> w'.desks.trims[t] == w.desks.trims[t])
  }

  /** A move went out to desk `d` that was not made. */
  ghost predicate FoundDown(w: World, answers: set<Trim>, scope: set<Trim>, d: string) {
    exists i, j :: Place(w.live, i, j) && Refuses(w, w.live[i].followers[j], answers, scope, d)
  }

  predicate Refuses(w: World, f: Follower, answers: set<Trim>, scope: set<Trim>, d: string) {
    f.device == d && Trim(f.device, f.input) in scope && GoesOut(w, f) && !IsMade(w, f, answers)
  }

  lemma SentIs(w: World, f: Follower, answers: set<Trim>)
    ensures Offered(f, w.desks.connected, w.down) <==> GoesOut(w, f)
    ensures Taken(f, w.desks, w.down, answers) <==> GoesOut(w, f) && IsMade(w, f, answers)
  {}

  lemma RoundPlace(w: World, answers: set<Trim>, scope: set<Trim>, i: int, j: int)
    requires Distinct(w.live) && Place(w.live, i, j)
    ensures var w' := Settle(w, answers, scope);
            |w'.live| == |w.live| && w'.desks.trims.Keys == w.desks.trims.Keys && Place(w'.live, i, j)
            && PlaceAfter(w, w', answers, scope, i, j)
  {
    hide Find, Distinct, DbLaw.Index, DbLaw.At, SettleDown, SettleTrims, SettleLive;
    SettleShape(w, answers, scope);
    SettleAt(w, answers, scope, i, j);
    SentIs(w, w.live[i].followers[j], answers);
  }

  lemma RoundDown(w: World, answers: set<Trim>, scope: set<Trim>, d: string)
    requires Distinct(w.live)
    ensures d in Settle(w, answers, scope).down <==> d in w.down || FoundDown(w, answers, scope, d)
  {
    hide Distinct, Offered, Taken, GoesOut, IsMade, Find;
    if d in Settle(w, answers, scope).down && d !in w.down {
      var t :| t in scope && Find(w.live, t).Some? && Offered(Find(w.live, t).value, w.desks.connected, w.down)
        && !Taken(Find(w.live, t).value, w.desks, w.down, answers) && t.device == d;
      var i, j := FindHas(w.live, t);
      SentIs(w, w.live[i].followers[j], answers);
      assert Refuses(w, w.live[i].followers[j], answers, scope, d);
    }
    if FoundDown(w, answers, scope, d) {
      var i, j :| Place(w.live, i, j) && Refuses(w, w.live[i].followers[j], answers, scope, d);
      FindIs(w.live, i, j);
      SentIs(w, w.live[i].followers[j], answers);
      assert w.live[i].followers[j].Id() in scope;
    }
  }

  /** A round of moves, in full: who is sent one, who makes it, where the trims and the books are then, which
      desks are found not to answer - and that nothing else changes. */
  lemma SettleIsRound(w: World, answers: set<Trim>, scope: set<Trim>)
    requires Distinct(w.live)
    ensures IsRound(w, Settle(w, answers, scope), answers, scope)
  {
    hide Distinct, FoundDown, PlaceAfter;
    var w' := Settle(w, answers, scope);
    SettleShape(w, answers, scope);
    forall i, j | Place(w.live, i, j) ensures PlaceAfter(w, w', answers, scope, i, j) {
      RoundPlace(w, answers, scope, i, j);
    }
    forall d ensures d in w'.down <==> d in w.down || FoundDown(w, answers, scope, d) {
      RoundDown(w, answers, scope, d);
    }
    forall t | t in w.desks.trims && (forall i, j :: Place(w.live, i, j) ==> w.live[i].followers[j].Id() != t)
      ensures w'.desks.trims[t] == w.desks.trims[t]
    {
      if Find(w.live, t).Some? {
        var i, j := FindHas(w.live, t);
        assert false;
      }
    }
  }

  // ---------------------------------------------------------------- a gain learnt

  /** Not locked: the gain is noted, and that is all. */
  lemma UnlockedObserves(w: World, index: nat, gain: real, answers: set<Trim>)
    requires index < |w.live| && !w.locked
    ensures Observe(w, index, gain, answers) == w.(live := w.live[index := w.live[index].(gain := Some(gain))])
  {}

  /** Locked, and no gain or no reference known yet: the first gain becomes both. */
  lemma FirstGainArms(w: World, index: nat, gain: real, answers: set<Trim>)
    requires index < |w.live| && w.locked && (w.live[index].gain == None || w.live[index].reference == None)
    ensures Observe(w, index, gain, answers)
            == w.(live := w.live[index := w.live[index].(gain := Some(gain), reference := Some(gain))])
  {}

  /** Locked and armed, and the gain under 0.0001 dB from the last: noted, and that is all. */
  lemma SmallMoveIsNoted(w: World, index: nat, gain: real, answers: set<Trim>)
    requires index < |w.live| && w.locked && w.live[index].gain != None && w.live[index].reference != None
    requires -0.0001 < gain - w.live[index].gain.value < 0.0001
    ensures Observe(w, index, gain, answers) == w.(live := w.live[index := w.live[index].(gain := Some(gain))])
  {}

  /** Locked and armed, and the gain at least 0.0001 dB from the last: every follower of the signal owes as much
      less, and one round of moves goes out to them. */
  lemma MoveIsCompensated(w: World, index: nat, gain: real, answers: set<Trim>)
    requires index < |w.live| && w.locked && w.live[index].gain != None && w.live[index].reference != None
    requires gain - w.live[index].gain.value >= 0.0001 || gain - w.live[index].gain.value <= -0.0001
    requires Distinct(w.live)
    ensures var l := w.live[index];
            var charged := seq(|l.followers|, j requires 0 <= j < |l.followers| =>
              l.followers[j].(owed := l.followers[j].owed - (gain - l.gain.value)));
            IsRound(w.(live := w.live[index := l.(gain := Some(gain), followers := charged)]),
                    Observe(w, index, gain, answers), answers,
                    set j | 0 <= j < |l.followers| :: Trim(l.followers[j].device, l.followers[j].input))
  {
    hide IsRound;
    var l := w.live[index];
    var c := Charged(w, index, gain);
    var charged := seq(|l.followers|, j requires 0 <= j < |l.followers| =>
      l.followers[j].(owed := l.followers[j].owed - (gain - l.gain.value)));
    assert Charge(l.followers, gain - l.gain.value) == charged;
    assert c.live[index].followers == charged;
    assert SameIds(w.live, c.live);
    SameIdsDistinct(w.live, c.live);
    SettleIsRound(c, answers, TrimsOf(l));
    assert TrimsOf(l) == set j | 0 <= j < |l.followers| :: Trim(l.followers[j].device, l.followers[j].input);
  }

  // ---------------------------------------------------------------- an engine not locked

  /** The same engine and desks but for gains known and reports expected. */
  ghost predicate OnlyLearnt(w: World, w': World) {
    && w' == w.(live := w'.live)
    && |w'.live| == |w.live|
    && forall i :: 0 <= i < |w.live| ==>
         w'.live[i] == w.live[i].(gain := w'.live[i].gain, expected := w'.live[i].expected)
  }

  lemma {:induction false} HearFromLearns(live: seq<Live>, latest: seq<(nat, real)>, ono: nat, gain: real, now: nat, k: nat)
    ensures var live' := HearFrom(live, latest, ono, gain, now, k).0;
            |live'| == |live|
            && forall i :: 0 <= i < |live| ==> live'[i] == live[i].(expected := live'[i].expected)
    decreases |live| - k
  {
    if k < |live| {
      var l := live[k];
      HearFromLearns(live[k := HearRow(l, ono, gain, now)],
                     if Genuine(l, ono, gain, now) then Latest(latest, k, gain) else latest, ono, gain, now, k + 1);
    }
  }

  lemma {:induction false} HearAllLearns(live: seq<Live>, latest: seq<(nat, real)>, leader: string, batch: seq<Report>,
                                         now: nat)
    ensures var live' := HearAll(live, latest, leader, batch, now).0;
            |live'| == |live|
            && forall i :: 0 <= i < |live| ==> live'[i] == live[i].(expected := live'[i].expected)
    decreases |batch|
  {
    if batch != [] {
      var r := batch[0];
      if r.device != leader || r.value.None? {
        HearAllLearns(live, latest, leader, batch[1..], now);
      } else {
        var (live', latest') := HearFrom(live, latest, r.ono, r.value.value, now, 0);
        HearFromLearns(live, latest, r.ono, r.value.value, now, 0);
        HearAllLearns(live', latest', leader, batch[1..], now);
      }
    }
  }

  lemma {:induction false} ObserveAllLearns(w: World, latest: seq<(nat, real)>, answers: seq<set<Trim>>, k: nat)
    requires !w.locked
    ensures OnlyLearnt(w, ObserveAll(w, latest, answers, k))
    decreases |latest|
  {
    if latest != [] {
      if latest[0].0 < |w.live| {
        ObserveAllLearns(Observe(w, latest[0].0, latest[0].1, AnswersAt(answers, k)), latest[1..], answers, k + 1);
      } else {
        ObserveAllLearns(w, latest[1..], answers, k + 1);
      }
    }
  }

  lemma {:induction false} PollLearns(w: World, readings: seq<Option<real>>, now: nat, answers: seq<set<Trim>>, i: nat)
    requires !w.locked
    ensures OnlyLearnt(w, PollFrom(w, readings, now, answers, i))
    decreases |w.live| - i
  {
    if i < |w.live| {
      var l := w.live[i];
      if l.ono.None? || ReadAt(readings, i).None? {
        PollLearns(w, readings, now, answers, i + 1);
      } else {
        var gain := ReadAt(readings, i).value;
        var v := WithLive(w, i, Expecting(l, gain, now));
        UnlockedObserves(v, i, gain, AnswersAt(answers, i));
        PollLearns(Observe(v, i, gain, AnswersAt(answers, i)), readings, now, answers, i + 1);
      }
    }
  }

  /** Not locked, a set, a batch of reports, a poll and a retry change nothing but what is known of gains and
      what is expected: no trim, no books, no reference, no desk marked down. */
  lemma UnlockedStepLearns(s: Step, w: World)
    requires !w.locked && (s.SetGain? || s.Reports? || s.Poll? || s.Back?)
    ensures OnlyLearnt(w, Apply(s, w))
  {
    match s
    case SetGain(name, gain, accepted, now, who) =>
      if Settable(w, name) && accepted {
        var i := Named(w.live, name);
        UnlockedObserves(WithLive(w, i, Expecting(w.live[i], gain, now)), i, gain, who);
      }
    case Reports(batch, now, answers) =>
      var (live', latest) := HearAll(w.live, [], w.leader, batch, now);
      HearAllLearns(w.live, [], w.leader, batch, now);
      ObserveAllLearns(w.(live := live'), latest, answers, 0);
    case Poll(readings, now, answers) => PollLearns(w, readings, now, answers, 0);
    case Back(back, who) =>
  }

  /** Not locked, no operation of the engine moves a trim or marks a desk down, and none but a lock or an
      election touches the followers. */
  lemma UnlockedStepMovesNothing(s: Step, w: World)
    requires !w.locked && !s.Surface?
    ensures Apply(s, w).desks.trims == w.desks.trims
    ensures !s.LockNow? ==> !Apply(s, w).locked && Apply(s, w).down == w.down
    ensures !s.LockNow? && !s.ElectLeader? ==>
              |Apply(s, w).live| == |w.live|
              && forall i :: 0 <= i < |w.live| ==>
                   Apply(s, w).live[i].followers == w.live[i].followers
                   && Apply(s, w).live[i].reference == w.live[i].reference
  {
    if s.SetGain? || s.Reports? || s.Poll? || s.Back? {
      UnlockedStepLearns(s, w);
    }
  }

  /** Until it is locked, the engine leaves every trim where its own desk's engineer puts it. */
  lemma {:induction false} UnlockedRunMovesNothing(steps: seq<Step>, w: World)
    requires !w.locked && forall k :: 0 <= k < |steps| ==> !steps[k].LockNow?
    ensures !Run(steps, w).locked && Run(steps, w).down == w.down
    ensures Run(steps, w).desks.trims == BaseAfter(steps, w, w.desks.trims)
    ensures (forall k :: 0 <= k < |steps| ==> !steps[k].Surface?) ==> Run(steps, w).desks.trims == w.desks.trims
    ensures (forall k :: 0 <= k < |steps| ==> !steps[k].ElectLeader?) ==>
              |Run(steps, w).live| == |w.live|
              && forall i :: 0 <= i < |w.live| ==> Run(steps, w).live[i].followers == w.live[i].followers
    decreases |steps|
  {
    if steps != [] {
      var s := steps[0];
      var v := Apply(s, w);
      hide Lock, Elect, OnEvents, PollFrom, SetPreamp, Recover;
      if s.Surface? {
        assert v.desks.trims == Rebase(s, w, w.desks.trims);
      } else {
        UnlockedStepMovesNothing(s, w);
      }
      assert forall k :: 0 <= k < |steps[1..]| ==> steps[1..][k] == steps[k + 1];
      UnlockedRunMovesNothing(steps[1..], v);
    }
  }
}
