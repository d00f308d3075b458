/** Refinements the gain lock relies on: acting only on the last report of a burst, making good an
    outage in one move, and probing a desk that is down. */
module GainBursts {
  import opened Wrappers
  import opened Law
  import opened GainTable
  import opened GainSpec
  import opened GainSettle
  import opened GainRun
  import opened GainLaws
  import opened GainPaths

  // ---------------------------------------------------------------- observing a list of reports

  /** Observes each report in turn, the same desks answering throughout. */
  function ObserveEach(w: World, heard: seq<(nat, real)>, answers: set<Trim>): World
    decreases |heard|
  {
    if heard == [] then w
    else if heard[0].0 < |w.live| then ObserveEach(Observe(w, heard[0].0, heard[0].1, answers), heard[1..], answers)
    else ObserveEach(w, heard[1..], answers)
  }

  /** The last gain heard for signal `i`, or what was known before. */
  function LastGain(heard: seq<(nat, real)>, i: int, before: Option<real>): Option<real> {
    if heard == [] then before
    else LastGain(heard[1..], i, if heard[0].0 == i then Some(heard[0].1) else before)
  }

  /** Every signal heard from is armed, and every value regular. */
  ghost predicate Usable(w: World, heard: seq<(nat, real)>, unit: real) {
    forall k :: 0 <= k < |heard| ==>
      OnLattice(heard[k].1, unit) && (heard[k].0 < |w.live| ==> w.live[heard[k].0].Armed())
  }

  /** What a list of observations leaves alone: names, references, identities, unarmed rows, and
      every trim that no armed row follows with. */
  ghost predicate Around(w: World, v: World) {
    && v == w.(live := v.live, down := v.down, desks := w.desks.(trims := v.desks.trims))
    && |v.live| == |w.live|
    && v.desks.trims.Keys == w.desks.trims.Keys
    && (forall i :: 0 <= i < |w.live| ==> RowAround(w.live[i], v.live[i]))
    && (forall t <- w.desks.trims :: !Followed(w.live, t) ==> v.desks.trims[t] == w.desks.trims[t])
  }

  ghost predicate RowAround(l: Live, l': Live) {
    && l' == l.(gain := l'.gain, followers := l'.followers)
    && l'.Armed() == l.Armed()
    && (!l.Armed() ==> l' == l)
    && |l'.followers| == |l.followers|
    && (forall j :: 0 <= j < |l.followers| ==>
          l'.followers[j] == l.followers[j].(applied := l'.followers[j].applied, owed := l'.followers[j].owed))
  }

  /** Some armed row follows with trim `t`. */
  ghost predicate Followed(live: seq<Live>, t: Trim) {
    exists i, j :: Place(live, i, j) && live[i].Armed() && live[i].followers[j].Id() == t
  }

  lemma ObserveAround(w: World, v: World, base: map<Trim, int>, index: nat, gain: real, answers: set<Trim>)
    requires Inv(v, base) && v.locked && Around(w, v) && index < |v.live| && v.live[index].Armed()
    ensures Around(w, Observe(v, index, gain, answers))
  {
    var w' := Observe(v, index, gain, answers);
    ObserveShape(v, index, gain, answers);
    forall i | 0 <= i < |w.live| ensures RowAround(w.live[i], w'.live[i]) {
      assert RowAround(w.live[i], v.live[i]);
      ObserveRow(v, base, index, gain, answers, i);
    }
    forall t | t in w.desks.trims && !Followed(w.live, t) ensures w'.desks.trims[t] == w.desks.trims[t] {
      if IsMove(v, index, gain) {
        ChargedInv(v, base, index, gain);
        if t in TrimsOf(v.live[index]) { ScopeIsFollowed(w, v, index, t); }
        SettleLeavesAlone(Charged(v, index, gain), answers, TrimsOf(v.live[index]), t);
      }
    }
  }

  lemma ScopeIsFollowed(w: World, v: World, index: nat, t: Trim)
    requires Around(w, v) && index < |v.live| && v.live[index].Armed() && t in TrimsOf(v.live[index])
    ensures Followed(w.live, t)
  {
    var j :| 0 <= j < |v.live[index].followers| && v.live[index].followers[j].Id() == t;
    assert RowAround(w.live[index], v.live[index]);
    assert Place(w.live, index, j) && w.live[index].followers[j].Id() == t;
  }

  lemma ObserveRow(v: World, base: map<Trim, int>, index: nat, gain: real, answers: set<Trim>, i: nat)
    requires Inv(v, base) && v.locked && index < |v.live| && v.live[index].Armed() && i < |v.live|
    ensures |Observe(v, index, gain, answers).live| == |v.live|
    ensures RowAround(v.live[i], Observe(v, index, gain, answers).live[i])
  {
    var w' := Observe(v, index, gain, answers);
    ObserveShape(v, index, gain, answers);
    forall j | 0 <= j < |v.live[i].followers|
      ensures w'.live[i].followers[j]
        == v.live[i].followers[j].(applied := w'.live[i].followers[j].applied, owed := w'.live[i].followers[j].owed)
    {
      assert Place(v.live, i, j);
    }
    if i != index && IsMove(v, index, gain) {
      OtherRow(v.live, index, i);
      var c := Charged(v, index, gain);
      assert c.live[i] == v.live[i];
      forall j | 0 <= j < |v.live[i].followers| ensures w'.live[i].followers[j] == v.live[i].followers[j] {
        assert Place(v.live, i, j);
      }
      assert w'.live[i].followers == v.live[i].followers;
    }
  }

  lemma AroundDeskWide(w: World, v: World, answers: set<Trim>, desks: set<string>)
    requires Around(w, v) && DeskWide(w.live, answers, desks)
    ensures DeskWide(v.live, answers, desks)
  {
    forall i, j | Place(v.live, i, j)
      ensures v.live[i].followers[j].Id() in answers <==> v.live[i].followers[j].device in desks
    {
      assert RowAround(w.live[i], v.live[i]) && Place(w.live, i, j);
    }
  }

  /** Where a list of observations has got to, seen from where it began. */
  ghost predicate Along(w: World, v: World, base: map<Trim, int>, unit: real, desks: set<string>) {
    && Ready(v, base, unit) && Around(w, v) && SteadyDown(w, v, desks)
    && forall i, j :: Place(w.live, i, j) && w.live[i].Armed() ==> AlongAt(w, v, base, desks, i, j)
  }

  ghost predicate AlongAt(w: World, v: World, base: map<Trim, int>, desks: set<string>, i: int, j: int) {
    Place(w.live, i, j) && Place(v.live, i, j) && v.live[i].Armed() && Reached(w, v, base, desks, i, j)
  }

  lemma AlongStart(w: World, base: map<Trim, int>, unit: real, desks: set<string>)
    requires Ready(w, base, unit)
    ensures Along(w, w, base, unit, desks)
  {
    forall i, j | Place(w.live, i, j) && w.live[i].Armed() ensures AlongAt(w, w, base, desks, i, j) {
      var f := w.live[i].followers[j];
      assert Conserved(w, i);
      assert Drift(w.live[i], f) == 0.0;
      assert BookOk(w.live[i], f, w.desks, base) && RestsAt(w, f);
    }
  }

  lemma AlongNext(w: World, v: World, base: map<Trim, int>, unit: real, desks: set<string>, index: nat, gain: real,
                  answers: set<Trim>)
    requires Along(w, v, base, unit, desks) && DeskWide(w.live, answers, desks)
    requires index < |v.live| && v.live[index].Armed() && OnLattice(gain, unit)
    ensures Along(w, Observe(v, index, gain, answers), base, unit, desks)
  {
    var w' := Observe(v, index, gain, answers);
    AroundDeskWide(w, v, answers, desks);
    ObserveReady(v, base, unit, index, gain, answers);
    ObserveAround(w, v, base, index, gain, answers);
    ObserveDown(v, base, index, gain, answers, desks);
    forall i, j | Place(w.live, i, j) && w.live[i].Armed() ensures AlongAt(w, w', base, desks, i, j) {
      assert AlongAt(w, v, base, desks, i, j);
      ReachedAfter(w, v, base, unit, desks, index, gain, answers, i, j);
    }
  }

  lemma {:induction false} EachAlong(w: World, v: World, base: map<Trim, int>, unit: real, desks: set<string>,
                                     heard: seq<(nat, real)>, answers: set<Trim>)
    requires Along(w, v, base, unit, desks) && DeskWide(w.live, answers, desks) && Usable(w, heard, unit)
    ensures Along(w, ObserveEach(v, heard, answers), base, unit, desks)
    ensures forall i :: 0 <= i < |w.live| ==>
              ObserveEach(v, heard, answers).live[i].gain == LastGain(heard, i, v.live[i].gain)
    decreases |heard|
  {
    if heard != [] {
      var (index, gain) := heard[0];
      assert OnLattice(gain, unit);
      assert Usable(w, heard[1..], unit);
      if index < |v.live| {
        assert RowAround(w.live[index], v.live[index]);
        AlongNext(w, v, base, unit, desks, index, gain, answers);
        ObserveShape(v, index, gain, answers);
        EachAlong(w, Observe(v, index, gain, answers), base, unit, desks, heard[1..], answers);
      } else {
        EachAlong(w, v, base, unit, desks, heard[1..], answers);
      }
    }
  }

  // ---------------------------------------------------------------- coalescing

  /** The same gains, books and trims; which silent desks have been found out may differ. */
  predicate SameBooks(w1: World, w2: World) {
    w1.(down := {}) == w2.(down := {})
  }

  lemma AlongTwice(w: World, w1: World, w2: World, base: map<Trim, int>, unit: real, desks: set<string>)
    requires Along(w, w1, base, unit, desks) && Along(w, w2, base, unit, desks)
    requires forall i :: 0 <= i < |w.live| ==> w1.live[i].gain == w2.live[i].gain
    ensures SameBooks(w1, w2)
  {
    forall i | 0 <= i < |w.live| ensures w1.live[i] == w2.live[i] {
      assert RowAround(w.live[i], w1.live[i]) && RowAround(w.live[i], w2.live[i]);
      if w.live[i].Armed() {
        forall j | 0 <= j < |w.live[i].followers| ensures w1.live[i].followers[j] == w2.live[i].followers[j] {
          assert Place(w.live, i, j);
          assert AlongAt(w, w1, base, desks, i, j) && AlongAt(w, w2, base, desks, i, j);
          ReachedOnce(w, w1, w2, base, desks, i, j);
        }
        assert w1.live[i].followers == w2.live[i].followers;
      }
    }
    assert w1.live == w2.live;
    AlongTrims(w, w1, w2, base, unit, desks);
  }

  lemma AlongTrims(w: World, w1: World, w2: World, base: map<Trim, int>, unit: real, desks: set<string>)
    requires Along(w, w1, base, unit, desks) && Along(w, w2, base, unit, desks)
    requires forall i :: 0 <= i < |w.live| ==> w1.live[i].gain == w2.live[i].gain
    ensures w1.desks.trims == w2.desks.trims
  {
    forall t | t in w.desks.trims ensures w1.desks.trims[t] == w2.desks.trims[t] {
      if Followed(w.live, t) {
        var i, j :| Place(w.live, i, j) && w.live[i].Armed() && w.live[i].followers[j].Id() == t;
        assert AlongAt(w, w1, base, desks, i, j) && AlongAt(w, w2, base, desks, i, j);
        ReachedOnce(w, w1, w2, base, desks, i, j);
      }
    }
  }

  /** Two lists of reports with the same last gain for every signal come to the same. */
  lemma OnlyTheLastCounts(w: World, base: map<Trim, int>, unit: real, desks: set<string>, answers: set<Trim>,
                          heard: seq<(nat, real)>, other: seq<(nat, real)>)
    requires Ready(w, base, unit) && DeskWide(w.live, answers, desks)
    requires Usable(w, heard, unit) && Usable(w, other, unit)
    requires forall i :: 0 <= i < |w.live| ==>
               LastGain(heard, i, w.live[i].gain) == LastGain(other, i, w.live[i].gain)
    ensures SameBooks(ObserveEach(w, heard, answers), ObserveEach(w, other, answers))
  {
    AlongStart(w, base, unit, desks);
    EachAlong(w, w, base, unit, desks, heard, answers);
    EachAlong(w, w, base, unit, desks, other, answers);
    AlongTwice(w, ObserveEach(w, heard, answers), ObserveEach(w, other, answers), base, unit, desks);
  }

  // ---------------------------------------------------------------- the batches of the event loop

  /** Every report of a batch that is not an echo, in order and uncoalesced. */
  function AllFrom(live: seq<Live>, all: seq<(nat, real)>, ono: nat, gain: real, now: nat, i: nat): seq<(nat, real)>
    decreases |live| - i
  {
    if i >= |live| then all
    else AllFrom(live[i := HearRow(live[i], ono, gain, now)],
                 if Genuine(live[i], ono, gain, now) then all + [(i, gain)] else all, ono, gain, now, i + 1)
  }

  function AllHeard(live: seq<Live>, all: seq<(nat, real)>, leader: string, batch: seq<Report>, now: nat)
    : seq<(nat, real)>
    decreases |batch|
  {
    if batch == [] then all
    else
      var r := batch[0];
      if r.device != leader || r.value.None? then AllHeard(live, all, leader, batch[1..], now)
      else AllHeard(HearFrom(live, [], r.ono, r.value.value, now, 0).0,
                    AllFrom(live, all, r.ono, r.value.value, now, 0), leader, batch[1..], now)
  }

  /** Both lists say the same about every signal. */
  ghost predicate SameLast(a: seq<(nat, real)>, b: seq<(nat, real)>) {
    forall i, before :: LastGain(a, i, before) == LastGain(b, i, before)
  }

  lemma {:induction false} LastAppend(all: seq<(nat, real)>, index: nat, gain: real, i: int, before: Option<real>)
    ensures LastGain(all + [(index, gain)], i, before) == if i == index then Some(gain) else LastGain(all, i, before)
  {
    if all == [] {
      assert (all + [(index, gain)])[1..] == [];
    } else {
      assert (all + [(index, gain)])[1..] == all[1..] + [(index, gain)];
      LastAppend(all[1..], index, gain, i, if all[0].0 == i then Some(all[0].1) else before);
    }
  }

  lemma {:induction false} NoTimes(latest: seq<(nat, real)>, i: int, before: Option<real>)
    requires Times(latest, i) == 0
    ensures LastGain(latest, i, before) == before
  {
    if latest != [] { NoTimes(latest[1..], i, before); }
  }

  lemma {:induction false} LastLatest(latest: seq<(nat, real)>, index: nat, gain: real, i: int, before: Option<real>)
    requires Times(latest, index) <= 1
    ensures LastGain(Latest(latest, index, gain), i, before)
            == if i == index then Some(gain) else LastGain(latest, i, before)
  {
    if latest != [] {
      if latest[0].0 == index {
        assert ([(index, gain)] + latest[1..])[1..] == latest[1..];
        if i == index { NoTimes(latest[1..], i, Some(gain)); }
      } else {
        assert ([latest[0]] + Latest(latest[1..], index, gain))[1..] == Latest(latest[1..], index, gain);
        LastLatest(latest[1..], index, gain, i, if latest[0].0 == i then Some(latest[0].1) else before);
      }
    }
  }

  lemma SameLastNext(latest: seq<(nat, real)>, all: seq<(nat, real)>, index: nat, gain: real)
    requires SameLast(latest, all) && Times(latest, index) <= 1
    ensures SameLast(Latest(latest, index, gain), all + [(index, gain)])
  {
    forall i, before ensures LastGain(Latest(latest, index, gain), i, before)
                             == LastGain(all + [(index, gain)], i, before) {
      LastLatest(latest, index, gain, i, before);
      LastAppend(all, index, gain, i, before);
    }
  }

  lemma {:induction false} HearFromSame(live: seq<Live>, latest: seq<(nat, real)>, other: seq<(nat, real)>,
                                        all: seq<(nat, real)>, ono: nat, gain: real, now: nat, k: nat, unit: real)
    requires SameLast(latest, all) && Fresh(latest, unit) && OnLattice(gain, unit)
    ensures var (live', latest') := HearFrom(live, latest, ono, gain, now, k);
            SameLast(latest', AllFrom(live, all, ono, gain, now, k))
            && Fresh(latest', unit) && HearFrom(live, other, ono, gain, now, k).0 == live'
    decreases |live| - k
  {
    if k < |live| {
      var l := live[k];
      LatestFresh(latest, k, gain, unit);
      SameLastNext(latest, all, k, gain);
      HearFromSame(live[k := HearRow(l, ono, gain, now)],
                   if Genuine(l, ono, gain, now) then Latest(latest, k, gain) else latest,
                   if Genuine(l, ono, gain, now) then Latest(other, k, gain) else other,
                   if Genuine(l, ono, gain, now) then all + [(k, gain)] else all, ono, gain, now, k + 1, unit);
    }
  }

  lemma {:induction false} HearAllSame(live: seq<Live>, latest: seq<(nat, real)>, all: seq<(nat, real)>,
                                       leader: string, batch: seq<Report>, now: nat, unit: real)
    requires SameLast(latest, all) && Fresh(latest, unit) && FineBatch(batch, unit)
    ensures SameLast(HearAll(live, latest, leader, batch, now).1, AllHeard(live, all, leader, batch, now))
    decreases |batch|
  {
    if batch != [] {
      var r := batch[0];
      if r.device != leader || r.value.None? {
        HearAllSame(live, latest, all, leader, batch[1..], now, unit);
      } else {
        HearFromSame(live, latest, [], all, r.ono, r.value.value, now, 0, unit);
        var (live', latest') := HearFrom(live, latest, r.ono, r.value.value, now, 0);
        HearAllSame(live', latest', AllFrom(live, all, r.ono, r.value.value, now, 0), leader, batch[1..], now, unit);
      }
    }
  }

  lemma {:induction false} ObserveAllIsEach(w: World, latest: seq<(nat, real)>, answers: seq<set<Trim>>, k: nat,
                                            who: set<Trim>)
    requires forall m :: k <= m < k + |latest| ==> AnswersAt(answers, m) == who
    ensures ObserveAll(w, latest, answers, k) == ObserveEach(w, latest, who)
    decreases |latest|
  {
    if latest != [] {
      if latest[0].0 < |w.live| {
        ObserveAllIsEach(Observe(w, latest[0].0, latest[0].1, who), latest[1..], answers, k + 1, who);
      } else {
        ObserveAllIsEach(w, latest[1..], answers, k + 1, who);
      }
    }
  }

  /** Burst coalescing is a refinement: with the reports' signals armed and the same desks
      answering throughout, acting on the last genuine report per signal - which is all the engine
      does with a batch - leaves the same gains, trims, applied and owed as observing every
      genuine report in turn. */
  lemma CoalescingRefines(w: World, base: map<Trim, int>, unit: real, desks: set<string>, who: set<Trim>,
                          batch: seq<Report>, now: nat, answers: seq<set<Trim>>)
    requires Ready(w, base, unit) && DeskWide(w.live, who, desks) && FineBatch(batch, unit)
    requires var (live, latest) := HearAll(w.live, [], w.leader, batch, now);
             var all := AllHeard(w.live, [], w.leader, batch, now);
             && Usable(w.(live := live), latest, unit) && Usable(w.(live := live), all, unit)
             && (forall k :: 0 <= k < |latest| ==> AnswersAt(answers, k) == who)
    ensures var heard := w.(live := HearAll(w.live, [], w.leader, batch, now).0);
            SameBooks(OnEvents(w, batch, now, answers),
                      ObserveEach(heard, AllHeard(w.live, [], w.leader, batch, now), who))
  {
    var (live, latest) := HearAll(w.live, [], w.leader, batch, now);
    var heard := w.(live := live);
    HearAllReady(w, base, unit, batch, now);
    HearAllDeskWide(w, [], batch, now, who, desks);
    HearAllSame(w.live, [], [], w.leader, batch, now, unit);
    ObserveAllIsEach(heard, latest, answers, 0, who);
    OnlyTheLastCounts(heard, base, unit, desks, who, latest, AllHeard(w.live, [], w.leader, batch, now));
  }

  lemma HearAllReady(w: World, base: map<Trim, int>, unit: real, batch: seq<Report>, now: nat)
    requires Ready(w, base, unit) && FineBatch(batch, unit)
    ensures Ready(w.(live := HearAll(w.live, [], w.leader, batch, now).0), base, unit)
  {
    HearAllInv(w, base, [], batch, now);
    HearAllRests(w, [], batch, now);
    HearAllFine(w, [], batch, now, unit, 0);
    forall i ensures Conserved(w.(live := HearAll(w.live, [], w.leader, batch, now).0), i) {
      HearAllFine(w, [], batch, now, unit, i);
    }
  }

  lemma {:induction false} HearFromDeskWide(live: seq<Live>, latest: seq<(nat, real)>, ono: nat, gain: real, now: nat,
                                            k: nat, who: set<Trim>, desks: set<string>)
    requires DeskWide(live, who, desks)
    ensures DeskWide(HearFrom(live, latest, ono, gain, now, k).0, who, desks)
    decreases |live| - k
  {
    if k < |live| {
      var live' := live[k := HearRow(live[k], ono, gain, now)];
      forall i, j | Place(live', i, j)
        ensures live'[i].followers[j].Id() in who <==> live'[i].followers[j].device in desks
      {
        assert Place(live, i, j);
      }
      HearFromDeskWide(live', if Genuine(live[k], ono, gain, now) then Latest(latest, k, gain) else latest,
                       ono, gain, now, k + 1, who, desks);
    }
  }

  lemma {:induction false} HearAllDeskWide(w: World, latest: seq<(nat, real)>, batch: seq<Report>, now: nat,
                                           who: set<Trim>, desks: set<string>)
    requires DeskWide(w.live, who, desks)
    ensures DeskWide(HearAll(w.live, latest, w.leader, batch, now).0, who, desks)
    decreases |batch|
  {
    if batch != [] {
      var r := batch[0];
      if r.device != w.leader || r.value.None? {
        HearAllDeskWide(w, latest, batch[1..], now, who, desks);
      } else {
        HearFromDeskWide(w.live, latest, r.ono, r.value.value, now, 0, who, desks);
        var (live', latest') := HearFrom(w.live, latest, r.ono, r.value.value, now, 0);
        HearAllDeskWide(w.(live := live'), latest', batch[1..], now, who, desks);
      }
    }
  }

  // ---------------------------------------------------------------- catching up after an outage

  /** The same gain, reference and engineers' setting give the same trim and the same books. */
  lemma SameGainSameTrim(w1: World, base1: map<Trim, int>, w2: World, base2: map<Trim, int>, i: int, j: int)
    requires Inv(w1, base1) && w1.locked && Place(w1.live, i, j) && w1.live[i].Armed() && Conserved(w1, i)
    requires Inv(w2, base2) && w2.locked && Place(w2.live, i, j) && w2.live[i].Armed() && Conserved(w2, i)
    requires w1.live[i].gain == w2.live[i].gain && w1.live[i].reference == w2.live[i].reference
    requires var (f1, f2) := (w1.live[i].followers[j], w2.live[i].followers[j]);
             && f1.Id() == f2.Id() && f1.ono.Some? && f2.ono.Some?
             && Rested(w1.desks, f1) && Rested(w2.desks, f2)
             && w1.desks.kits[f1.device] == w2.desks.kits[f2.device]
    requires var t := w1.live[i].followers[j].Id(); t in base1 && t in base2 && base1[t] == base2[t]
    ensures var (f1, f2) := (w1.live[i].followers[j], w2.live[i].followers[j]);
            && w1.desks.trims[f1.Id()] == w2.desks.trims[f2.Id()]
            && f1.applied == f2.applied && f1.owed == f2.owed
  {
    var (f1, f2) := (w1.live[i].followers[j], w2.live[i].followers[j]);
    SettledIsOnTarget(w1, base1, i, j);
    SettledIsOnTarget(w2, base2, i, j);
    assert BookOk(w1.live[i], f1, w1.desks, base1) && BookOk(w2.live[i], f2, w2.desks, base2);
    assert Drift(w1.live[i], f1) == 0.0 && Drift(w2.live[i], f2) == 0.0;
  }

  /** A desk that answers the retry and takes every move it is owed is no longer down. */
  lemma RecoveredIsUp(w: World, back: set<string>, answers: set<Trim>, d: string)
    requires Sane(w) && w.locked && d in back && TrimsOn(w.live, {d}) <= answers
    ensures d !in Recover(w, back, answers).down
  {
    var v := w.(down := w.down - back);
    var scope := TrimsOn(w.live, back);
    if d in Settle(v, answers, scope).down {
      var t :| t in scope && Find(v.live, t).Some? && t.device == d
        && Offered(Find(v.live, t).value, v.desks.connected, v.down)
        && !Taken(Find(v.live, t).value, v.desks, v.down, answers);
      var i, j := FindHas(v.live, t);
      assert t in TrimsOn(w.live, {d});
      SoundControls(v.desks, t);
      assert false;
    }
  }

  lemma {:induction false} BaseFixed(steps: seq<Step>, w: World, base: map<Trim, int>)
    requires AllQuiet(steps) && forall k :: 0 <= k < |steps| ==> !steps[k].LockNow?
    ensures BaseAfter(steps, w, base) == base
    decreases |steps|
  {
    if steps != [] {
      assert Quiet(steps[0]) && !steps[0].LockNow?;
      BaseFixed(steps[1..], Apply(steps[0], w), base);
    }
  }

  /** A locked stretch: no re-lock, no hand on a desk, and values on the lattice. */
  ghost predicate Stretch(steps: seq<Step>, unit: real) {
    AllQuiet(steps) && FineSteps(steps, unit) && forall k :: 0 <= k < |steps| ==> !steps[k].LockNow?
  }

  lemma StretchKeeps(steps: seq<Step>, w: World, base: map<Trim, int>, unit: real, i: int)
    requires Ready(w, base, unit) && Stretch(steps, unit)
    ensures Inv(Run(steps, w), base) && AllRest(Run(steps, w)) && Conserved(Run(steps, w), i)
    ensures Fine(Run(steps, w), unit)
  {
    BaseFixed(steps, w, base);
    RunInv(steps, w, base);
    RunRests(steps, w, base);
    assert Conserved(w, i);
    RunConserves(steps, w, base, unit, i);
  }

  /** A desk that was away for any part of a locked stretch - it failed any number of moves, or was
      held back - ends, after one retry it answers, exactly where a desk that never failed ends:
      same trim, same applied, same owed. */
  lemma OutageMadeGood(outage: seq<Step>, healthy: seq<Step>, w: World, base: map<Trim, int>, unit: real,
                       back: set<string>, answers: set<Trim>, i: int, j: int)
    requires Ready(w, base, unit) && Stretch(outage, unit) && Stretch(healthy, unit)
    requires var (w1, w2) := (Run(outage, w), Run(healthy, w));
             && w1.locked && w2.locked && Place(w1.live, i, j) && Place(w2.live, i, j)
             && w1.live[i].Armed() && w2.live[i].Armed()
             && w1.live[i].gain == w2.live[i].gain && w1.live[i].reference == w2.live[i].reference
             && w1.desks.kits == w2.desks.kits
             && var (f1, f2) := (w1.live[i].followers[j], w2.live[i].followers[j]);
                && f1.Id() == f2.Id() && f1.ono.Some? && f2.ono.Some?
                && f1.device in back && TrimsOn(w1.live, {f1.device}) <= answers && f2.device !in w2.down
    ensures var (w1, w2) := (Recover(Run(outage, w), back, answers), Run(healthy, w));
            && Place(w1.live, i, j)
            && var (f1, f2) := (w1.live[i].followers[j], w2.live[i].followers[j]);
               && f1.applied == f2.applied && f1.owed == f2.owed
               && f1.Id() in w1.desks.trims && f2.Id() in w2.desks.trims
               && w1.desks.trims[f1.Id()] == w2.desks.trims[f2.Id()]
  {
    var (w0, w2) := (Run(outage, w), Run(healthy, w));
    StretchKeeps(outage, w, base, unit, i);
    StretchKeeps(healthy, w, base, unit, i);
    var w1 := Recover(w0, back, answers);
    RecoveredIsUp(w0, back, answers, w0.live[i].followers[j].device);
    StepInv(Back(back, answers), w0, base);
    RecoverRests(w0, base, back, answers);
    StepConserves(Back(back, answers), w0, base, unit, i);
    SettleShape(w0.(down := w0.down - back), answers, TrimsOn(w0.live, back));
    var (f1, f2) := (w1.live[i].followers[j], w2.live[i].followers[j]);
    assert f1.Id() == w0.live[i].followers[j].Id();
    assert RestsAt(w1, f1) && RestsAt(w2, f2);
    assert BookOk(w1.live[i], f1, w1.desks, base);
    SameGainSameTrim(w1, base, w2, base, i, j);
  }

  // ---------------------------------------------------------------- which desks a retry can reach

  /** A desk marked down that answers again comes back with the retry exactly when the first
      follower on it has a control to read: the probe looks at no other. */
  lemma RetryReachesIff(w: World, answering: set<string>, answers: set<Trim>, d: string)
    requires Sane(w) && w.locked && d in w.down && d in answering && TrimsOn(w.live, {d}) <= answers
    ensures d !in Retry(w, answering, answers).down
            <==> FirstOn(w.live, d).Some? && FirstOn(w.live, d).value.ono.Some?
  {
    var back := Probes(w) * answering;
    if d in back {
      RecoveredIsUp(w, back, answers, d);
    }
  }

  /** A desk whose first follower has no trim control stays down, and what its other follower is
      owed stays owed, although the desk answers everything. */
  lemma StrandedDesk() returns (w: World, answering: set<string>, answers: set<Trim>)
    ensures Sane(w) && w.locked && "mon" in w.down && "mon" in answering
    ensures TrimsOn(w.live, {"mon"}) <= answers
    ensures Place(w.live, 0, 1) && w.live[0].followers[1].ono.Some? && w.live[0].followers[1].owed == -3.0
    ensures Retry(w, answering, answers) == w
  {
    ShippedLawsAreWhole();
    var kit := Kit(X32_TRIM, map[], map[2 := 7]);
    var desks := Desks({"mon"}, map["mon" := kit], map[Trim("mon", 2) := 72]);
    var fs := [Follower("mon", 1, None, 0.0, -3.0), Follower("mon", 2, Some(7), 0.0, -3.0)];
    var l := Live("Kick", Some(1), Some(1), Some(33.0), Some(30.0), fs, []);
    w := World("foh", true, [], [l], {"mon"}, desks);
    answering, answers := {"mon"}, TrimsOn(w.live, {"mon"});
    assert FirstIn(fs, "mon") == Some(fs[0]);
    assert FirstOn(w.live, "mon") == Some(fs[0]);
    assert Probes(w) == {};
    assert Place(w.live, 0, 1);
  }
}
