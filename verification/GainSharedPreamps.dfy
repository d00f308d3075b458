/** The other half: wherever two signals are on one preamp object, some patient run of nothing but the
    engine's own echoes moves a follower. */
module GainSharedPreamps {
  import opened Wrappers
  import opened GainTable
  import opened GainSpec
  import opened GainRun
  import opened GainEcho
  import opened GainElection
  import opened GainOwnEchoes

  // ---------------------------------------------------------------- a genuine report sets the gain

  ghost predicate Mentions(latest: seq<(nat, real)>, i: nat) {
    exists k :: 0 <= k < |latest| && latest[k].0 == i
  }

  ghost predicate AllOf(latest: seq<(nat, real)>, value: real) {
    forall k :: 0 <= k < |latest| ==> latest[k].1 == value
  }

  lemma {:induction false} LatestMentions(latest: seq<(nat, real)>, index: nat, value: real, i: nat)
    requires AllOf(latest, value)
    ensures AllOf(Latest(latest, index, value), value)
    ensures Mentions(latest, i) || i == index ==> Mentions(Latest(latest, index, value), i)
  {
    var more := Latest(latest, index, value);
    if latest == [] {
      assert more[0] == (index, value);
    } else if latest[0].0 == index {
      assert more[0] == (index, value);
      if Mentions(latest, i) && i != index {
        var k :| 0 <= k < |latest| && latest[k].0 == i;
        assert more[k] == latest[k];
      }
    } else {
      LatestMentions(latest[1..], index, value, i);
      var rest := Latest(latest[1..], index, value);
      assert forall k :: 0 < k < |more| ==> more[k] == rest[k - 1];
      assert more[0] == latest[0];
      if Mentions(latest, i) || i == index {
        if latest[0].0 != i {
          if Mentions(latest, i) {
            var k :| 0 <= k < |latest| && latest[k].0 == i;
            assert latest[1..][k - 1].0 == i;
          }
          var k :| 0 <= k < |rest| && rest[k].0 == i;
          assert more[k + 1].0 == i;
        }
      }
    }
  }

  lemma {:induction false} HeardMentions(live: seq<Live>, latest: seq<(nat, real)>, ono: nat, value: real, now: nat,
                                         k: nat, i: nat)
    requires AllOf(latest, value) && i < |live|
    requires Mentions(latest, i) || (k <= i && Genuine(live[i], ono, value, now))
    ensures var latest' := HearFrom(live, latest, ono, value, now, k).1; AllOf(latest', value) && Mentions(latest', i)
    decreases |live| - k
  {
    if k < |live| {
      LatestMentions(latest, k, value, i);
      HeardMentions(live[k := HearRow(live[k], ono, value, now)],
                    if Genuine(live[k], ono, value, now) then Latest(latest, k, value) else latest,
                    ono, value, now, k + 1, i);
    }
  }

  lemma {:induction false} ObservedAllGain(w: World, latest: seq<(nat, real)>, answers: seq<set<Trim>>, k: nat,
                                           value: real, i: nat)
    requires i < |w.live| && AllOf(latest, value)
    requires Mentions(latest, i) || w.live[i].gain == Some(value)
    ensures var w' := ObserveAll(w, latest, answers, k); |w'.live| == |w.live| && w'.live[i].gain == Some(value)
    decreases |latest|
  {
    if latest != [] {
      assert AllOf(latest[1..], value);
      if Mentions(latest, i) && latest[0].0 != i {
        var m :| 0 <= m < |latest| && latest[m].0 == i;
        assert latest[1..][m - 1].0 == i;
      }
      if latest[0].0 < |w.live| {
        ObserveQueue(w, latest[0].0, latest[0].1, AnswersAt(answers, k));
        ObservedAllGain(Observe(w, latest[0].0, latest[0].1, AnswersAt(answers, k)), latest[1..], answers, k + 1, value, i);
      } else {
        ObservedAllGain(w, latest[1..], answers, k + 1, value, i);
      }
    }
  }

  lemma GenuineSetsGain(w: World, ono: nat, value: real, now: nat, i: nat)
    requires i < |w.live| && Genuine(w.live[i], ono, value, now)
    ensures var w' := OnEvents(w, [Report(w.leader, ono, Some(value))], now, []);
            i < |w'.live| && w'.live[i].gain == Some(value)
  {
    var r := Report(w.leader, ono, Some(value));
    var (live', latest) := HearFrom(w.live, [], ono, value, now, 0);
    HeardMentions(w.live, [], ono, value, now, 0, i);
    HeardByRows(w.live, [], ono, value, now, 0, i);
    assert [r][1..] == [];
    assert HearAll(live', latest, w.leader, [], now) == (live', latest);
    assert HearAll(w.live, [], w.leader, [r], now) == (live', latest);
    ObservedAllGain(w.(live := live'), latest, [], 0, value, i);
  }

  // ---------------------------------------------------------------- everyone reads the same

  function Thirty(n: nat): seq<Option<real>> {
    seq(n, _ => Some(30.0))
  }

  ghost predicate AllAre(es: seq<Expect>, e: Expect) {
    forall k :: 0 <= k < |es| ==> es[k] == e
  }

  /** How many rows from the `k`-th on are on the object. */
  function Sharers(onos: seq<Option<nat>>, k: nat, ono: nat): nat
    decreases |onos| - k
  {
    if k >= |onos| then 0 else (if onos[k] == Some(ono) then 1 else 0) + Sharers(onos, k + 1, ono)
  }

  lemma {:induction false} TwoShare(onos: seq<Option<nat>>, k: nat, ono: nat, a: nat, b: nat)
    requires k <= b < |onos| && onos[b] == Some(ono)
    ensures Sharers(onos, k, ono) >= 1
    ensures k <= a < b && onos[a] == Some(ono) ==> Sharers(onos, k, ono) >= 2
    decreases |onos| - k
  {
    if k < b { TwoShare(onos, k + 1, ono, a, b); }
  }

  /** Every row on the object leaves one report of the reading outstanding. */
  lemma {:induction false} ReadingsOwed(leader: string, onos: seq<Option<nat>>, dues: Dues, now: nat, k: nat, ono: nat)
    requires AllAre(On(dues, leader, ono), Expect(30.0, now))
    ensures var es := On(ReadDues(leader, onos, dues, Thirty(|onos|), now, k), leader, ono);
            AllAre(es, Expect(30.0, now)) && |es| == |On(dues, leader, ono)| + Sharers(onos, k, ono)
    decreases |onos| - k
  {
    if k < |onos| {
      assert ReadAt(Thirty(|onos|), k) == Some(30.0);
      if onos[k].None? {
        ReadingsOwed(leader, onos, dues, now, k + 1, ono);
      } else {
        ReadingsOwed(leader, onos, Owe(dues, leader, onos[k].value, 30.0, now), now, k + 1, ono);
      }
    }
  }

  // ---------------------------------------------------------------- the failing run

  lemma {:induction false} CanLeadFrom(ms: seq<Member>, device: string) returns (j: nat)
    requires LeaderIn(ms, device).Some?
    ensures j < |ms| && ms[j].device == device && ms[j].preamp.Some?
  {
    if ms[0].device == device {
      j := 0;
    } else {
      j := CanLeadFrom(ms[1..], device);
      j := j + 1;
    }
  }

  lemma SharedCanLead(signals: seq<Signal>, device: string, kits: map<string, Kit>, i: nat)
    requires i < |signals| && PreampObject(signals[i], device, kits).Some?
    ensures CanLead(signals, device)
  {
    var j := CanLeadFrom(signals[i].members, device);
  }

  lemma {:induction false} AllExpired(es: seq<Expect>, more: seq<Expect>, now: nat, clock: nat)
    requires Dated(es, clock) && now >= clock + ECHO_TTL
    requires forall k :: 0 <= k < |more| ==> more[k].at == now
    ensures Unexpired(es + more, now) == more
  {
    if es == [] {
      assert es + more == more;
      AllUnexpired(more, now);
    } else {
      assert (es + more)[0] == es[0] && (es + more)[1..] == es[1..] + more;
      forall i, j | 0 <= i < j < |es[1..]| ensures es[1..][i].at <= es[1..][j].at {
        assert es[i + 1].at <= es[j + 1].at;
      }
      AllExpired(es[1..], more, now, clock);
    }
  }

  /** The row that was set takes the first echo of its reading for what it is, and the second for a move. */
  lemma SecondEchoIsMistaken(l: Live, carried: seq<Expect>, ono: nat, now: nat, clock: nat)
    requires l.ono == Some(ono) && Dated(carried, clock) && now >= clock + ECHO_TTL
    requires l.expected == carried + [Expect(30.0, now), Expect(33.0, now)]
    ensures Heard(l.expected, 30.0, now).0 == [Expect(33.0, now)]
    ensures Genuine(l.(expected := [Expect(33.0, now)]), ono, 30.0, now)
  {
    var two := [Expect(30.0, now), Expect(33.0, now)];
    AllExpired(carried, two, now, clock);
    assert two[1..] == [Expect(33.0, now)];
    AllExpired([], [Expect(33.0, now)], now, clock);
    assert [] + [Expect(33.0, now)] == [Expect(33.0, now)];
    assert [Expect(33.0, now)][1..] == [];
    assert Match([], 30.0) == 0;
  }

  /** The state the two echoes meet: the set signal at 33 with its reading and its set expected, and at
      least two reports of the reading outstanding on its object. */
  ghost predicate Poised(w: World, dues: Dues, ono: nat, a: nat, carried: seq<Expect>, now: nat, clock: nat) {
    && a < |w.live| && w.live[a].ono == Some(ono) && w.live[a].gain == Some(33.0)
    && w.live[a].expected == carried + [Expect(30.0, now), Expect(33.0, now)]
    && Dated(carried, clock) && now >= clock + ECHO_TTL
    && var es := On(dues, w.leader, ono); |es| >= 3 && es[0] == Expect(30.0, now) && es[1] == Expect(30.0, now)
  }

  /** A patient run of nothing but own echoes in which one is taken for a move. */
  ghost predicate Fails(steps: seq<Step>, w: World, dues: Dues, clock: nat, last: nat) {
    Faithful(steps, w, dues, clock) && Patient(steps, w, clock, last) && !NeverMoved(steps, w)
  }

  lemma FailsLater(s: Step, steps: seq<Step>, w: World, dues: Dues, clock: nat, last: nat)
    requires clock <= TimeOf(s, clock) && FaithfulStep(s, w, dues)
    requires Unsettles(s, w) ==> last + ECHO_TTL <= TimeOf(s, clock)
    requires Fails(steps, Apply(s, w), DuesAfter(s, w, dues), TimeOf(s, clock), LastCause(s, last))
    ensures Fails([s] + steps, w, dues, clock, last)
  {
    assert ([s] + steps)[1..] == steps;
  }

  lemma PoisedFails(w: World, dues: Dues, ono: nat, a: nat, carried: seq<Expect>, now: nat, clock: nat)
    requires Poised(w, dues, ono, a, carried, now, clock)
    ensures var echo := Reports([Report(w.leader, ono, Some(30.0))], now, []);
            Fails([echo, echo], w, dues, now, now)
  {
    var r := Report(w.leader, ono, Some(30.0));
    var echo := Reports([r], now, []);
    var es := On(dues, w.leader, ono);
    assert Objects(w.live)[a] == Some(ono);
    assert [r][1..] == [] && [echo, echo][1..] == [echo] && [echo][1..] == [];
    assert Answered(es, 30.0, now) == Some(es[1..]);
    var w1 := Apply(echo, w);
    var dues1 := dues[(w.leader, ono) := es[1..]];
    assert OwnBatch(Objects(w.live), w.leader, [], dues1, now);
    assert Concerns(Objects(w.live), w.leader, r);
    assert OwnBatch(Objects(w.live), w.leader, [r], dues, now);
    assert BatchDues(Objects(w.live), w.leader, [r], dues, now) == BatchDues(Objects(w.live), w.leader, [], dues1, now);
    assert FaithfulStep(echo, w, dues) && DuesAfter(echo, w, dues) == dues1;
    SecondEchoIsMistaken(w.live[a], carried, ono, now, clock);
    EchoHeardBy(w, ono, 30.0, now, a);
    assert w1.live[a].ono == Some(ono) && w1.leader == w.leader;
    assert Objects(w1.live)[a] == Some(ono);
    assert Answered(es[1..], 30.0, now) == Some(es[1..][1..]);
    assert On(dues1, w.leader, ono) == es[1..];
    assert OwnBatch(Objects(w1.live), w1.leader, [], dues1[(w.leader, ono) := es[1..][1..]], now);
    assert FaithfulStep(echo, w1, dues1);
    assert Faithful([echo], w1, dues1, now);
    assert Patient([echo], w1, now, now);
    if OnlyExpectations(w, w1) {
      assert w1.live[a] == w.live[a].(expected := [Expect(33.0, now)]);
      GenuineSetsGain(w1, ono, 30.0, now, a);
      assert !OnlyExpectations(w1, Apply(echo, w1));
    }
  }

  /** After an echo a row still has its object, and has heard it. */
  lemma EchoHeardBy(w: World, ono: nat, value: real, now: nat, a: nat)
    requires a < |w.live|
    ensures var w1 := OnEvents(w, [Report(w.leader, ono, Some(value))], now, []);
            && w1.leader == w.leader && a < |w1.live| && w1.live[a].ono == w.live[a].ono
            && w1.live[a].expected == HearRow(w.live[a], ono, value, now).expected
  {
    var r := Report(w.leader, ono, Some(value));
    var (live', latest) := HearFrom(w.live, [], ono, value, now, 0);
    HeardByRows(w.live, [], ono, value, now, 0, a);
    assert [r][1..] == [];
    assert HearAll(live', latest, w.leader, [], now) == (live', latest);
    assert HearAll(w.live, [], w.leader, [r], now) == (live', latest);
    ObserveAllRows(w.(live := live'), latest, [], 0, a);
  }

  lemma {:induction false} ObserveAllRows(w: World, latest: seq<(nat, real)>, answers: seq<set<Trim>>, k: nat, i: nat)
    requires i < |w.live|
    ensures var w' := ObserveAll(w, latest, answers, k);
            && w'.leader == w.leader && |w'.live| == |w.live|
            && w'.live[i].ono == w.live[i].ono && w'.live[i].expected == w.live[i].expected
    decreases |latest|
  {
    if latest != [] {
      if latest[0].0 < |w.live| {
        ObserveSameRows(w, latest[0].0, latest[0].1, AnswersAt(answers, k));
        ObserveAllRows(Observe(w, latest[0].0, latest[0].1, AnswersAt(answers, k)), latest[1..], answers, k + 1, i);
      } else {
        ObserveAllRows(w, latest[1..], answers, k + 1, i);
      }
    }
  }

  /** What locking on the elected leader leaves, for a row whose object there is. */
  lemma LockedRow(w: World, now: nat, clock: nat, a: nat, ono: nat)
    requires RowsMatch(w) && QueuesOk(w.live, clock) && a < |w.signals|
    requires LeaderOno(LeaderPreamp(w.signals[a], w.leader), w.leader, w.desks) == Some(ono)
    ensures var l := Lock(w, Thirty(|w.signals|), now).live[a];
            && l.name == w.signals[a].name && l.ono == Some(ono)
            && l.gain == Some(30.0) && l.reference == Some(30.0)
            && exists carried :: Dated(carried, clock) && l.expected == carried + [Expect(30.0, now)]
  {
    ResolvedRow(w, w.leader, a);
    assert w.(leader := w.leader) == w;
    var row := Resolve(w).live[a];
    assert QueueOk(w.live[a], clock);
    assert Dated(row.expected, clock);
    assert Lock(w, Thirty(|w.signals|), now).live[a] == LockRow(row, Some(30.0), now);
    assert LockRow(row, Some(30.0), now).expected == row.expected + [Expect(30.0, now)];
  }

  const NO_DUES: Dues := map[]

  /** What a lock leaves of the engine and on the wire, when everyone reads 30 dB. */
  lemma LockPoises(w: World, ono: nat, a: nat, b: nat, now: nat, clock: nat) returns (carried: seq<Expect>)
    requires RowsMatch(w) && QueuesOk(w.live, clock) && a < b < |w.signals|
    requires LeaderOno(LeaderPreamp(w.signals[a], w.leader), w.leader, w.desks) == Some(ono)
    requires LeaderOno(LeaderPreamp(w.signals[b], w.leader), w.leader, w.desks) == Some(ono)
    ensures var lock := LockNow(Thirty(|w.signals|), now); var w1 := Apply(lock, w);
            && FaithfulStep(lock, w, NO_DUES) && w1.locked && w1.leader == w.leader && w1.desks == w.desks
            && Named(w1.live, w.signals[a].name) == a < |w1.live|
            && w1.live[a].ono == Some(ono) && w1.live[a].gain == Some(30.0) && w1.live[a].reference == Some(30.0)
            && w1.live[a].expected == carried + [Expect(30.0, now)] && Dated(carried, clock)
            && var es := On(DuesAfter(lock, w, NO_DUES), w.leader, ono);
               |es| >= 2 && es[0] == Expect(30.0, now) && es[1] == Expect(30.0, now)
  {
    hide PreampObject, ResolveRow, LockRow;
    var onos := Objects(Resolve(w).live);
    assert w.(leader := w.leader) == w;
    ResolvedRow(w, w.leader, a);
    ResolvedRow(w, w.leader, b);
    ReadingsOwed(w.leader, onos, NO_DUES, now, 0, ono);
    TwoShare(onos, 0, ono, a, b);
    LockedRow(w, now, clock, a, ono);
    LockedNames(w, now, a);
    var l := Lock(w, Thirty(|w.signals|), now).live[a];
    carried :| Dated(carried, clock) && l.expected == carried + [Expect(30.0, now)];
  }

  /** Setting one of the signals then poises it. */
  lemma SetPoises(w: World, dues: Dues, name: string, ono: nat, a: nat, carried: seq<Expect>, now: nat, clock: nat)
    requires w.locked && Named(w.live, name) == a < |w.live| && w.leader in w.desks.connected
    requires w.live[a].ono == Some(ono) && w.live[a].gain == Some(30.0) && w.live[a].reference == Some(30.0)
    requires w.live[a].expected == carried + [Expect(30.0, now)] && Dated(carried, clock) && now >= clock + ECHO_TTL
    requires var es := On(dues, w.leader, ono);
             |es| >= 2 && es[0] == Expect(30.0, now) && es[1] == Expect(30.0, now)
    ensures var set33 := SetGain(name, 33.0, true, now, {});
            && FaithfulStep(set33, w, dues) && Apply(set33, w).leader == w.leader
            && Poised(Apply(set33, w), DuesAfter(set33, w, dues), ono, a, carried, now, clock)
  {
    var v := WithLive(w, a, Expecting(w.live[a], 33.0, now));
    assert Settable(w, name) && Apply(SetGain(name, 33.0, true, now, {}), w) == Observe(v, a, 33.0, {});
    ObserveQueue(v, a, 33.0, {});
    ObserveSameRows(v, a, 33.0, {});
    assert carried + [Expect(30.0, now)] + [Expect(33.0, now)] == carried + [Expect(30.0, now), Expect(33.0, now)];
  }

  /** Locked on a leader with two signals on one object: set one of them, and the two readings, reported
      back in order and in time, move it. */
  lemma LockedFails(w: World, ono: nat, a: nat, b: nat, now: nat, clock: nat) returns (steps: seq<Step>)
    requires RowsMatch(w) && QueuesOk(w.live, clock) && now >= clock + ECHO_TTL && a < b < |w.signals|
    requires LeaderOno(LeaderPreamp(w.signals[a], w.leader), w.leader, w.desks) == Some(ono)
    requires LeaderOno(LeaderPreamp(w.signals[b], w.leader), w.leader, w.desks) == Some(ono)
    ensures Fails(steps, w, NO_DUES, now, clock)
  {
    hide Apply, FaithfulStep, DuesAfter, Poised, RowsMatch, QueuesOk, Fails;
    var lock := LockNow(Thirty(|w.signals|), now);
    var carried := LockPoises(w, ono, a, b, now, clock);
    var (w1, dues1) := (Apply(lock, w), DuesAfter(lock, w, NO_DUES));
    var name := w.signals[a].name;
    SetPoises(w1, dues1, name, ono, a, carried, now, clock);
    var set33 := SetGain(name, 33.0, true, now, {});
    PoisedFails(Apply(set33, w1), DuesAfter(set33, w1, dues1), ono, a, carried, now, clock);
    var echo := Reports([Report(w.leader, ono, Some(30.0))], now, []);
    FailsLater(set33, [echo, echo], w1, dues1, now, now);
    FailsLater(lock, [set33] + [echo, echo], w, NO_DUES, now, clock);
    steps := [lock] + ([set33] + [echo, echo]);
  }

  lemma LockedNames(w: World, now: nat, a: nat)
    requires RowsMatch(w) && a < |w.signals|
    ensures var w1 := Lock(w, Thirty(|w.signals|), now);
            |w1.live| == |w.signals| && w1.leader == w.leader && w1.locked && w1.desks == w.desks
            && Named(w1.live, w.signals[a].name) == a
  {
    var w1 := Lock(w, Thirty(|w.signals|), now);
    assert w.(leader := w.leader) == w;
    forall k | 0 <= k < |w1.live| ensures w1.live[k].name == w.signals[k].name {
      ResolvedRow(w, w.leader, k);
      assert w1.live[k] == LockRow(Resolve(w).live[k], ReadAt(Thirty(|w.signals|), k), now);
    }
    NamedInOrder(w1.live, w.signals, a);
  }

  /** Nothing is reported, and time passes. */
  function Tick(now: nat): Step {
    Reports([], now, [])
  }

  /** Any two signals on one object of any desk, whatever state the engine is in. */
  lemma SharedPreampFails(w: World, clock: nat, device: string, a: nat, b: nat) returns (steps: seq<Step>)
    requires RowsMatch(w) && QueuesOk(w.live, clock) && a < b < |w.signals| && device in w.desks.kits
    requires PreampObject(w.signals[a], device, w.desks.kits).Some?
    requires PreampObject(w.signals[a], device, w.desks.kits) == PreampObject(w.signals[b], device, w.desks.kits)
    ensures Fails(steps, w, NO_DUES, clock, clock)
  {
    var ono := PreampObject(w.signals[a], device, w.desks.kits).value;
    SharedCanLead(w.signals, device, w.desks.kits, a);
    var now := clock + ECHO_TTL;
    assert w.(live := w.live) == w;
    assert Apply(Tick(now), w) == w;
    var link := Link({device});
    var w1 := Apply(link, w);
    var w2 := Apply(Unlock, w1);
    var elect := ElectLeader(device);
    var w3 := Apply(elect, w2);
    assert w3 == Resolve(w2.(leader := device));
    ResolvedRows(w2, device);
    ResolveOk(w2.(leader := device), clock);
    hide RowsMatch, QueuesOk, Fails, PreampObject, Resolve;
    var rest := LockedFails(w3, ono, a, b, now, clock);
    FailsLater(elect, rest, w2, NO_DUES, now, clock);
    FailsLater(Unlock, [elect] + rest, w1, NO_DUES, now, clock);
    FailsLater(link, [Unlock] + ([elect] + rest), w, NO_DUES, now, clock);
    FailsLater(Tick(now), [link] + ([Unlock] + ([elect] + rest)), w, NO_DUES, clock, clock);
    steps := [Tick(now)] + ([link] + ([Unlock] + ([elect] + rest)));
  }

  /** No patient run of own echoes from here, with nothing of before `clock` outstanding, moves anything. */
  ghost predicate Harmless(w: World, clock: nat) {
    forall steps :: Faithful(steps, w, NO_DUES, clock) && Patient(steps, w, clock, clock) ==> NeverMoved(steps, w)
  }

  /** The engine's own echoes, in order and in time, never move anything in any patient run - exactly if
      no two signals are on one preamp object of any desk. */
  lemma EchoesHarmlessIff(w: World, clock: nat)
    requires RowsMatch(w) && QueuesOk(w.live, clock)
    ensures Harmless(w, clock) <==> OwnObjects(w.signals, w.desks.kits)
  {
    if OwnObjects(w.signals, w.desks.kits) {
      NothingDue(w, clock, clock);
      forall steps | Faithful(steps, w, NO_DUES, clock) && Patient(steps, w, clock, clock) ensures NeverMoved(steps, w) {
        OwnEchoesMoveNothing(steps, w, NO_DUES, clock, clock);
      }
    } else {
      var device, a, b :| device in w.desks.kits && 0 <= a < b < |w.signals|
        && PreampObject(w.signals[a], device, w.desks.kits).Some?
        && PreampObject(w.signals[a], device, w.desks.kits) == PreampObject(w.signals[b], device, w.desks.kits);
      var steps := SharedPreampFails(w, clock, device, a, b);
    }
  }
}
