/** Two signals on one preamp, as a validated table may have them, and what their echoes do to a set. */
module GainSharedExample {
  import opened Wrappers
  import opened Law
  import opened GainTable
  import opened GainSpec
  import opened GainSettle
  import opened GainRun
  import opened GainEcho
  import opened GainConfig
  import opened GainOwnEchoes

  const VOX := Signal("Vox", [Member("foh", Some(5), None), Member("mon", None, Some(1))])
  const SPLIT := Signal("Vox split", [Member("foh", Some(5), None), Member("mon", None, Some(2))])

  const FOH := Kit(X32_TRIM, map[5 := 500], map[])
  const MON := Kit(X32_TRIM, map[], map[1 := 7, 2 := 8])
  const T1 := Trim("mon", 1)
  const T2 := Trim("mon", 2)
  const STAGE := Desks({"foh", "mon"}, map["foh" := FOH, "mon" := MON], map[T1 := 72, T2 := 72])

  const START := World("foh", false, [VOX, SPLIT], [], {}, STAGE)

  function VoxRow(gain: real, applied: real, owed: real, expected: seq<Expect>): Live {
    Live("Vox", Some(5), Some(500), Some(gain), Some(30.0), [Follower("mon", 1, Some(7), applied, owed)], expected)
  }

  function SplitRow(expected: seq<Expect>): Live {
    Live("Vox split", Some(5), Some(500), Some(30.0), Some(30.0), [Follower("mon", 2, Some(8), 0.0, 0.0)], expected)
  }

  /** Locked, with the first trim at grid point `at`. */
  function OnStage(vox: Live, split: Live, at: int): World {
    World("foh", true, [VOX, SPLIT], [vox, split], {}, STAGE.(trims := map[T1 := at, T2 := 72]))
  }

  const LOCK := LockNow([Some(30.0), Some(30.0)], 0)
  const SET := SetGain("Vox", 33.0, true, 1, {T1})
  const ECHO := Report("foh", 500, Some(30.0))
  const FIRST_ECHO := Reports([ECHO], 2, [])
  const SECOND_ECHO := Reports([ECHO], 3, [{T1}])

  lemma StageIsSound()
    ensures STAGE.Sound()
  {
    ShippedLawsAreWhole();
  }

  lemma TableIsValid()
    ensures ValidConfig(Config("foh", [VOX, SPLIT]), {"foh", "mon"})
  {
    assert VOX.members[0].preamp.Some? && SPLIT.members[0].preamp.Some?;
  }

  lemma RowResolves(s: Signal, input: nat, ono: nat)
    requires s == Signal(s.name, [Member("foh", Some(5), None), Member("mon", None, Some(input))])
    requires (input == 1 && ono == 7) || (input == 2 && ono == 8)
    ensures ResolveRow(s, START)
            == Live(s.name, Some(5), Some(500), None, None, [Follower("mon", input, Some(ono), 0.0, 0.0)], [])
  {
    var ms := s.members;
    assert Named([], s.name) == 0;
    assert ms[1..] == [Member("mon", None, Some(input))] && ms[1..][1..] == [];
    assert LeaderIn(ms, "foh") == Some(5);
    assert Followers(ms[1..][1..], "foh", [], STAGE) == [];
    assert Followers(ms[1..], "foh", [], STAGE) == [Follower("mon", input, Some(ono), 0.0, 0.0)] + [];
    assert Followers(ms, "foh", [], STAGE) == [Follower("mon", input, Some(ono), 0.0, 0.0)];
  }

  lemma RowLocks(l: Live)
    requires |l.followers| == 1 && l.ono.Some? && l.expected == []
    requires l.followers[0].applied == 0.0 && l.followers[0].owed == 0.0
    ensures LockRow(l, Some(30.0), 0)
            == l.(gain := Some(30.0), reference := Some(30.0), expected := [Expect(30.0, 0)])
  {
    assert Cleared(l.followers) == l.followers;
    assert l.expected + [Expect(30.0, 0)] == [Expect(30.0, 0)];
  }

  lemma StageLocks()
    ensures Apply(LOCK, START)
            == OnStage(VoxRow(30.0, 0.0, 0.0, [Expect(30.0, 0)]), SplitRow([Expect(30.0, 0)]), 72)
  {
    RowResolves(VOX, 1, 7);
    RowResolves(SPLIT, 2, 8);
    RowLocks(ResolveRow(VOX, START));
    RowLocks(ResolveRow(SPLIT, START));
    var readings := [Some(30.0), Some(30.0)];
    assert ReadAt(readings, 0) == Some(30.0) && ReadAt(readings, 1) == Some(30.0);
    var vox, split := LockRow(ResolveRow(VOX, START), Some(30.0), 0), LockRow(ResolveRow(SPLIT, START), Some(30.0), 0);
    assert vox == VoxRow(30.0, 0.0, 0.0, [Expect(30.0, 0)]) && split == SplitRow([Expect(30.0, 0)]);
    hide LockRow, ResolveRow;
    assert Lock(START, readings, 0).live == [vox, split];
  }

  lemma OneTrim(l: Live)
    requires |l.followers| == 1 && l.followers[0].Id() == T1
    ensures TrimsOf(l) == {T1}
  {
    assert l.followers[0].Id() in TrimsOf(l);
  }

  /** The first trim takes a whole move. */
  lemma StageSettles(gain: real, applied: real, owed: real, es: seq<Expect>, split: Live, at: int, to: int)
    requires 0 <= at <= 144 && 0 <= to <= 144 && owed == Span(to - at, 0.25) && Abs(owed) >= EPSILON
    requires split == SplitRow(split.expected)
    ensures var w := OnStage(VoxRow(gain, applied, owed, es), split, at);
            Settle(w, {T1}, TrimsOf(w.live[0])) == OnStage(VoxRow(gain, applied + owed, 0.0, es), split, to)
  {
    var w := OnStage(VoxRow(gain, applied, owed, es), split, at);
    var f := w.live[0].followers[0];
    var scope := TrimsOf(w.live[0]);
    assert scope == {T1};
    StageLands(w.desks, at, to, owed);
    assert Distinct(w.live);
    assert Taken(f, w.desks, w.down, {T1});
    SettleAt(w, {T1}, scope, 0, 0);
    SettleAt(w, {T1}, scope, 1, 0);
    SettleShape(w, {T1}, scope);
    hide Landing, Change, DbLaw.Index;
    var w' := Settle(w, {T1}, scope);
    FindIs(w.live, 0, 0);
    assert w'.live[0].followers == [Follower("mon", 1, Some(7), applied + owed, 0.0)];
    assert w'.live[1].followers == split.followers;
    assert w'.live == [w'.live[0], w'.live[1]];
    assert w'.down == {};
    assert w'.desks.trims == map[T1 := to, T2 := 72];
  }

  lemma StageLands(desks: Desks, at: int, to: int, owed: real)
    requires 0 <= at <= 144 && 0 <= to <= 144 && owed == Span(to - at, 0.25)
    requires desks == STAGE.(trims := map[T1 := at, T2 := 72])
    ensures desks.Controls(T1) && Landing(desks, T1, owed) == to && Change(desks, T1, owed) == owed
  {
    ShippedLawsAreWhole();
    AtGrid(X32_TRIM, at);
    AtGrid(X32_TRIM, to);
    SpanApart(at, to, 0.25);
    SpanApart(to, at, 0.25);
    assert X32_TRIM.At(at) + owed == X32_TRIM.At(to);
  }

  lemma StageSets(w: World)
    requires w == OnStage(VoxRow(30.0, 0.0, 0.0, [Expect(30.0, 0)]), SplitRow([Expect(30.0, 0)]), 72)
    ensures Apply(SET, w)
            == OnStage(VoxRow(33.0, -3.0, 0.0, [Expect(30.0, 0), Expect(33.0, 1)]), SplitRow([Expect(30.0, 0)]), 60)
  {
    var es := [Expect(30.0, 0), Expect(33.0, 1)];
    assert [Expect(30.0, 0)] + [Expect(33.0, 1)] == es;
    var v := WithLive(w, 0, Expecting(w.live[0], 33.0, 1));
    assert v.live == [VoxRow(30.0, 0.0, 0.0, es), w.live[1]];
    assert Named(w.live, "Vox") == 0 && Settable(w, "Vox");
    assert IsMove(v, 0, 33.0);
    var c := Charged(v, 0, 33.0);
    assert c.live[0].followers == [Follower("mon", 1, Some(7), 0.0, -3.0)];
    assert c.live == [VoxRow(33.0, 0.0, -3.0, es), w.live[1]];
    OneTrim(v.live[0]);
    OneTrim(c.live[0]);
    assert Span(60 - 72, 0.25) == -3.0;
    StageSettles(33.0, 0.0, -3.0, es, w.live[1], 72, 60);
  }

  /** Each row's queue begins with the reading, which the echo takes off it. */
  lemma BothQueues()
    ensures Heard([Expect(30.0, 0), Expect(33.0, 1)], 30.0, 2) == ([Expect(33.0, 1)], true)
    ensures Heard([Expect(30.0, 0)], 30.0, 2) == ([], true)
  {
    var es := [Expect(30.0, 0), Expect(33.0, 1)];
    assert es[1..] == [Expect(33.0, 1)] && es[1..][1..] == [];
    assert Unexpired(es[1..], 2) == es[1..] && Unexpired(es, 2) == es;
    assert [Expect(30.0, 0)][1..] == [] && Unexpired([Expect(30.0, 0)], 2) == [Expect(30.0, 0)];
  }

  lemma StageHearsFirst(w: World)
    requires w == OnStage(VoxRow(33.0, -3.0, 0.0, [Expect(30.0, 0), Expect(33.0, 1)]), SplitRow([Expect(30.0, 0)]), 60)
    ensures Apply(FIRST_ECHO, w)
            == OnStage(VoxRow(33.0, -3.0, 0.0, [Expect(33.0, 1)]), SplitRow([]), 60)
  {
    BothQueues();
    hide Heard;
    HearFromEcho(w.live, [], 500, 30.0, 2, 0);
    HeardByRows(w.live, [], 500, 30.0, 2, 0, 0);
    HeardByRows(w.live, [], 500, 30.0, 2, 0, 1);
    var live' := HearFrom(w.live, [], 500, 30.0, 2, 0).0;
    assert live' == [VoxRow(33.0, -3.0, 0.0, [Expect(33.0, 1)]), SplitRow([])];
    hide HearFrom, VoxRow, SplitRow;
    assert [ECHO][1..] == [];
    assert HearAll(live', [], "foh", [], 2) == (live', []);
    assert HearAll(w.live, [], "foh", [ECHO], 2) == (live', []);
  }

  lemma StageMistakes(w: World)
    requires w == OnStage(VoxRow(33.0, -3.0, 0.0, [Expect(33.0, 1)]), SplitRow([]), 60)
    ensures HearAll(w.live, [], "foh", [ECHO], 3)
            == ([VoxRow(33.0, -3.0, 0.0, []), SplitRow([])], [(0, 30.0), (1, 30.0)])
  {
    var es := [Expect(33.0, 1)];
    assert es[1..] == [] && Unexpired(es, 3) == es && Match(es, 30.0) == 1 && Heard(es, 30.0, 3) == ([], false);
    assert Heard([], 30.0, 3) == ([], false);
    var live1 := w.live[0 := HearRow(w.live[0], 500, 30.0, 3)];
    assert live1 == [VoxRow(33.0, -3.0, 0.0, []), SplitRow([])];
    assert Latest([], 0, 30.0) == [(0, 30.0)];
    assert Latest([(0, 30.0)], 1, 30.0) == [(0, 30.0), (1, 30.0)] by { assert [(0, 30.0)][1..] == []; }
    var live2 := live1[1 := HearRow(live1[1], 500, 30.0, 3)];
    assert live2 == live1;
    var both: seq<(nat, real)> := [(0, 30.0), (1, 30.0)];
    assert HearFrom(live2, both, 500, 30.0, 3, 2) == (live2, both);
    assert HearFrom(live1, [(0, 30.0)], 500, 30.0, 3, 1) == (live2, both);
    assert HearFrom(w.live, [], 500, 30.0, 3, 0) == (live2, both);
    assert [ECHO][1..] == [];
    assert HearAll(live2, both, "foh", [], 3) == (live2, both);
  }

  lemma StageHearsSecond(w: World)
    requires w == OnStage(VoxRow(33.0, -3.0, 0.0, [Expect(33.0, 1)]), SplitRow([]), 60)
    ensures Apply(SECOND_ECHO, w) == OnStage(VoxRow(30.0, 0.0, 0.0, []), SplitRow([]), 72)
  {
    StageMistakes(w);
    var v := OnStage(VoxRow(33.0, -3.0, 0.0, []), SplitRow([]), 60);
    assert IsMove(v, 0, 30.0);
    var c := Charged(v, 0, 30.0);
    assert c.live[0].followers == [Follower("mon", 1, Some(7), -3.0, 3.0)];
    assert c.live == [VoxRow(30.0, -3.0, 3.0, []), SplitRow([])];
    OneTrim(v.live[0]);
    OneTrim(c.live[0]);
    assert Span(72 - 60, 0.25) == 3.0;
    StageSettles(30.0, -3.0, 3.0, [], SplitRow([]), 60, 72);
    var u := OnStage(VoxRow(30.0, 0.0, 0.0, []), SplitRow([]), 72);
    assert Observe(v, 0, 30.0, {T1}) == u;
    assert Noted(u, 1, 30.0).live == u.live;
    assert Observe(u, 1, 30.0, {}) == u;
    StageObserves(v, u);
  }

  lemma StageObserves(v: World, u: World)
    requires |v.live| == 2 == |u.live| && Observe(v, 0, 30.0, {T1}) == u && Observe(u, 1, 30.0, {}) == u
    ensures ObserveAll(v, [(0, 30.0), (1, 30.0)], [{T1}], 0) == u
  {
    hide Observe;
    var both: seq<(nat, real)> := [(0, 30.0), (1, 30.0)];
    assert both[1..] == [(1, 30.0)] && both[1..][1..] == [];
    assert ObserveAll(u, [], [{T1}], 2) == u;
    assert ObserveAll(u, both[1..], [{T1}], 1) == u;
  }

  function Due(es: seq<Expect>): Dues {
    map[("foh", 500) := es]
  }

  lemma StageOwes(w: World)
    requires w == OnStage(VoxRow(30.0, 0.0, 0.0, [Expect(30.0, 0)]), SplitRow([Expect(30.0, 0)]), 72)
    requires Objects(Resolve(START).live) == [Some(500), Some(500)]
    ensures FaithfulStep(LOCK, START, map[])
    ensures DuesAfter(LOCK, START, map[]) == Due([Expect(30.0, 0), Expect(30.0, 0)])
    ensures FaithfulStep(SET, w, Due([Expect(30.0, 0), Expect(30.0, 0)]))
    ensures DuesAfter(SET, w, Due([Expect(30.0, 0), Expect(30.0, 0)]))
            == Due([Expect(30.0, 0), Expect(30.0, 0), Expect(33.0, 1)])
  {
    hide Resolve;
    var onos: seq<Option<nat>> := [Some(500), Some(500)];
    var readings := [Some(30.0), Some(30.0)];
    var (d1, d2) := (Due([Expect(30.0, 0)]), Due([Expect(30.0, 0), Expect(30.0, 0)]));
    assert [] + [Expect(30.0, 0)] == [Expect(30.0, 0)];
    assert [Expect(30.0, 0)] + [Expect(30.0, 0)] == [Expect(30.0, 0), Expect(30.0, 0)];
    assert Owe(map[], "foh", 500, 30.0, 0) == d1 && Owe(d1, "foh", 500, 30.0, 0) == d2;
    assert ReadDues("foh", onos, d2, readings, 0, 2) == d2;
    assert ReadDues("foh", onos, d1, readings, 0, 1) == d2;
    assert ReadDues("foh", onos, map[], readings, 0, 0) == d2;
    assert Named(w.live, "Vox") == 0 && Settable(w, "Vox");
    assert [Expect(30.0, 0), Expect(30.0, 0)] + [Expect(33.0, 1)] == [Expect(30.0, 0), Expect(30.0, 0), Expect(33.0, 1)];
  }

  /** A report of the reading is of something outstanding as long as one is. */
  lemma StageAnswers(w: World, es: seq<Expect>, now: nat)
    requires w.leader == "foh" && w.live != [] && w.live[0].ono == Some(500)
    requires es != [] && es[0] == Expect(30.0, 0) && now < ECHO_TTL
    ensures FaithfulStep(Reports([ECHO], now, []), w, Due(es))
    ensures forall answers :: FaithfulStep(Reports([ECHO], now, answers), w, Due(es))
    ensures forall answers :: DuesAfter(Reports([ECHO], now, answers), w, Due(es)) == Due(es[1..])
  {
    assert Objects(w.live)[0] == Some(500) && [ECHO][1..] == [];
    var dues := Due(es);
    var dues' := dues[("foh", 500) := es[1..]];
    assert Answered(On(dues, "foh", 500), 30.0, now) == Some(es[1..]);
    assert dues' == Due(es[1..]);
    assert Concerns(Objects(w.live), "foh", ECHO);
    assert OwnBatch(Objects(w.live), "foh", [], dues', now);
    assert OwnBatch(Objects(w.live), "foh", [ECHO], dues, now);
    assert BatchDues(Objects(w.live), "foh", [ECHO], dues, now) == BatchDues(Objects(w.live), "foh", [], dues', now);
  }

  lemma StageObjects()
    ensures Objects(Resolve(START).live) == [Some(500), Some(500)]
  {
    RowResolves(VOX, 1, 7);
    RowResolves(SPLIT, 2, 8);
    hide ResolveRow;
    assert Resolve(START).live == [ResolveRow(VOX, START), ResolveRow(SPLIT, START)];
  }

  const LOCKED := OnStage(VoxRow(30.0, 0.0, 0.0, [Expect(30.0, 0)]), SplitRow([Expect(30.0, 0)]), 72)
  const MOVED :=
    OnStage(VoxRow(33.0, -3.0, 0.0, [Expect(30.0, 0), Expect(33.0, 1)]), SplitRow([Expect(30.0, 0)]), 60)
  const HEARD_ONCE := OnStage(VoxRow(33.0, -3.0, 0.0, [Expect(33.0, 1)]), SplitRow([]), 60)
  const UNDONE := OnStage(VoxRow(30.0, 0.0, 0.0, []), SplitRow([]), 72)

  lemma StageSteps()
    ensures Apply(LOCK, START) == LOCKED && Apply(SET, LOCKED) == MOVED
    ensures Apply(FIRST_ECHO, MOVED) == HEARD_ONCE && Apply(SECOND_ECHO, HEARD_ONCE) == UNDONE
  {
    StageLocks();
    StageSets(LOCKED);
    StageHearsFirst(MOVED);
    StageHearsSecond(HEARD_ONCE);
  }

  lemma StageFaithful()
    ensures Faithful([LOCK] + ([SET] + ([FIRST_ECHO] + [SECOND_ECHO])), START, map[], 0)
  {
    StageSteps();
    StageObjects();
    StageOwes(LOCKED);
    var es := [Expect(30.0, 0), Expect(30.0, 0), Expect(33.0, 1)];
    StageAnswers(MOVED, es, 2);
    StageAnswers(HEARD_ONCE, es[1..], 3);
    hide Apply, FaithfulStep, DuesAfter;
    assert [SECOND_ECHO] + [] == [SECOND_ECHO];
    FaithfulCons(SECOND_ECHO, [], HEARD_ONCE, Due(es[1..]), 2);
    FaithfulCons(FIRST_ECHO, [SECOND_ECHO], MOVED, Due(es), 1);
    FaithfulCons(SET, [FIRST_ECHO] + [SECOND_ECHO], LOCKED, Due([Expect(30.0, 0), Expect(30.0, 0)]), 0);
    FaithfulCons(LOCK, [SET] + ([FIRST_ECHO] + [SECOND_ECHO]), START, map[], 0);
  }

  lemma StagePatient()
    ensures Patient([LOCK] + ([SET] + ([FIRST_ECHO] + [SECOND_ECHO])), START, 0, 0)
  {
    hide Apply;
    var w1 := Apply(LOCK, START);
    var w2 := Apply(SET, w1);
    PatientCons(SECOND_ECHO, [], Apply(FIRST_ECHO, w2), 2, 1);
    assert [SECOND_ECHO] + [] == [SECOND_ECHO];
    PatientCons(FIRST_ECHO, [SECOND_ECHO], w2, 1, 1);
    PatientCons(SET, [FIRST_ECHO] + [SECOND_ECHO], w1, 0, 0);
    PatientCons(LOCK, [SET] + ([FIRST_ECHO] + [SECOND_ECHO]), START, 0, 0);
  }

  lemma PatientCons(s: Step, steps: seq<Step>, w: World, clock: nat, last: nat)
    requires Unsettles(s, w) ==> last + ECHO_TTL <= TimeOf(s, clock)
    requires Patient(steps, Apply(s, w), TimeOf(s, clock), LastCause(s, last))
    ensures Patient([s] + steps, w, clock, last)
  {
    assert ([s] + steps)[1..] == steps;
  }

  /** A table that validates, two readings and a set, and the two readings reported back in order and in
      time: the second of them undoes the set's compensation, moving the follower's trim off the point the
      set had moved it to. */
  lemma EchoUndoesSet()
    ensures ValidConfig(Config("foh", [VOX, SPLIT]), {"foh", "mon"}) && START.desks.Sound()
    ensures Faithful([LOCK] + ([SET] + ([FIRST_ECHO] + [SECOND_ECHO])), START, map[], 0)
    ensures Patient([LOCK] + ([SET] + ([FIRST_ECHO] + [SECOND_ECHO])), START, 0, 0)
    ensures var trims := Run([LOCK] + ([SET] + [FIRST_ECHO]), START).desks.trims; T1 in trims && trims[T1] == 60
    ensures var trims := Run([LOCK] + ([SET] + ([FIRST_ECHO] + [SECOND_ECHO])), START).desks.trims;
            T1 in trims && trims[T1] == 72
  {
    TableIsValid();
    StageIsSound();
    StageFaithful();
    StageSteps();
    StagePatient();
    hide Apply, Faithful, Patient, ValidConfig;
    RunCons(SECOND_ECHO, [], HEARD_ONCE);
    RunCons(FIRST_ECHO, [SECOND_ECHO], MOVED);
    RunCons(SET, [FIRST_ECHO] + [SECOND_ECHO], LOCKED);
    RunCons(LOCK, [SET] + ([FIRST_ECHO] + [SECOND_ECHO]), START);
    RunCons(FIRST_ECHO, [], MOVED);
    RunCons(SET, [FIRST_ECHO], LOCKED);
    RunCons(LOCK, [SET] + [FIRST_ECHO], START);
    assert [SECOND_ECHO] + [] == [SECOND_ECHO] && [FIRST_ECHO] + [] == [FIRST_ECHO];
  }

  lemma RunCons(s: Step, steps: seq<Step>, w: World)
    ensures Run([s] + steps, w) == Run(steps, Apply(s, w))
  {
    assert ([s] + steps)[1..] == steps;
  }

  lemma FaithfulCons(s: Step, steps: seq<Step>, w: World, dues: Dues, clock: nat)
    requires clock <= TimeOf(s, clock) && FaithfulStep(s, w, dues)
    requires Faithful(steps, Apply(s, w), DuesAfter(s, w, dues), TimeOf(s, clock))
    ensures Faithful([s] + steps, w, dues, clock)
  {
    assert ([s] + steps)[1..] == steps;
  }
}
