/** What becomes of a queue when the table is resolved anew, at a lock or an election, and why echoes are
    harmless only in runs that wait before it. */
module GainForgetting {
  import opened Wrappers
  import opened Law
  import opened GainTable
  import opened GainSpec
  import opened GainRun
  import opened GainEcho
  import opened GainElection
  import opened GainConfig
  import opened GainOwnEchoes
  import opened GainSharedPreamps

  // ---------------------------------------------------------------- a lock

  lemma {:induction false} MatchAppend(es: seq<Expect>, more: seq<Expect>, gain: real)
    ensures Match(es + more, gain) < |es + more| <==> Match(es, gain) < |es| || Match(more, gain) < |more|
  {
    if es == [] {
      assert es + more == more;
    } else {
      assert (es + more)[1..] == es[1..] + more;
      MatchAppend(es[1..], more, gain);
    }
  }

  lemma HeardAppend(es: seq<Expect>, more: seq<Expect>, gain: real, now: nat)
    ensures Heard(es + more, gain, now).1 <==> Heard(es, gain, now).1 || Heard(more, gain, now).1
  {
    UnexpiredAppend(es, more, now);
    MatchAppend(Unexpired(es, now), Unexpired(more, now), gain);
  }

  /** A row's queue after a lock: its own if it finds its object again, and then the reading. */
  lemma LockedQueue(w: World, readings: seq<Option<real>>, now: nat, i: nat)
    requires RowsMatch(w) && i < |w.signals|
    requires LeaderOno(LeaderPreamp(w.signals[i], w.leader), w.leader, w.desks).Some?
    ensures var l := Lock(w, readings, now).live[i];
            l.expected == (if w.live[i].ono == l.ono then w.live[i].expected else [])
                          + (if ReadAt(readings, i).Some? then [Expect(ReadAt(readings, i).value, now)] else [])
  {
    ResolvedRow(w, w.leader, i);
    assert w.(leader := w.leader) == w;
    var row := Resolve(w).live[i];
    assert row.expected + [] == row.expected;
    hide ResolveRow, LeaderPreamp, LeaderOno;
    assert Lock(w, readings, now).live[i] == LockRow(row, ReadAt(readings, i), now);
  }

  /** What a lock's resolving makes of a queue: the echo of something caused before the lock is still
      recognised exactly if the row finds the object it had - or the lock's own reading happens to match. */
  lemma LockForgetsIff(w: World, readings: seq<Option<real>>, now: nat, i: nat, value: real, later: nat)
    requires RowsMatch(w) && i < |w.signals| && Heard(w.live[i].expected, value, later).1
    requires LeaderOno(LeaderPreamp(w.signals[i], w.leader), w.leader, w.desks).Some?
    ensures var l := Lock(w, readings, now).live[i];
            Heard(l.expected, value, later).1
            <==> (|| w.live[i].ono == l.ono
                  || (ReadAt(readings, i).Some? && Abs(ReadAt(readings, i).value - value) < EPSILON && later - now < ECHO_TTL))
  {
    LockedQueue(w, readings, now, i);
    hide Lock, RowsMatch;
    var more := if ReadAt(readings, i).Some? then [Expect(ReadAt(readings, i).value, now)] else [];
    HeardAppend(w.live[i].expected, more, value, later);
    assert [] + more == more;
    if ReadAt(readings, i).Some? { OneExpected(ReadAt(readings, i).value, now, value, later); }
  }

  lemma OneExpected(read: real, at: nat, value: real, now: nat)
    ensures Heard([Expect(read, at)], value, now).1 <==> Abs(read - value) < EPSILON && now - at < ECHO_TTL
  {
    assert [Expect(read, at)][1..] == [];
    assert Unexpired([Expect(read, at)], now) == if now - at < ECHO_TTL then [Expect(read, at)] else [];
  }

  // ---------------------------------------------------------------- an election

  lemma NothingHeard(value: real, now: nat)
    ensures !Heard([], value, now).1
  {}

  /** An election: the echo of something caused before it is still recognised exactly if the new leader's
      preamp has the number and the object number the old one had. */
  lemma ElectForgetsIff(w: World, device: string, i: nat, value: real, later: nat)
    requires RowsMatch(w) && !w.locked && CanLead(w.signals, device) && i < |w.signals|
    requires Heard(w.live[i].expected, value, later).1
    ensures Heard(Elect(w, device).live[i].expected, value, later).1 <==> LooksTheSame(w, device, i, i)
  {
    ResolvedRow(w, device, i);
    NothingHeard(value, later);
  }

  /** Away and back: exactly if they agree at both elections. */
  lemma AwayAndBackForgetsIff(w: World, device: string, i: nat, value: real, later: nat)
    requires RowsMatch(w) && !w.locked && CanLead(w.signals, device) && CanLead(w.signals, w.leader) && i < |w.signals|
    requires Heard(w.live[i].expected, value, later).1
    ensures var away := Elect(w, device);
            && i < |away.live|
            && (Heard(Elect(away, w.leader).live[i].expected, value, later).1
                <==> LooksTheSame(w, device, i, i) && LooksTheSame(away, w.leader, i, i))
  {
    var away := Elect(w, device);
    ResolvedRows(w, device);
    ElectForgetsIff(w, device, i, value, later);
    if LooksTheSame(w, device, i, i) {
      ElectForgetsIff(away, w.leader, i, value, later);
    } else {
      ResolvedRow(w, device, i);
      ResolvedRow(away, w.leader, i);
      NothingHeard(value, later);
    }
  }

  // ---------------------------------------------------------------- what a forgotten echo does

  /** A run of nothing but own echoes, patient or not, in which one is taken for a move. */
  ghost predicate Moves(steps: seq<Step>, w: World, dues: Dues, clock: nat) {
    Faithful(steps, w, dues, clock) && !NeverMoved(steps, w)
  }

  lemma MovesLater(s: Step, steps: seq<Step>, w: World, dues: Dues, clock: nat)
    requires clock <= TimeOf(s, clock) && FaithfulStep(s, w, dues)
    requires Moves(steps, Apply(s, w), DuesAfter(s, w, dues), TimeOf(s, clock))
    ensures Moves([s] + steps, w, dues, clock)
  {
    assert ([s] + steps)[1..] == steps;
  }

  function Everywhere(value: real, n: nat): seq<Option<real>> {
    seq(n, _ => Some(value))
  }

  /** The oldest report outstanding on an object. */
  predicate DueFirst(dues: Dues, device: string, ono: nat, e: Expect) {
    var es := On(dues, device, ono);
    es != [] && es[0] == e
  }

  /** Readings join what is outstanding at the end, on the leader's objects alone. */
  lemma {:induction false} ReadingsJoin(leader: string, onos: seq<Option<nat>>, dues: Dues, readings: seq<Option<real>>,
                                        now: nat, k: nat, device: string, ono: nat, e: Expect)
    ensures var dues' := ReadDues(leader, onos, dues, readings, now, k);
            && (DueFirst(dues, device, ono, e) ==> DueFirst(dues', device, ono, e))
            && (device != leader ==> On(dues', device, ono) == On(dues, device, ono))
    decreases |onos| - k
  {
    if k < |onos| {
      if onos[k].None? || ReadAt(readings, k).None? {
        ReadingsJoin(leader, onos, dues, readings, now, k + 1, device, ono, e);
      } else {
        ReadingsJoin(leader, onos, Owe(dues, leader, onos[k].value, ReadAt(readings, k).value, now), readings, now, k + 1,
                     device, ono, e);
      }
    }
  }

  /** With everyone reading the same, the reading is the first thing outstanding where nothing was. */
  lemma {:induction false} ReadingDue(leader: string, onos: seq<Option<nat>>, dues: Dues, value: real, now: nat, k: nat,
                                      i: nat, ono: nat)
    requires k <= i < |onos| && onos[i] == Some(ono)
    requires On(dues, leader, ono) == [] || DueFirst(dues, leader, ono, Expect(value, now))
    ensures DueFirst(ReadDues(leader, onos, dues, Everywhere(value, |onos|), now, k), leader, ono, Expect(value, now))
    decreases |onos| - k
  {
    var dues' := if onos[k].None? then dues else Owe(dues, leader, onos[k].value, value, now);
    assert ReadAt(Everywhere(value, |onos|), k) == Some(value);
    if k < i {
      ReadingDue(leader, onos, dues', value, now, k + 1, i, ono);
    } else {
      ReadingsJoin(leader, onos, dues', Everywhere(value, |onos|), now, k + 1, leader, ono, Expect(value, now));
    }
  }

  /** One row after a lock at which everyone reads the same. */
  lemma LockedRowReads(w: World, value: real, now: nat, i: nat, ono: nat)
    requires RowsMatch(w) && i < |w.signals|
    requires LeaderOno(LeaderPreamp(w.signals[i], w.leader), w.leader, w.desks) == Some(ono)
    ensures var w' := Lock(w, Everywhere(value, |w.signals|), now);
            && RowsMatch(w') && w'.leader == w.leader && w'.signals == w.signals && w'.desks == w.desks && w'.locked
            && |w'.live| == |w.signals| && w'.live[i].ono == Some(ono) && w'.live[i].gain == Some(value)
            && w'.live[i].expected
               == (if w.live[i].ono == Some(ono) then w.live[i].expected else []) + [Expect(value, now)]
  {
    var readings := Everywhere(value, |w.signals|);
    assert ReadAt(readings, i) == Some(value);
    LockedRows(w, readings, now);
    LockedQueue(w, readings, now, i);
    ResolvedRow(w, w.leader, i);
    assert w.(leader := w.leader) == w;
    hide ResolveRow, RowsMatch, LeaderOno, LeaderPreamp;
    assert Lock(w, readings, now).live[i] == LockRow(Resolve(w).live[i], Some(value), now);
  }

  /** What a lock leaves outstanding on one row's object. */
  lemma LockedDues(w: World, dues: Dues, value: real, now: nat, i: nat, ono: nat)
    requires RowsMatch(w) && i < |w.signals|
    requires LeaderOno(LeaderPreamp(w.signals[i], w.leader), w.leader, w.desks) == Some(ono)
    requires On(dues, w.leader, ono) == [] || DueFirst(dues, w.leader, ono, Expect(value, now))
    ensures DueFirst(DuesAfter(LockNow(Everywhere(value, |w.signals|), now), w, dues), w.leader, ono, Expect(value, now))
  {
    ResolvedRow(w, w.leader, i);
    assert w.(leader := w.leader) == w;
    var onos := Objects(Resolve(w).live);
    assert onos[i] == Some(ono) && |onos| == |w.signals|;
    ReadingDue(w.leader, onos, dues, value, now, 0, i, ono);
  }

  /** A report of one thing outstanding, heard alone. */
  lemma EchoFaithful(w: World, dues: Dues, i: nat, ono: nat, value: real, now: nat)
    requires i < |w.live| && w.live[i].ono == Some(ono) && DueFirst(dues, w.leader, ono, Expect(value, now))
    ensures var echo := Reports([Report(w.leader, ono, Some(value))], now, []);
            && FaithfulStep(echo, w, dues)
            && DuesAfter(echo, w, dues) == dues[(w.leader, ono) := On(dues, w.leader, ono)[1..]]
  {
    var r := Report(w.leader, ono, Some(value));
    var es := On(dues, w.leader, ono);
    assert Objects(w.live)[i] == Some(ono) && [r][1..] == [];
    assert Answered(es, value, now) == Some(es[1..]);
    var dues' := dues[(w.leader, ono) := es[1..]];
    assert OwnBatch(Objects(w.live), w.leader, [], dues', now) && Concerns(Objects(w.live), w.leader, r);
    assert OwnBatch(Objects(w.live), w.leader, [r], dues, now);
    assert BatchDues(Objects(w.live), w.leader, [r], dues, now) == BatchDues(Objects(w.live), w.leader, [], dues', now);
  }

  lemma EchoMoves(w: World, dues: Dues, i: nat, ono: nat, now: nat)
    requires i < |w.live| && w.live[i].ono == Some(ono) && w.live[i].gain == Some(33.0)
    requires w.live[i].expected == [Expect(33.0, now)] && DueFirst(dues, w.leader, ono, Expect(30.0, now))
    ensures Moves([Reports([Report(w.leader, ono, Some(30.0))], now, [])], w, dues, now)
  {
    var echo := Reports([Report(w.leader, ono, Some(30.0))], now, []);
    EchoFaithful(w, dues, i, ono, 30.0, now);
    OneExpected(33.0, now, 30.0, now);
    GenuineSetsGain(w, ono, 30.0, now, i);
    hide OnEvents, Heard, OwnBatch;
    assert !OnlyExpectations(w, Apply(echo, w));
    assert [echo][1..] == [];
    assert Faithful([], Apply(echo, w), DuesAfter(echo, w, dues), now);
    assert Faithful([echo], w, dues, now) && !NeverMoved([echo], w);
  }

  /** A row that has forgotten a reading of 30 still outstanding on its object: lock it at 33, and the
      report of the 30 is taken for a move. */
  lemma ForgottenMoves(w: World, dues: Dues, i: nat, ono: nat, now: nat) returns (steps: seq<Step>)
    requires RowsMatch(w) && i < |w.signals| && DueFirst(dues, w.leader, ono, Expect(30.0, now))
    requires LeaderOno(LeaderPreamp(w.signals[i], w.leader), w.leader, w.desks) == Some(ono)
    requires w.live[i].ono == Some(ono) ==> w.live[i].expected == []
    ensures Moves(steps, w, dues, now) && forall s :: s in steps ==> !s.Link?
  {
    var lock := LockNow(Everywhere(33.0, |w.signals|), now);
    var echo := Reports([Report(w.leader, ono, Some(30.0))], now, []);
    LockedRowReads(w, 33.0, now, i, ono);
    var (w1, dues1) := (Apply(lock, w), DuesAfter(lock, w, dues));
    ReadingsJoin(w.leader, Objects(Resolve(w).live), dues, Everywhere(33.0, |w.signals|), now, 0, w.leader, ono, Expect(30.0, now));
    assert [] + [Expect(33.0, now)] == [Expect(33.0, now)];
    hide RowsMatch, LeaderOno, LeaderPreamp, Lock, Moves, DueFirst, Resolve;
    EchoMoves(w1, dues1, i, ono, now);
    MovesLater(lock, [echo], w, dues, now);
    steps := [lock] + [echo];
  }

  // ---------------------------------------------------------------- the failing runs

  /** Locked at 30 a while after anything else, and unlocked: the reading is the newest thing expected and
      the first outstanding. */
  ghost predicate Read(w: World, dues: Dues, i: nat, ono: nat, now: nat, clock: nat) {
    && RowsMatch(w) && !w.locked && i < |w.signals|
    && LeaderOno(LeaderPreamp(w.signals[i], w.leader), w.leader, w.desks) == Some(ono)
    && w.live[i].ono == Some(ono) && now >= clock + ECHO_TTL
    && DueFirst(dues, w.leader, ono, Expect(30.0, now))
    && (forall d, o :: d != w.leader ==> On(dues, d, o) == [])
    && exists carried :: Dated(carried, clock) && w.live[i].expected == carried + [Expect(30.0, now)]
  }

  lemma AwayAndBackEmpties(w: World, i: nat, ono: nat, device: string)
    requires RowsMatch(w) && !w.locked && i < |w.signals| && CanLead(w.signals, device) && CanLead(w.signals, w.leader)
    requires LeaderOno(LeaderPreamp(w.signals[i], w.leader), w.leader, w.desks) == Some(ono) == w.live[i].ono
    requires !LooksTheSame(w, device, i, i)
    ensures var w2 := Elect(Elect(w, device), w.leader);
            && RowsMatch(w2) && w2.leader == w.leader && w2.signals == w.signals && w2.desks == w.desks && !w2.locked
            && i < |w2.live| && w2.live[i].expected == []
  {
    var w1 := Elect(w, device);
    ResolvedRows(w, device);
    ResolvedRows(w1, w.leader);
    ResolvedRow(w, device, i);
    ResolvedRow(w1, w.leader, i);
  }

  /** Elsewhere and back, where the desks differ: the row forgets. */
  lemma AwayForgets(w: World, dues: Dues, i: nat, ono: nat, now: nat, clock: nat, device: string) returns (steps: seq<Step>)
    requires Read(w, dues, i, ono, now, clock) && CanLead(w.signals, device) && CanLead(w.signals, w.leader)
    requires !LooksTheSame(w, device, i, i)
    ensures Moves(steps, w, dues, now) && forall s :: s in steps ==> !s.Link?
  {
    var (away, back) := (ElectLeader(device), ElectLeader(w.leader));
    AwayAndBackEmpties(w, i, ono, device);
    hide RowsMatch, Moves, DueFirst, LeaderOno, LeaderPreamp, Resolve, Elect, CanLead, LooksTheSame;
    var w1 := Apply(away, w);
    var rest := ForgottenMoves(Apply(back, w1), dues, i, ono, now);
    MovesLater(back, rest, w1, dues, now);
    MovesLater(away, [back] + rest, w, dues, now);
    steps := [away] + ([back] + rest);
  }

  lemma MixedQueue(carried: seq<Expect>, now: nat, clock: nat)
    requires Dated(carried, clock) && now >= clock + ECHO_TTL
    ensures Heard(carried + [Expect(30.0, now)] + [Expect(33.0, now)], 33.0, now) == ([], true)
  {
    var two := [Expect(30.0, now), Expect(33.0, now)];
    assert carried + [Expect(30.0, now)] + [Expect(33.0, now)] == carried + two;
    AllExpired(carried, two, now, clock);
    assert two[1..] == [Expect(33.0, now)] && two[2..] == [];
    assert Match(two, 33.0) == 1;
  }

  lemma {:induction false} ObserveAllConnected(w: World, latest: seq<(nat, real)>, answers: seq<set<Trim>>, k: nat)
    ensures ObserveAll(w, latest, answers, k).desks.connected == w.desks.connected
    ensures ObserveAll(w, latest, answers, k).locked == w.locked
    decreases |latest|
  {
    if latest != [] {
      ObserveAllConnected(if latest[0].0 < |w.live| then Observe(w, latest[0].0, latest[0].1, AnswersAt(answers, k)) else w,
                          latest[1..], answers, k + 1);
    }
  }

  /** Locked at 33 on the other desk, the row hears that desk's 33 and expects nothing more. */
  lemma MixedHears(w: World, dues: Dues, i: nat, ono: nat, now: nat, clock: nat, carried: seq<Expect>)
    requires RowsMatch(w) && i < |w.live| && w.live[i].ono == Some(ono)
    requires w.live[i].expected == carried + [Expect(30.0, now)] + [Expect(33.0, now)]
    requires Dated(carried, clock) && now >= clock + ECHO_TTL && DueFirst(dues, w.leader, ono, Expect(33.0, now))
    ensures var echo := Reports([Report(w.leader, ono, Some(33.0))], now, []); var w' := Apply(echo, w);
            && FaithfulStep(echo, w, dues)
            && DuesAfter(echo, w, dues) == dues[(w.leader, ono) := On(dues, w.leader, ono)[1..]]
            && RowsMatch(w') && w'.leader == w.leader && w'.signals == w.signals && w'.desks.kits == w.desks.kits
            && w'.desks.connected == w.desks.connected && |w'.live| == |w.live|
            && w'.live[i].ono == Some(ono) && w'.live[i].expected == []
  {
    var echo := Reports([Report(w.leader, ono, Some(33.0))], now, []);
    EchoFaithful(w, dues, i, ono, 33.0, now);
    MixedQueue(carried, now, clock);
    EchoHeardBy(w, ono, 33.0, now, i);
    SameTableUnlessResolved(echo, w);
    var (live', latest) := HearAll(w.live, [], w.leader, echo.batch, now);
    ObserveAllConnected(w.(live := live'), latest, [], 0);
    hide HearAll, ObserveAll, RowsMatch, Heard;
    SameTableMatches(w, Apply(echo, w));
  }

  /** Elsewhere, a lock there, and the report of its reading: nothing is expected any more, and the reading of
      the old leader is outstanding still. */
  lemma Mixed(w: World, dues: Dues, i: nat, ono: nat, now: nat, clock: nat, device: string) returns (w': World, dues': Dues)
    requires Read(w, dues, i, ono, now, clock) && CanLead(w.signals, device)
    requires LooksTheSame(w, device, i, i) && device != w.leader
    ensures var (away, lock) := (ElectLeader(device), LockNow(Everywhere(33.0, |w.signals|), now));
            var w1 := Apply(away, w); var w2 := Apply(lock, w1);
            && w1.signals == w.signals && w2.leader == device && RowsMatch(w2) && i < |w2.live| && w2.live[i].ono == Some(ono)
            && w2.signals == w.signals && w2.desks == w.desks && w' == w2 && dues' == DuesAfter(lock, w1, dues)
            && DueFirst(dues', device, ono, Expect(33.0, now)) && DueFirst(dues', w.leader, ono, Expect(30.0, now))
            && exists carried :: Dated(carried, clock)
                 && w2.live[i].expected == carried + [Expect(30.0, now)] + [Expect(33.0, now)]
  {
    var lock := LockNow(Everywhere(33.0, |w.signals|), now);
    var carried :| Dated(carried, clock) && w.live[i].expected == carried + [Expect(30.0, now)];
    var w1 := Elect(w, device);
    AwayKeeps(w, i, ono, device);
    hide RowsMatch, LeaderPreamp, LeaderOno, LooksTheSame, CanLead, Elect, Dated;
    LockedRowReads(w1, 33.0, now, i, ono);
    LockedDues(w1, dues, 33.0, now, i, ono);
    hide Lock;
    ReadingsJoin(device, Objects(Resolve(w1).live), dues, Everywhere(33.0, |w.signals|), now, 0, w.leader, ono, Expect(30.0, now));
    w', dues' := Apply(lock, w1), DuesAfter(lock, w1, dues);
  }

  lemma AwayKeeps(w: World, i: nat, ono: nat, device: string)
    requires RowsMatch(w) && !w.locked && i < |w.signals| && CanLead(w.signals, device) && w.live[i].ono == Some(ono)
    requires LooksTheSame(w, device, i, i)
    ensures var w1 := Elect(w, device);
            && RowsMatch(w1) && w1.leader == device && w1.signals == w.signals && w1.desks == w.desks && i < |w1.live|
            && LeaderOno(LeaderPreamp(w.signals[i], device), device, w1.desks) == Some(ono) == w1.live[i].ono
            && w1.live[i].expected == w.live[i].expected
  {
    ResolvedRows(w, device);
    ResolvedRow(w, device, i);
  }

  /** From there: the other desk's echo, the old leader again, and the reading it still had outstanding. */
  lemma MixedMoves(w: World, dues: Dues, i: nat, ono: nat, now: nat, clock: nat, home: string, carried: seq<Expect>)
    returns (steps: seq<Step>)
    requires RowsMatch(w) && i < |w.live| && w.live[i].ono == Some(ono) && home != w.leader && CanLead(w.signals, home)
    requires w.live[i].expected == carried + [Expect(30.0, now)] + [Expect(33.0, now)]
    requires Dated(carried, clock) && now >= clock + ECHO_TTL && DueFirst(dues, w.leader, ono, Expect(33.0, now))
    requires LeaderOno(LeaderPreamp(w.signals[i], home), home, w.desks) == Some(ono) && DueFirst(dues, home, ono, Expect(30.0, now))
    ensures Moves(steps, w, dues, now) && forall s :: s in steps ==> !s.Link?
  {
    var (echo, back) := (Reports([Report(w.leader, ono, Some(33.0))], now, []), ElectLeader(home));
    MixedHears(w, dues, i, ono, now, clock, carried);
    var (w1, dues1) := (Apply(echo, w), DuesAfter(echo, w, dues));
    assert DueFirst(dues1, home, ono, Expect(30.0, now));
    hide DuesAfter, FaithfulStep, OnEvents, RowsMatch, Heard;
    var w2 := Apply(Unlock, w1);
    UnlockedMatches(w1);
    BackKeeps(w2, i, ono, home);
    hide Moves, DueFirst, LeaderOno, LeaderPreamp, Resolve;
    var rest := ForgottenMoves(Apply(back, w2), dues1, i, ono, now);
    hide Apply;
    MovesLater(back, rest, w2, dues1, now);
    MovesLater(Unlock, [back] + rest, w1, dues1, now);
    MovesLater(echo, [Unlock] + ([back] + rest), w, dues, now);
    steps := [echo] + ([Unlock] + ([back] + rest));
  }

  lemma UnlockedMatches(w: World)
    requires RowsMatch(w)
    ensures RowsMatch(w.(locked := false))
  {}

  /** Where they look the same the row keeps its queue - and the echo of what the other desk read takes
      everything before it along. */
  lemma AwayMixes(w: World, dues: Dues, i: nat, ono: nat, now: nat, clock: nat, device: string) returns (steps: seq<Step>)
    requires Read(w, dues, i, ono, now, clock) && CanLead(w.signals, device) && CanLead(w.signals, w.leader)
    requires LooksTheSame(w, device, i, i) && device != w.leader
    ensures Moves(steps, w, dues, now) && forall s :: s in steps ==> !s.Link?
  {
    var (away, lock) := (ElectLeader(device), LockNow(Everywhere(33.0, |w.signals|), now));
    var w2, dues2 := Mixed(w, dues, i, ono, now, clock, device);
    hide RowsMatch, Moves, DueFirst, LeaderOno, LeaderPreamp, LooksTheSame, Lock, Elect, ReadDues, CanLead, Everywhere, Dated;
    var carried :| Dated(carried, clock) && w2.live[i].expected == carried + [Expect(30.0, now)] + [Expect(33.0, now)];
    var rest := MixedMoves(w2, dues2, i, ono, now, clock, w.leader, carried);
    MovesLater(lock, rest, Apply(away, w), dues, now);
    MovesLater(away, [lock] + rest, w, dues, now);
    steps := [away] + ([lock] + rest);
  }

  /** Either way. */
  lemma AwayMoves(w: World, dues: Dues, i: nat, ono: nat, now: nat, clock: nat, device: string) returns (steps: seq<Step>)
    requires Read(w, dues, i, ono, now, clock) && CanLead(w.signals, device) && CanLead(w.signals, w.leader)
    requires device != w.leader
    ensures Moves(steps, w, dues, now) && forall s :: s in steps ==> !s.Link?
  {
    assert i < |w.live|;
    hide LooksTheSame, Moves, CanLead;
    if LooksTheSame(w, device, i, i) {
      steps := AwayMixes(w, dues, i, ono, now, clock, device);
    } else {
      steps := AwayForgets(w, dues, i, ono, now, clock, device);
    }
  }

  /** Elected back, the old leader finds the row on its object and expecting nothing. */
  lemma BackKeeps(w: World, i: nat, ono: nat, device: string)
    requires RowsMatch(w) && !w.locked && i < |w.signals| && CanLead(w.signals, device)
    requires LeaderOno(LeaderPreamp(w.signals[i], device), device, w.desks) == Some(ono)
    requires w.live[i].ono == Some(ono) && w.live[i].expected == []
    ensures var w' := Elect(w, device);
            && RowsMatch(w') && w'.leader == device && w'.signals == w.signals && i < |w'.live|
            && LeaderOno(LeaderPreamp(w'.signals[i], w'.leader), w'.leader, w'.desks) == Some(ono)
            && w'.live[i].expected == []
  {
    ResolvedRows(w, device);
    ResolvedRow(w, device, i);
  }

  lemma ElectedFirst(w: World, clock: nat, connected: set<string>, device: string, i: nat, ono: nat)
    requires RowsMatch(w) && QueuesOk(w.live, clock) && i < |w.signals| && device in connected
    requires device in w.desks.kits && PreampObject(w.signals[i], device, w.desks.kits) == Some(ono)
    ensures var w2 := Apply(ElectLeader(device), Apply(Unlock, Apply(Link(connected), w)));
            && RowsMatch(w2) && w2.leader == device && w2.signals == w.signals && w2.desks.kits == w.desks.kits
            && |w2.live| == |w.signals| && Dated(w2.live[i].expected, clock) && CanLead(w.signals, device)
            && LeaderOno(LeaderPreamp(w.signals[i], device), device, w2.desks) == Some(ono)
  {
    SharedCanLead(w.signals, device, w.desks.kits, i);
    var w1 := Apply(Unlock, Apply(Link(connected), w));
    ResolvedRows(w1, device);
    ResolveOk(w1.(leader := device), clock);
    assert QueueOk(Resolve(w1.(leader := device)).live[i], clock);
  }

  lemma LockedFirst(w: World, i: nat, ono: nat, now: nat, clock: nat)
    requires RowsMatch(w) && i < |w.signals| && Dated(w.live[i].expected, clock) && now >= clock + ECHO_TTL
    requires LeaderOno(LeaderPreamp(w.signals[i], w.leader), w.leader, w.desks) == Some(ono)
    ensures var lock := LockNow(Everywhere(30.0, |w.signals|), now); var w' := Apply(Unlock, Apply(lock, w));
            && Read(w', DuesAfter(lock, w, NO_DUES), i, ono, now, clock) && w'.leader == w.leader
            && w'.signals == w.signals && w'.desks == w.desks
  {
    var lock := LockNow(Everywhere(30.0, |w.signals|), now);
    LockedRowReads(w, 30.0, now, i, ono);
    LockedDues(w, NO_DUES, 30.0, now, i, ono);
    assert Dated([], clock);
    hide RowsMatch, Lock, LeaderOno, LeaderPreamp;
    forall d, o | d != w.leader ensures On(DuesAfter(lock, w, NO_DUES), d, o) == [] {
      ReadingsJoin(w.leader, Objects(Resolve(w).live), NO_DUES, Everywhere(30.0, |w.signals|), now, 0, d, o, Expect(30.0, now));
    }
    UnlockedMatches(Apply(lock, w));
  }

  lemma TickOnly(w: World, now: nat)
    ensures Apply(Tick(now), w) == w
  {
    assert w.(live := w.live) == w;
  }

  /** From any state: time passes, the desks are linked, one is elected, and read at a lock. */
  lemma ReadFirst(w: World, clock: nat, connected: set<string>, device: string, i: nat, ono: nat)
    requires RowsMatch(w) && QueuesOk(w.live, clock) && i < |w.signals| && device in connected
    requires device in w.desks.kits && PreampObject(w.signals[i], device, w.desks.kits) == Some(ono)
    ensures var now := clock + ECHO_TTL; var lock := LockNow(Everywhere(30.0, |w.signals|), now);
            var w1 := Apply(Unlock, Apply(Link(connected), w)); var w2 := Apply(ElectLeader(device), w1);
            var w3 := Apply(Unlock, Apply(lock, w2));
            && w1.signals == w.signals && w2.signals == w.signals
            && Read(w3, DuesAfter(lock, w2, NO_DUES), i, ono, now, clock) && w3.leader == device
            && w3.signals == w.signals && w3.desks.kits == w.desks.kits && CanLead(w.signals, device)
  {
    ElectedFirst(w, clock, connected, device, i, ono);
    var w1 := Apply(Unlock, Apply(Link(connected), w));
    var w2 := Apply(ElectLeader(device), w1);
    assert w1.signals == w.signals;
    hide Apply, RowsMatch, QueuesOk, PreampObject, Read, LeaderOno, LeaderPreamp, CanLead;
    LockedFirst(w2, i, ono, clock + ECHO_TTL, clock);
  }

  /** Time passes, the desks are linked, one is elected, read at a lock, and unlocked. */
  function Opening(connected: set<string>, device: string, n: nat, now: nat): seq<Step> {
    [Tick(now), Link(connected), Unlock, ElectLeader(device), LockNow(Everywhere(30.0, n), now), Unlock]
  }

  lemma LockThenMoves(w: World, dues: Dues, lock: Step, now: nat, rest: seq<Step>)
    requires lock.LockNow? && lock.now == now && Moves(rest, Apply(Unlock, Apply(lock, w)), DuesAfter(lock, w, dues), now)
    ensures Moves([lock] + ([Unlock] + rest), w, dues, now)
  {
    var (w1, dues1) := (Apply(lock, w), DuesAfter(lock, w, dues));
    hide Moves, Lock, ReadDues;
    MovesLater(Unlock, rest, w1, dues1, now);
    MovesLater(lock, [Unlock] + rest, w, dues, now);
  }

  lemma ReadThenMoves(w: World, clock: nat, connected: set<string>, device: string, now: nat, rest: seq<Step>)
    returns (steps: seq<Step>)
    requires clock <= now
    requires var lock := LockNow(Everywhere(30.0, |w.signals|), now);
             var w2 := Apply(ElectLeader(device), Apply(Unlock, Apply(Link(connected), w)));
             Moves(rest, Apply(Unlock, Apply(lock, w2)), DuesAfter(lock, w2, NO_DUES), now)
    ensures Moves(steps, w, NO_DUES, clock) && steps == Opening(connected, device, |w.signals|, now) + rest
  {
    var (link, elect, lock) := (Link(connected), ElectLeader(device), LockNow(Everywhere(30.0, |w.signals|), now));
    var w1 := Apply(link, w);
    var w2 := Apply(Unlock, w1);
    var w3 := Apply(elect, w2);
    TickOnly(w, now);
    LockThenMoves(w3, NO_DUES, lock, now, rest);
    hide Moves, Resolve, Elect, Everywhere;
    var more := [lock] + ([Unlock] + rest);
    MovesLater(elect, more, w2, NO_DUES, now);
    MovesLater(Unlock, [elect] + more, w1, NO_DUES, now);
    MovesLater(link, [Unlock] + ([elect] + more), w, NO_DUES, now);
    MovesLater(Tick(now), [link] + ([Unlock] + ([elect] + more)), w, NO_DUES, clock);
    steps := [Tick(now)] + ([link] + ([Unlock] + ([elect] + more)));
  }

  lemma MovesImpatiently(steps: seq<Step>, w: World, clock: nat)
    requires RowsMatch(w) && Moves(steps, w, NO_DUES, clock)
    ensures OwnObjects(w.signals, w.desks.kits) ==> !Patient(steps, w, clock, clock)
  {
    if OwnObjects(w.signals, w.desks.kits) && Patient(steps, w, clock, clock) {
      NothingDue(w, clock, clock);
      OwnEchoesMoveNothing(steps, w, NO_DUES, clock, clock);
    }
  }

  lemma OpeningLinks(connected: set<string>, device: string, n: nat, now: nat, rest: seq<Step>)
    requires forall s :: s in rest ==> !s.Link?
    ensures forall s :: s in Opening(connected, device, n, now) + rest && s.Link? ==> s.connected == connected
  {}

  lemma ReadThenAway(w: World, clock: nat, home: string, device: string, i: nat, ono: nat) returns (steps: seq<Step>)
    requires RowsMatch(w) && QueuesOk(w.live, clock) && i < |w.signals|
    requires home in w.desks.kits && PreampObject(w.signals[i], home, w.desks.kits) == Some(ono)
    requires device != home && CanLead(w.signals, device)
    ensures Moves(steps, w, NO_DUES, clock)
    ensures forall s :: s in steps && s.Link? ==> s.connected == {home, device}
  {
    var now := clock + ECHO_TTL;
    ReadFirst(w, clock, {home, device}, home, i, ono);
    var lock := LockNow(Everywhere(30.0, |w.signals|), now);
    var w2 := Apply(ElectLeader(home), Apply(Unlock, Apply(Link({home, device}), w)));
    var (w3, dues) := (Apply(Unlock, Apply(lock, w2)), DuesAfter(lock, w2, NO_DUES));
    hide Apply, DuesAfter, Moves, PreampObject, RowsMatch, QueuesOk, Read, CanLead, Everywhere, Opening;
    var rest := AwayMoves(w3, dues, i, ono, now, clock, device);
    OpeningLinks({home, device}, home, |w.signals|, now, rest);
    steps := ReadThenMoves(w, clock, {home, device}, home, now, rest);
  }

  /** Read one desk and elect another and the first again, all within the echo lifetime: the report of the
      reading is taken for a move, whether the desks' preamps look the same or not - and, where no two
      signals share an object, for no other reason than that haste. */
  lemma ElectingAwayMoves(w: World, clock: nat, home: string, device: string, i: nat) returns (steps: seq<Step>)
    requires RowsMatch(w) && QueuesOk(w.live, clock) && i < |w.signals|
    requires home in w.desks.kits && PreampObject(w.signals[i], home, w.desks.kits).Some?
    requires device != home && CanLead(w.signals, device)
    ensures Moves(steps, w, NO_DUES, clock)
    ensures forall s :: s in steps && s.Link? ==> s.connected == {home, device}
    ensures OwnObjects(w.signals, w.desks.kits) ==> !Patient(steps, w, clock, clock)
  {
    hide RowsMatch, QueuesOk, Moves, Patient, OwnObjects, PreampObject, CanLead;
    steps := ReadThenAway(w, clock, home, device, i, PreampObject(w.signals[i], home, w.desks.kits).value);
    MovesImpatiently(steps, w, clock);
  }

  /** A lock with the leader unplugged, and another with it back: the same, without any election away. */
  lemma UnpluggedMoves(w: World, dues: Dues, i: nat, ono: nat, now: nat, clock: nat) returns (steps: seq<Step>)
    requires Read(w, dues, i, ono, now, clock) && w.leader in w.desks.kits
    ensures Moves(steps, w, dues, now)
  {
    var (out, lock, plugged) := (Link({}), LockNow([], now), Link({w.leader}));
    var w1 := Apply(out, w);
    LockedRows(w1, [], now);
    ResolvedRow(w1, w1.leader, i);
    assert w1.(leader := w1.leader) == w1;
    var (w2, dues2) := (Apply(lock, w1), DuesAfter(lock, w1, dues));
    assert w2.live[i].ono == None;
    ReadingsJoin(w.leader, Objects(Resolve(w1).live), dues, [], now, 0, w.leader, ono, Expect(30.0, now));
    var w3 := Apply(plugged, w2);
    hide Moves, DueFirst, Resolve, Lock, DuesAfter, RowsMatch;
    var rest := ForgottenMoves(w3, dues2, i, ono, now);
    MovesLater(plugged, rest, w2, dues2, now);
    MovesLater(lock, [plugged] + rest, w1, dues, now);
    MovesLater(out, [lock] + ([plugged] + rest), w, dues, now);
    steps := [out] + ([lock] + ([plugged] + rest));
  }

  const VOX := Signal("Vox", [Member("foh", Some(5), None), Member("mon", Some(1), Some(1))])
  const RIG := Desks({"foh", "mon"}, map["foh" := Kit(X32_TRIM, map[5 := 500], map[]), "mon" := Kit(X32_TRIM, map[1 := 600], map[1 := 7])],
                     map[Trim("mon", 1) := 72])

  /** One signal, a preamp of its own on each of two desks. */
  lemma ElectionUndoesReading() returns (steps: seq<Step>)
    ensures ValidConfig(Config("foh", [VOX]), {"foh", "mon"}) && OwnObjects([VOX], RIG.kits)
    ensures Moves(steps, Resolve(World("foh", false, [VOX], [], {}, RIG)), NO_DUES, 0)
  {
    var w := Resolve(World("foh", false, [VOX], [], {}, RIG));
    FreshAwaits("foh", [VOX], RIG);
    assert VOX.members[0].preamp.Some? && VOX.members[1].device == "mon";
    assert w.signals[0].members[1].device == "mon" && w.signals[0].members[1].preamp.Some?;
    assert QueuesOk(w.live, 0);
    hide Moves, Patient, Resolve, ValidConfig, OwnObjects, RowsMatch, QueuesOk;
    steps := ElectingAwayMoves(w, 0, "foh", "mon", 0);
  }

  // ---------------------------------------------------------------- patience is needed

  /** No signal has a preamp object on any desk. */
  ghost predicate NoObjects(signals: seq<Signal>, kits: map<string, Kit>) {
    forall d, i :: d in kits && 0 <= i < |signals| ==> PreampObject(signals[i], d, kits).None?
  }

  /** No run of own echoes from here moves anything, patient or not. */
  ghost predicate HarmlessAnyhow(w: World, clock: nat) {
    forall steps :: Faithful(steps, w, NO_DUES, clock) ==> NeverMoved(steps, w)
  }

  lemma {:induction false} NobodyOn(live: seq<Live>, leader: string, batch: seq<Report>, now: nat)
    requires forall i :: 0 <= i < |live| ==> live[i].ono.None?
    ensures HearAll(live, [], leader, batch, now) == (live, [])
    decreases |batch|
  {
    if batch != [] {
      var r := batch[0];
      if r.device == leader && r.value.Some? {
        assert Some(r.ono) !in Objects(live);
        NobodyListens(live, r.ono, r.value.value, now);
        HearFromEcho(live, [], r.ono, r.value.value, now, 0);
      }
      NobodyOn(live, leader, batch[1..], now);
    }
  }

  lemma {:induction false} NothingToMove(steps: seq<Step>, w: World)
    requires RowsMatch(w) && NoObjects(w.signals, w.desks.kits)
    ensures NeverMoved(steps, w)
    decreases |steps|
  {
    if steps != [] {
      var s := steps[0];
      KeepsRows(s, w);
      KeepsTable(s, w);
      if s.Reports? {
        forall i | 0 <= i < |w.live| ensures w.live[i].ono.None? {
          if w.live[i].ono.Some? { ObjectOnKit(w.signals[i], w.leader, w.desks.kits); }
        }
        NobodyOn(w.live, w.leader, s.batch, s.now);
        assert w.(live := w.live) == w;
      }
      NothingToMove(steps[1..], Apply(s, w));
    }
  }

  /** Without waiting nothing is safe: own echoes are harmless in every run whatever only if there is no
      preamp to hear from. */
  lemma PatienceNeededIff(w: World, clock: nat)
    requires RowsMatch(w) && QueuesOk(w.live, clock)
    ensures HarmlessAnyhow(w, clock) <==> NoObjects(w.signals, w.desks.kits)
  {
    if NoObjects(w.signals, w.desks.kits) {
      forall steps | Faithful(steps, w, NO_DUES, clock) ensures NeverMoved(steps, w) { NothingToMove(steps, w); }
    } else {
      var d, i :| d in w.desks.kits && 0 <= i < |w.signals| && PreampObject(w.signals[i], d, w.desks.kits).Some?;
      var ono := PreampObject(w.signals[i], d, w.desks.kits).value;
      var now := clock + ECHO_TTL;
      ReadFirst(w, clock, {d}, d, i, ono);
      var lock := LockNow(Everywhere(30.0, |w.signals|), now);
      var w2 := Apply(ElectLeader(d), Apply(Unlock, Apply(Link({d}), w)));
      hide Apply, DuesAfter, RowsMatch, QueuesOk, PreampObject, Read;
      var rest := UnpluggedMoves(Apply(Unlock, Apply(lock, w2)), DuesAfter(lock, w2, NO_DUES), i, ono, now, clock);
      var steps := ReadThenMoves(w, clock, {d}, d, now, rest);
      assert Faithful(steps, w, NO_DUES, clock) && !NeverMoved(steps, w);
    }
  }
}
