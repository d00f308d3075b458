/** Whole runs in which the desk reports nothing but what the engine itself read and set. Every signal
    on an object hears every report of it, so this is about the table and not about one signal. */
module GainOwnEchoes {
  import opened Wrappers
  import opened GainTable
  import opened GainSpec
  import opened GainSettle
  import opened GainRun
  import opened GainEcho
  import opened GainElection

  // ---------------------------------------------------------------- what a desk may still report

  /** The values the engine caused on each object, oldest first, that may yet be reported back. */
  type Dues = map<(string, nat), seq<Expect>>

  function On(dues: Dues, device: string, ono: nat): seq<Expect> {
    if (device, ono) in dues then dues[(device, ono)] else []
  }

  function Owe(dues: Dues, device: string, ono: nat, value: real, now: nat): Dues {
    dues[(device, ono) := On(dues, device, ono) + [Expect(value, now)]]
  }

  /** What a report of `value` leaves outstanding: it answers the oldest cause of that value that is not
      too old, and whatever was caused before it will not be reported any more. */
  function Answered(es: seq<Expect>, value: real, now: nat): Option<seq<Expect>> {
    if es == [] then None
    else if es[0].value == value && now - es[0].at < ECHO_TTL then Some(es[1..])
    else Answered(es[1..], value, now)
  }

  function Objects(live: seq<Live>): seq<Option<nat>> {
    seq(|live|, i requires 0 <= i < |live| => live[i].ono)
  }

  /** Each object read, in row order, owes one report of its reading. */
  function ReadDues(leader: string, onos: seq<Option<nat>>, dues: Dues, readings: seq<Option<real>>, now: nat, k: nat): Dues
    decreases |onos| - k
  {
    if k >= |onos| then dues
    else if onos[k].None? || ReadAt(readings, k).None? then ReadDues(leader, onos, dues, readings, now, k + 1)
    else ReadDues(leader, onos, Owe(dues, leader, onos[k].value, ReadAt(readings, k).value, now), readings, now, k + 1)
  }

  /** Whether any signal listens to the report. */
  predicate Concerns(onos: seq<Option<nat>>, leader: string, r: Report) {
    r.device == leader && r.value.Some? && Some(r.ono) in onos
  }

  /** Every report of the batch that any signal listens to is of something outstanding. */
  predicate OwnBatch(onos: seq<Option<nat>>, leader: string, batch: seq<Report>, dues: Dues, now: nat)
    decreases |batch|
  {
    batch == [] ||
    var r := batch[0];
    if !Concerns(onos, leader, r) then OwnBatch(onos, leader, batch[1..], dues, now)
    else
      var rest := Answered(On(dues, leader, r.ono), r.value.value, now);
      rest.Some? && OwnBatch(onos, leader, batch[1..], dues[(leader, r.ono) := rest.value], now)
  }

  function BatchDues(onos: seq<Option<nat>>, leader: string, batch: seq<Report>, dues: Dues, now: nat): Dues
    requires OwnBatch(onos, leader, batch, dues, now)
    decreases |batch|
  {
    if batch == [] then dues
    else
      var r := batch[0];
      if !Concerns(onos, leader, r) then BatchDues(onos, leader, batch[1..], dues, now)
      else
        var rest := Answered(On(dues, leader, r.ono), r.value.value, now).value;
        BatchDues(onos, leader, batch[1..], dues[(leader, r.ono) := rest], now)
  }

  /** A signal's object on `device` with that desk connected or not. */
  function PreampObject(s: Signal, device: string, kits: map<string, Kit>): Option<nat> {
    var preamp := LeaderPreamp(s, device);
    if preamp.Some? && device in kits && preamp.value in kits[device].preamps
    then Some(kits[device].preamps[preamp.value]) else None
  }

  /** Every report any signal listens to is the engine's own doing. */
  ghost predicate FaithfulStep(s: Step, w: World, dues: Dues) {
    s.Reports? ==> OwnBatch(Objects(w.live), w.leader, s.batch, dues, s.now)
  }

  function DuesAfter(s: Step, w: World, dues: Dues): Dues
    requires FaithfulStep(s, w, dues)
  {
    match s
    case LockNow(readings, now) => ReadDues(w.leader, Objects(Resolve(w).live), dues, readings, now, 0)
    case SetGain(name, gain, accepted, now, _) =>
      if !Settable(w, name) || !accepted then dues
      else Owe(dues, w.leader, w.live[Named(w.live, name)].ono.value, gain, now)
    case Reports(batch, now, _) => BatchDues(Objects(w.live), w.leader, batch, dues, now)
    case Poll(readings, now, _) => ReadDues(w.leader, Objects(w.live), dues, readings, now, 0)
    case _ => dues
  }

  /** A run in which time does not run backwards and whose every report is the engine's own doing, in
      order and in time. Everything else comes as it likes. Time passes at an empty batch of reports. */
  ghost predicate Faithful(steps: seq<Step>, w: World, dues: Dues, clock: nat)
    decreases |steps|
  {
    steps == [] ||
    (&& clock <= TimeOf(steps[0], clock)
     && FaithfulStep(steps[0], w, dues)
     && Faithful(steps[1..], Apply(steps[0], w), DuesAfter(steps[0], w, dues), TimeOf(steps[0], clock)))
  }

  /** A resolving at which a signal may forget its queue, or keep it for another desk's object: a lock or
      an election while the leader to be is not connected, and any change of leader. */
  predicate Unsettles(s: Step, w: World) {
    match s
    case LockNow(_, _) => w.leader !in w.desks.connected
    case ElectLeader(device) =>
      !w.locked && CanLead(w.signals, device) && (device != w.leader || device !in w.desks.connected)
    case _ => false
  }

  /** When something was last read or set. */
  function LastCause(s: Step, last: nat): nat {
    match s
    case LockNow(_, now) => now
    case SetGain(_, _, _, now, _) => now
    case Poll(_, now, _) => now
    case _ => last
  }

  /** A run that waits out the echo lifetime after the last lock, poll or set - at the latest at `last` -
      before it does anything unsettling. */
  ghost predicate Patient(steps: seq<Step>, w: World, clock: nat, last: nat)
    decreases |steps|
  {
    steps == [] ||
    (&& (Unsettles(steps[0], w) ==> last + ECHO_TTL <= TimeOf(steps[0], clock))
     && Patient(steps[1..], Apply(steps[0], w), TimeOf(steps[0], clock), LastCause(steps[0], last)))
  }

  /** No gain, no books, no trim and no desk has changed: only what is expected. */
  ghost predicate OnlyExpectations(w: World, w': World) {
    && w' == w.(live := w'.live) && |w'.live| == |w.live|
    && forall i :: 0 <= i < |w.live| ==> w'.live[i] == w.live[i].(expected := w'.live[i].expected)
  }

  ghost predicate NeverMoved(steps: seq<Step>, w: World)
    decreases |steps|
  {
    steps == [] ||
    (&& (steps[0].Reports? ==> OnlyExpectations(w, Apply(steps[0], w)))
     && NeverMoved(steps[1..], Apply(steps[0], w)))
  }

  // ---------------------------------------------------------------- the table

  /** One row per signal, in order, each on its own preamp's object or on none. */
  ghost predicate RowsMatch(w: World) {
    && |w.live| == |w.signals| && NamesDiffer(w.signals)
    && forall i :: 0 <= i < |w.live| ==>
         && w.live[i].name == w.signals[i].name
         && w.live[i].preamp == LeaderPreamp(w.signals[i], w.leader)
         && (w.live[i].ono.Some? ==> w.live[i].ono == PreampObject(w.signals[i], w.leader, w.desks.kits))
  }

  /** No two signals are on one preamp object of any desk. */
  ghost predicate OwnObjects(signals: seq<Signal>, kits: map<string, Kit>) {
    forall d, i, k ::
      (d in kits && 0 <= i < k < |signals| && PreampObject(signals[i], d, kits).Some?)
      ==> PreampObject(signals[i], d, kits) != PreampObject(signals[k], d, kits)
  }

  ghost predicate Unshared(live: seq<Live>) {
    forall i, k :: 0 <= i < k < |live| && live[i].ono.Some? ==> live[i].ono != live[k].ono
  }

  lemma OwnRows(w: World)
    requires RowsMatch(w) && OwnObjects(w.signals, w.desks.kits)
    ensures Unshared(w.live)
  {
    forall i, k | 0 <= i < k < |w.live| && w.live[i].ono.Some? ensures w.live[i].ono != w.live[k].ono {
      assert PreampObject(w.signals[i], w.leader, w.desks.kits).Some?;
    }
  }

  ghost predicate AllDated(dues: Dues, clock: nat) {
    forall src :: src in dues ==> Dated(dues[src], clock)
  }

  /** What is outstanding on an object and can still be reported in time. */
  function Open(dues: Dues, device: string, ono: nat, clock: nat): seq<Expect> {
    Unexpired(On(dues, device, ono), clock)
  }

  /** All of it is still expected by the row on the object, in order. */
  ghost predicate AwaitingRows(live: seq<Live>, leader: string, dues: Dues, clock: nat) {
    forall i :: 0 <= i < |live| && live[i].ono.Some? ==>
      Subsequence(Open(dues, leader, live[i].ono.value, clock), live[i].expected)
  }

  /** And nothing can still be reported of an object no row is on. */
  ghost predicate ClosedElsewhere(onos: seq<Option<nat>>, leader: string, dues: Dues, clock: nat) {
    forall d: string, o: nat :: Open(dues, d, o, clock) == [] || (d == leader && Some(o) in onos)
  }

  ghost predicate Awaiting(w: World, dues: Dues, clock: nat, last: nat) {
    && RowsMatch(w) && AllDated(dues, last)
    && AwaitingRows(w.live, w.leader, dues, clock) && ClosedElsewhere(Objects(w.live), w.leader, dues, clock)
  }

  // ---------------------------------------------------------------- time passes

  lemma {:induction false} UnexpiredLater(es: seq<Expect>, clock: nat, now: nat)
    requires clock <= now
    ensures Unexpired(Unexpired(es, clock), now) == Unexpired(es, now)
  {
    if es != [] {
      var first := if clock - es[0].at < ECHO_TTL then [es[0]] else [];
      var rest := Unexpired(es[1..], clock);
      UnexpiredLater(es[1..], clock, now);
      UnexpiredAppend(first, rest, now);
      assert first != [] ==> first[1..] == [];
    }
  }

  lemma {:induction false} SubsequenceUnexpired(some: seq<Expect>, all: seq<Expect>, now: nat)
    requires Subsequence(some, all)
    ensures Subsequence(Unexpired(some, now), all)
  {
    if some != [] {
      if some[0] == all[0] && Subsequence(some[1..], all[1..]) {
        SubsequenceUnexpired(some[1..], all[1..], now);
        var rest := Unexpired(some[1..], now);
        SubsequenceMore(rest, all);
        if now - some[0].at < ECHO_TTL {
          assert Unexpired(some, now)[0] == some[0] && Unexpired(some, now)[1..] == rest;
        } else {
          assert Unexpired(some, now) == rest;
        }
      } else {
        SubsequenceUnexpired(some, all[1..], now);
        SubsequenceMore(Unexpired(some, now), all);
      }
    }
  }

  lemma {:induction false} DatedUnexpired(es: seq<Expect>, now: nat, clock: nat)
    requires Dated(es, clock)
    ensures Dated(Unexpired(es, now), clock)
  {
    var k := UnexpiredIsTail(es, now, clock);
    forall i, j | 0 <= i < j < |es[k..]| ensures es[k..][i].at <= es[k..][j].at {
      assert es[k + i].at <= es[k + j].at;
    }
  }

  lemma {:induction false} AllStale(es: seq<Expect>, last: nat, now: nat)
    requires Dated(es, last) && last + ECHO_TTL <= now
    ensures Unexpired(es, now) == []
  {
    if es != [] {
      forall i, j | 0 <= i < j < |es[1..]| ensures es[1..][i].at <= es[1..][j].at {
        assert es[i + 1].at <= es[j + 1].at;
      }
      AllStale(es[1..], last, now);
    }
  }

  lemma AwaitingLater(w: World, dues: Dues, clock: nat, now: nat, last: nat)
    requires Awaiting(w, dues, clock, last) && clock <= now
    ensures Awaiting(w, dues, now, last)
  {
    forall d, o ensures Open(dues, d, o, now) == Unexpired(Open(dues, d, o, clock), now) {
      UnexpiredLater(On(dues, d, o), clock, now);
    }
    forall i | 0 <= i < |w.live| && w.live[i].ono.Some?
      ensures Subsequence(Open(dues, w.leader, w.live[i].ono.value, now), w.live[i].expected)
    {
      SubsequenceUnexpired(Open(dues, w.leader, w.live[i].ono.value, clock), w.live[i].expected, now);
    }
  }

  // ---------------------------------------------------------------- one report

  lemma {:induction false} HeardByRows(live: seq<Live>, latest: seq<(nat, real)>, ono: nat, gain: real, now: nat, k: nat,
                                       i: int)
    requires 0 <= i < |live|
    ensures var live' := HearFrom(live, latest, ono, gain, now, k).0;
            |live'| == |live| && live'[i] == if k <= i then HearRow(live[i], ono, gain, now) else live[i]
    decreases |live| - k
  {
    if k < |live| {
      var live' := live[k := HearRow(live[k], ono, gain, now)];
      HeardByRows(live', if Genuine(live[k], ono, gain, now) then Latest(latest, k, gain) else latest,
                  ono, gain, now, k + 1, i);
    }
  }

  /** An outstanding value reported is swallowed, and the rest is still expected. */
  lemma {:induction false} AnswerSwallowed(awaited: seq<Expect>, expected: seq<Expect>, value: real, now: nat, clock: nat)
    requires Subsequence(awaited, expected) && Dated(awaited, clock) && Answered(awaited, value, now).Some?
    ensures Heard(expected, value, now).1
    ensures Subsequence(Answered(awaited, value, now).value, Heard(expected, value, now).0)
    ensures Dated(Answered(awaited, value, now).value, clock)
  {
    forall i, j | 0 <= i < j < |awaited[1..]| ensures awaited[1..][i].at <= awaited[1..][j].at {
      assert awaited[i + 1].at <= awaited[j + 1].at;
    }
    if awaited[0].value == value && now - awaited[0].at < ECHO_TTL {
      EchoSwallowed(awaited, expected, now, clock);
    } else {
      SubsequenceDrop(awaited, expected);
      AnswerSwallowed(awaited[1..], expected, value, now, clock);
    }
  }

  /** An answer in time does not depend on what has expired. */
  lemma {:induction false} AnsweredOpen(es: seq<Expect>, value: real, now: nat)
    requires Answered(es, value, now).Some?
    ensures Answered(Unexpired(es, now), value, now) == Some(Unexpired(Answered(es, value, now).value, now))
  {
    var rest := Unexpired(es[1..], now);
    if now - es[0].at < ECHO_TTL {
      assert Unexpired(es, now)[0] == es[0] && Unexpired(es, now)[1..] == rest;
    } else {
      assert Unexpired(es, now) == rest;
    }
    if !(es[0].value == value && now - es[0].at < ECHO_TTL) { AnsweredOpen(es[1..], value, now); }
  }

  lemma OwnReport(live: seq<Live>, leader: string, ono: nat, value: real, dues: Dues, now: nat, last: nat)
    requires Unshared(live) && AllDated(dues, last) && AwaitingRows(live, leader, dues, now)
    requires Answered(On(dues, leader, ono), value, now).Some?
    ensures AllEcho(live, ono, value, now)
    ensures var dues' := dues[(leader, ono) := Answered(On(dues, leader, ono), value, now).value];
            AllDated(dues', last) && AwaitingRows(HearFrom(live, [], ono, value, now, 0).0, leader, dues', now)
  {
    var due := On(dues, leader, ono);
    var awaited := Open(dues, leader, ono, now);
    var dues' := dues[(leader, ono) := Answered(due, value, now).value];
    AnsweredOpen(due, value, now);
    AnswerDated(due, value, now, last);
    DatedUnexpired(due, now, last);
    forall i | 0 <= i < |live| ensures !Genuine(live[i], ono, value, now) {
      if live[i].ono == Some(ono) { AnswerSwallowed(awaited, live[i].expected, value, now, last); }
    }
    var live' := HearFrom(live, [], ono, value, now, 0).0;
    HearFromEcho(live, [], ono, value, now, 0);
    forall i | 0 <= i < |live'| && live'[i].ono.Some?
      ensures Subsequence(Open(dues', leader, live'[i].ono.value, now), live'[i].expected)
    {
      HeardByRows(live, [], ono, value, now, 0, i);
      if live[i].ono == Some(ono) { AnswerSwallowed(awaited, live[i].expected, value, now, last); }
    }
  }

  lemma {:induction false} AnswerDated(es: seq<Expect>, value: real, now: nat, clock: nat)
    requires Dated(es, clock) && Answered(es, value, now).Some?
    ensures Dated(Answered(es, value, now).value, clock)
  {
    forall i, j | 0 <= i < j < |es[1..]| ensures es[1..][i].at <= es[1..][j].at {
      assert es[i + 1].at <= es[j + 1].at;
    }
    if !(es[0].value == value && now - es[0].at < ECHO_TTL) { AnswerDated(es[1..], value, now, clock); }
  }

  lemma NobodyListens(live: seq<Live>, ono: nat, value: real, now: nat)
    requires Some(ono) !in Objects(live)
    ensures AllEcho(live, ono, value, now) && HearFrom(live, [], ono, value, now, 0).0 == live
  {
    forall i | 0 <= i < |live| ensures live[i].ono != Some(ono) {
      assert Objects(live)[i] == live[i].ono;
    }
    HearFromEcho(live, [], ono, value, now, 0);
    forall i | 0 <= i < |live| ensures HearFrom(live, [], ono, value, now, 0).0[i] == live[i] {
      HeardByRows(live, [], ono, value, now, 0, i);
    }
  }

  ghost predicate ExpectationsOnly(live: seq<Live>, live': seq<Live>) {
    && |live'| == |live|
    && forall i :: 0 <= i < |live| ==> live'[i] == live[i].(expected := live'[i].expected)
  }

  lemma ClosedStays(onos: seq<Option<nat>>, leader: string, ono: nat, dues: Dues, rest: seq<Expect>, now: nat)
    requires ClosedElsewhere(onos, leader, dues, now) && Some(ono) in onos
    ensures ClosedElsewhere(onos, leader, dues[(leader, ono) := rest], now)
  {
    var dues' := dues[(leader, ono) := rest];
    assert forall d: string, o: nat :: (d, o) != (leader, ono) ==> Open(dues', d, o, now) == Open(dues, d, o, now);
  }

  lemma {:induction false} OwnBatchHeard(live: seq<Live>, leader: string, batch: seq<Report>, dues: Dues, now: nat, last: nat)
    requires Unshared(live) && AllDated(dues, last) && AwaitingRows(live, leader, dues, now)
    requires ClosedElsewhere(Objects(live), leader, dues, now) && OwnBatch(Objects(live), leader, batch, dues, now)
    ensures var (live', latest) := HearAll(live, [], leader, batch, now);
            var dues' := BatchDues(Objects(live), leader, batch, dues, now);
            && latest == [] && ExpectationsOnly(live, live') && AllDated(dues', last)
            && AwaitingRows(live', leader, dues', now) && ClosedElsewhere(Objects(live), leader, dues', now)
    decreases |batch|
  {
    hide Subsequence, AwaitingRows, ClosedElsewhere, AllDated;
    if batch != [] {
      var r := batch[0];
      if r.device != leader || r.value.None? {
        OwnBatchHeard(live, leader, batch[1..], dues, now, last);
      } else {
        var value := r.value.value;
        var live' := HearFrom(live, [], r.ono, value, now, 0).0;
        var dues' := dues;
        if Some(r.ono) in Objects(live) {
          OwnReport(live, leader, r.ono, value, dues, now, last);
          dues' := dues[(leader, r.ono) := Answered(On(dues, leader, r.ono), value, now).value];
          ClosedStays(Objects(live), leader, r.ono, dues, dues'[(leader, r.ono)], now);
        } else {
          NobodyListens(live, r.ono, value, now);
        }
        HearFromEcho(live, [], r.ono, value, now, 0);
        assert Objects(live') == Objects(live);
        OwnBatchHeard(live', leader, batch[1..], dues', now, last);
      }
    }
  }

  // ---------------------------------------------------------------- the other steps

  /** The same table, as far as echoes go. */
  ghost predicate SameRows(w: World, w': World) {
    && w'.leader == w.leader && w'.signals == w.signals && w'.desks.kits == w.desks.kits
    && |w'.live| == |w.live|
    && forall i :: 0 <= i < |w.live| ==>
         && w'.live[i].name == w.live[i].name && w'.live[i].preamp == w.live[i].preamp
         && w'.live[i].ono == w.live[i].ono && w'.live[i].expected == w.live[i].expected
  }

  lemma ObserveSameRows(w: World, index: nat, gain: real, answers: set<Trim>)
    requires index < |w.live|
    ensures SameRows(w, Observe(w, index, gain, answers))
  {
    if IsMove(w, index, gain) { SettleShape(Charged(w, index, gain), answers, TrimsOf(w.live[index])); }
  }

  lemma DatedAppend(es: seq<Expect>, value: real, now: nat, clock: nat)
    requires Dated(es, clock) && clock <= now
    ensures Dated(es + [Expect(value, now)], now)
  {}

  lemma DatedLater(dues: Dues, clock: nat, now: nat)
    requires AllDated(dues, clock) && clock <= now
    ensures AllDated(dues, now)
  {
    forall src | src in dues ensures Dated(dues[src], now) { assert Dated(dues[src], clock); }
  }

  /** The same leader, signals and desks, and the rows on the same objects. */
  ghost predicate SameTable(w: World, w': World) {
    && w'.leader == w.leader && w'.signals == w.signals && w'.desks.kits == w.desks.kits
    && |w'.live| == |w.live|
    && forall i :: 0 <= i < |w.live| ==>
         w'.live[i].name == w.live[i].name && w'.live[i].preamp == w.live[i].preamp && w'.live[i].ono == w.live[i].ono
  }

  lemma SameTableMatches(w: World, w': World)
    requires RowsMatch(w) && SameTable(w, w')
    ensures RowsMatch(w')
  {}

  lemma CausedRows(live: seq<Live>, leader: string, k: nat, value: real, dues: Dues, now: nat)
    requires AwaitingRows(live, leader, dues, now) && Unshared(live) && k < |live| && live[k].ono.Some?
    ensures AwaitingRows(live[k := Expecting(live[k], value, now)], leader, Owe(dues, leader, live[k].ono.value, value, now), now)
  {
    var live' := live[k := Expecting(live[k], value, now)];
    var ono := live[k].ono.value;
    var dues' := Owe(dues, leader, ono, value, now);
    OweOpens(dues, leader, ono, value, now);
    SubsequenceAppend(Open(dues, leader, ono, now), live[k].expected, Expect(value, now));
    hide Open, Subsequence, Owe;
    forall i | 0 <= i < |live'| && live'[i].ono.Some?
      ensures Subsequence(Open(dues', leader, live'[i].ono.value, now), live'[i].expected)
    {
      if i != k { assert live[i].ono != live[k].ono; }
    }
  }

  lemma CausedDues(onos: seq<Option<nat>>, leader: string, k: nat, value: real, dues: Dues, now: nat)
    requires AllDated(dues, now) && ClosedElsewhere(onos, leader, dues, now) && k < |onos| && onos[k].Some?
    ensures AllDated(Owe(dues, leader, onos[k].value, value, now), now)
    ensures ClosedElsewhere(onos, leader, Owe(dues, leader, onos[k].value, value, now), now)
  {
    DatedAppend(On(dues, leader, onos[k].value), value, now, now);
    OweOpens(dues, leader, onos[k].value, value, now);
  }

  /** A cause joins both queues of its row. */
  lemma CausedAwaiting(w: World, k: nat, value: real, dues: Dues, now: nat)
    requires Awaiting(w, dues, now, now) && Unshared(w.live) && k < |w.live| && w.live[k].ono.Some?
    ensures Awaiting(WithLive(w, k, Expecting(w.live[k], value, now)),
                     Owe(dues, w.leader, w.live[k].ono.value, value, now), now, now)
    ensures Unshared(WithLive(w, k, Expecting(w.live[k], value, now)).live)
    ensures Objects(WithLive(w, k, Expecting(w.live[k], value, now)).live) == Objects(w.live)
  {
    hide AwaitingRows, ClosedElsewhere, RowsMatch, AllDated, Owe;
    var w' := WithLive(w, k, Expecting(w.live[k], value, now));
    assert Objects(w.live)[k] == w.live[k].ono;
    assert Objects(w'.live) == Objects(w.live);
    CausedRows(w.live, w.leader, k, value, dues, now);
    CausedDues(Objects(w.live), w.leader, k, value, dues, now);
    SameTableMatches(w, w');
  }

  lemma OweOpens(dues: Dues, device: string, ono: nat, value: real, now: nat)
    ensures var dues' := Owe(dues, device, ono, value, now);
            && Open(dues', device, ono, now) == Open(dues, device, ono, now) + [Expect(value, now)]
            && forall d: string, o: nat :: (d, o) != (device, ono) ==> Open(dues', d, o, now) == Open(dues, d, o, now)
  {
    UnexpiredAppend(On(dues, device, ono), [Expect(value, now)], now);
    assert [Expect(value, now)][1..] == [];
  }

  lemma SameRowsAwaiting(w: World, w': World, dues: Dues, clock: nat, last: nat)
    requires Awaiting(w, dues, clock, last) && Unshared(w.live) && SameRows(w, w')
    ensures Awaiting(w', dues, clock, last) && Unshared(w'.live) && Objects(w'.live) == Objects(w.live)
  {
    hide PreampObject, Subsequence, Open;
    assert Objects(w'.live) == Objects(w.live);
  }

  lemma {:induction false} PollAwaiting(w: World, dues: Dues, readings: seq<Option<real>>, now: nat,
                                        answers: seq<set<Trim>>, k: nat)
    requires Awaiting(w, dues, now, now) && Unshared(w.live)
    ensures Awaiting(PollFrom(w, readings, now, answers, k),
                     ReadDues(w.leader, Objects(w.live), dues, readings, now, k), now, now)
    decreases |w.live| - k
  {
    hide Observe, PreampObject, Subsequence, Open;
    if k < |w.live| {
      var l := w.live[k];
      assert Objects(w.live)[k] == l.ono;
      if l.ono.None? || ReadAt(readings, k).None? {
        PollAwaiting(w, dues, readings, now, answers, k + 1);
      } else {
        var gain := ReadAt(readings, k).value;
        var v := WithLive(w, k, Expecting(l, gain, now));
        var dues' := Owe(dues, w.leader, l.ono.value, gain, now);
        CausedAwaiting(w, k, gain, dues, now);
        ObserveSameRows(v, k, gain, AnswersAt(answers, k));
        SameRowsAwaiting(v, Observe(v, k, gain, AnswersAt(answers, k)), dues', now, now);
        PollAwaiting(Observe(v, k, gain, AnswersAt(answers, k)), dues', readings, now, answers, k + 1);
      }
    }
  }

  /** A row after resolving: its own queue if it found its object again. */
  lemma ResolvedRow(w: World, device: string, i: nat)
    requires RowsMatch(w) && i < |w.signals|
    ensures var l := Resolve(w.(leader := device)).live[i];
            var preamp := LeaderPreamp(w.signals[i], device);
            && l.name == w.signals[i].name && l.preamp == preamp && l.ono == LeaderOno(preamp, device, w.desks)
            && l.expected == (if w.live[i].ono == l.ono && w.live[i].preamp == preamp then w.live[i].expected else [])
  {
    NamedInOrder(w.live, w.signals, i);
  }

  /** Nothing is open any more, so it does not matter what resolving does to the queues. */
  lemma StaleResolvedAwaiting(w: World, device: string, dues: Dues, clock: nat, last: nat)
    requires Awaiting(w, dues, clock, last) && last + ECHO_TTL <= clock
    ensures Awaiting(Resolve(w.(leader := device)), dues, clock, last)
  {
    ResolvedRows(w, device);
    hide Resolve, RowsMatch;
    forall d, o ensures Open(dues, d, o, clock) == [] { AllStale(On(dues, d, o), last, clock); }
    var r := Resolve(w.(leader := device));
    forall i | 0 <= i < |r.live| ensures Subsequence([], r.live[i].expected) { NothingAwaited(r.live[i].expected); }
  }

  lemma ResolvedRows(w: World, device: string)
    requires RowsMatch(w)
    ensures RowsMatch(Resolve(w.(leader := device))) && Resolve(w.(leader := device)).leader == device
  {
    hide ResolveRow;
    var r := Resolve(w.(leader := device));
    forall i | 0 <= i < |r.live|
      ensures r.live[i].name == w.signals[i].name && r.live[i].preamp == LeaderPreamp(w.signals[i], device)
      ensures r.live[i].ono.Some? ==> r.live[i].ono == PreampObject(w.signals[i], device, w.desks.kits)
    {
      ResolvedRow(w, device, i);
    }
  }

  /** Resolving for the same leader, which is connected: a row on an object keeps its queue, and of the
      object a row finds anew nothing is open. */
  lemma AgainAwaiting(w: World, dues: Dues, clock: nat, last: nat)
    requires Awaiting(w, dues, clock, last) && OwnObjects(w.signals, w.desks.kits) && w.leader in w.desks.connected
    ensures Awaiting(Resolve(w), dues, clock, last)
  {
    var r := Resolve(w);
    assert w.(leader := w.leader) == w;
    ResolvedRows(w, w.leader);
    FoundAgain(w);
    hide Resolve, Open, Subsequence, PreampObject, RowsMatch, OwnObjects;
    forall o | Some(o) in Objects(w.live) ensures Some(o) in Objects(r.live) {
      var k :| 0 <= k < |w.live| && Objects(w.live)[k] == Some(o);
      assert Objects(r.live)[k] == Some(o);
    }
    forall i | 0 <= i < |r.live| && r.live[i].ono.Some?
      ensures Subsequence(Open(dues, w.leader, r.live[i].ono.value, clock), r.live[i].expected)
    {
      if w.live[i].ono.None? { FoundAnew(w, dues, clock, last, i, r.live[i].ono.value); NothingAwaited(r.live[i].expected); }
    }
  }

  lemma FoundAgain(w: World)
    requires RowsMatch(w) && w.leader in w.desks.connected
    ensures var r := Resolve(w);
            && |r.live| == |w.live| == |w.signals|
            && forall i :: 0 <= i < |r.live| ==>
                 && r.live[i].ono == PreampObject(w.signals[i], w.leader, w.desks.kits)
                 && (w.live[i].ono.Some? ==> r.live[i].ono == w.live[i].ono && r.live[i].expected == w.live[i].expected)
  {
    var r := Resolve(w);
    assert w.(leader := w.leader) == w;
    forall i | 0 <= i < |r.live|
      ensures r.live[i].ono == PreampObject(w.signals[i], w.leader, w.desks.kits)
      ensures w.live[i].ono.Some? ==> r.live[i].ono == w.live[i].ono && r.live[i].expected == w.live[i].expected
    {
      ResolvedRow(w, w.leader, i);
    }
  }

  lemma FoundAnew(w: World, dues: Dues, clock: nat, last: nat, i: nat, ono: nat)
    requires Awaiting(w, dues, clock, last) && OwnObjects(w.signals, w.desks.kits) && i < |w.live|
    requires w.live[i].ono.None? && PreampObject(w.signals[i], w.leader, w.desks.kits) == Some(ono)
    ensures Open(dues, w.leader, ono, clock) == []
  {
    hide Open, Subsequence, PreampObject;
    ObjectOnKit(w.signals[i], w.leader, w.desks.kits);
    forall k | 0 <= k < |w.live| ensures Objects(w.live)[k] != Some(ono) {
      if k < i {
        assert PreampObject(w.signals[k], w.leader, w.desks.kits) != PreampObject(w.signals[i], w.leader, w.desks.kits);
      }
    }
  }

  lemma ObjectOnKit(s: Signal, device: string, kits: map<string, Kit>)
    requires PreampObject(s, device, kits).Some?
    ensures device in kits
  {}

  lemma {:induction false} UnexpiredAppend(es: seq<Expect>, more: seq<Expect>, now: nat)
    ensures Unexpired(es + more, now) == Unexpired(es, now) + Unexpired(more, now)
  {
    if es == [] {
      assert es + more == more;
    } else {
      assert (es + more)[1..] == es[1..] + more;
      UnexpiredAppend(es[1..], more, now);
    }
  }

  lemma NothingAwaited(expected: seq<Expect>)
    ensures Subsequence([], expected)
  {}

  /** The readings of a lock, taken row by row. */
  function LockedFrom(r: World, readings: seq<Option<real>>, now: nat, k: nat): World
    requires k <= |r.live|
  {
    r.(live := seq(|r.live|, i requires 0 <= i < |r.live| =>
         if i < k then LockRow(r.live[i], ReadAt(readings, i), now) else r.live[i]))
  }

  lemma LockOneMore(r: World, readings: seq<Option<real>>, now: nat, k: nat)
    requires k < |r.live| && Unshared(r.live)
    ensures var (w, w') := (LockedFrom(r, readings, now, k), LockedFrom(r, readings, now, k + 1));
            && Unshared(w.live) && w.live[k] == r.live[k] && Objects(w.live) == Objects(r.live)
            && (r.live[k].ono.None? || ReadAt(readings, k).None? ==> SameRows(w, w'))
            && (r.live[k].ono.Some? && ReadAt(readings, k).Some? ==>
                  SameRows(WithLive(w, k, Expecting(w.live[k], ReadAt(readings, k).value, now)), w'))
  {
    var w := LockedFrom(r, readings, now, k);
    forall i | 0 <= i < |w.live| ensures w.live[i].ono == r.live[i].ono {}
  }

  lemma {:induction false} LockAwaiting(r: World, dues: Dues, readings: seq<Option<real>>, now: nat, k: nat)
    requires k <= |r.live| && Awaiting(LockedFrom(r, readings, now, k), dues, now, now) && Unshared(r.live)
    ensures Awaiting(LockedFrom(r, readings, now, |r.live|), ReadDues(r.leader, Objects(r.live), dues, readings, now, k), now, now)
    decreases |r.live| - k
  {
    hide LockedFrom, Awaiting, Unshared, SameRows, LockRow;
    if k < |r.live| {
      var l := r.live[k];
      var (w, w') := (LockedFrom(r, readings, now, k), LockedFrom(r, readings, now, k + 1));
      LockOneMore(r, readings, now, k);
      if l.ono.None? || ReadAt(readings, k).None? {
        SameRowsAwaiting(w, w', dues, now, now);
        LockAwaiting(r, dues, readings, now, k + 1);
      } else {
        var gain := ReadAt(readings, k).value;
        LockedTable(r, readings, now, k);
        CausedAwaiting(w, k, gain, dues, now);
        SameRowsAwaiting(WithLive(w, k, Expecting(w.live[k], gain, now)), w', Owe(dues, r.leader, l.ono.value, gain, now), now, now);
        LockAwaiting(r, Owe(dues, r.leader, l.ono.value, gain, now), readings, now, k + 1);
      }
    }
  }

  lemma LockedTable(r: World, readings: seq<Option<real>>, now: nat, k: nat)
    requires k <= |r.live|
    ensures LockedFrom(r, readings, now, k).leader == r.leader && |LockedFrom(r, readings, now, k).live| == |r.live|
  {}

  lemma {:induction false} HearFromSameTable(w: World, latest: seq<(nat, real)>, ono: nat, gain: real, now: nat, k: nat)
    ensures SameTable(w, w.(live := HearFrom(w.live, latest, ono, gain, now, k).0))
    decreases |w.live| - k
  {
    if k < |w.live| {
      var l := w.live[k];
      HearFromSameTable(WithLive(w, k, HearRow(l, ono, gain, now)),
                        if Genuine(l, ono, gain, now) then Latest(latest, k, gain) else latest, ono, gain, now, k + 1);
    }
  }

  lemma {:induction false} HearAllSameTable(w: World, latest: seq<(nat, real)>, leader: string, batch: seq<Report>, now: nat)
    ensures SameTable(w, w.(live := HearAll(w.live, latest, leader, batch, now).0))
    decreases |batch|
  {
    if batch != [] {
      var r := batch[0];
      if r.device != leader || r.value.None? {
        HearAllSameTable(w, latest, leader, batch[1..], now);
      } else {
        HearFromSameTable(w, latest, r.ono, r.value.value, now, 0);
        var (live', latest') := HearFrom(w.live, latest, r.ono, r.value.value, now, 0);
        HearAllSameTable(w.(live := live'), latest', leader, batch[1..], now);
      }
    }
  }

  lemma {:induction false} ObserveAllSameTable(w: World, latest: seq<(nat, real)>, answers: seq<set<Trim>>, k: nat)
    ensures SameTable(w, ObserveAll(w, latest, answers, k))
    decreases |latest|
  {
    hide Observe;
    if latest != [] {
      if latest[0].0 < |w.live| {
        ObserveSameRows(w, latest[0].0, latest[0].1, AnswersAt(answers, k));
        ObserveAllSameTable(Observe(w, latest[0].0, latest[0].1, AnswersAt(answers, k)), latest[1..], answers, k + 1);
      } else {
        ObserveAllSameTable(w, latest[1..], answers, k + 1);
      }
    }
  }

  lemma {:induction false} PollSameTable(w: World, readings: seq<Option<real>>, now: nat, answers: seq<set<Trim>>, k: nat)
    ensures SameTable(w, PollFrom(w, readings, now, answers, k))
    decreases |w.live| - k
  {
    hide Observe;
    if k < |w.live| {
      var l := w.live[k];
      if l.ono.None? || ReadAt(readings, k).None? {
        PollSameTable(w, readings, now, answers, k + 1);
      } else {
        var gain := ReadAt(readings, k).value;
        var v := WithLive(w, k, Expecting(l, gain, now));
        ObserveSameRows(v, k, gain, AnswersAt(answers, k));
        PollSameTable(Observe(v, k, gain, AnswersAt(answers, k)), readings, now, answers, k + 1);
      }
    }
  }

  /** Only a resolving changes which rows are on which objects. */
  lemma SameTableUnlessResolved(s: Step, w: World)
    requires !s.LockNow? && !s.ElectLeader?
    ensures SameTable(w, Apply(s, w))
  {
    hide PreampObject, Resolve, Lock, Elect;
    match s
    case SetGain(name, gain, accepted, now, who) =>
      if Settable(w, name) && accepted {
        var k := Named(w.live, name);
        ObserveSameRows(WithLive(w, k, Expecting(w.live[k], gain, now)), k, gain, who);
      }
    case Reports(batch, now, answers) =>
      HearAllSameTable(w, [], w.leader, batch, now);
      var (live', latest) := HearAll(w.live, [], w.leader, batch, now);
      ObserveAllSameTable(w.(live := live'), latest, answers, 0);
    case Poll(readings, now, answers) => PollSameTable(w, readings, now, answers, 0);
    case Back(back, who) =>
      if w.locked && back != {} { SettleShape(w.(down := w.down - back), who, TrimsOn(w.live, back)); }
    case Unlock =>
    case Surface(_, _) =>
    case Link(_) =>
  }

  lemma KeepsTable(s: Step, w: World)
    ensures Apply(s, w).signals == w.signals && Apply(s, w).desks.kits == w.desks.kits
  {
    if !s.LockNow? && !s.ElectLeader? { SameTableUnlessResolved(s, w); }
  }

  lemma LockedRows(w: World, readings: seq<Option<real>>, now: nat)
    requires RowsMatch(w)
    ensures RowsMatch(Lock(w, readings, now)) && SameTable(Resolve(w), Lock(w, readings, now))
  {
    assert w.(leader := w.leader) == w;
    ResolvedRows(w, w.leader);
    hide Resolve, RowsMatch;
    SameTableMatches(Resolve(w), Lock(w, readings, now));
  }

  /** Every operation leaves one row per signal, each on its own preamp's object or on none. */
  lemma KeepsRows(s: Step, w: World)
    requires RowsMatch(w)
    ensures RowsMatch(Apply(s, w))
  {
    hide RowsMatch;
    match s
    case LockNow(readings, now) => LockedRows(w, readings, now);
    case ElectLeader(device) => ResolvedRows(w, device);
    case _ =>
      SameTableUnlessResolved(s, w);
      SameTableMatches(w, Apply(s, w));
  }

  lemma {:induction false} RunKeepsRows(steps: seq<Step>, w: World)
    requires RowsMatch(w)
    ensures RowsMatch(Run(steps, w))
    decreases |steps|
  {
    hide RowsMatch, Apply;
    if steps != [] {
      KeepsRows(steps[0], w);
      RunKeepsRows(steps[1..], Apply(steps[0], w));
    }
  }

  lemma ReportsAwaiting(w: World, batch: seq<Report>, now: nat, answers: seq<set<Trim>>, dues: Dues, last: nat)
    requires Awaiting(w, dues, now, last) && Unshared(w.live) && OwnBatch(Objects(w.live), w.leader, batch, dues, now)
    ensures OnlyExpectations(w, OnEvents(w, batch, now, answers))
    ensures Awaiting(OnEvents(w, batch, now, answers), BatchDues(Objects(w.live), w.leader, batch, dues, now), now, last)
  {
    hide PreampObject, Subsequence, Open;
    OwnBatchHeard(w.live, w.leader, batch, dues, now, last);
    var live' := HearAll(w.live, [], w.leader, batch, now).0;
    assert OnEvents(w, batch, now, answers) == w.(live := live');
    assert Objects(live') == Objects(w.live);
  }

  lemma AwaitingSince(w: World, dues: Dues, clock: nat, last: nat, last': nat)
    requires Awaiting(w, dues, clock, last) && last <= last'
    ensures Awaiting(w, dues, clock, last')
  {
    DatedLater(dues, last, last');
  }

  lemma StepAwaiting(s: Step, w: World, dues: Dues, clock: nat, last: nat)
    requires Awaiting(w, dues, clock, last) && OwnObjects(w.signals, w.desks.kits)
    requires last <= clock <= TimeOf(s, clock) && FaithfulStep(s, w, dues)
    requires Unsettles(s, w) ==> last + ECHO_TTL <= TimeOf(s, clock)
    ensures Awaiting(Apply(s, w), DuesAfter(s, w, dues), TimeOf(s, clock), LastCause(s, last))
    ensures s.Reports? ==> OnlyExpectations(w, Apply(s, w))
  {
    hide PreampObject, Subsequence, Awaiting, RowsMatch, OnlyExpectations;
    var t := TimeOf(s, clock);
    AwaitingLater(w, dues, clock, t, last);
    AwaitingUnshared(w, dues, t, last);
    match s
    case LockNow(readings, now) =>
      assert w.(leader := w.leader) == w;
      if Unsettles(s, w) { StaleResolvedAwaiting(w, w.leader, dues, now, last); } else { AgainAwaiting(w, dues, now, last); }
      AwaitingSince(Resolve(w), dues, now, last, now);
      LockStepAwaiting(w, dues, readings, now);
    case ElectLeader(device) =>
      if !w.locked && CanLead(w.signals, device) {
        assert w.(leader := w.leader) == w;
        if Unsettles(s, w) { StaleResolvedAwaiting(w, device, dues, t, last); } else { AgainAwaiting(w, dues, t, last); }
      }
    case SetGain(name, gain, accepted, now, who) =>
      AwaitingSince(w, dues, now, last, now);
      if Settable(w, name) && accepted {
        var k := Named(w.live, name);
        var v := WithLive(w, k, Expecting(w.live[k], gain, now));
        CausedAwaiting(w, k, gain, dues, now);
        ObserveSameRows(v, k, gain, who);
        SameRowsAwaiting(v, Observe(v, k, gain, who), DuesAfter(s, w, dues), t, now);
      }
    case Reports(batch, now, answers) => ReportsAwaiting(w, batch, now, answers, dues, last);
    case Poll(readings, now, answers) =>
      AwaitingSince(w, dues, now, last, now);
      PollAwaiting(w, dues, readings, now, answers, 0);
    case Back(back, who) =>
      if w.locked && back != {} { SettleShape(w.(down := w.down - back), who, TrimsOn(w.live, back)); }
      assert SameRows(w, Apply(s, w));
      SameRowsAwaiting(w, Apply(s, w), dues, t, last);
    case Unlock => SameRowsAwaiting(w, Apply(s, w), dues, t, last);
    case Surface(_, _) => SameRowsAwaiting(w, Apply(s, w), dues, t, last);
    case Link(_) => SameRowsAwaiting(w, Apply(s, w), dues, t, last);
  }

  lemma AwaitingUnshared(w: World, dues: Dues, clock: nat, last: nat)
    requires Awaiting(w, dues, clock, last) && OwnObjects(w.signals, w.desks.kits)
    ensures Unshared(w.live)
  {
    OwnRows(w);
  }

  lemma LockStepAwaiting(w: World, dues: Dues, readings: seq<Option<real>>, now: nat)
    requires OwnObjects(w.signals, w.desks.kits) && Awaiting(Resolve(w), dues, now, now)
    ensures Awaiting(Lock(w, readings, now), ReadDues(w.leader, Objects(Resolve(w).live), dues, readings, now, 0), now, now)
  {
    hide PreampObject, Subsequence, ResolveRow, LockRow, Open;
    var r := Resolve(w);
    OwnRows(r);
    assert LockedFrom(r, readings, now, 0).live == r.live;
    LockAwaiting(r, dues, readings, now, 0);
    var (f, l) := (LockedFrom(r, readings, now, |r.live|), Lock(w, readings, now));
    assert f.live == l.live;
  }

  /** Echoes never move a follower: in every run whose reports are all the engine's own reads and sets, in
      order and in time, and which does nothing unsettling within the echo lifetime of the last lock, poll
      or set, each report changes nothing but expectations - given that no two signals are on one preamp
      object, which can be seen from the table and the desks before the run. */
  lemma {:induction false} OwnEchoesMoveNothing(steps: seq<Step>, w: World, dues: Dues, clock: nat, last: nat)
    requires Awaiting(w, dues, clock, last) && last <= clock && OwnObjects(w.signals, w.desks.kits)
    requires Faithful(steps, w, dues, clock) && Patient(steps, w, clock, last)
    ensures NeverMoved(steps, w)
    decreases |steps|
  {
    hide Awaiting, OwnObjects, Apply, OnlyExpectations;
    if steps != [] {
      StepAwaiting(steps[0], w, dues, clock, last);
      KeepsTable(steps[0], w);
      OwnEchoesMoveNothing(steps[1..], Apply(steps[0], w), DuesAfter(steps[0], w, dues), TimeOf(steps[0], clock),
                           LastCause(steps[0], last));
    }
  }

  lemma NothingDue(w: World, clock: nat, last: nat)
    requires RowsMatch(w)
    ensures Awaiting(w, map[], clock, last)
  {
    forall i | 0 <= i < |w.live| && w.live[i].ono.Some?
      ensures Subsequence(Open(map[], w.leader, w.live[i].ono.value, clock), w.live[i].expected)
    {
      NothingAwaited(w.live[i].expected);
    }
  }

  /** An engine just built has its rows in order and nothing outstanding. */
  lemma FreshAwaits(leader: string, signals: seq<Signal>, desks: Desks)
    requires NamesDiffer(signals)
    ensures Awaiting(Resolve(World(leader, false, signals, [], {}, desks)), map[], 0, 0)
  {
    NothingDue(Resolve(World(leader, false, signals, [], {}, desks)), 0, 0);
  }
}
