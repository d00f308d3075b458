/** One signal's queue of expectations against the reports they are for. */
module GainEcho {
  import opened Wrappers
  import opened Law
  import opened GainTable
  import opened GainSpec
  import opened GainSettle
  import opened GainRun

  // ---------------------------------------------------------------- one signal's queue

  /** `some` in order among `all`, gaps allowed. */
  predicate Subsequence(some: seq<Expect>, all: seq<Expect>) {
    some == [] || (all != [] && ((some[0] == all[0] && Subsequence(some[1..], all[1..])) || Subsequence(some, all[1..])))
  }

  /** Oldest first, none later than `clock`. */
  ghost predicate Dated(es: seq<Expect>, clock: nat) {
    && (forall i, j :: 0 <= i < j < |es| ==> es[i].at <= es[j].at)
    && (forall i :: 0 <= i < |es| ==> es[i].at <= clock)
  }

  lemma {:induction false} SubsequenceTail(some: seq<Expect>, all: seq<Expect>)
    requires some != [] && all != [] && Subsequence(some, all)
    ensures Subsequence(some[1..], all[1..])
  {
    if !(some[0] == all[0] && Subsequence(some[1..], all[1..])) {
      SubsequenceDrop(some, all[1..]);
    }
  }

  lemma {:induction false} SubsequenceDrop(some: seq<Expect>, all: seq<Expect>)
    requires some != [] && Subsequence(some, all)
    ensures Subsequence(some[1..], all)
  {
    if some[0] == all[0] && Subsequence(some[1..], all[1..]) {
      SubsequenceMore(some[1..], all);
    } else {
      SubsequenceDrop(some, all[1..]);
      SubsequenceMore(some[1..], all);
    }
  }

  lemma SubsequenceMore(some: seq<Expect>, all: seq<Expect>)
    requires all != [] && Subsequence(some, all[1..])
    ensures Subsequence(some, all)
  {}

  lemma {:induction false} SubsequenceAppend(some: seq<Expect>, all: seq<Expect>, e: Expect)
    requires Subsequence(some, all)
    ensures Subsequence(some + [e], all + [e])
  {
    if some == [] {
      OneOf(all, e);
      assert some + [e] == [e];
    } else {
      assert (some + [e])[1..] == some[1..] + [e] && (all + [e])[1..] == all[1..] + [e];
      if some[0] == all[0] && Subsequence(some[1..], all[1..]) {
        SubsequenceAppend(some[1..], all[1..], e);
      } else {
        SubsequenceAppend(some, all[1..], e);
      }
    }
  }

  lemma {:induction false} OneOf(all: seq<Expect>, e: Expect)
    ensures Subsequence([e], all + [e])
  {
    if all != [] {
      assert (all + [e])[1..] == all[1..] + [e];
      OneOf(all[1..], e);
    }
  }

  /** Expiry takes nothing that is still awaited. */
  lemma {:induction false} AwaitedUnexpired(some: seq<Expect>, all: seq<Expect>, now: nat)
    requires Subsequence(some, all)
    requires forall i :: 0 <= i < |some| ==> now - some[i].at < ECHO_TTL
    ensures Subsequence(some, Unexpired(all, now))
  {
    if some != [] {
      var rest := Unexpired(all[1..], now);
      if some[0] == all[0] && Subsequence(some[1..], all[1..]) {
        AwaitedUnexpired(some[1..], all[1..], now);
        assert Unexpired(all, now)[0] == some[0] && Unexpired(all, now)[1..] == rest;
      } else {
        AwaitedUnexpired(some, all[1..], now);
        if now - all[0].at < ECHO_TTL {
          assert Unexpired(all, now)[1..] == rest;
        } else {
          assert Unexpired(all, now) == rest;
        }
      }
    }
  }

  /** The first match is no later than the entry the echo belongs to, so draining up to it leaves
      everything awaited after that echo. */
  lemma {:induction false} GreedyMatch(some: seq<Expect>, all: seq<Expect>)
    requires some != [] && Subsequence(some, all)
    ensures Match(all, some[0].value) < |all|
    ensures Subsequence(some[1..], all[Match(all, some[0].value) + 1..])
  {
    if Abs(all[0].value - some[0].value) < EPSILON {
      SubsequenceTail(some, all);
    } else {
      GreedyMatch(some, all[1..]);
      var m := Match(all[1..], some[0].value);
      assert all[1..][m + 1..] == all[m + 2..];
    }
  }

  /** An echo heard in time is swallowed, and whatever else is awaited still can be. */
  lemma EchoSwallowed(awaited: seq<Expect>, expected: seq<Expect>, now: nat, clock: nat)
    requires awaited != [] && Subsequence(awaited, expected) && Dated(awaited, clock)
    requires now - awaited[0].at < ECHO_TTL
    ensures Heard(expected, awaited[0].value, now).1
    ensures Subsequence(awaited[1..], Heard(expected, awaited[0].value, now).0)
  {
    forall i | 0 <= i < |awaited| ensures now - awaited[i].at < ECHO_TTL {
      assert awaited[0].at <= awaited[i].at;
    }
    AwaitedUnexpired(awaited, expected, now);
    GreedyMatch(awaited, Unexpired(expected, now));
  }

  // ---------------------------------------------------------------- every run of one signal's queue

  /** What can happen to one signal with no genuine report between: the engine reads or sets the
      leader; the desk reports the oldest outstanding value back; or it never will. */
  datatype Turn = Cause(gain: real) | Echo | Lost

  datatype Queue = Queue(expected: seq<Expect>, awaited: seq<Expect>)

  function Take(q: Queue, t: Turn, now: nat): Queue {
    match t
    case Cause(gain) => Queue(q.expected + [Expect(gain, now)], q.awaited + [Expect(gain, now)])
    case Echo =>
      if q.awaited == [] then q
      else Queue(Heard(q.expected, q.awaited[0].value, now).0, q.awaited[1..])
    case Lost => if q.awaited == [] then q else q.(awaited := q.awaited[1..])
  }

  /** Whether the turn is an echo the engine mistakes for the leader moving. */
  predicate Mistaken(q: Queue, t: Turn, now: nat) {
    t.Echo? && q.awaited != [] && !Heard(q.expected, q.awaited[0].value, now).1
  }

  /** Turns with their times: time does not run backwards, and an echo comes within the TTL. */
  ghost predicate Timely(q: Queue, turns: seq<(Turn, nat)>, clock: nat)
    decreases |turns|
  {
    turns == [] ||
    (&& clock <= turns[0].1
     && (turns[0].0.Echo? && q.awaited != [] ==> turns[0].1 - q.awaited[0].at < ECHO_TTL)
     && Timely(Take(q, turns[0].0, turns[0].1), turns[1..], turns[0].1))
  }

  predicate AnyMistaken(q: Queue, turns: seq<(Turn, nat)>)
    decreases |turns|
  {
    turns != [] && (Mistaken(q, turns[0].0, turns[0].1) || AnyMistaken(Take(q, turns[0].0, turns[0].1), turns[1..]))
  }

  lemma TakeKeeps(q: Queue, t: Turn, now: nat, clock: nat)
    requires Subsequence(q.awaited, q.expected) && Dated(q.awaited, clock) && clock <= now
    requires t.Echo? && q.awaited != [] ==> now - q.awaited[0].at < ECHO_TTL
    ensures !Mistaken(q, t, now)
    ensures Subsequence(Take(q, t, now).awaited, Take(q, t, now).expected) && Dated(Take(q, t, now).awaited, now)
  {
    match t
    case Cause(gain) => SubsequenceAppend(q.awaited, q.expected, Expect(gain, now));
    case Echo => if q.awaited != [] { EchoSwallowed(q.awaited, q.expected, now, clock); }
    case Lost => if q.awaited != [] { SubsequenceDrop(q.awaited, q.expected); }
  }

  /** Whatever the engine reads and sets, and whichever of its values the desk reports back, in
      order and in time, no echo is taken for a move of the leader. */
  lemma {:induction false} EchoesAreSwallowed(q: Queue, turns: seq<(Turn, nat)>, clock: nat)
    requires Subsequence(q.awaited, q.expected) && Dated(q.awaited, clock) && Timely(q, turns, clock)
    ensures !AnyMistaken(q, turns)
    decreases |turns|
  {
    if turns != [] {
      TakeKeeps(q, turns[0].0, turns[0].1, clock);
      EchoesAreSwallowed(Take(q, turns[0].0, turns[0].1), turns[1..], turns[0].1);
    }
  }

  /** An echo that comes after its time is taken for a move, so the TTL is part of the promise. */
  lemma LateEchoIsMistaken(gain: real, at: nat, now: nat)
    ensures Mistaken(Queue([Expect(gain, at)], [Expect(gain, at)]), Echo, now) <==> now - at >= ECHO_TTL
  {
    assert [Expect(gain, at)][1..] == [];
    assert Unexpired([], now) == [];
  }

  // ---------------------------------------------------------------- what a swallowed echo changes

  /** Every signal on the leader's object `ono` takes `gain` for an echo. */
  ghost predicate AllEcho(live: seq<Live>, ono: nat, gain: real, now: nat) {
    forall i :: 0 <= i < |live| ==> !Genuine(live[i], ono, gain, now)
  }

  lemma {:induction false} HearFromEcho(live: seq<Live>, latest: seq<(nat, real)>, ono: nat, gain: real, now: nat,
                                        k: nat)
    requires forall i :: k <= i < |live| ==> !Genuine(live[i], ono, gain, now)
    ensures var (live', latest') := HearFrom(live, latest, ono, gain, now, k);
            && latest' == latest && |live'| == |live|
            && forall i :: 0 <= i < |live| ==> live'[i] == live[i].(expected := live'[i].expected)
    decreases |live| - k
  {
    if k < |live| {
      HearFromEcho(live[k := HearRow(live[k], ono, gain, now)], latest, ono, gain, now, k + 1);
    }
  }

  /** A report that is an echo to every signal it reaches changes nothing but expectations: no
      gain, no books, no trim, no desk. */
  lemma EchoMovesNothing(w: World, r: Report, now: nat, answers: seq<set<Trim>>)
    requires r.device == w.leader && r.value.Some? && AllEcho(w.live, r.ono, r.value.value, now)
    ensures var w' := OnEvents(w, [r], now, answers);
            && w' == w.(live := w'.live) && |w'.live| == |w.live|
            && forall i :: 0 <= i < |w.live| ==> w'.live[i] == w.live[i].(expected := w'.live[i].expected)
  {
    HearFromEcho(w.live, [], r.ono, r.value.value, now, 0);
    var live' := HearFrom(w.live, [], r.ono, r.value.value, now, 0).0;
    assert [r][1..] == [];
    assert HearAll(live', [], w.leader, [], now) == (live', []);
    assert HearAll(w.live, [], w.leader, [r], now) == (live', []);
  }

  // ---------------------------------------------------------------- the queue ends at the gain

  /** Expectations are dated, and the newest of them is the gain the engine holds. */
  ghost predicate QueueOk(l: Live, clock: nat) {
    Dated(l.expected, clock)
    && (l.expected != [] ==> l.gain == Some(l.expected[|l.expected| - 1].value))
  }

  ghost predicate QueuesOk(live: seq<Live>, clock: nat) {
    forall i :: 0 <= i < |live| ==> QueueOk(live[i], clock)
  }

  /** Expiry keeps a tail of a dated queue. */
  lemma {:induction false} UnexpiredIsTail(es: seq<Expect>, now: nat, clock: nat) returns (k: nat)
    requires Dated(es, clock)
    ensures k <= |es| && Unexpired(es, now) == es[k..]
  {
    if es == [] {
      k := 0;
    } else if now - es[0].at < ECHO_TTL {
      AllUnexpired(es, now);
      k := 0;
    } else {
      forall i, j | 0 <= i < j < |es[1..]| ensures es[1..][i].at <= es[1..][j].at {
        assert es[i + 1].at <= es[j + 1].at;
      }
      k := UnexpiredIsTail(es[1..], now, clock);
      assert es[1..][k..] == es[k + 1..];
      k := k + 1;
    }
  }

  lemma {:induction false} AllUnexpired(es: seq<Expect>, now: nat)
    requires forall i :: 0 <= i < |es| ==> now - es[i].at < ECHO_TTL || es[0].at <= es[i].at
    requires es != [] ==> now - es[0].at < ECHO_TTL
    ensures Unexpired(es, now) == es
  {
    if es != [] {
      forall i | 0 <= i < |es[1..]| ensures now - es[1..][i].at < ECHO_TTL {
        assert es[1..][i] == es[i + 1];
      }
      AllUnexpired(es[1..], now);
    }
  }

  lemma TailOk(l: Live, k: nat, clock: nat)
    requires QueueOk(l, clock) && k <= |l.expected|
    ensures QueueOk(l.(expected := l.expected[k..]), clock)
  {
    var es := l.expected[k..];
    forall i, j | 0 <= i < j < |es| ensures es[i].at <= es[j].at {
      assert l.expected[k + i].at <= l.expected[k + j].at;
    }
  }

  lemma HeardOk(l: Live, gain: real, now: nat, clock: nat)
    requires QueueOk(l, clock)
    ensures QueueOk(l.(expected := Heard(l.expected, gain, now).0), clock)
  {
    var k := UnexpiredIsTail(l.expected, now, clock);
    TailOk(l, k, clock);
    var kept := l.(expected := Unexpired(l.expected, now));
    var i := Match(kept.expected, gain);
    if i < |kept.expected| {
      TailOk(kept, i + 1, clock);
    }
  }

  lemma CausedOk(l: Live, gain: real, now: nat, clock: nat)
    requires QueueOk(l, clock) && clock <= now
    ensures QueueOk(Expecting(l, gain, now).(gain := Some(gain)), now)
  {}

  /** Signals about to be observed have heard something genuine, which emptied their queue. */
  ghost predicate Emptied(live: seq<Live>, latest: seq<(nat, real)>) {
    forall k :: 0 <= k < |latest| ==> latest[k].0 < |live| && live[latest[k].0].expected == []
  }

  lemma {:induction false} LatestIndex(latest: seq<(nat, real)>, index: nat, gain: real, k: nat) returns (m: nat)
    requires k < |Latest(latest, index, gain)|
    ensures Latest(latest, index, gain)[k].0 == index
            || (m < |latest| && latest[m].0 == Latest(latest, index, gain)[k].0)
  {
    m := 0;
    if latest != [] && latest[0].0 != index && k > 0 {
      m := LatestIndex(latest[1..], index, gain, k - 1);
      m := m + 1;
    } else if latest != [] && latest[0].0 == index && k > 0 {
      m := k;
    }
  }

  lemma {:induction false} HearFromOk(live: seq<Live>, latest: seq<(nat, real)>, ono: nat, gain: real, now: nat,
                                      k: nat, clock: nat)
    requires QueuesOk(live, clock) && Emptied(live, latest)
    ensures var (live', latest') := HearFrom(live, latest, ono, gain, now, k);
            QueuesOk(live', clock) && Emptied(live', latest') && |live'| == |live|
    decreases |live| - k
  {
    if k < |live| {
      var l := live[k];
      HeardOk(l, gain, now, clock);
      var live' := live[k := HearRow(l, ono, gain, now)];
      var latest' := if Genuine(l, ono, gain, now) then Latest(latest, k, gain) else latest;
      forall m | 0 <= m < |latest'| ensures latest'[m].0 < |live'| && live'[latest'[m].0].expected == [] {
        if Genuine(l, ono, gain, now) {
          var n := LatestIndex(latest, k, gain, m);
        }
      }
      HearFromOk(live', latest', ono, gain, now, k + 1, clock);
    }
  }

  lemma {:induction false} HearAllOk(live: seq<Live>, latest: seq<(nat, real)>, leader: string, batch: seq<Report>,
                                     now: nat, clock: nat)
    requires QueuesOk(live, clock) && Emptied(live, latest)
    ensures var (live', latest') := HearAll(live, latest, leader, batch, now);
            QueuesOk(live', clock) && Emptied(live', latest')
    decreases |batch|
  {
    if batch != [] {
      var r := batch[0];
      if r.device != leader || r.value.None? {
        HearAllOk(live, latest, leader, batch[1..], now, clock);
      } else {
        HearFromOk(live, latest, r.ono, r.value.value, now, 0, clock);
        var (live', latest') := HearFrom(live, latest, r.ono, r.value.value, now, 0);
        HearAllOk(live', latest', leader, batch[1..], now, clock);
      }
    }
  }

  /** Observing touches no expectation, and sets one signal's gain. */
  lemma ObserveQueue(w: World, index: nat, gain: real, answers: set<Trim>)
    requires index < |w.live|
    ensures var live' := Observe(w, index, gain, answers).live;
            && |live'| == |w.live|
            && forall i :: 0 <= i < |w.live| ==>
                 live'[i].expected == w.live[i].expected
                 && live'[i].gain == if i == index then Some(gain) else w.live[i].gain
  {
    if IsMove(w, index, gain) { SettleShape(Charged(w, index, gain), answers, TrimsOf(w.live[index])); }
  }

  lemma {:induction false} ObserveAllOk(w: World, latest: seq<(nat, real)>, answers: seq<set<Trim>>, k: nat, clock: nat)
    requires QueuesOk(w.live, clock) && Emptied(w.live, latest)
    ensures QueuesOk(ObserveAll(w, latest, answers, k).live, clock)
    decreases |latest|
  {
    if latest != [] {
      assert latest[0].0 < |w.live|;
      var w' := Observe(w, latest[0].0, latest[0].1, AnswersAt(answers, k));
      ObserveQueue(w, latest[0].0, latest[0].1, AnswersAt(answers, k));
      forall m | 0 <= m < |latest[1..]|
        ensures latest[1..][m].0 < |w'.live| && w'.live[latest[1..][m].0].expected == []
      {
        assert latest[1..][m] == latest[m + 1];
      }
      ObserveAllOk(w', latest[1..], answers, k + 1, clock);
    }
  }

  lemma {:induction false} PollOk(w: World, readings: seq<Option<real>>, now: nat, answers: seq<set<Trim>>, i: nat)
    requires QueuesOk(w.live, now)
    ensures QueuesOk(PollFrom(w, readings, now, answers, i).live, now)
    decreases |w.live| - i
  {
    if i < |w.live| {
      var l := w.live[i];
      if l.ono.None? || ReadAt(readings, i).None? {
        PollOk(w, readings, now, answers, i + 1);
      } else {
        var gain := ReadAt(readings, i).value;
        CausedOk(l, gain, now, now);
        var v := WithLive(w, i, Expecting(l, gain, now));
        ObserveQueue(v, i, gain, AnswersAt(answers, i));
        PollOk(Observe(v, i, gain, AnswersAt(answers, i)), readings, now, answers, i + 1);
      }
    }
  }

  /** When the step happens, if the engine looks at its clock at all. */
  function TimeOf(s: Step, clock: nat): nat {
    match s
    case LockNow(_, now) => now
    case SetGain(_, _, _, now, _) => now
    case Reports(_, now, _) => now
    case Poll(_, now, _) => now
    case _ => clock
  }

  lemma Later(live: seq<Live>, clock: nat, now: nat)
    requires QueuesOk(live, clock) && clock <= now
    ensures QueuesOk(live, now)
  {
    forall i | 0 <= i < |live| ensures QueueOk(live[i], now) {
      assert QueueOk(live[i], clock);
    }
  }

  lemma ResolveOk(w: World, clock: nat)
    requires QueuesOk(w.live, clock)
    ensures QueuesOk(Resolve(w).live, clock)
  {}

  lemma LockOk(w: World, readings: seq<Option<real>>, now: nat)
    requires QueuesOk(w.live, now)
    ensures QueuesOk(Lock(w, readings, now).live, now)
  {
    ResolveOk(w, now);
    var r := Resolve(w);
    forall i | 0 <= i < |r.live| ensures QueueOk(LockRow(r.live[i], ReadAt(readings, i), now), now) {
      assert QueueOk(r.live[i], now);
      if r.live[i].ono.Some? && ReadAt(readings, i).Some? {
        CausedOk(r.live[i], ReadAt(readings, i).value, now, now);
      }
    }
  }

  /** Over every run in which time does not run backwards, the newest expectation of a signal is
      the gain the engine holds for it. */
  lemma StepQueues(s: Step, w: World, clock: nat)
    requires QueuesOk(w.live, clock) && clock <= TimeOf(s, clock)
    ensures QueuesOk(Apply(s, w).live, TimeOf(s, clock))
  {
    var now := TimeOf(s, clock);
    Later(w.live, clock, now);
    match s
    case LockNow(readings, _) => LockOk(w, readings, now);
    case Unlock =>
    case ElectLeader(device) =>
      if !w.locked && CanLead(w.signals, device) { ResolveOk(w.(leader := device), now); }
    case SetGain(name, gain, accepted, _, who) =>
      if Settable(w, name) && accepted {
        var k := Named(w.live, name);
        CausedOk(w.live[k], gain, now, now);
        ObserveQueue(WithLive(w, k, Expecting(w.live[k], gain, now)), k, gain, who);
      }
    case Reports(batch, _, answers) =>
      HearAllOk(w.live, [], w.leader, batch, now, now);
      var (live', latest) := HearAll(w.live, [], w.leader, batch, now);
      ObserveAllOk(w.(live := live'), latest, answers, 0, now);
    case Poll(readings, _, answers) => PollOk(w, readings, now, answers, 0);
    case Back(back, who) =>
      if w.locked && back != {} { SettleShape(w.(down := w.down - back), who, TrimsOn(w.live, back)); }
    case Surface(_, _) =>
    case Link(_) =>
  }

  ghost predicate InOrderFrom(steps: seq<Step>, clock: nat)
    decreases |steps|
  {
    steps == [] || (clock <= TimeOf(steps[0], clock) && InOrderFrom(steps[1..], TimeOf(steps[0], clock)))
  }

  function ClockAfter(steps: seq<Step>, clock: nat): nat
    decreases |steps|
  {
    if steps == [] then clock else ClockAfter(steps[1..], TimeOf(steps[0], clock))
  }

  lemma {:induction false} RunQueues(steps: seq<Step>, w: World, clock: nat)
    requires QueuesOk(w.live, clock) && InOrderFrom(steps, clock)
    ensures QueuesOk(Run(steps, w).live, ClockAfter(steps, clock))
    decreases |steps|
  {
    if steps != [] {
      StepQueues(steps[0], w, clock);
      RunQueues(steps[1..], Apply(steps[0], w), TimeOf(steps[0], clock));
    }
  }
}
