/** What hearing, reading and setting gains make of each signal's row, spelled out without the functions the
    engine is proved against: which reports are echoes, what stays expected, which gain is known afterwards. */
module GainHearing {
  import opened Wrappers
  import opened GainTable
  import opened GainSpec
  import opened GainSettle
  import opened GainEffects

  // ---------------------------------------------------------------- one report, one signal

  predicate IsYoung(e: Expect, now: nat) {
    now - e.at < 2000
  }

  predicate IsNear(e: Expect, gain: real) {
    -0.0001 < e.value - gain < 0.0001
  }

  /** A young expectation near `gain` is at `k`, and none before it is both. */
  ghost predicate Answers(es: seq<Expect>, gain: real, now: nat, k: nat) {
    && k < |es| && IsYoung(es[k], now) && IsNear(es[k], gain)
    && (forall n :: 0 <= n < k ==> !(IsYoung(es[n], now) && IsNear(es[n], gain)))
  }

  /** `kept` is `es` without the expectations that are 2 seconds old or more. */
  ghost predicate IsYouth(kept: seq<Expect>, es: seq<Expect>, now: nat)
    decreases |es|
  {
    if es == [] then kept == []
    else if IsYoung(es[|es| - 1], now) then
      kept != [] && kept[|kept| - 1] == es[|es| - 1] && IsYouth(kept[..|kept| - 1], es[..|es| - 1], now)
    else IsYouth(kept, es[..|es| - 1], now)
  }

  lemma {:induction false} UnexpiredAppend(es: seq<Expect>, e: Expect, now: nat)
    ensures Unexpired(es + [e], now) == Unexpired(es, now) + if IsYoung(e, now) then [e] else []
  {
    if es == [] {
      assert (es + [e])[1..] == [];
      assert es + [e] == [e];
    } else {
      assert (es + [e])[0] == es[0] && (es + [e])[1..] == es[1..] + [e];
      UnexpiredAppend(es[1..], e, now);
      var first := if now - es[0].at < ECHO_TTL then [es[0]] else [];
      var last := if IsYoung(e, now) then [e] else [];
      assert Unexpired(es + [e], now) == first + (Unexpired(es[1..], now) + last);
    }
  }

  lemma {:induction false} UnexpiredIsYouth(es: seq<Expect>, now: nat)
    ensures IsYouth(Unexpired(es, now), es, now)
    decreases |es|
  {
    if es != [] {
      var front, last := es[..|es| - 1], es[|es| - 1];
      assert es == front + [last];
      UnexpiredAppend(front, last, now);
      UnexpiredIsYouth(front, now);
      var kept := Unexpired(es, now);
      if IsYoung(last, now) {
        assert kept == Unexpired(front, now) + [last];
        assert kept[..|kept| - 1] == Unexpired(front, now);
      } else {
        assert kept == Unexpired(front, now);
      }
    }
  }

  /** What is no answer in front of one that is makes no difference. */
  lemma MatchSkips(kept: seq<Expect>, gain: real)
    requires kept != [] && !IsNear(kept[0], gain) && Match(kept[1..], gain) < |kept| - 1
    ensures Match(kept, gain) == 1 + Match(kept[1..], gain)
    ensures kept[Match(kept, gain) + 1..] == kept[1..][Match(kept[1..], gain) + 1..]
  {
    var m := Match(kept[1..], gain);
    assert kept[m + 2..] == kept[1..][m + 1..];
  }

  lemma HeardSkips(es: seq<Expect>, gain: real, now: nat)
    requires es != [] && !(IsYoung(es[0], now) && IsNear(es[0], gain))
    requires Heard(es[1..], gain, now).1
    ensures Heard(es, gain, now) == Heard(es[1..], gain, now)
  {
    var kept, rest := Unexpired(es, now), Unexpired(es[1..], now);
    if IsYoung(es[0], now) {
      assert kept == [es[0]] + rest && kept[1..] == rest;
      hide Unexpired, Match;
      MatchSkips(kept, gain);
    } else {
      assert kept == rest;
    }
  }

  lemma {:induction false} AnswerAt(es: seq<Expect>, gain: real, now: nat, k: nat)
    requires Answers(es, gain, now, k)
    ensures Heard(es, gain, now) == (Unexpired(es[k + 1..], now), true)
  {
    if k == 0 {
      assert Unexpired(es, now) == [es[0]] + Unexpired(es[1..], now);
      assert Unexpired(es, now)[1..] == Unexpired(es[1..], now);
    } else {
      hide Heard, Unexpired;
      assert forall n :: 0 <= n < k ==> es[1..][n] == es[n + 1];
      AnswerAt(es[1..], gain, now, k - 1);
      assert es[1..][k..] == es[k + 1..];
      HeardSkips(es, gain, now);
    }
  }

  lemma {:induction false} NoAnswer(es: seq<Expect>, gain: real, now: nat)
    requires forall k: nat :: k < |es| ==> !(IsYoung(es[k], now) && IsNear(es[k], gain))
    ensures Heard(es, gain, now) == ([], false)
    ensures Match(Unexpired(es, now), gain) == |Unexpired(es, now)|
  {
    if es != [] {
      assert forall n: nat :: n < |es[1..]| ==> es[1..][n] == es[n + 1];
      NoAnswer(es[1..], gain, now);
      var kept := Unexpired(es, now);
      if IsYoung(es[0], now) { assert kept[1..] == Unexpired(es[1..], now); }
    }
  }

  lemma {:induction false} FirstAnswer(es: seq<Expect>, gain: real, now: nat, k: nat) returns (first: nat)
    requires k < |es| && IsYoung(es[k], now) && IsNear(es[k], gain)
    ensures Answers(es, gain, now, first)
    decreases k
  {
    first := k;
    if n: nat :| n < k && IsYoung(es[n], now) && IsNear(es[n], gain) {
      first := FirstAnswer(es, gain, now, n);
    }
  }

  /** A report is an echo exactly if something expected less than 2 seconds ago is within 0.0001 dB of it. Then the
      first such expectation is gone, with everything before it and everything older than that; otherwise
      everything expected is. */
  lemma HeardIs(es: seq<Expect>, gain: real, now: nat)
    ensures Heard(es, gain, now).1 <==> exists k: nat :: Answers(es, gain, now, k)
    ensures forall k: nat :: Answers(es, gain, now, k) ==> IsYouth(Heard(es, gain, now).0, es[k + 1..], now)
    ensures (forall k: nat :: !Answers(es, gain, now, k)) ==> Heard(es, gain, now).0 == []
  {
    forall k: nat | Answers(es, gain, now, k)
      ensures Heard(es, gain, now).1 && IsYouth(Heard(es, gain, now).0, es[k + 1..], now)
    {
      AnswerAt(es, gain, now, k);
      UnexpiredIsYouth(es[k + 1..], now);
    }
    if forall k: nat :: !Answers(es, gain, now, k) {
      forall k: nat | k < |es| ensures !(IsYoung(es[k], now) && IsNear(es[k], gain)) {
        if IsYoung(es[k], now) && IsNear(es[k], gain) {
          var first := FirstAnswer(es, gain, now, k);
        }
      }
      NoAnswer(es, gain, now);
    }
  }

  // ---------------------------------------------------------------- a batch, signal by signal

  /** What one signal on the leader's object `ono` still expects after a batch, and the last report of it that was
      not an echo. Reports of other objects or devices, or of no number, are not for it. */
  function Hears(es: seq<Expect>, ono: Option<nat>, leader: string, batch: seq<Report>, now: nat)
    : (seq<Expect>, Option<real>)
  {
    if batch == [] then (es, None)
    else
      var front := batch[..|batch| - 1];
      var r := batch[|batch| - 1];
      var (before, last) := Hears(es, ono, leader, front, now);
      if r.device == leader && r.value != None && Some(r.ono) == ono then
        var (after, echo) := Heard(before, r.value.value, now);
        (after, if echo then last else r.value)
      else (before, last)
  }

  /** The gain noted for signal `i`. */
  function Said(latest: seq<(nat, real)>, i: nat): Option<real> {
    if latest == [] then None else if latest[0].0 == i then Some(latest[0].1) else Said(latest[1..], i)
  }

  /** The signals noted, in order. */
  function Order(latest: seq<(nat, real)>): (r: seq<nat>)
    ensures |r| == |latest| && forall k :: 0 <= k < |latest| ==> r[k] == latest[k].0
  {
    if latest == [] then [] else [latest[0].0] + Order(latest[1..])
  }

  ghost predicate Once(latest: seq<(nat, real)>) {
    forall a, b :: 0 <= a < b < |latest| ==> latest[a].0 != latest[b].0
  }

  lemma {:induction false} LatestIs(latest: seq<(nat, real)>, index: nat, gain: real)
    ensures forall i: nat :: Said(Latest(latest, index, gain), i) == if i == index then Some(gain) else Said(latest, i)
    ensures Order(Latest(latest, index, gain))
            == if Said(latest, index) == None then Order(latest) + [index] else Order(latest)
  {
    var after := Latest(latest, index, gain);
    if latest == [] {
    } else if latest[0].0 == index {
      assert after[1..] == latest[1..];
    } else {
      LatestIs(latest[1..], index, gain);
      assert after[1..] == Latest(latest[1..], index, gain);
      assert [latest[0].0] + (Order(latest[1..]) + [index]) == [latest[0].0] + Order(latest[1..]) + [index];
    }
  }

  lemma {:induction false} SaidIn(latest: seq<(nat, real)>, i: nat)
    ensures Said(latest, i) != None <==> i in Order(latest)
  {
    if latest != [] {
      SaidIn(latest[1..], i);
    }
  }

  /** One report heard by every signal from `k` on: each settles its own expectations, and the gain is noted for those
      it is no echo to. */
  lemma {:induction false} ReportHeard(live: seq<Live>, latest: seq<(nat, real)>, ono: nat, gain: real, now: nat, k: nat)
    ensures var (live', latest') := HearFrom(live, latest, ono, gain, now, k);
            && |live'| == |live|
            && (forall i: nat :: i < |live| ==>
                  live'[i] == if k <= i && live[i].ono == Some(ono)
                              then live[i].(expected := Heard(live[i].expected, gain, now).0) else live[i])
            && (forall i: nat ::
                  Said(latest', i) == if k <= i < |live| && live[i].ono == Some(ono)
                                         && !Heard(live[i].expected, gain, now).1
                                      then Some(gain) else Said(latest, i))
    decreases |live| - k
  {
    hide Heard, Latest;
    if k < |live| {
      var l := live[k];
      LatestIs(latest, k, gain);
      ReportHeard(live[k := HearRow(l, ono, gain, now)],
                  if Genuine(l, ono, gain, now) then Latest(latest, k, gain) else latest, ono, gain, now, k + 1);
    }
  }

  /** The signals newly noted come after those noted already, in the table's order. */
  lemma {:induction false} ReportOrder(live: seq<Live>, latest: seq<(nat, real)>, ono: nat, gain: real, now: nat, k: nat)
    ensures var latest' := HearFrom(live, latest, ono, gain, now, k).1;
            && Order(latest) <= Order(latest')
            && (forall a, b :: |latest| <= a < b < |latest'| ==> Order(latest')[a] < Order(latest')[b])
            && (forall a :: |latest| <= a < |latest'| ==> k <= Order(latest')[a])
    decreases |live| - k
  {
    hide Heard, Latest, Said, Order;
    if k < |live| {
      var l := live[k];
      LatestIs(latest, k, gain);
      ReportOrder(live[k := HearRow(l, ono, gain, now)],
                  if Genuine(l, ono, gain, now) then Latest(latest, k, gain) else latest, ono, gain, now, k + 1);
    }
  }

  lemma LatestOnce(latest: seq<(nat, real)>, index: nat, gain: real)
    requires Once(latest)
    ensures Once(Latest(latest, index, gain))
  {
    LatestIs(latest, index, gain);
    SaidIn(latest, index);
    var after := Latest(latest, index, gain);
    forall a, b | 0 <= a < b < |after| ensures after[a].0 != after[b].0 {
      assert Order(after)[a] == after[a].0 && Order(after)[b] == after[b].0;
      assert a < |latest| && Order(latest)[a] == latest[a].0;
      if b < |latest| {
        assert Order(latest)[b] == latest[b].0;
      } else {
        assert latest[a].0 in Order(latest);
      }
    }
  }

  lemma {:induction false} HearFromOnce(live: seq<Live>, latest: seq<(nat, real)>, ono: nat, gain: real, now: nat, k: nat)
    requires Once(latest)
    ensures Once(HearFrom(live, latest, ono, gain, now, k).1)
    decreases |live| - k
  {
    hide Heard;
    if k < |live| {
      var l := live[k];
      LatestOnce(latest, k, gain);
      HearFromOnce(live[k := HearRow(l, ono, gain, now)],
                   if Genuine(l, ono, gain, now) then Latest(latest, k, gain) else latest, ono, gain, now, k + 1);
    }
  }

  /** A batch is its reports heard one after the other. */
  lemma {:induction false} HearAllAppend(live: seq<Live>, latest: seq<(nat, real)>, leader: string, batch: seq<Report>,
                                         r: Report, now: nat)
    ensures var (live', latest') := HearAll(live, latest, leader, batch, now);
            HearAll(live, latest, leader, batch + [r], now) == HearAll(live', latest', leader, [r], now)
    decreases |batch|
  {
    hide HearFrom;
    if batch == [] {
      assert batch + [r] == [r];
    } else {
      assert (batch + [r])[1..] == batch[1..] + [r];
      var q := batch[0];
      if q.device != leader || q.value.None? {
        HearAllAppend(live, latest, leader, batch[1..], r, now);
      } else {
        var (live', latest') := HearFrom(live, latest, q.ono, q.value.value, now, 0);
        HearAllAppend(live', latest', leader, batch[1..], r, now);
      }
    }
  }

  lemma HearOne(live: seq<Live>, latest: seq<(nat, real)>, leader: string, r: Report, now: nat)
    ensures HearAll(live, latest, leader, [r], now)
            == if r.device == leader && r.value.Some? then HearFrom(live, latest, r.ono, r.value.value, now, 0)
               else (live, latest)
  {
    hide HearFrom;
    assert [r][1..] == [];
    var (live', latest') := HearFrom(live, latest, r.ono, if r.value.Some? then r.value.value else 0.0, now, 0);
    assert HearAll(live', latest', leader, [], now) == (live', latest');
  }

  lemma HearNothing(live: seq<Live>, leader: string, now: nat)
    ensures HearAll(live, [], leader, [], now) == (live, [])
    ensures forall i: nat :: Said([], i) == None
  {}

  /** A batch, heard: each signal has settled its own expectations against the reports for it, and the gain noted
      for it is that of its last report that was not an echo. Each signal is noted once, in the order in which
      the signals were first heard from. */
  lemma {:induction false} BatchHeard(live: seq<Live>, leader: string, batch: seq<Report>, now: nat)
    ensures var (live', latest) := HearAll(live, [], leader, batch, now);
            && |live'| == |live|
            && (forall i: nat :: i < |live| ==>
                  live'[i] == live[i].(expected := Hears(live[i].expected, live[i].ono, leader, batch, now).0)
                  && Said(latest, i) == Hears(live[i].expected, live[i].ono, leader, batch, now).1)
            && (forall i: nat :: Said(latest, i) != None ==> i < |live|)
            && Once(latest)
            && (batch != [] ==>
                  Order(HearAll(live, [], leader, batch[..|batch| - 1], now).1) <= Order(latest))
    decreases |batch|
  {
    hide Heard, HearFrom, HearAll, Said, Order;
    if batch == [] {
      HearNothing(live, leader, now);
    } else {
      var front, r := batch[..|batch| - 1], batch[|batch| - 1];
      BatchHeard(live, leader, front, now);
      var (before, noted) := HearAll(live, [], leader, front, now);
      assert batch == front + [r];
      HearAllAppend(live, [], leader, front, r, now);
      HearOne(before, noted, leader, r, now);
      if r.device == leader && r.value.Some? {
        ReportHeard(before, noted, r.ono, r.value.value, now, 0);
        ReportOrder(before, noted, r.ono, r.value.value, now, 0);
        HearFromOnce(before, noted, r.ono, r.value.value, now, 0);
      }
    }
  }

  // ---------------------------------------------------------------- what each signal knows afterwards

  /** A row after the gain learnt, if any: known, and the reference if it is the first known of a locked signal.
      Followers keep their places and objects. */
  ghost predicate Knows(l: Live, l': Live, locked: bool, learnt: Option<real>) {
    && l' == l.(gain := l'.gain, reference := l'.reference, followers := l'.followers)
    && l'.gain == (if learnt != None then learnt else l.gain)
    && l'.reference == (if learnt != None && locked && (l.gain == None || l.reference == None)
                        then learnt else l.reference)
    && |l'.followers| == |l.followers|
    && (forall j :: 0 <= j < |l.followers| ==>
          l'.followers[j] == l.followers[j].(applied := l'.followers[j].applied, owed := l'.followers[j].owed))
  }

  lemma ObserveKnows(w: World, index: nat, gain: real, answers: set<Trim>)
    requires index < |w.live|
    ensures var w' := Observe(w, index, gain, answers);
            && w' == w.(live := w'.live, down := w'.down, desks := w.desks.(trims := w'.desks.trims))
            && |w'.live| == |w.live|
            && forall i: nat :: i < |w.live| ==>
                 Knows(w.live[i], w'.live[i], w.locked, if i == index then Some(gain) else None)
  {
    if IsMove(w, index, gain) {
      SettleShape(Charged(w, index, gain), answers, TrimsOf(w.live[index]));
      var c, w' := Charged(w, index, gain), Observe(w, index, gain, answers);
      forall i, j | Place(w.live, i, j)
        ensures w'.live[i].followers[j]
          == w.live[i].followers[j].(applied := w'.live[i].followers[j].applied, owed := w'.live[i].followers[j].owed)
      {
        assert Place(c.live, i, j);
      }
    }
  }

  lemma KnowsTwice(l: Live, l': Live, l'': Live, locked: bool, first: Option<real>, then': Option<real>)
    requires Knows(l, l', locked, first) && Knows(l', l'', locked, then') && (first == None || then' == None)
    ensures Knows(l, l'', locked, if first != None then first else then')
  {
    forall j | 0 <= j < |l.followers|
      ensures l''.followers[j] == l.followers[j].(applied := l''.followers[j].applied, owed := l''.followers[j].owed)
    {
      assert l'.followers[j] == l.followers[j].(applied := l'.followers[j].applied, owed := l'.followers[j].owed);
    }
  }

  lemma OnceTail(latest: seq<(nat, real)>)
    requires latest != [] && Once(latest)
    ensures Once(latest[1..]) && Said(latest[1..], latest[0].0) == None
  {
    forall a, b | 0 <= a < b < |latest[1..]| ensures latest[1..][a].0 != latest[1..][b].0 {
      assert latest[a + 1].0 != latest[b + 1].0;
    }
    SaidIn(latest[1..], latest[0].0);
  }

  lemma {:induction false} ObserveAllKnows(w: World, latest: seq<(nat, real)>, answers: seq<set<Trim>>, k: nat)
    requires Once(latest)
    ensures var w' := ObserveAll(w, latest, answers, k);
            && w' == w.(live := w'.live, down := w'.down, desks := w.desks.(trims := w'.desks.trims))
            && |w'.live| == |w.live|
            && forall i: nat :: i < |w.live| ==> Knows(w.live[i], w'.live[i], w.locked, Said(latest, i))
    decreases |latest|
  {
    hide Knows, Observe;
    if latest == [] {
      forall i: nat | i < |w.live| ensures Knows(w.live[i], w.live[i], w.locked, None) { KnowsSame(w.live[i], w.locked); }
    } else {
      OnceTail(latest);
      var (index, gain) := latest[0];
      if index < |w.live| {
        var v := Observe(w, index, gain, AnswersAt(answers, k));
        ObserveKnows(w, index, gain, AnswersAt(answers, k));
        ObserveAllKnows(v, latest[1..], answers, k + 1);
        var w' := ObserveAll(w, latest, answers, k);
        forall i: nat | i < |w.live| ensures Knows(w.live[i], w'.live[i], w.locked, Said(latest, i)) {
          KnowsTwice(w.live[i], v.live[i], w'.live[i], w.locked, if i == index then Some(gain) else None,
                     Said(latest[1..], i));
        }
      } else {
        ObserveAllKnows(w, latest[1..], answers, k + 1);
      }
    }
  }

  lemma KnowsSame(l: Live, locked: bool)
    ensures Knows(l, l, locked, None)
  {}

  /** The gains noted are observed in order, the last of them last. */
  lemma {:induction false} ObserveAllAppend(w: World, latest: seq<(nat, real)>, last: (nat, real),
                                            answers: seq<set<Trim>>, k: nat)
    ensures var v := ObserveAll(w, latest, answers, k);
            ObserveAll(w, latest + [last], answers, k)
            == if last.0 < |v.live| then Observe(v, last.0, last.1, AnswersAt(answers, k + |latest|)) else v
    decreases |latest|
  {
    hide Observe;
    if latest == [] {
      assert (latest + [last])[1..] == [];
    } else {
      assert (latest + [last])[1..] == latest[1..] + [last];
      if latest[0].0 < |w.live| {
        ObserveAllAppend(Observe(w, latest[0].0, latest[0].1, AnswersAt(answers, k)), latest[1..], last, answers, k + 1);
      } else {
        ObserveAllAppend(w, latest[1..], last, answers, k + 1);
      }
    }
  }

  /** After a batch every signal expects what its own reports leave expected, and knows the last of them that was not
      an echo. Reports of other devices, of other objects and of no number make no difference to it. */
  lemma EventsAre(w: World, batch: seq<Report>, now: nat, answers: seq<set<Trim>>, i: nat)
    requires i < |w.live|
    ensures var w' := OnEvents(w, batch, now, answers);
            var (expected, learnt) := Hears(w.live[i].expected, w.live[i].ono, w.leader, batch, now);
            && w' == w.(live := w'.live, down := w'.down, desks := w.desks.(trims := w'.desks.trims))
            && |w'.live| == |w.live|
            && Knows(w.live[i].(expected := expected), w'.live[i], w.locked, learnt)
  {
    hide Knows, Hears, HearAll;
    BatchHeard(w.live, w.leader, batch, now);
    var (live', latest) := HearAll(w.live, [], w.leader, batch, now);
    ObserveAllKnows(w.(live := live'), latest, answers, 0);
  }

  // ---------------------------------------------------------------- polls and sets

  /** After a poll every signal that has an object and was read knows the reading and expects it back once more; the
      others are as they were. */
  lemma {:induction false} PollIs(w: World, readings: seq<Option<real>>, now: nat, answers: seq<set<Trim>>, k: nat)
    ensures var w' := PollFrom(w, readings, now, answers, k);
            && w' == w.(live := w'.live, down := w'.down, desks := w.desks.(trims := w'.desks.trims))
            && |w'.live| == |w.live|
            && forall i: nat :: i < |w.live| ==>
                 var l := w.live[i];
                 if k <= i && l.ono != None && i < |readings| && readings[i] != None
                 then Knows(l.(expected := l.expected + [Expect(readings[i].value, now)]), w'.live[i], w.locked,
                            readings[i])
                 else Knows(l, w'.live[i], w.locked, None)
    decreases |w.live| - k
  {
    hide Knows, Observe;
    var w' := PollFrom(w, readings, now, answers, k);
    if k >= |w.live| {
      forall i: nat | i < |w.live| ensures Knows(w.live[i], w.live[i], w.locked, None) { KnowsSame(w.live[i], w.locked); }
    } else if w.live[k].ono.None? || ReadAt(readings, k).None? {
      PollIs(w, readings, now, answers, k + 1);
    } else {
      var gain := ReadAt(readings, k).value;
      var e := WithLive(w, k, Expecting(w.live[k], gain, now));
      var v := Observe(e, k, gain, AnswersAt(answers, k));
      ObserveKnows(e, k, gain, AnswersAt(answers, k));
      PollIs(v, readings, now, answers, k + 1);
      forall i: nat | i < |w.live|
        ensures if k <= i && w.live[i].ono != None && i < |readings| && readings[i] != None
                then Knows(w.live[i].(expected := w.live[i].expected + [Expect(readings[i].value, now)]), w'.live[i],
                           w.locked, readings[i])
                else Knows(w.live[i], w'.live[i], w.locked, None)
      {
        PollRow(w, e, v, w', k, gain, i, readings, now);
      }
    }
  }

  lemma PollRow(w: World, e: World, v: World, w': World, k: nat, gain: real, i: nat, readings: seq<Option<real>>, now: nat)
    requires k < |w.live| && i < |w.live| && |v.live| == |w.live| && |w'.live| == |w.live|
    requires w.live[k].ono != None && k < |readings| && readings[k] == Some(gain)
    requires e == w.(live := w.live[k := w.live[k].(expected := w.live[k].expected + [Expect(gain, now)])])
    requires Knows(e.live[i], v.live[i], w.locked, if i == k then Some(gain) else None)
    requires if k < i && v.live[i].ono != None && i < |readings| && readings[i] != None
             then Knows(v.live[i].(expected := v.live[i].expected + [Expect(readings[i].value, now)]), w'.live[i],
                        w.locked, readings[i])
             else Knows(v.live[i], w'.live[i], w.locked, None)
    ensures if k <= i && w.live[i].ono != None && i < |readings| && readings[i] != None
            then Knows(w.live[i].(expected := w.live[i].expected + [Expect(readings[i].value, now)]), w'.live[i],
                       w.locked, readings[i])
            else Knows(w.live[i], w'.live[i], w.locked, None)
  {
    if i == k {
      KnowsTwice(e.live[k], v.live[k], w'.live[k], w.locked, Some(gain), None);
    } else if k < i && w.live[i].ono != None && i < |readings| && readings[i] != None {
      var es := w.live[i].expected + [Expect(readings[i].value, now)];
      assert v.live[i].ono == w.live[i].ono && v.live[i].expected == w.live[i].expected;
      assert Knows(w.live[i].(expected := es), v.live[i].(expected := es), w.locked, None);
      KnowsTwice(w.live[i].(expected := es), v.live[i].(expected := es), w'.live[i], w.locked, None, readings[i]);
    } else {
      assert v.live[i].ono == w.live[i].ono;
      KnowsTwice(w.live[i], v.live[i], w'.live[i], w.locked, None, None);
    }
  }

  /** A poll reads the signals in the table's order: one more reading is one more signal observed, after the rest. */
  lemma {:induction false} PollInOrder(w: World, readings: seq<Option<real>>, reading: Option<real>, now: nat,
                                       answers: seq<set<Trim>>, k: nat)
    requires k <= |readings| < |w.live|
    ensures var (n, v) := (|readings|, PollFrom(w, readings, now, answers, k));
            && |v.live| == |w.live|
            && PollFrom(w, readings + [reading], now, answers, k)
               == (if v.live[n].ono == None || reading == None then v
                   else Observe(v.(live := v.live[n := v.live[n].(
                                  expected := v.live[n].expected + [Expect(reading.value, now)])]),
                                n, reading.value, AnswersAt(answers, n)))
    decreases |w.live| - k
  {
    hide Observe;
    var more := readings + [reading];
    if k == |readings| {
      PollPast(w, readings, now, answers, k);
      if w.live[k].ono == None || reading == None {
        PollPast(w, more, now, answers, k + 1);
      } else {
        var e := WithLive(w, k, Expecting(w.live[k], reading.value, now));
        ObserveKnows(e, k, reading.value, AnswersAt(answers, k));
        PollPast(Observe(e, k, reading.value, AnswersAt(answers, k)), more, now, answers, k + 1);
      }
    } else {
      assert more[k] == readings[k];
      if w.live[k].ono.None? || readings[k].None? {
        PollInOrder(w, readings, reading, now, answers, k + 1);
      } else {
        var e := WithLive(w, k, Expecting(w.live[k], readings[k].value, now));
        ObserveKnows(e, k, readings[k].value, AnswersAt(answers, k));
        PollInOrder(Observe(e, k, readings[k].value, AnswersAt(answers, k)), readings, reading, now, answers, k + 1);
      }
    }
  }

  lemma {:induction false} PollPast(w: World, readings: seq<Option<real>>, now: nat, answers: seq<set<Trim>>, k: nat)
    requires |readings| <= k
    ensures PollFrom(w, readings, now, answers, k) == w
    decreases |w.live| - k
  {
    if k < |w.live| { PollPast(w, readings, now, answers, k + 1); }
  }

  /** A set is for the first signal of that name, and is refused if there is none, if it has no preamp object, if the
      leader is not connected or if the desk refuses it. Otherwise it is expected back and observed at once. */
  lemma SetIs(w: World, name: string, gain: real, accepted: bool, now: nat, answers: set<Trim>)
    ensures (|| !accepted || w.leader !in w.desks.connected
             || (forall i: nat :: NamedAt(w, name, i) ==> w.live[i].ono == None))
            ==> SetPreamp(w, name, gain, accepted, now, answers) == w
    ensures forall i: nat :: NamedAt(w, name, i) && accepted && w.leader in w.desks.connected && w.live[i].ono != None
              ==> SetPreamp(w, name, gain, accepted, now, answers)
                  == Observe(w.(live := w.live[i := w.live[i].(
                               expected := w.live[i].expected + [Expect(gain, now)])]), i, gain, answers)
  {
    hide Observe;
    if Named(w.live, name) < |w.live| { assert NamedAt(w, name, Named(w.live, name)); }
    assert forall i: nat :: NamedAt(w, name, i) ==> i == Named(w.live, name);
  }

  /** The first signal called `name` is at `i`. */
  ghost predicate NamedAt(w: World, name: string, i: nat) {
    i < |w.live| && w.live[i].name == name && forall n :: 0 <= n < i ==> w.live[n].name != name
  }
}
