/** A batch of reports against the same reports delivered one by one: hearing a report touches only what
    is expected, and observing one touches everything else, so neither sees when the other happens. */
module GainOneByOne {
  import opened GainTable
  import opened GainSpec
  import opened GainLaws
  import opened GainPaths
  import opened GainBursts

  /** The same desks answer every round of moves. */
  function Everyone(who: set<Trim>, n: nat): seq<set<Trim>> {
    seq(n, _ => who)
  }

  /** Each report a batch of its own, the same desks answering throughout. */
  function OneByOne(w: World, batch: seq<Report>, now: nat, who: set<Trim>): World
    decreases |batch|
  {
    if batch == [] then w
    else OneByOne(OnEvents(w, [batch[0]], now, Everyone(who, |w.live|)), batch[1..], now, who)
  }

  // ---------------------------------------------------------------- queues set aside

  function Queues(live: seq<Live>): seq<seq<Expect>> {
    seq(|live|, i requires 0 <= i < |live| => live[i].expected)
  }

  function Requeued(live: seq<Live>, qs: seq<seq<Expect>>): seq<Live>
    requires |qs| == |live|
  {
    seq(|live|, i requires 0 <= i < |live| => live[i].(expected := qs[i]))
  }

  /** The same objects and queues. */
  ghost predicate Twins(live: seq<Live>, live': seq<Live>) {
    && |live'| == |live|
    && forall i :: 0 <= i < |live| ==> live'[i].ono == live[i].ono && live'[i].expected == live[i].expected
  }

  lemma {:induction false} FindRequeued(live: seq<Live>, qs: seq<seq<Expect>>, t: Trim)
    requires |qs| == |live|
    ensures Find(Requeued(live, qs), t) == Find(live, t)
  {
    if live != [] {
      assert Requeued(live, qs)[1..] == Requeued(live[1..], qs[1..]);
      FindRequeued(live[1..], qs[1..], t);
    }
  }

  lemma SettleRequeued(w: World, qs: seq<seq<Expect>>, answers: set<Trim>, scope: set<Trim>)
    requires |qs| == |w.live|
    ensures Settle(w.(live := Requeued(w.live, qs)), answers, scope)
            == Settle(w, answers, scope).(live := Requeued(Settle(w, answers, scope).live, qs))
  {
    var v := w.(live := Requeued(w.live, qs));
    forall t ensures Find(v.live, t) == Find(w.live, t) { FindRequeued(w.live, qs, t); }
    assert SettleTrims(v, answers, scope) == SettleTrims(w, answers, scope);
    assert SettleDown(v, answers, scope) == SettleDown(w, answers, scope);
    assert SettleLive(v, answers, scope) == Requeued(SettleLive(w, answers, scope), qs);
  }

  lemma ObserveRequeued(w: World, qs: seq<seq<Expect>>, index: nat, gain: real, answers: set<Trim>)
    requires |qs| == |w.live| && index < |w.live|
    ensures var w' := Observe(w, index, gain, answers);
            && |w'.live| == |w.live| && Twins(w.live, w'.live) && w'.leader == w.leader
            && Observe(w.(live := Requeued(w.live, qs)), index, gain, answers) == w'.(live := Requeued(w'.live, qs))
  {
    var v := w.(live := Requeued(w.live, qs));
    assert TrimsOf(v.live[index]) == TrimsOf(w.live[index]);
    if IsMove(w, index, gain) {
      var (c, d) := (Charged(w, index, gain), Charged(v, index, gain));
      assert d.live == Requeued(c.live, qs);
      SettleRequeued(c, qs, answers, TrimsOf(w.live[index]));
    } else {
      assert Noted(v, index, gain).live == Requeued(Noted(w, index, gain).live, qs);
    }
  }

  lemma {:induction false} EachRequeued(w: World, qs: seq<seq<Expect>>, heard: seq<(nat, real)>, who: set<Trim>)
    requires |qs| == |w.live|
    ensures var w' := ObserveEach(w, heard, who);
            && |w'.live| == |w.live| && Twins(w.live, w'.live) && w'.leader == w.leader
            && ObserveEach(w.(live := Requeued(w.live, qs)), heard, who) == w'.(live := Requeued(w'.live, qs))
    decreases |heard|
  {
    hide Observe;
    if heard != [] {
      if heard[0].0 < |w.live| {
        ObserveRequeued(w, qs, heard[0].0, heard[0].1, who);
        EachRequeued(Observe(w, heard[0].0, heard[0].1, who), qs, heard[1..], who);
      } else {
        EachRequeued(w, qs, heard[1..], who);
      }
    }
  }

  // ---------------------------------------------------------------- hearing sees only the queues

  lemma {:induction false} HearFromTwins(live: seq<Live>, other: seq<Live>, latest: seq<(nat, real)>, all: seq<(nat, real)>,
                                         ono: nat, gain: real, now: nat, k: nat)
    requires Twins(live, other)
    ensures Twins(HearFrom(live, latest, ono, gain, now, k).0, HearFrom(other, latest, ono, gain, now, k).0)
    ensures HearFrom(live, latest, ono, gain, now, k).1 == HearFrom(other, latest, ono, gain, now, k).1
    ensures AllFrom(live, all, ono, gain, now, k) == AllFrom(other, all, ono, gain, now, k)
    decreases |live| - k
  {
    if k < |live| {
      var l := live[k];
      HearFromTwins(live[k := HearRow(l, ono, gain, now)], other[k := HearRow(other[k], ono, gain, now)],
                    if Genuine(l, ono, gain, now) then Latest(latest, k, gain) else latest,
                    if Genuine(l, ono, gain, now) then all + [(k, gain)] else all, ono, gain, now, k + 1);
    }
  }

  lemma {:induction false} HearAllTwins(live: seq<Live>, other: seq<Live>, latest: seq<(nat, real)>,
                                        leader: string, batch: seq<Report>, now: nat)
    requires Twins(live, other)
    ensures Twins(HearAll(live, latest, leader, batch, now).0, HearAll(other, latest, leader, batch, now).0)
    decreases |batch|
  {
    if batch != [] {
      var r := batch[0];
      if r.device != leader || r.value.None? {
        HearAllTwins(live, other, latest, leader, batch[1..], now);
      } else {
        HearFromTwins(live, other, latest, [], r.ono, r.value.value, now, 0);
        var (live', latest') := HearFrom(live, latest, r.ono, r.value.value, now, 0);
        HearAllTwins(live', HearFrom(other, latest, r.ono, r.value.value, now, 0).0, latest', leader, batch[1..], now);
      }
    }
  }

  lemma {:induction false} AllHeardTwins(live: seq<Live>, other: seq<Live>, all: seq<(nat, real)>,
                                         leader: string, batch: seq<Report>, now: nat)
    requires Twins(live, other)
    ensures AllHeard(live, all, leader, batch, now) == AllHeard(other, all, leader, batch, now)
    decreases |batch|
  {
    if batch != [] {
      var r := batch[0];
      if r.device != leader || r.value.None? {
        AllHeardTwins(live, other, all, leader, batch[1..], now);
      } else {
        HearFromTwins(live, other, [], all, r.ono, r.value.value, now, 0);
        AllHeardTwins(HearFrom(live, [], r.ono, r.value.value, now, 0).0, HearFrom(other, [], r.ono, r.value.value, now, 0).0,
                      AllFrom(live, all, r.ono, r.value.value, now, 0), leader, batch[1..], now);
      }
    }
  }

  /** What is heard does not depend on what was heard before it, and touches the queues alone. */
  lemma {:induction false} HearFromAny(live: seq<Live>, latest: seq<(nat, real)>, other: seq<(nat, real)>,
                                       ono: nat, gain: real, now: nat, k: nat)
    ensures var live' := HearFrom(live, latest, ono, gain, now, k).0;
            && live' == HearFrom(live, other, ono, gain, now, k).0
            && |live'| == |live| && live' == Requeued(live, Queues(live'))
    decreases |live| - k
  {
    if k < |live| {
      var l := live[k];
      HearFromAny(live[k := HearRow(l, ono, gain, now)],
                  if Genuine(l, ono, gain, now) then Latest(latest, k, gain) else latest,
                  if Genuine(l, ono, gain, now) then Latest(other, k, gain) else other, ono, gain, now, k + 1);
    }
  }

  lemma {:induction false} HearAllAny(live: seq<Live>, latest: seq<(nat, real)>, other: seq<(nat, real)>,
                                      leader: string, batch: seq<Report>, now: nat)
    ensures var live' := HearAll(live, latest, leader, batch, now).0;
            && live' == HearAll(live, other, leader, batch, now).0
            && |live'| == |live| && live' == Requeued(live, Queues(live'))
    decreases |batch|
  {
    if batch != [] {
      var r := batch[0];
      if r.device != leader || r.value.None? {
        HearAllAny(live, latest, other, leader, batch[1..], now);
      } else {
        HearFromAny(live, latest, other, r.ono, r.value.value, now, 0);
        var (live', latest') := HearFrom(live, latest, r.ono, r.value.value, now, 0);
        HearAllAny(live', latest', HearFrom(live, other, r.ono, r.value.value, now, 0).1, leader, batch[1..], now);
      }
    }
  }

  // ---------------------------------------------------------------- one report

  lemma {:induction false} AllFromAppend(live: seq<Live>, all: seq<(nat, real)>, ono: nat, gain: real, now: nat, k: nat)
    ensures AllFrom(live, all, ono, gain, now, k) == all + AllFrom(live, [], ono, gain, now, k)
    decreases |live| - k
  {
    if k < |live| {
      var live' := live[k := HearRow(live[k], ono, gain, now)];
      if Genuine(live[k], ono, gain, now) {
        AllFromAppend(live', all + [(k, gain)], ono, gain, now, k + 1);
        AllFromAppend(live', [] + [(k, gain)], ono, gain, now, k + 1);
      } else {
        AllFromAppend(live', all, ono, gain, now, k + 1);
      }
    }
  }

  lemma {:induction false} AllHeardAppend(live: seq<Live>, all: seq<(nat, real)>, leader: string, batch: seq<Report>, now: nat)
    ensures AllHeard(live, all, leader, batch, now) == all + AllHeard(live, [], leader, batch, now)
    decreases |batch|
  {
    if batch != [] {
      var r := batch[0];
      if r.device != leader || r.value.None? {
        AllHeardAppend(live, all, leader, batch[1..], now);
      } else {
        var (ono, gain) := (r.ono, r.value.value);
        var live' := HearFrom(live, [], ono, gain, now, 0).0;
        AllFromAppend(live, all, ono, gain, now, 0);
        AllHeardAppend(live', AllFrom(live, all, ono, gain, now, 0), leader, batch[1..], now);
        AllHeardAppend(live', AllFrom(live, [], ono, gain, now, 0), leader, batch[1..], now);
      }
    }
  }

  /** One report coalesces to itself: no signal hears it twice. */
  lemma {:induction false} OneHearing(live: seq<Live>, latest: seq<(nat, real)>, ono: nat, gain: real, now: nat, k: nat)
    requires forall m :: 0 <= m < |latest| ==> latest[m].0 < k
    ensures HearFrom(live, latest, ono, gain, now, k).1 == AllFrom(live, latest, ono, gain, now, k)
    ensures |live| >= k ==> |AllFrom(live, latest, ono, gain, now, k)| <= |latest| + |live| - k
    decreases |live| - k
  {
    if k < |live| {
      NewestLast(latest, k, gain);
      OneHearing(live[k := HearRow(live[k], ono, gain, now)],
                 if Genuine(live[k], ono, gain, now) then Latest(latest, k, gain) else latest, ono, gain, now, k + 1);
    }
  }

  lemma {:induction false} NewestLast(latest: seq<(nat, real)>, k: nat, gain: real)
    requires forall m :: 0 <= m < |latest| ==> latest[m].0 < k
    ensures Latest(latest, k, gain) == latest + [(k, gain)]
  {
    if latest != [] { NewestLast(latest[1..], k, gain); }
  }

  lemma {:induction false} EachAppend(w: World, a: seq<(nat, real)>, b: seq<(nat, real)>, who: set<Trim>)
    ensures ObserveEach(w, a + b, who) == ObserveEach(ObserveEach(w, a, who), b, who)
    decreases |a|
  {
    if a == [] {
      assert a + b == b;
    } else {
      assert (a + b)[1..] == a[1..] + b;
      EachAppend(if a[0].0 < |w.live| then Observe(w, a[0].0, a[0].1, who) else w, a[1..], b, who);
    }
  }

  lemma OneReport(w: World, r: Report, now: nat, who: set<Trim>)
    ensures OnEvents(w, [r], now, Everyone(who, |w.live|))
            == if r.device != w.leader || r.value.None? then w
               else ObserveEach(w.(live := HearFrom(w.live, [], r.ono, r.value.value, now, 0).0),
                                AllFrom(w.live, [], r.ono, r.value.value, now, 0), who)
  {
    assert [r][1..] == [];
    if r.device == w.leader && r.value.Some? {
      OneHearing(w.live, [], r.ono, r.value.value, now, 0);
      var (live', latest) := HearFrom(w.live, [], r.ono, r.value.value, now, 0);
      assert HearAll(w.live, [], w.leader, [r], now) == (live', latest);
      ObserveAllIsEach(w.(live := live'), latest, Everyone(who, |w.live|), 0, who);
    } else {
      assert HearAll(w.live, [], w.leader, [r], now) == HearAll(w.live, [], w.leader, [], now);
      assert w.(live := w.live) == w;
    }
  }

  // ---------------------------------------------------------------- a batch

  /** One by one comes to hearing everything first and then observing every genuine report in turn. */
  lemma {:induction false} OneByOneIsEach(w: World, batch: seq<Report>, now: nat, who: set<Trim>)
    ensures OneByOne(w, batch, now, who)
            == ObserveEach(w.(live := HearAll(w.live, [], w.leader, batch, now).0),
                           AllHeard(w.live, [], w.leader, batch, now), who)
    decreases |batch|
  {
    hide Observe, OnEvents;
    if batch != [] {
      var (r, rest) := (batch[0], batch[1..]);
      OneReport(w, r, now, who);
      if r.device != w.leader || r.value.None? {
        OneByOneIsEach(w, rest, now, who);
      } else {
        var (live', latest') := HearFrom(w.live, [], r.ono, r.value.value, now, 0);
        var heard := AllFrom(w.live, [], r.ono, r.value.value, now, 0);
        HearFromAny(w.live, [], [], r.ono, r.value.value, now, 0);
        OneByOneIsEach(ObserveEach(w.(live := live'), heard, who), rest, now, who);
        HeardThenRest(w.(live := live'), latest', heard, rest, now, who);
        HearAllAny(live', latest', [], w.leader, rest, now);
        AllHeardAppend(live', heard, w.leader, rest, now);
      }
    }
  }

  /** Observing what was heard first does not change how the rest is heard. */
  lemma HeardThenRest(h: World, latest: seq<(nat, real)>, heard: seq<(nat, real)>, rest: seq<Report>, now: nat, who: set<Trim>)
    ensures var w1 := ObserveEach(h, heard, who);
            ObserveEach(w1.(live := HearAll(w1.live, [], w1.leader, rest, now).0),
                        AllHeard(w1.live, [], w1.leader, rest, now), who)
            == ObserveEach(h.(live := HearAll(h.live, [], h.leader, rest, now).0),
                           heard + AllHeard(h.live, [], h.leader, rest, now), who)
  {
    hide Observe, ObserveEach, HearAll, AllHeard;
    var w1 := ObserveEach(h, heard, who);
    EachRequeued(h, Queues(h.live), heard, who);
    var (live1, liveH) := (HearAll(w1.live, [], w1.leader, rest, now).0, HearAll(h.live, [], h.leader, rest, now).0);
    AllHeardTwins(h.live, w1.live, [], h.leader, rest, now);
    HearAllTwins(h.live, w1.live, [], h.leader, rest, now);
    HearAllAny(w1.live, [], [], w1.leader, rest, now);
    HearAllAny(h.live, [], [], h.leader, rest, now);
    assert Queues(live1) == Queues(liveH);
    EachRequeued(h, Queues(liveH), heard, who);
    EachAppend(h.(live := liveH), heard, AllHeard(h.live, [], h.leader, rest, now), who);
  }

  /** Delivered together, coalesced, or one at a time: the same gains, trims, applied and owed. */
  lemma BatchIsOneByOne(w: World, base: map<Trim, int>, unit: real, desks: set<string>, who: set<Trim>,
                        batch: seq<Report>, now: nat, answers: seq<set<Trim>>)
    requires Ready(w, base, unit) && DeskWide(w.live, who, desks) && FineBatch(batch, unit)
    requires var (live, latest) := HearAll(w.live, [], w.leader, batch, now);
             var all := AllHeard(w.live, [], w.leader, batch, now);
             && Usable(w.(live := live), latest, unit) && Usable(w.(live := live), all, unit)
             && (forall k :: 0 <= k < |latest| ==> AnswersAt(answers, k) == who)
    ensures SameBooks(OnEvents(w, batch, now, answers), OneByOne(w, batch, now, who))
  {
    hide SameBooks, Usable, Ready, DeskWide, OnEvents;
    OneByOneIsEach(w, batch, now, who);
    CoalescingRefines(w, base, unit, desks, who, batch, now, answers);
  }
}
