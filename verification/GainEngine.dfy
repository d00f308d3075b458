/** The gain-lock engine, in place: its table is updated by the methods below, and the desks move
    under it. Every method is proved against its specification in GainSpec. */
module GainEngine {
  import opened Wrappers
  import opened Law
  import opened GainTable
  import opened GainSpec
  import opened GainSettle

  /** The desks at the far end of the router. */
  class Rack {
    var desks: Desks

    constructor (desks: Desks)
      ensures this.desks == desks
    {
      this.desks := desks;
    }

    /** A relative move of one trim: made in full by the desk's own arithmetic and reported, or -
        the desk not answering, or having no such control - not made at all. */
    method NudgeObject(t: Trim, delta: real, answers: set<Trim>) returns (r: Option<real>)
      modifies this
      ensures old(t in answers && desks.Controls(t)) ==>
                r == Some(Change(old(desks), t, delta))
                && desks == old(desks).(trims := old(desks).trims[t := Landing(old(desks), t, delta)])
      ensures old(!(t in answers && desks.Controls(t))) ==> r == None && desks == old(desks)
    {
      if t !in answers || !desks.Controls(t) {
        return None;
      }
      r := Some(Change(desks, t, delta));
      desks := desks.(trims := desks.trims[t := Landing(desks, t, delta)]);
    }
  }

  /** The trims at some places of the table. */
  function IdsAt(live: seq<Live>, places: seq<(nat, nat)>): set<Trim>
    requires forall p <- places :: Place(live, p.0, p.1)
  {
    set p | p in places && Place(live, p.0, p.1) :: live[p.0].followers[p.1].Id()
  }

  /** Rewrites the follower at one place. */
  function At(live: seq<Live>, i: nat, j: nat, f: Follower): seq<Live>
    requires Place(live, i, j)
  {
    live[i := live[i].(followers := live[i].followers[j := f])]
  }

  lemma BookedInPlace(live: seq<Live>, i: nat, j: nat, change: real)
    requires Place(live, i, j) && Distinct(live)
    ensures At(live, i, j, Booked(live[i].followers[j], change))
            == seq(|live|, k requires 0 <= k < |live| => BookRow(live[k], live[i].followers[j].Id(), change))
  {
    var t := live[i].followers[j].Id();
    var a := At(live, i, j, Booked(live[i].followers[j], change));
    forall k | 0 <= k < |live| ensures a[k] == BookRow(live[k], t, change) {
      forall l | 0 <= l < |live[k].followers|
        ensures a[k].followers[l] == BookRow(live[k], t, change).followers[l]
      {
        assert Place(live, k, l);
      }
      assert a[k].followers == BookRow(live[k], t, change).followers;
    }
  }

  /** Followers in scope that are offered nothing change nothing. */
  lemma UnofferedIgnored(w: World, answers: set<Trim>, scope: set<Trim>, offered: set<Trim>)
    requires Distinct(w.live) && offered <= scope
    requires forall t :: t in scope && t !in offered && Find(w.live, t).Some?
                         ==> !Offered(Find(w.live, t).value, w.desks.connected, w.down)
    ensures Settle(w, answers, scope) == Settle(w, answers, offered)
  {
    var (a, b) := (Settle(w, answers, scope), Settle(w, answers, offered));
    forall i | 0 <= i < |w.live| ensures a.live[i] == b.live[i] {
      forall j | 0 <= j < |w.live[i].followers| ensures a.live[i].followers[j] == b.live[i].followers[j] {
        FindIs(w.live, i, j);
        SettleAt(w, answers, scope, i, j);
        SettleAt(w, answers, offered, i, j);
      }
      assert a.live[i].followers == b.live[i].followers;
    }
    assert a.live == b.live;
    assert a.desks.trims == b.desks.trims;
    assert a.down == b.down;
  }

  class GainLock {
    var leader: string
    var locked: bool
    var signals: seq<Signal>
    var live: seq<Live>
    var down: set<string>
    const rack: Rack

    /** The engine and its desks as one value. */
    function State(): World
      reads this, rack
    {
      World(leader, locked, signals, live, down, rack.desks)
    }

    /** Unlocked, its rows those `Resolve` gives. */
    constructor (rack: Rack, leader: string, signals: seq<Signal>)
      ensures this.rack == rack
      ensures State() == Resolve(World(leader, false, signals, [], {}, rack.desks))
    {
      this.rack := rack;
      this.leader, this.locked, this.signals, this.live, this.down := leader, false, signals, [], {};
      new;
      ResolveTable();
    }

    // -------------------------------------------------------------- settling

    /** The moves of one round go out first and are joined one by one; `Settle` is what is left. */
    method Settle(places: seq<(nat, nat)>, answers: set<Trim>)
      requires Distinct(live)
      requires forall p <- places :: Place(live, p.0, p.1)
      modifies this`live, this`down, rack
      ensures State() == GainSpec.Settle(old(State()), answers, IdsAt(old(live), places))
    {
      ghost var w := State();
      var waiting := Offering(places);
      var pending := set p | p in waiting;
      ghost var done: set<Trim> := {};
      NothingInScope(w, answers);
      while pending != {}
        invariant pending <= set p | p in waiting
        invariant done == Finished(w.live, waiting, pending)
        invariant State() == GainSpec.Settle(w, answers, done)
        decreases |pending|
      {
        var p :| p in pending;
        OneFinished(w.live, waiting, pending, p);
        Join(w, p, answers, done);
        pending := pending - {p};
        done := done + {w.live[p.0].followers[p.1].Id()};
      }
      assert done == IdsAt(w.live, waiting);
      UnofferedIgnored(w, answers, IdsAt(w.live, places), done);
    }

    /** Which of `places` are sent a move: enough owed, and a desk to send it to that is not down. */
    method Offering(places: seq<(nat, nat)>) returns (waiting: seq<(nat, nat)>)
      requires Distinct(live)
      requires forall p <- places :: Place(live, p.0, p.1)
      ensures forall p <- waiting :: p in places
                && Offered(live[p.0].followers[p.1], rack.desks.connected, down)
      ensures forall p <- waiting :: Place(live, p.0, p.1)
      ensures IdsAt(live, waiting) <= IdsAt(live, places)
      ensures forall t :: t in IdsAt(live, places) && t !in IdsAt(live, waiting) && Find(live, t).Some?
                          ==> !Offered(Find(live, t).value, rack.desks.connected, down)
    {
      waiting := [];
      for n := 0 to |places|
        invariant forall p <- waiting :: p in places[..n]
                    && Offered(live[p.0].followers[p.1], rack.desks.connected, down)
        invariant forall p <- places[..n] ::
                    Offered(live[p.0].followers[p.1], rack.desks.connected, down) ==> p in waiting
      {
        var p := places[n];
        var f := live[p.0].followers[p.1];
        assert places[..n + 1] == places[..n] + [p];
        if Abs(f.owed) < EPSILON || f.device in down || f.ono.None? || f.device !in rack.desks.connected {
          continue;
        }
        waiting := waiting + [p];
      }
      assert places[..|places|] == places;
      forall t | t in IdsAt(live, places) && t !in IdsAt(live, waiting) && Find(live, t).Some?
        ensures !Offered(Find(live, t).value, rack.desks.connected, down)
      {
        var p :| p in places && live[p.0].followers[p.1].Id() == t;
        FindIs(live, p.0, p.1);
      }
    }

    /** One move comes back: its follower books it, or its desk is marked down. */
    method Join(ghost w: World, place: (nat, nat), answers: set<Trim>, ghost done: set<Trim>)
      requires Distinct(w.live) && Place(w.live, place.0, place.1)
      requires Offered(w.live[place.0].followers[place.1], w.desks.connected, w.down)
      requires w.live[place.0].followers[place.1].Id() !in done
      requires State() == GainSpec.Settle(w, answers, done)
      modifies this`live, this`down, rack
      ensures State() == GainSpec.Settle(w, answers, done + {w.live[place.0].followers[place.1].Id()})
    {
      var (i, j) := place;
      SettleAt(w, answers, done, i, j);
      SettleShape(w, answers, done);
      assert SameIds(w.live, live);
      SameIdsDistinct(w.live, live);
      var f := live[i].followers[j];
      FindIs(w.live, i, j);
      OneMoreMove(w, answers, done, f.Id());
      var change := rack.NudgeObject(f.Id(), f.owed, answers);
      if change.Some? {
        BookedInPlace(live, i, j, change.value);
        live := At(live, i, j, Booked(f, change.value));
      } else {
        down := down + {f.device};
      }
    }

    // -------------------------------------------------------------- observing

    /** Does what the specification's `Observe` says, in place. */
    method Observe(index: nat, gain: real, answers: set<Trim>)
      requires index < |live| && Distinct(live)
      modifies this`live, this`down, rack
      ensures State() == GainSpec.Observe(old(State()), index, gain, answers)
      ensures SameIds(old(live), live)
    {
      hide Landing, Change, Booked, DbLaw.Index, DbLaw.At, Offered, Taken, Find;
      ghost var w := State();
      var previous := live[index];
      live := live[index := live[index].(gain := Some(gain))];
      if !locked {
        return;
      }
      if !previous.Armed() {
        live := live[index := live[index].(reference := Some(gain))];
        return;
      }
      var delta := gain - previous.gain.value;
      if Abs(delta) < EPSILON {
        return;
      }
      ChargeFollowers(index, delta);
      assert SameIds(w.live, live);
      SameIdsDistinct(w.live, live);
      var places := PlacesOf(index);
      assert State() == Charged(w, index, gain);
      ChargedTrims(previous, delta);
      Settle(places, answers);
      SettleShape(Charged(w, index, gain), answers, TrimsOf(previous));
    }

    /** Asks every follower of a signal for the opposite of a leader move. */
    method ChargeFollowers(index: nat, delta: real)
      requires index < |live|
      modifies this`live
      ensures live == old(live)[index := old(live)[index].(followers := Charge(old(live)[index].followers, delta))]
    {
      ghost var before := live;
      var fs := live[index].followers;
      for j := 0 to |fs|
        invariant |live| == |before|
        invariant live == before[index := before[index].(followers := live[index].followers)]
        invariant live[index].followers == Charge(fs, delta)[..j] + fs[j..]
      {
        live := At(live, index, j, fs[j].(owed := fs[j].owed - delta));
      }
      assert live[index].followers == Charge(fs, delta);
    }

    /** The places of one signal's followers. */
    method PlacesOf(index: nat) returns (places: seq<(nat, nat)>)
      requires index < |live|
      ensures forall p <- places :: Place(live, p.0, p.1)
      ensures IdsAt(live, places) == TrimsOf(live[index])
    {
      var n := |live[index].followers|;
      places := seq(n, j => (index, j));
      assert forall p <- places :: p.0 == index && 0 <= p.1 < n;
      forall j | 0 <= j < n ensures live[index].followers[j].Id() in IdsAt(live, places) {
        assert places[j] in places;
      }
    }

    method Expect(index: nat, gain: real, now: nat)
      requires index < |live|
      modifies this`live
      ensures live == old(live)[index := Expecting(old(live)[index], gain, now)]
    {
      live := live[index := live[index].(expected := live[index].expected + [GainTable.Expect(gain, now)])];
    }

    /** `Heard` on row `index`, the queue replaced by what is left of it. */
    method IsExpected(index: nat, gain: real, now: nat) returns (echo: bool)
      requires index < |live|
      modifies this`live
      ensures echo == Heard(old(live)[index].expected, gain, now).1
      ensures live == old(live)[index := old(live)[index].(expected := Heard(old(live)[index].expected, gain, now).0)]
    {
      var kept := Retain(live[index].expected, now);
      var i := FirstMatch(kept, gain);
      echo := i < |kept|;
      live := live[index := live[index].(expected := if echo then kept[i + 1..] else [])];
    }

    /** Takes a batch of reports, acting on the latest genuine one for each signal. */
    method OnEvents(batch: seq<Report>, now: nat, answers: seq<set<Trim>>)
      requires Distinct(live)
      modifies this`live, this`down, rack
      ensures State() == GainSpec.OnEvents(old(State()), batch, now, answers)
    {
      ghost var w := State();
      var latest: seq<(nat, real)> := [];
      for n := 0 to |batch|
        invariant HearAll(live, latest, leader, batch[n..], now) == HearAll(w.live, [], leader, batch, now)
        invariant SameIds(w.live, live) && State() == w.(live := live)
      {
        var r := batch[n];
        assert batch[n..][0] == r && batch[n..][1..] == batch[n + 1..];
        if r.device != leader || r.value.None? {
          continue;
        }
        ghost var before := live;
        latest := Hear(latest, r.ono, r.value.value, now);
        SameIdsAgain(w.live, before, live);
      }
      assert batch[|batch|..] == [];
      assert (live, latest) == HearAll(w.live, [], leader, batch, now);
      SameIdsDistinct(w.live, live);
      ghost var heard := State();
      for k := 0 to |latest|
        invariant ObserveAll(State(), latest[k..], answers, k) == ObserveAll(heard, latest, answers, 0)
        invariant SameIds(w.live, live) && Distinct(live)
      {
        assert latest[k..][0] == latest[k] && latest[k..][1..] == latest[k + 1..];
        if latest[k].0 < |live| {
          ghost var before := live;
          Observe(latest[k].0, latest[k].1, AnswersAt(answers, k));
          SameIdsAgain(w.live, before, live);
          SameIdsDistinct(w.live, live);
        }
      }
      assert latest[|latest|..] == [];
    }

    /** Every signal hears `gain` on the leader's object `ono`. */
    method Hear(latest: seq<(nat, real)>, ono: nat, gain: real, now: nat) returns (latest': seq<(nat, real)>)
      modifies this`live
      ensures (live, latest') == HearFrom(old(live), latest, ono, gain, now, 0)
      ensures SameIds(old(live), live)
    {
      latest' := latest;
      for i := 0 to |live|
        invariant |live| == |old(live)|
        invariant HearFrom(live, latest', ono, gain, now, i) == HearFrom(old(live), latest, ono, gain, now, 0)
        invariant SameIds(old(live), live)
      {
        if live[i].ono == Some(ono) {
          ghost var l := live[i];
          var echo := IsExpected(i, gain, now);
          if !echo {
            latest' := Latest(latest', i, gain);
          }
        } else {
          assert live[i := live[i]] == live;
        }
      }
    }

    // -------------------------------------------------------------- reading, setting, retrying

    /** Reads the leader's gain for every signal; `readings` is what came back. */
    method ReadLeader(readings: seq<Option<real>>, now: nat, answers: seq<set<Trim>>)
      requires Distinct(live)
      modifies this`live, this`down, rack
      ensures State() == PollFrom(old(State()), readings, now, answers, 0)
    {
      ghost var w := State();
      for i := 0 to |live|
        invariant |live| == |w.live|
        invariant PollFrom(State(), readings, now, answers, i) == PollFrom(w, readings, now, answers, 0)
        invariant SameIds(w.live, live) && Distinct(live)
      {
        if live[i].ono.None? || ReadAt(readings, i).None? {
          continue;
        }
        ghost var before := live;
        Expect(i, readings[i].value, now);
        assert SameIds(before, live);
        SameIdsDistinct(before, live);
        ghost var between := live;
        Observe(i, readings[i].value, AnswersAt(answers, i));
        SameIdsAgain(before, between, live);
        SameIdsAgain(w.live, before, live);
        SameIdsDistinct(w.live, live);
      }
    }

    /** Sets a signal's preamp on the leader, and compensates for it straight away. `accepted` is
        the leader's answer to the set. */
    method SetPreamp(name: string, gain: real, accepted: bool, now: nat, answers: set<Trim>) returns (ok: bool)
      requires Distinct(live)
      modifies this`live, this`down, rack
      ensures State() == GainSpec.SetPreamp(old(State()), name, gain, accepted, now, answers)
      ensures ok == (accepted && Settable(old(State()), name))
    {
      var index := Named(live, name);
      if index == |live| || live[index].ono.None? || leader !in rack.desks.connected || !accepted {
        return false;
      }
      ghost var before := live;
      Expect(index, gain, now);
      assert SameIds(before, live);
      SameIdsDistinct(before, live);
      Observe(index, gain, answers);
      ok := true;
    }

    /** Settles every follower on the desks of `back`, found answering again. */
    method Recovered(back: set<string>, answers: set<Trim>)
      requires Distinct(live)
      modifies this`live, this`down, rack
      ensures State() == Recover(old(State()), back, answers)
    {
      if back == {} || !locked {
        return;
      }
      down := down - back;
      var places := PlacesOn(back);
      Settle(places, answers);
    }

    /** The places of the followers on `devices`, in table order. */
    method PlacesOn(devices: set<string>) returns (places: seq<(nat, nat)>)
      ensures forall p <- places :: Place(live, p.0, p.1)
      ensures IdsAt(live, places) == TrimsOn(live, devices)
    {
      places := [];
      for i := 0 to |live|
        invariant forall p <- places :: Place(live, p.0, p.1) && live[p.0].followers[p.1].device in devices
        invariant forall a, b :: 0 <= a < i && Place(live, a, b) && live[a].followers[b].device in devices
                                 ==> (a, b) in places
      {
        for j := 0 to |live[i].followers|
          invariant forall p <- places :: Place(live, p.0, p.1) && live[p.0].followers[p.1].device in devices
          invariant forall a, b :: 0 <= a < i && Place(live, a, b) && live[a].followers[b].device in devices
                                   ==> (a, b) in places
          invariant forall b :: 0 <= b < j && live[i].followers[b].device in devices ==> (i, b) in places
        {
          if live[i].followers[j].device in devices {
            places := places + [(i, j)];
          }
        }
      }
      forall t | t in TrimsOn(live, devices) ensures t in IdsAt(live, places) {
        var i, j :| 0 <= i < |live| && 0 <= j < |live[i].followers| && live[i].followers[j].device in devices
          && live[i].followers[j].Id() == t;
        assert Place(live, i, j) && (i, j) in places;
      }
    }

    /** Refines `Recover` for the desks a probe found: `answering` are those that reply to one. */
    method RetryFailed(answering: set<string>, answers: set<Trim>)
      requires Distinct(live)
      modifies this`live, this`down, rack
      ensures State() == Retry(old(State()), answering, answers)
    {
      if !locked {
        return;
      }
      var back: set<string> := {};
      var unread := down;
      while unread != {}
        invariant unread <= down
        invariant back == Probes(State()) * answering * (down - unread)
        decreases |unread|
      {
        var d :| d in unread;
        unread := unread - {d};
        var first := FirstOn(live, d);
        if first.Some? && first.value.ono.Some? && d in answering {
          back := back + {d};
        }
      }
      assert back == Probes(State()) * answering;
      Recovered(back, answers);
    }

    // -------------------------------------------------------------- locking and electing

    /** Refines `Resolve`: one fresh row per signal, in order. */
    method ResolveTable()
      modifies this`live
      ensures State() == Resolve(old(State()))
    {
      ghost var w := State();
      var built: seq<Live> := [];
      for i := 0 to |signals|
        invariant |built| == i
        invariant State() == w
        invariant forall k :: 0 <= k < i ==> built[k] == ResolveRow(signals[k], w)
      {
        var row := ResolveSignal(signals[i]);
        built := built + [row];
      }
      live := built;
      assert live == Resolve(w).live;
    }

    method ResolveSignal(s: Signal) returns (row: Live)
      ensures row == ResolveRow(s, State())
    {
      var i := Named(live, s.name);
      var preamp := LeaderPreamp(s, leader);
      var ono := LeaderOno(preamp, leader, rack.desks);
      var previous := if i < |live| then live[i].followers else [];
      var followers: seq<Follower> := [];
      ghost var all := Followers(s.members, leader, previous, rack.desks);
      for m := 0 to |s.members|
        invariant followers + Followers(s.members[m..], leader, previous, rack.desks) == all
      {
        var member := s.members[m];
        assert s.members[m..][0] == member && s.members[m..][1..] == s.members[m + 1..];
        if member.device != leader && member.input.Some? {
          var carried := FindIn(previous, Trim(member.device, member.input.value));
          followers := followers + [Following(member, carried, rack.desks)];
        }
      }
      assert followers == all;
      var same := i < |live| && live[i].ono == ono && live[i].preamp == preamp;
      row := Live(s.name, preamp, ono,
                  if same then live[i].gain else None,
                  if same then live[i].reference else None,
                  followers,
                  if same then live[i].expected else []);
    }

    /** Refines `Lock`: `readings` is what each row's preamp answered, `None` where it did not. */
    method Lock(readings: seq<Option<real>>, now: nat)
      modifies this`live, this`down, this`locked
      ensures State() == GainSpec.Lock(old(State()), readings, now)
    {
      ghost var w := State();
      ResolveTable();
      down := {};
      ghost var r := live;
      for i := 0 to |live|
        invariant |live| == |r|
        invariant live == LockedRows(r, readings, now, i)
        invariant State() == Resolve(w).(live := live, down := {})
      {
        var row := LockSignal(live[i], ReadAt(readings, i), now);
        live := live[i := row];
        assert live == LockedRows(r, readings, now, i + 1);
      }
      locked := true;
      assert live == GainSpec.Lock(w, readings, now).live;
    }

    method Unlock()
      modifies this`locked
      ensures State() == old(State()).(locked := false)
    {
      locked := false;
    }

    /** Refines `Elect`, and says whether there was an election. */
    method SetLeader(device: string) returns (ok: bool)
      modifies this`live, this`leader
      ensures State() == Elect(old(State()), device)
      ensures ok == (!old(locked) && CanLead(signals, device))
    {
      if locked || !CanLead(signals, device) {
        return false;
      }
      leader := device;
      ResolveTable();
      ok := true;
    }
  }

  /** The table with its first `n` rows locked. */
  function LockedRows(r: seq<Live>, readings: seq<Option<real>>, now: nat, n: nat): seq<Live> {
    seq(|r|, i requires 0 <= i < |r| => if i < n then LockRow(r[i], ReadAt(readings, i), now) else r[i])
  }

  /** The trims whose moves have come back. */
  ghost function Finished(live: seq<Live>, waiting: seq<(nat, nat)>, pending: set<(nat, nat)>): set<Trim> {
    set p | p in waiting && p !in pending && Place(live, p.0, p.1) :: live[p.0].followers[p.1].Id()
  }

  /** Different places are different trims, so one more place finishing is one more trim. */
  lemma OneFinished(live: seq<Live>, waiting: seq<(nat, nat)>, pending: set<(nat, nat)>, p: (nat, nat))
    requires Distinct(live) && p in pending && p in waiting && Place(live, p.0, p.1)
    ensures live[p.0].followers[p.1].Id() !in Finished(live, waiting, pending)
    ensures Finished(live, waiting, pending - {p})
            == Finished(live, waiting, pending) + {live[p.0].followers[p.1].Id()}
  {
    var (a, b) := (Finished(live, waiting, pending - {p}), Finished(live, waiting, pending));
    forall t | t in a ensures t in b + {live[p.0].followers[p.1].Id()} {}
    forall t | t in b ensures t in a {
      var q :| q in waiting && q !in pending && Place(live, q.0, q.1) && live[q.0].followers[q.1].Id() == t;
      assert q !in pending - {p};
    }
  }

  /** Drops the expectations that have had their time. */
  method Retain(es: seq<Expect>, now: nat) returns (kept: seq<Expect>)
    ensures kept == Unexpired(es, now)
  {
    kept := [];
    for k := 0 to |es|
      invariant kept + Unexpired(es[k..], now) == Unexpired(es, now)
    {
      assert es[k..][0] == es[k] && es[k..][1..] == es[k + 1..];
      if now - es[k].at < ECHO_TTL {
        kept := kept + [es[k]];
      }
    }
  }

  /** The position of the first expectation that `gain` answers, or the length. */
  method FirstMatch(kept: seq<Expect>, gain: real) returns (i: nat)
    ensures i == Match(kept, gain)
  {
    i := 0;
    while i < |kept| && Abs(kept[i].value - gain) >= EPSILON
      invariant 0 <= i <= |kept|
      invariant i + Match(kept[i..], gain) == Match(kept, gain)
    {
      assert kept[i..][0] == kept[i] && kept[i..][1..] == kept[i + 1..];
      i := i + 1;
    }
  }

  /** Clears one signal's books and takes the gain read - or the last one known - as its reference. */
  method LockSignal(l: Live, reading: Option<real>, now: nat) returns (row: Live)
    ensures row == LockRow(l, reading, now)
  {
    var fs: seq<Follower> := [];
    for j := 0 to |l.followers|
      invariant fs == Cleared(l.followers)[..j]
    {
      fs := fs + [l.followers[j].(applied := 0.0, owed := 0.0)];
    }
    assert fs == Cleared(l.followers);
    row := l.(followers := fs, reference := None);
    if l.ono.None? {
      return;
    }
    match reading
    case Some(gain) =>
      row := row.(gain := reading, expected := row.expected + [GainTable.Expect(gain, now)], reference := reading);
    case None =>
      row := row.(reference := l.gain);
  }

  lemma ChargedTrims(l: Live, delta: real)
    ensures forall gain :: TrimsOf(l.(gain := gain, followers := Charge(l.followers, delta))) == TrimsOf(l)
  {
    forall gain ensures TrimsOf(l.(gain := gain, followers := Charge(l.followers, delta))) == TrimsOf(l) {
      forall t | t in TrimsOf(l) ensures t in TrimsOf(l.(gain := gain, followers := Charge(l.followers, delta))) {
        var j :| 0 <= j < |l.followers| && l.followers[j].Id() == t;
        assert Charge(l.followers, delta)[j].Id() == t;
      }
    }
  }

  lemma SameIdsAgain(a: seq<Live>, b: seq<Live>, c: seq<Live>)
    requires SameIds(a, b) && SameIds(b, c)
    ensures SameIds(a, c)
  {}
}
