/** Whole runs of the gain lock: every operation, every environment, in any order. */
module GainRun {
  import opened Wrappers
  import opened Law
  import opened GainTable
  import opened GainSpec
  import opened GainSettle

  /** One thing that happens. The fields beside the operation's own arguments are the
      environment's choices: what was read, whether a set was accepted, who answered. */
  datatype Step =
    | LockNow(readings: seq<Option<real>>, now: nat)
    | Unlock
    | ElectLeader(device: string)
    | SetGain(name: string, gain: real, accepted: bool, now: nat, who: set<Trim>)
    | Reports(batch: seq<Report>, now: nat, answers: seq<set<Trim>>)
    | Poll(readings: seq<Option<real>>, now: nat, answers: seq<set<Trim>>)
    | Back(back: set<string>, who: set<Trim>)
    | Surface(trim: Trim, index: int)
    | Link(connected: set<string>)

  /** An engineer's hand on a desk: only to a grid point its trim has. */
  function MoveByHand(desks: Desks, t: Trim, index: int): Desks {
    if desks.Controls(t) && 0 <= index <= desks.kits[t.device].law.Steps()
    then desks.(trims := desks.trims[t := index]) else desks
  }

  function Apply(s: Step, w: World): World {
    match s
    case LockNow(readings, now) => Lock(w, readings, now)
    case Unlock => w.(locked := false)
    case ElectLeader(device) => Elect(w, device)
    case SetGain(name, gain, accepted, now, who) => SetPreamp(w, name, gain, accepted, now, who)
    case Reports(batch, now, answers) => OnEvents(w, batch, now, answers)
    case Poll(readings, now, answers) => PollFrom(w, readings, now, answers, 0)
    case Back(back, who) => Recover(w, back, who)
    case Surface(t, index) => w.(desks := MoveByHand(w.desks, t, index))
    case Link(connected) => w.(desks := w.desks.(connected := connected * w.desks.kits.Keys))
  }

  function Run(steps: seq<Step>, w: World): World
    decreases |steps|
  {
    if steps == [] then w else Run(steps[1..], Apply(steps[0], w))
  }

  /** Where the desks' own engineers have each trim: its grid point when the system was last
      locked, carried along by every move made by hand since. */
  function Rebase(s: Step, w: World, base: map<Trim, int>): map<Trim, int> {
    match s
    case LockNow(_, _) => w.desks.trims
    case Surface(t, index) =>
      if t in base && t in w.desks.trims
      then base[t := base[t] + MoveByHand(w.desks, t, index).trims[t] - w.desks.trims[t]] else base
    case _ => base
  }

  function BaseAfter(steps: seq<Step>, w: World, base: map<Trim, int>): map<Trim, int>
    decreases |steps|
  {
    if steps == [] then base else BaseAfter(steps[1..], Apply(steps[0], w), Rebase(steps[0], w, base))
  }

  /** Two members that receive a signal on the same desk input would share a trim. */
  ghost predicate OneSourcePerTrim(signals: seq<Signal>) {
    forall i, j, k, l ::
      (0 <= i < |signals| && 0 <= j < |signals[i].members| && 0 <= k < |signals| && 0 <= l < |signals[k].members|
       && signals[i].members[j].input.Some? && signals[k].members[l].input.Some?
       && signals[i].members[j].device == signals[k].members[l].device
       && signals[i].members[j].input == signals[k].members[l].input)
      ==> i == k && j == l
  }

  // ---------------------------------------------------------------- the books of one signal

  /** The books of one follower agree with its desk, and start from nothing until armed. */
  ghost predicate BookOk(l: Live, f: Follower, desks: Desks, base: map<Trim, int>) {
    && (!l.Armed() ==> f.applied == 0.0 && f.owed == 0.0)
    && (f.ono.Some? ==> Agrees(desks, f, base))
  }

  ghost predicate Kept(w: World, base: map<Trim, int>) {
    w.locked ==> forall i, j :: Place(w.live, i, j) ==> BookOk(w.live[i], w.live[i].followers[j], w.desks, base)
  }

  ghost predicate Inv(w: World, base: map<Trim, int>) {
    && Sane(w)
    && OneSourcePerTrim(w.signals)
    && base.Keys == w.desks.trims.Keys
    && Kept(w, base)
  }

  /** How far the books of an armed follower are from exact compensation. */
  function Drift(l: Live, f: Follower): real
    requires l.Armed()
  {
    f.applied + f.owed + (l.gain.value - l.reference.value)
  }

  // ---------------------------------------------------------------- settling keeps the invariant

  lemma SettleBook(w: World, base: map<Trim, int>, answers: set<Trim>, scope: set<Trim>, i: int, j: int)
    requires Inv(w, base) && w.locked && Place(w.live, i, j)
    ensures var w' := Settle(w, answers, scope);
            Place(w'.live, i, j) && BookOk(w'.live[i], w'.live[i].followers[j], w'.desks, base)
  {
    hide SettleDown, Landing, Booked, Change, DbLaw.Index, DbLaw.At;
    var f := w.live[i].followers[j];
    var w' := Settle(w, answers, scope);
    SettleAt(w, answers, scope, i, j);
    SettleShape(w, answers, scope);
    SettleTrimsSound(w, answers, scope);
    assert BookOk(w.live[i], f, w.desks, base);
    if f.Id() in scope && Taken(f, w.desks, w.down, answers) {
      TakenMove(w.desks, f, base, w'.desks, w'.live[i].followers[j]);
    }
  }

  lemma SettleInv(w: World, base: map<Trim, int>, answers: set<Trim>, scope: set<Trim>)
    requires Inv(w, base)
    ensures Inv(Settle(w, answers, scope), base)
  {
    SettleSane(w, answers, scope);
    var w' := Settle(w, answers, scope);
    if w.locked {
      forall i, j | Place(w'.live, i, j)
        ensures BookOk(w'.live[i], w'.live[i].followers[j], w'.desks, base)
      {
        assert Place(w.live, i, j);
        SettleBook(w, base, answers, scope, i, j);
      }
    }
  }

  /** Replacing one row by one whose followers keep their identity and what they have applied. */
  lemma RowInv(w: World, base: map<Trim, int>, index: nat, l: Live)
    requires Inv(w, base) && index < |w.live|
    requires |l.followers| == |w.live[index].followers|
    requires forall j :: 0 <= j < |l.followers| ==>
               l.followers[j] == w.live[index].followers[j].(owed := l.followers[j].owed)
    requires forall j :: 0 <= j < |l.followers| && !l.Armed() ==> l.followers[j] == w.live[index].followers[j]
    requires w.live[index].Armed() ==> l.Armed()
    ensures Inv(WithLive(w, index, l), base)
  {
    var w' := WithLive(w, index, l);
    assert SameIds(w.live, w'.live);
    SaneKept(w, w');
    if w.locked {
      forall i, j | Place(w'.live, i, j)
        ensures BookOk(w'.live[i], w'.live[i].followers[j], w'.desks, base)
      {
        assert Place(w.live, i, j);
        assert BookOk(w.live[i], w.live[i].followers[j], w.desks, base);
      }
    }
  }

  lemma ObserveInv(w: World, base: map<Trim, int>, index: nat, gain: real, answers: set<Trim>)
    requires Inv(w, base) && index < |w.live|
    ensures Inv(Observe(w, index, gain, answers), base)
  {
    if IsMove(w, index, gain) {
      ChargedInv(w, base, index, gain);
      SettleInv(Charged(w, index, gain), base, answers, TrimsOf(w.live[index]));
    } else {
      NotedInv(w, base, index, gain);
    }
  }

  lemma ChargedInv(w: World, base: map<Trim, int>, index: nat, gain: real)
    requires Inv(w, base) && index < |w.live| && w.live[index].Armed()
    ensures Inv(Charged(w, index, gain), base)
  {
    var l := w.live[index];
    RowInv(w, base, index, l.(gain := Some(gain), followers := Charge(l.followers, gain - l.gain.value)));
  }

  lemma NotedInv(w: World, base: map<Trim, int>, index: nat, gain: real)
    requires Inv(w, base) && index < |w.live|
    ensures Inv(Noted(w, index, gain), base)
  {
    var l := w.live[index].(gain := Some(gain));
    if !w.locked {
      UnlockedRow(w, base, index, l);
    } else if !w.live[index].Armed() {
      RowInv(w, base, index, l.(reference := Some(gain)));
    } else {
      RowInv(w, base, index, l);
    }
  }

  lemma UnlockedRow(w: World, base: map<Trim, int>, index: nat, l: Live)
    requires Inv(w, base) && index < |w.live| && !w.locked
    requires l.followers == w.live[index].followers
    ensures Inv(WithLive(w, index, l), base)
  {
    assert SameIds(w.live, WithLive(w, index, l).live);
    SaneKept(w, WithLive(w, index, l));
  }

  // ---------------------------------------------------------------- each operation keeps it

  /** Expectations are no part of the books. */
  lemma ExpectInv(w: World, base: map<Trim, int>, index: nat, es: seq<Expect>)
    requires Inv(w, base) && index < |w.live|
    ensures Inv(WithLive(w, index, w.live[index].(expected := es)), base)
  {
    RowInv(w, base, index, w.live[index].(expected := es));
  }

  lemma {:induction false} HearFromInv(w: World, base: map<Trim, int>, latest: seq<(nat, real)>, ono: nat,
                                       gain: real, now: nat, i: nat)
    requires Inv(w, base)
    ensures var (live', _) := HearFrom(w.live, latest, ono, gain, now, i);
            Inv(w.(live := live'), base) && |live'| == |w.live|
    decreases |w.live| - i
  {
    if i < |w.live| {
      var l := w.live[i];
      ExpectInv(w, base, i, HearRow(l, ono, gain, now).expected);
      assert HearRow(l, ono, gain, now) == l.(expected := HearRow(l, ono, gain, now).expected);
      HearFromInv(WithLive(w, i, HearRow(l, ono, gain, now)), base,
                  if Genuine(l, ono, gain, now) then Latest(latest, i, gain) else latest, ono, gain, now, i + 1);
    } else {
      assert w.(live := w.live) == w;
    }
  }

  lemma {:induction false} HearAllInv(w: World, base: map<Trim, int>, latest: seq<(nat, real)>, batch: seq<Report>,
                                      now: nat)
    requires Inv(w, base)
    ensures var (live', _) := HearAll(w.live, latest, w.leader, batch, now);
            Inv(w.(live := live'), base) && |live'| == |w.live|
    decreases |batch|
  {
    if batch == [] {
      assert w.(live := w.live) == w;
    } else {
      var r := batch[0];
      if r.device != w.leader || r.value.None? {
        HearAllInv(w, base, latest, batch[1..], now);
      } else {
        HearFromInv(w, base, latest, r.ono, r.value.value, now, 0);
        var (live', latest') := HearFrom(w.live, latest, r.ono, r.value.value, now, 0);
        HearAllInv(w.(live := live'), base, latest', batch[1..], now);
      }
    }
  }

  lemma {:induction false} ObserveAllInv(w: World, base: map<Trim, int>, latest: seq<(nat, real)>,
                                         answers: seq<set<Trim>>, k: nat)
    requires Inv(w, base)
    ensures Inv(ObserveAll(w, latest, answers, k), base)
    decreases |latest|
  {
    if latest != [] {
      if latest[0].0 < |w.live| {
        ObserveInv(w, base, latest[0].0, latest[0].1, AnswersAt(answers, k));
        ObserveAllInv(Observe(w, latest[0].0, latest[0].1, AnswersAt(answers, k)), base, latest[1..], answers, k + 1);
      } else {
        ObserveAllInv(w, base, latest[1..], answers, k + 1);
      }
    }
  }

  lemma {:induction false} PollInv(w: World, base: map<Trim, int>, readings: seq<Option<real>>, now: nat,
                                   answers: seq<set<Trim>>, i: nat)
    requires Inv(w, base)
    ensures Inv(PollFrom(w, readings, now, answers, i), base)
    decreases |w.live| - i
  {
    if i < |w.live| {
      var l := w.live[i];
      if l.ono.None? || ReadAt(readings, i).None? {
        PollInv(w, base, readings, now, answers, i + 1);
      } else {
        var gain := ReadAt(readings, i).value;
        ExpectInv(w, base, i, Expecting(l, gain, now).expected);
        var v := WithLive(w, i, Expecting(l, gain, now));
        ObserveInv(v, base, i, gain, AnswersAt(answers, i));
        PollInv(Observe(v, i, gain, AnswersAt(answers, i)), base, readings, now, answers, i + 1);
      }
    }
  }

  // ---------------------------------------------------------------- resolving keeps one source per trim

  /** Where a follower built from `ms` came from. */
  lemma {:induction false} FollowerFrom(ms: seq<Member>, leader: string, previous: seq<Follower>, desks: Desks, j: nat)
    returns (m: nat)
    requires j < |Followers(ms, leader, previous, desks)|
    ensures m < |ms| && ms[m].input.Some? && ms[m].device != leader
    ensures var f := Followers(ms, leader, previous, desks)[j];
            f.Id() == Trim(ms[m].device, ms[m].input.value) && f.ono == TrimOno(f.Id(), desks)
  {
    if ms[0].device == leader || ms[0].input.None? {
      m := FollowerFrom(ms[1..], leader, previous, desks, j);
      m := m + 1;
    } else if j == 0 {
      m := 0;
    } else {
      m := FollowerFrom(ms[1..], leader, previous, desks, j - 1);
      m := m + 1;
    }
  }

  /** Followers built from members with distinct inputs are distinct. */
  lemma {:induction false} FollowersDistinct(ms: seq<Member>, leader: string, previous: seq<Follower>, desks: Desks,
                                             j: nat, k: nat)
    requires j < k < |Followers(ms, leader, previous, desks)|
    requires forall a, b ::
      (0 <= a < b < |ms| && ms[a].input.Some? && ms[b].input.Some? && ms[a].device == ms[b].device)
      ==> ms[a].input != ms[b].input
    ensures Followers(ms, leader, previous, desks)[j].Id() != Followers(ms, leader, previous, desks)[k].Id()
  {
    var rest := Followers(ms[1..], leader, previous, desks);
    if ms[0].device == leader || ms[0].input.None? {
      FollowersDistinct(ms[1..], leader, previous, desks, j, k);
    } else if j > 0 {
      FollowersDistinct(ms[1..], leader, previous, desks, j - 1, k - 1);
    } else {
      var m := FollowerFrom(ms[1..], leader, previous, desks, k - 1);
      assert ms[1..][m] == ms[m + 1];
    }
  }

  lemma ResolvePlace(w: World, i: int, j: int) returns (m: nat)
    requires Place(Resolve(w).live, i, j)
    ensures 0 <= i < |w.signals| && m < |w.signals[i].members|
    ensures w.signals[i].members[m].input.Some? && w.signals[i].members[m].device != w.leader
    ensures var (f, q) := (Resolve(w).live[i].followers[j], w.signals[i].members[m]);
            f.Id() == Trim(q.device, q.input.value) && f.ono == TrimOno(f.Id(), w.desks)
  {
    var k := Named(w.live, w.signals[i].name);
    var previous := if k < |w.live| then w.live[k].followers else [];
    assert Resolve(w).live[i].followers == Followers(w.signals[i].members, w.leader, previous, w.desks);
    m := FollowerFrom(w.signals[i].members, w.leader, previous, w.desks, j);
  }

  lemma SameRowDistinct(w: World, i: int, j: int, l: int)
    requires OneSourcePerTrim(w.signals)
    requires Place(Resolve(w).live, i, j) && Place(Resolve(w).live, i, l) && j < l
    ensures Resolve(w).live[i].followers[j].Id() != Resolve(w).live[i].followers[l].Id()
  {
    var k := Named(w.live, w.signals[i].name);
    var previous := if k < |w.live| then w.live[k].followers else [];
    FollowersDistinct(w.signals[i].members, w.leader, previous, w.desks, j, l);
  }

  lemma ResolveSane(w: World)
    requires w.desks.Sound() && OneSourcePerTrim(w.signals)
    ensures Sane(Resolve(w))
  {
    var live := Resolve(w).live;
    forall i, j, k, l | Place(live, i, j) && Place(live, k, l)
      && live[i].followers[j].Id() == live[k].followers[l].Id()
      ensures i == k && j == l
    {
      var m := ResolvePlace(w, i, j);
      var n := ResolvePlace(w, k, l);
      if j < l { SameRowDistinct(w, i, j, l); }
      if l < j { SameRowDistinct(w, i, l, j); }
    }
    forall i, j | Place(live, i, j)
      ensures live[i].followers[j].device != w.leader
      ensures live[i].followers[j].ono.Some? ==> live[i].followers[j].Id() in w.desks.trims
    {
      var m := ResolvePlace(w, i, j);
    }
  }

  lemma LockInv(w: World, readings: seq<Option<real>>, now: nat)
    requires w.desks.Sound() && OneSourcePerTrim(w.signals)
    ensures Inv(Lock(w, readings, now), w.desks.trims)
  {
    hide ResolveRow;
    ResolveSane(w);
    var r := Resolve(w);
    var w' := Lock(w, readings, now);
    assert SameIds(r.live, w'.live);
    SaneKept(r, w');
    forall i, j | Place(w'.live, i, j)
      ensures BookOk(w'.live[i], w'.live[i].followers[j], w'.desks, w.desks.trims)
    {
      assert Place(r.live, i, j);
      var f := w'.live[i].followers[j];
      assert w'.live[i].followers == Cleared(r.live[i].followers);
      if f.ono.Some? {
        SpanApart(0, 0, w.desks.kits[f.device].law.step);
      }
    }
  }

  lemma MoveByHandSound(desks: Desks, t: Trim, index: int)
    requires desks.Sound()
    ensures MoveByHand(desks, t, index).Sound()
    ensures MoveByHand(desks, t, index).trims.Keys == desks.trims.Keys
  {}

  lemma SurfaceInv(w: World, base: map<Trim, int>, t: Trim, index: int)
    requires Inv(w, base)
    ensures Inv(Apply(Surface(t, index), w), Rebase(Surface(t, index), w, base))
  {
    hide Span, OneSourcePerTrim, DbLaw.Steps, DbLaw.Whole;
    MoveByHandSound(w.desks, t, index);
    var w' := Apply(Surface(t, index), w);
    var base' := Rebase(Surface(t, index), w, base);
    SaneKept(w, w');
    if w.locked {
      forall i, j | Place(w'.live, i, j)
        ensures BookOk(w'.live[i], w'.live[i].followers[j], w'.desks, base')
      {
        assert BookOk(w.live[i], w.live[i].followers[j], w.desks, base);
      }
    }
  }

  lemma StepInv(s: Step, w: World, base: map<Trim, int>)
    requires Inv(w, base)
    ensures Inv(Apply(s, w), Rebase(s, w, base))
  {
    match s
    case LockNow(readings, now) => LockInv(w, readings, now);
    case Unlock =>
    case ElectLeader(device) =>
      if !w.locked && CanLead(w.signals, device) { ResolveSane(w.(leader := device)); }
    case SetGain(name, gain, accepted, now, who) =>
      if Settable(w, name) && accepted {
        var i := Named(w.live, name);
        ExpectInv(w, base, i, Expecting(w.live[i], gain, now).expected);
        ObserveInv(WithLive(w, i, Expecting(w.live[i], gain, now)), base, i, gain, who);
      }
    case Reports(batch, now, answers) =>
      HearAllInv(w, base, [], batch, now);
      var (live', latest) := HearAll(w.live, [], w.leader, batch, now);
      ObserveAllInv(w.(live := live'), base, latest, answers, 0);
    case Poll(readings, now, answers) => PollInv(w, base, readings, now, answers, 0);
    case Back(back, who) =>
      if w.locked && back != {} {
        assert Inv(w.(down := w.down - back), base);
        SettleInv(w.(down := w.down - back), base, who, TrimsOn(w.live, back));
      }
    case Surface(t, index) => SurfaceInv(w, base, t, index);
    case Link(connected) =>
  }

  /** Every run: the books of every follower stay in step with its desk, whatever is read,
      reported, set, refused, lost or moved by hand. */
  lemma {:induction false} RunInv(steps: seq<Step>, w: World, base: map<Trim, int>)
    requires Inv(w, base)
    ensures Inv(Run(steps, w), BaseAfter(steps, w, base))
    decreases |steps|
  {
    if steps != [] {
      StepInv(steps[0], w, base);
      RunInv(steps[1..], Apply(steps[0], w), Rebase(steps[0], w, base));
    }
  }
}
