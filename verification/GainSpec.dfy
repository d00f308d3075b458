/** What each operation of the gain lock does, as functions from one state of the engine and the
    desks to the next. The engine's methods are proved against these; the laws of the gain lock
    are proved about them. */
module GainSpec {
  import opened Wrappers
  import opened Law
  import opened GainTable

  /** The engine's fields together with the desks it talks to. */
  datatype World = World(
    leader: string,
    locked: bool,
    signals: seq<Signal>,
    live: seq<Live>,
    down: set<string>,
    desks: Desks)

  // ---------------------------------------------------------------- echoes

  function Unexpired(es: seq<Expect>, now: nat): seq<Expect> {
    if es == [] then []
    else (if now - es[0].at < ECHO_TTL then [es[0]] else []) + Unexpired(es[1..], now)
  }

  /** The first entry within EPSILON of `gain`, or the length when there is none. */
  function Match(es: seq<Expect>, gain: real): (i: nat)
    ensures i <= |es|
    ensures i < |es| ==> Abs(es[i].value - gain) < EPSILON
    ensures forall k :: 0 <= k < i ==> Abs(es[k].value - gain) >= EPSILON
  {
    if es == [] || Abs(es[0].value - gain) < EPSILON then 0 else 1 + Match(es[1..], gain)
  }

  /** What hearing `gain` leaves expected, and whether it was an echo. */
  function Heard(es: seq<Expect>, gain: real, now: nat): (seq<Expect>, bool) {
    var kept := Unexpired(es, now);
    var i := Match(kept, gain);
    if i < |kept| then (kept[i + 1..], true) else ([], false)
  }

  function Expecting(l: Live, gain: real, now: nat): Live {
    l.(expected := l.expected + [Expect(gain, now)])
  }

  // ---------------------------------------------------------------- settling

  /** Whether a follower has enough owed, and a reachable desk, for a move to be sent. */
  predicate Offered(f: Follower, connected: set<string>, down: set<string>) {
    Abs(f.owed) >= EPSILON && f.device !in down && f.ono.Some? && f.device in connected
  }

  /** Whether the move sent for `f` is made: `answers` are the trims whose desks answer. */
  predicate Taken(f: Follower, desks: Desks, down: set<string>, answers: set<Trim>) {
    Offered(f, desks.connected, down) && f.Id() in answers && desks.Controls(f.Id())
  }

  /** Where the desk's own arithmetic puts a trim asked to move by `delta`. */
  function Landing(desks: Desks, t: Trim, delta: real): int
    requires desks.Controls(t)
  {
    var law := desks.kits[t.device].law;
    law.Index(law.At(desks.trims[t]) + delta)
  }

  /** The change a desk reports for such a move. */
  function Change(desks: Desks, t: Trim, delta: real): real
    requires desks.Controls(t)
  {
    Span(Landing(desks, t, delta) - desks.trims[t], desks.kits[t.device].law.step)
  }

  /** Books a change: what is left under EPSILON is written off. */
  function Booked(f: Follower, change: real): Follower {
    var left := f.owed - change;
    f.(applied := f.applied + change, owed := if Abs(left) < EPSILON then 0.0 else left)
  }

  function SettleFollower(f: Follower, desks: Desks, down: set<string>, answers: set<Trim>): Follower {
    if Taken(f, desks, down, answers) then Booked(f, Change(desks, f.Id(), f.owed)) else f
  }

  function SettleRow(l: Live, desks: Desks, down: set<string>, answers: set<Trim>, scope: set<Trim>): Live {
    l.(followers := seq(|l.followers|, j requires 0 <= j < |l.followers| =>
      if l.followers[j].Id() in scope then SettleFollower(l.followers[j], desks, down, answers)
      else l.followers[j]))
  }

  function SettleLive(w: World, answers: set<Trim>, scope: set<Trim>): seq<Live> {
    seq(|w.live|, i requires 0 <= i < |w.live| => SettleRow(w.live[i], w.desks, w.down, answers, scope))
  }

  function SettleTrims(w: World, answers: set<Trim>, scope: set<Trim>): map<Trim, int> {
    map t | t in w.desks.trims ::
      match Find(w.live, t)
      case Some(f) =>
        if t in scope && f.Id() == t && Taken(f, w.desks, w.down, answers) then Landing(w.desks, t, f.owed)
        else w.desks.trims[t]
      case None => w.desks.trims[t]
  }

  function SettleDown(w: World, answers: set<Trim>, scope: set<Trim>): set<string> {
    w.down + set t | t in scope && Find(w.live, t).Some?
                     && Offered(Find(w.live, t).value, w.desks.connected, w.down)
                     && !Taken(Find(w.live, t).value, w.desks, w.down, answers) :: t.device
  }

  /** One simultaneous round of moves for the followers in `scope`: their books, the desks found down, the trims. */
  function Settle(w: World, answers: set<Trim>, scope: set<Trim>): World {
    w.(live := SettleLive(w, answers, scope),
       down := SettleDown(w, answers, scope),
       desks := w.desks.(trims := SettleTrims(w, answers, scope)))
  }

  function TrimsOf(l: Live): set<Trim> {
    set j | 0 <= j < |l.followers| :: l.followers[j].Id()
  }

  function TrimsOn(live: seq<Live>, devices: set<string>): set<Trim> {
    set i, j | 0 <= i < |live| && 0 <= j < |live[i].followers| && live[i].followers[j].device in devices
      :: live[i].followers[j].Id()
  }

  // ---------------------------------------------------------------- a gain learnt

  function Charge(fs: seq<Follower>, delta: real): seq<Follower> {
    seq(|fs|, j requires 0 <= j < |fs| => fs[j].(owed := fs[j].owed - delta))
  }

  function WithLive(w: World, index: nat, l: Live): World
    requires index < |w.live|
  {
    w.(live := w.live[index := l])
  }

  /** Whether hearing `gain` is a leader move to compensate. */
  predicate IsMove(w: World, index: nat, gain: real)
    requires index < |w.live|
  {
    w.locked && w.live[index].Armed() && Abs(gain - w.live[index].gain.value) >= EPSILON
  }

  /** The gain is noted; while locked, the first one heard for a signal becomes its reference. */
  function Noted(w: World, index: nat, gain: real): World
    requires index < |w.live|
  {
    var l := w.live[index].(gain := Some(gain));
    WithLive(w, index, if w.locked && !w.live[index].Armed() then l.(reference := Some(gain)) else l)
  }

  /** The gain is noted and every follower of the signal is asked for the opposite move. */
  function Charged(w: World, index: nat, gain: real): World
    requires index < |w.live| && w.live[index].Armed()
  {
    var l := w.live[index];
    WithLive(w, index, l.(gain := Some(gain), followers := Charge(l.followers, gain - l.gain.value)))
  }

  /** The step every gain goes through, however it was learnt: charged and settled if it is a move, noted if not. */
  function Observe(w: World, index: nat, gain: real, answers: set<Trim>): World
    requires index < |w.live|
  {
    if IsMove(w, index, gain) then Settle(Charged(w, index, gain), answers, TrimsOf(w.live[index]))
    else Noted(w, index, gain)
  }

  /** Who answers the `k`-th round of moves; nobody, past the end. */
  function AnswersAt(answers: seq<set<Trim>>, k: nat): set<Trim> {
    if k < |answers| then answers[k] else {}
  }

  // ---------------------------------------------------------------- reports

  /** One value reported on the event stream; `None` when it is not a number. */
  datatype Report = Report(device: string, ono: nat, value: Option<real>)

  /** Keeps the latest gain for each signal, in the order the signals were first heard from. */
  function Latest(latest: seq<(nat, real)>, index: nat, gain: real): seq<(nat, real)> {
    if latest == [] then [(index, gain)]
    else if latest[0].0 == index then [(index, gain)] + latest[1..]
    else [latest[0]] + Latest(latest[1..], index, gain)
  }

  /** Settles the expectations of one signal hearing `gain` on object `ono`. */
  function HearRow(l: Live, ono: nat, gain: real, now: nat): Live {
    if l.ono == Some(ono) then l.(expected := Heard(l.expected, gain, now).0) else l
  }

  predicate Genuine(l: Live, ono: nat, gain: real, now: nat) {
    l.ono == Some(ono) && !Heard(l.expected, gain, now).1
  }

  /** Every signal from `i` on hears `gain` on `ono`. */
  function HearFrom(live: seq<Live>, latest: seq<(nat, real)>, ono: nat, gain: real, now: nat, i: nat)
    : (seq<Live>, seq<(nat, real)>)
    decreases |live| - i
  {
    if i >= |live| then (live, latest)
    else
      var l := live[i];
      HearFrom(live[i := HearRow(l, ono, gain, now)],
               if Genuine(l, ono, gain, now) then Latest(latest, i, gain) else latest,
               ono, gain, now, i + 1)
  }

  function HearAll(live: seq<Live>, latest: seq<(nat, real)>, leader: string, batch: seq<Report>, now: nat)
    : (seq<Live>, seq<(nat, real)>)
    decreases |batch|
  {
    if batch == [] then (live, latest)
    else
      var r := batch[0];
      if r.device != leader || r.value.None? then HearAll(live, latest, leader, batch[1..], now)
      else
        var (live', latest') := HearFrom(live, latest, r.ono, r.value.value, now, 0);
        HearAll(live', latest', leader, batch[1..], now)
  }

  function ObserveAll(w: World, latest: seq<(nat, real)>, answers: seq<set<Trim>>, k: nat): World
    decreases |latest|
  {
    if latest == [] then w
    else if latest[0].0 < |w.live| then
      ObserveAll(Observe(w, latest[0].0, latest[0].1, AnswersAt(answers, k)), latest[1..], answers, k + 1)
    else ObserveAll(w, latest[1..], answers, k + 1)
  }

  function OnEvents(w: World, batch: seq<Report>, now: nat, answers: seq<set<Trim>>): World {
    var (live, latest) := HearAll(w.live, [], w.leader, batch, now);
    ObserveAll(w.(live := live), latest, answers, 0)
  }

  // ---------------------------------------------------------------- reads, sets and retries

  function ReadAt(readings: seq<Option<real>>, i: nat): Option<real> {
    if i < |readings| then readings[i] else None
  }

  /** Reads the leader's gain for every signal from `i` on; an unread signal is left alone. */
  function PollFrom(w: World, readings: seq<Option<real>>, now: nat, answers: seq<set<Trim>>, i: nat): World
    decreases |w.live| - i
  {
    if i >= |w.live| then w
    else
      var l := w.live[i];
      if l.ono.None? || ReadAt(readings, i).None? then PollFrom(w, readings, now, answers, i + 1)
      else
        var gain := ReadAt(readings, i).value;
        PollFrom(Observe(WithLive(w, i, Expecting(l, gain, now)), i, gain, AnswersAt(answers, i)),
                 readings, now, answers, i + 1)
  }

  function Named(live: seq<Live>, name: string): (i: nat)
    ensures i <= |live|
    ensures i < |live| ==> live[i].name == name
    ensures forall k :: 0 <= k < i ==> live[k].name != name
  {
    if live == [] || live[0].name == name then 0 else 1 + Named(live[1..], name)
  }

  /** Whether the engine has a preamp to set for signal `name`. */
  predicate Settable(w: World, name: string) {
    Named(w.live, name) < |w.live| && w.live[Named(w.live, name)].ono.Some? && w.leader in w.desks.connected
  }

  function SetPreamp(w: World, name: string, gain: real, accepted: bool, now: nat, answers: set<Trim>): World {
    if !Settable(w, name) || !accepted then w
    else
      var i := Named(w.live, name);
      Observe(WithLive(w, i, Expecting(w.live[i], gain, now)), i, gain, answers)
  }

  /** The first follower found on `device`, walking the table in order. */
  function FirstOn(live: seq<Live>, device: string): Option<Follower> {
    if live == [] then None
    else if FirstIn(live[0].followers, device).Some? then FirstIn(live[0].followers, device)
    else FirstOn(live[1..], device)
  }

  function FirstIn(fs: seq<Follower>, device: string): Option<Follower> {
    if fs == [] then None else if fs[0].device == device then Some(fs[0]) else FirstIn(fs[1..], device)
  }

  /** The desks a retry reads: those whose first follower has an object to read. */
  function Probes(w: World): set<string> {
    set d | d in w.down && FirstOn(w.live, d).Some? && FirstOn(w.live, d).value.ono.Some? :: d
  }

  /** Settles every follower on the desks found answering again. */
  function Recover(w: World, back: set<string>, answers: set<Trim>): World {
    if !w.locked || back == {} then w
    else Settle(w.(down := w.down - back), answers, TrimsOn(w.live, back))
  }

  /** A retry that reads every probed desk, of which `answering` answer. */
  function Retry(w: World, answering: set<string>, answers: set<Trim>): World {
    Recover(w, Probes(w) * answering, answers)
  }

  // ---------------------------------------------------------------- locking and electing

  function LeaderPreamp(s: Signal, leader: string): Option<nat> {
    LeaderIn(s.members, leader)
  }

  function LeaderIn(ms: seq<Member>, leader: string): Option<nat> {
    if ms == [] then None else if ms[0].device == leader then ms[0].preamp else LeaderIn(ms[1..], leader)
  }

  function LeaderOno(preamp: Option<nat>, leader: string, desks: Desks): Option<nat> {
    if preamp.Some? && leader in desks.connected && leader in desks.kits
       && preamp.value in desks.kits[leader].preamps
    then Some(desks.kits[leader].preamps[preamp.value]) else None
  }

  function TrimOno(t: Trim, desks: Desks): Option<nat> {
    if t.device in desks.connected && t.device in desks.kits && t.input in desks.kits[t.device].controls
    then Some(desks.kits[t.device].controls[t.input]) else None
  }

  function Following(m: Member, carried: Option<Follower>, desks: Desks): Follower
    requires m.input.Some?
  {
    var t := Trim(m.device, m.input.value);
    Follower(t.device, t.input, TrimOno(t, desks),
             if carried.Some? then carried.value.applied else 0.0,
             if carried.Some? then carried.value.owed else 0.0)
  }

  /** Every member but the leader that has an input follows. */
  function Followers(ms: seq<Member>, leader: string, previous: seq<Follower>, desks: Desks): seq<Follower> {
    if ms == [] then []
    else
      var rest := Followers(ms[1..], leader, previous, desks);
      if ms[0].device == leader || ms[0].input.None? then rest
      else [Following(ms[0], FindIn(previous, Trim(ms[0].device, ms[0].input.value)), desks)] + rest
  }

  /** Rebuilds one signal's row, keeping what is known if the leader's preamp is the same one. */
  function ResolveRow(s: Signal, w: World): Live {
    var i := Named(w.live, s.name);
    var preamp := LeaderPreamp(s, w.leader);
    var ono := LeaderOno(preamp, w.leader, w.desks);
    if i < |w.live| && w.live[i].ono == ono && w.live[i].preamp == preamp then
      w.live[i].(followers := Followers(s.members, w.leader, w.live[i].followers, w.desks))
    else
      Live(s.name, preamp, ono, None, None,
           Followers(s.members, w.leader, if i < |w.live| then w.live[i].followers else [], w.desks), [])
  }

  function Resolve(w: World): World {
    w.(live := seq(|w.signals|, i requires 0 <= i < |w.signals| => ResolveRow(w.signals[i], w)))
  }

  function Cleared(fs: seq<Follower>): seq<Follower> {
    seq(|fs|, j requires 0 <= j < |fs| => fs[j].(applied := 0.0, owed := 0.0))
  }

  /** Takes the gain read - or failing that the last one reported - as the reference. */
  function LockRow(l: Live, read: Option<real>, now: nat): Live {
    var l := l.(followers := Cleared(l.followers), reference := None);
    if l.ono.None? then l
    else if read.Some? then Expecting(l, read.value, now).(gain := read, reference := read)
    else l.(reference := l.gain)
  }

  function Lock(w: World, readings: seq<Option<real>>, now: nat): World {
    var r := Resolve(w);
    r.(live := seq(|r.live|, i requires 0 <= i < |r.live| => LockRow(r.live[i], ReadAt(readings, i), now)),
       down := {}, locked := true)
  }

  predicate CanLead(signals: seq<Signal>, device: string) {
    exists i, j :: 0 <= i < |signals| && 0 <= j < |signals[i].members|
      && signals[i].members[j].device == device && signals[i].members[j].preamp.Some?
  }

  function Elect(w: World, device: string): World {
    if w.locked || !CanLead(w.signals, device) then w else Resolve(w.(leader := device))
  }
}
