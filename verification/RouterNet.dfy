/** The Router's echo suppression as a protocol: any number of listeners handling reports at once,
    over any mapping graph, each lock-protected piece of an event's handling one atomic step. */
module RouterNet {
  import opened Wrappers

  datatype OcaValue = F32(real) | I32(int) | Bool(bool) | Text(string)

  datatype Addr = Addr(device: string, ono: nat)

  datatype Mapping = Mapping(origin: Addr, to: Addr, bidirectional: bool)

  /** One device's report that an object now has a value. */
  datatype Event = Event(addr: Addr, value: OcaValue)

  /** Where events from `addr` are forwarded, in mapping order. */
  function Peers(ms: seq<Mapping>, addr: Addr): seq<Addr> {
    if ms == [] then []
    else if ms[0].origin == addr then [ms[0].to] + Peers(ms[1..], addr)
    else if ms[0].bidirectional && ms[0].to == addr then [ms[0].origin] + Peers(ms[1..], addr)
    else Peers(ms[1..], addr)
  }

  /** An event being handled: the peers still to look at, and the one being set. */
  datatype Task = Task(source: Addr, value: OcaValue, todo: seq<Addr>, setting: Option<Addr>)

  datatype Table = Table(registered: set<string>, mappings: seq<Mapping>)

  /** The Router and everything around it: `known` is its shared map, `events` the reports no
      listener has taken yet, `held` what the devices really hold, `sets` every set issued so far
      and `failed` the addresses a set failed on. */
  datatype Net = Net(
    table: Table,
    known: map<Addr, OcaValue>,
    events: seq<Event>,
    tasks: seq<Task>,
    held: map<Addr, OcaValue>,
    sets: seq<Addr>,
    failed: set<Addr>)

  /** Some listener takes the `k`-th report, or takes its task a step further; a set that succeeds
      is confirmed on the wire `confirms` times. */
  datatype Choice = Begin(k: nat) | Turn(k: nat, ok: bool, confirms: nat)

  predicate Holds(known: map<Addr, OcaValue>, a: Addr, v: OcaValue) {
    a in known && known[a] == v
  }

  function Without<T>(s: seq<T>, k: nat): seq<T>
    requires k < |s|
  {
    s[..k] + s[k + 1..]
  }

  function Repeat(e: Event, n: nat): (r: seq<Event>)
    ensures |r| == n && forall i :: 0 <= i < n ==> r[i] == e
  {
    if n == 0 then [] else [e] + Repeat(e, n - 1)
  }

  /** The value reported is recorded, whoever caused it. */
  function Record(n: Net, k: nat): Net
    requires k < |n.events|
  {
    var e := n.events[k];
    n.(events := Without(n.events, k),
       known := n.known[e.addr := e.value],
       tasks := n.tasks + [Task(e.addr, e.value, Peers(n.table.mappings, e.addr), None)])
  }

  /** The next peer is skipped if unregistered or already holding the value, and claimed otherwise. */
  function Claim(n: Net, k: nat): Net
    requires k < |n.tasks| && n.tasks[k].setting.None? && n.tasks[k].todo != []
  {
    var t := n.tasks[k];
    var p := t.todo[0];
    var next := t.(todo := t.todo[1..]);
    if p.device !in n.table.registered || Holds(n.known, p, t.value) then n.(tasks := n.tasks[k := next])
    else n.(known := n.known[p := t.value], tasks := n.tasks[k := next.(setting := Some(p))])
  }

  /** The set issued for a claimed peer comes back. */
  function Finish(n: Net, k: nat, ok: bool, confirms: nat): Net
    requires k < |n.tasks| && n.tasks[k].setting.Some?
  {
    var t := n.tasks[k];
    var p := t.setting.value;
    var n' := n.(tasks := n.tasks[k := t.(setting := None)], sets := n.sets + [p]);
    if ok then n'.(held := n.held[p := t.value], events := n.events + Repeat(Event(p, t.value), confirms))
    else n'.(failed := n.failed + {p})
  }

  /** A device has one listener, which takes its reports in order and one at a time. */
  predicate NextInLine(n: Net, k: nat) {
    && k < |n.events|
    && (forall j :: 0 <= j < k ==> n.events[j].addr.device != n.events[k].addr.device)
    && (forall j :: 0 <= j < |n.tasks| ==> n.tasks[j].source.device != n.events[k].addr.device)
  }

  /** Whether the choice can be made, with at most `limit` confirmations of a set. */
  predicate Enabled(n: Net, c: Choice, limit: nat) {
    match c
    case Begin(k) => NextInLine(n, k)
    case Turn(k, _, confirms) => k < |n.tasks| && confirms <= limit
  }

  function Next(n: Net, c: Choice): Net
    requires Enabled(n, c, if c.Turn? then c.confirms else 0)
  {
    match c
    case Begin(k) => Record(n, k)
    case Turn(k, ok, confirms) =>
      if n.tasks[k].setting.Some? then Finish(n, k, ok, confirms)
      else if n.tasks[k].todo != [] then Claim(n, k)
      else n.(tasks := Without(n.tasks, k))
  }

  ghost predicate Legal(n: Net, cs: seq<Choice>, limit: nat)
    decreases |cs|
  {
    cs == [] || (Enabled(n, cs[0], limit) && Legal(Next(n, cs[0]), cs[1..], limit))
  }

  function Run(n: Net, cs: seq<Choice>, limit: nat): Net
    requires Legal(n, cs, limit)
    decreases |cs|
  {
    if cs == [] then n else Run(Next(n, cs[0]), cs[1..], limit)
  }

  lemma {:induction false} RunSplit(n: Net, cs: seq<Choice>, ds: seq<Choice>, limit: nat)
    requires Legal(n, cs, limit) && Legal(Run(n, cs, limit), ds, limit)
    ensures Legal(n, cs + ds, limit) && Run(n, cs + ds, limit) == Run(Run(n, cs, limit), ds, limit)
    decreases |cs|
  {
    if cs == [] {
      assert cs + ds == ds;
    } else {
      assert (cs + ds)[0] == cs[0] && (cs + ds)[1..] == cs[1..] + ds;
      RunSplit(Next(n, cs[0]), cs[1..], ds, limit);
    }
  }

  predicate Quiescent(n: Net) {
    n.events == [] && n.tasks == []
  }

  // ---------------------------------------------------------------- one value in flight

  /** Every report and every task carries `v`, and every address a task touches is mapped. */
  ghost predicate OneValue(n: Net, v: OcaValue) {
    && (forall k :: 0 <= k < |n.events| ==> n.events[k].value == v)
    && (forall k :: 0 <= k < |n.tasks| ==> n.tasks[k].value == v && AllMapped(n.table.mappings, n.tasks[k].todo))
  }

  function Mapped(ms: seq<Mapping>): set<Addr> {
    if ms == [] then {} else {ms[0].origin, ms[0].to} + Mapped(ms[1..])
  }

  ghost predicate AllMapped(ms: seq<Mapping>, todo: seq<Addr>) {
    forall k :: 0 <= k < |todo| ==> todo[k] in Mapped(ms)
  }

  lemma {:induction false} PeersMapped(ms: seq<Mapping>, a: Addr)
    ensures AllMapped(ms, Peers(ms, a)) && |Peers(ms, a)| <= |ms|
  {
    if ms != [] {
      PeersMapped(ms[1..], a);
      var rest := Peers(ms[1..], a);
      forall k | 0 <= k < |Peers(ms, a)| ensures Peers(ms, a)[k] in Mapped(ms) {
        if Peers(ms, a) != rest {
          if k > 0 { assert Peers(ms, a)[k] == rest[k - 1]; }
        }
      }
    }
  }

  lemma OneValueStep(n: Net, c: Choice, v: OcaValue, limit: nat)
    requires OneValue(n, v) && Enabled(n, c, limit)
    ensures OneValue(Next(n, c), v) && Next(n, c).table == n.table
  {
    match c
    case Begin(k) =>
      PeersMapped(n.table.mappings, n.events[k].addr);
    case Turn(k, ok, confirms) =>
  }

  // ---------------------------------------------------------------- containment and termination

  /** Mapped addresses not yet known to hold `v`. */
  function Unclaimed(n: Net, v: OcaValue): set<Addr> {
    set a | a in Mapped(n.table.mappings) && !Holds(n.known, a, v)
  }

  function EventCost(n: Net): nat {
    |n.table.mappings| + 2
  }

  /** What one set can still cost: its own completion and the reports confirming it. */
  function SetCost(n: Net, limit: nat): nat {
    1 + limit * EventCost(n)
  }

  function TaskCost(t: Task, setCost: nat): nat {
    1 + |t.todo| + if t.setting.Some? then setCost else 0
  }

  function TasksCost(ts: seq<Task>, setCost: nat): nat {
    if ts == [] then 0 else TaskCost(ts[0], setCost) + TasksCost(ts[1..], setCost)
  }

  /** An upper bound on the steps left. */
  function Work(n: Net, v: OcaValue, limit: nat): nat {
    |Unclaimed(n, v)| * SetCost(n, limit) + |n.events| * EventCost(n) + TasksCost(n.tasks, SetCost(n, limit))
  }

  lemma {:induction false} TasksCostUpdate(ts: seq<Task>, k: nat, t: Task, c: nat)
    requires k < |ts|
    ensures TasksCost(ts[k := t], c) == TasksCost(ts, c) - TaskCost(ts[k], c) + TaskCost(t, c)
  {
    if k > 0 {
      assert ts[k := t][1..] == ts[1..][k - 1 := t];
      TasksCostUpdate(ts[1..], k - 1, t, c);
    } else {
      assert ts[k := t][1..] == ts[1..];
    }
  }

  lemma {:induction false} TasksCostWithout(ts: seq<Task>, k: nat, c: nat)
    requires k < |ts|
    ensures TasksCost(Without(ts, k), c) == TasksCost(ts, c) - TaskCost(ts[k], c)
  {
    if k > 0 {
      assert Without(ts, k)[0] == ts[0] && Without(ts, k)[1..] == Without(ts[1..], k - 1);
      TasksCostWithout(ts[1..], k - 1, c);
    } else {
      assert Without(ts, k) == ts[1..];
    }
  }

  lemma {:induction false} TasksCostAppend(ts: seq<Task>, t: Task, c: nat)
    ensures TasksCost(ts + [t], c) == TasksCost(ts, c) + TaskCost(t, c)
  {
    if ts != [] {
      assert (ts + [t])[1..] == ts[1..] + [t];
      TasksCostAppend(ts[1..], t, c);
    } else {
      assert (ts + [t])[1..] == [];
    }
  }

  lemma Fewer(a: nat, b: nat, c: nat)
    requires a <= b
    ensures a * c <= b * c
  {}

  lemma RecordWorks(n: Net, k: nat, v: OcaValue, limit: nat)
    requires OneValue(n, v) && k < |n.events|
    ensures Work(Record(n, k), v, limit) < Work(n, v, limit)
  {
    var n' := Record(n, k);
    var e := n.events[k];
    PeersMapped(n.table.mappings, e.addr);
    TasksCostAppend(n.tasks, Task(e.addr, e.value, Peers(n.table.mappings, e.addr), None), SetCost(n, limit));
    assert Unclaimed(n', v) <= Unclaimed(n, v);
    SubsetSize(Unclaimed(n', v), Unclaimed(n, v));
    Fewer(|Unclaimed(n', v)|, |Unclaimed(n, v)|, SetCost(n, limit));
    assert |n'.events| * EventCost(n) == |n.events| * EventCost(n) - EventCost(n);
  }

  lemma SubsetSize(a: set<Addr>, b: set<Addr>)
    requires a <= b
    ensures |a| <= |b|
  {
    assert b == a + (b - a);
  }

  lemma ClaimWorks(n: Net, k: nat, v: OcaValue, limit: nat)
    requires OneValue(n, v) && k < |n.tasks| && n.tasks[k].setting.None? && n.tasks[k].todo != []
    ensures Work(Claim(n, k), v, limit) < Work(n, v, limit)
  {
    var n' := Claim(n, k);
    var p := n.tasks[k].todo[0];
    var c := SetCost(n, limit);
    TasksCostUpdate(n.tasks, k, n'.tasks[k], c);
    if p.device in n.table.registered && !Holds(n.known, p, v) {
      assert Unclaimed(n', v) == Unclaimed(n, v) - {p};
      assert (|Unclaimed(n, v)| - 1) * c == |Unclaimed(n, v)| * c - c;
    } else {
      assert Unclaimed(n', v) == Unclaimed(n, v);
    }
  }

  lemma FinishWorks(n: Net, k: nat, ok: bool, confirms: nat, v: OcaValue, limit: nat)
    requires OneValue(n, v) && k < |n.tasks| && n.tasks[k].setting.Some? && confirms <= limit
    ensures Work(Finish(n, k, ok, confirms), v, limit) < Work(n, v, limit)
  {
    var n' := Finish(n, k, ok, confirms);
    TasksCostUpdate(n.tasks, k, n'.tasks[k], SetCost(n, limit));
    assert Unclaimed(n', v) == Unclaimed(n, v);
    Fewer(confirms, limit, EventCost(n));
    assert (|n.events| + confirms) * EventCost(n) == |n.events| * EventCost(n) + confirms * EventCost(n);
  }

  lemma StepWorks(n: Net, c: Choice, v: OcaValue, limit: nat)
    requires OneValue(n, v) && Enabled(n, c, limit)
    ensures Work(Next(n, c), v, limit) < Work(n, v, limit)
  {
    match c
    case Begin(k) => RecordWorks(n, k, v, limit);
    case Turn(k, ok, confirms) =>
      if n.tasks[k].setting.Some? {
        FinishWorks(n, k, ok, confirms, v, limit);
      } else if n.tasks[k].todo != [] {
        ClaimWorks(n, k, v, limit);
      } else {
        TasksCostWithout(n.tasks, k, SetCost(n, limit));
        assert Unclaimed(Next(n, c), v) == Unclaimed(n, v);
      }
  }

  /** Every run with one value in flight ends, within a bound known before it starts: however the
      listeners interleave, however many times - up to `limit` - each set is reported back, and
      whatever cycles the mapping graph has. */
  lemma {:induction false} RunsEnd(n: Net, cs: seq<Choice>, v: OcaValue, limit: nat)
    requires OneValue(n, v) && Legal(n, cs, limit)
    ensures |cs| <= Work(n, v, limit)
    decreases |cs|
  {
    if cs != [] {
      StepWorks(n, cs[0], v, limit);
      OneValueStep(n, cs[0], v, limit);
      RunsEnd(Next(n, cs[0]), cs[1..], v, limit);
    }
  }

  // ---------------------------------------------------------------- at most one set per address

  function Count(s: seq<Addr>, a: Addr): nat {
    if s == [] then 0 else (if s[0] == a then 1 else 0) + Count(s[1..], a)
  }

  function CountSetting(ts: seq<Task>, a: Addr): nat {
    if ts == [] then 0 else (if ts[0].setting == Some(a) then 1 else 0) + CountSetting(ts[1..], a)
  }

  /** Sets issued to `a`, or about to be. */
  function Issued(n: Net, a: Addr): nat {
    Count(n.sets, a) + CountSetting(n.tasks, a)
  }

  function Credit(n: Net, a: Addr, v: OcaValue): nat {
    Issued(n, a) + if Holds(n.known, a, v) then 0 else 1
  }

  lemma {:induction false} CountAppend(s: seq<Addr>, x: Addr, a: Addr)
    ensures Count(s + [x], a) == Count(s, a) + if x == a then 1 else 0
  {
    if s != [] {
      assert (s + [x])[1..] == s[1..] + [x];
      CountAppend(s[1..], x, a);
    } else {
      assert (s + [x])[1..] == [];
    }
  }

  lemma {:induction false} SettingUpdate(ts: seq<Task>, k: nat, t: Task, a: Addr)
    requires k < |ts|
    ensures CountSetting(ts[k := t], a)
            == CountSetting(ts, a) - (if ts[k].setting == Some(a) then 1 else 0)
               + (if t.setting == Some(a) then 1 else 0)
  {
    if k > 0 {
      assert ts[k := t][1..] == ts[1..][k - 1 := t];
      SettingUpdate(ts[1..], k - 1, t, a);
    } else {
      assert ts[k := t][1..] == ts[1..];
    }
  }

  lemma {:induction false} SettingWithout(ts: seq<Task>, k: nat, a: Addr)
    requires k < |ts|
    ensures CountSetting(Without(ts, k), a) == CountSetting(ts, a) - if ts[k].setting == Some(a) then 1 else 0
  {
    if k > 0 {
      assert Without(ts, k)[0] == ts[0] && Without(ts, k)[1..] == Without(ts[1..], k - 1);
      SettingWithout(ts[1..], k - 1, a);
    } else {
      assert Without(ts, k) == ts[1..];
    }
  }

  lemma {:induction false} SettingAppend(ts: seq<Task>, t: Task, a: Addr)
    ensures CountSetting(ts + [t], a) == CountSetting(ts, a) + if t.setting == Some(a) then 1 else 0
  {
    if ts != [] {
      assert (ts + [t])[1..] == ts[1..] + [t];
      SettingAppend(ts[1..], t, a);
    } else {
      assert (ts + [t])[1..] == [];
    }
  }

  lemma StepCredit(n: Net, c: Choice, v: OcaValue, limit: nat, a: Addr)
    requires OneValue(n, v) && Enabled(n, c, limit)
    ensures Credit(Next(n, c), a, v) <= Credit(n, a, v)
  {
    hide Count, CountSetting, Peers, Repeat, Mapped, AllMapped, Without;
    var n' := Next(n, c);
    match c
    case Begin(k) => SettingAppend(n.tasks, n'.tasks[|n.tasks|], a);
    case Turn(k, ok, confirms) =>
      if n.tasks[k].setting.Some? {
        SettingUpdate(n.tasks, k, n'.tasks[k], a);
        CountAppend(n.sets, n.tasks[k].setting.value, a);
      } else if n.tasks[k].todo != [] {
        SettingUpdate(n.tasks, k, n'.tasks[k], a);
      } else {
        SettingWithout(n.tasks, k, a);
      }
  }

  lemma {:induction false} RunCredit(n: Net, cs: seq<Choice>, v: OcaValue, limit: nat, a: Addr)
    requires OneValue(n, v) && Legal(n, cs, limit)
    ensures Credit(Run(n, cs, limit), a, v) <= Credit(n, a, v)
    decreases |cs|
  {
    if cs != [] {
      StepCredit(n, cs[0], v, limit, a);
      OneValueStep(n, cs[0], v, limit);
      RunCredit(Next(n, cs[0]), cs[1..], v, limit, a);
    }
  }

  /** The echo storm is contained: from any start with no set issued and one value reported, no
      address is ever sent more than one set - and none at all if it was known to hold the value
      already, whatever its device really holds. */
  lemma OneSetPerAddress(n: Net, cs: seq<Choice>, v: OcaValue, limit: nat, a: Addr)
    requires OneValue(n, v) && Legal(n, cs, limit) && n.tasks == [] && n.sets == []
    ensures Count(Run(n, cs, limit).sets, a) <= if Holds(n.known, a, v) then 0 else 1
  {
    RunCredit(n, cs, v, limit, a);
  }

  // ---------------------------------------------------------------- convergence

  /** The registered peers of an address. */
  predicate Forwards(t: Table, a: Addr, p: Addr) {
    p in Peers(t.mappings, a) && p.device in t.registered
  }

  ghost predicate Announced(n: Net, a: Addr) {
    exists k :: 0 <= k < |n.events| && n.events[k].addr == a
  }

  ghost predicate BeingSet(n: Net, a: Addr) {
    exists k :: 0 <= k < |n.tasks| && n.tasks[k].setting == Some(a)
  }

  /** Some task handling a report from `a` still has `p` to look at. */
  ghost predicate Pending(n: Net, a: Addr, p: Addr) {
    exists k :: 0 <= k < |n.tasks| && n.tasks[k].source == a && p in n.tasks[k].todo
  }

  /** An address that holds the value will be heard from, or has passed it on to every peer - or
      some task is about to. */
  ghost predicate Covered(n: Net, v: OcaValue, a: Addr) {
    Announced(n, a) || BeingSet(n, a)
    || forall p :: Forwards(n.table, a, p) ==> Holds(n.known, p, v) || Pending(n, a, p)
  }

  ghost predicate Spreading(n: Net, v: OcaValue) {
    forall a :: Holds(n.known, a, v) ==> Covered(n, v, a)
  }

  lemma PendingKept(n: Net, n': Net, k: nat, a: Addr, p: Addr)
    requires k < |n.tasks| && |n'.tasks| == |n.tasks| && n'.tasks == n.tasks[k := n'.tasks[k]]
    requires n'.tasks[k].source == n.tasks[k].source
    requires Pending(n, a, p) && (p in n.tasks[k].todo ==> p in n'.tasks[k].todo)
    ensures Pending(n', a, p)
  {
    var m :| 0 <= m < |n.tasks| && n.tasks[m].source == a && p in n.tasks[m].todo;
    assert n'.tasks[m].source == a && p in n'.tasks[m].todo;
  }

  lemma RecordSpreads(n: Net, k: nat, v: OcaValue)
    requires OneValue(n, v) && Spreading(n, v) && k < |n.events|
    ensures Spreading(Record(n, k), v)
  {
    var n' := Record(n, k);
    var e := n.events[k];
    var last := |n.tasks|;
    forall a | Holds(n'.known, a, v) ensures Covered(n', v, a) {
      if a == e.addr {
        forall p | Forwards(n'.table, a, p) ensures Pending(n', a, p) {
          assert n'.tasks[last].source == a && p in n'.tasks[last].todo;
        }
      } else {
        assert Covered(n, v, a);
        if Announced(n, a) {
          var m :| 0 <= m < |n.events| && n.events[m].addr == a;
          assert n'.events[if m < k then m else m - 1] == n.events[m];
        } else if BeingSet(n, a) {
          var m :| 0 <= m < |n.tasks| && n.tasks[m].setting == Some(a);
          assert n'.tasks[m] == n.tasks[m];
        } else {
          forall p | Forwards(n'.table, a, p) ensures Holds(n'.known, p, v) || Pending(n', a, p) {
            if Pending(n, a, p) {
              var m :| 0 <= m < |n.tasks| && n.tasks[m].source == a && p in n.tasks[m].todo;
              assert n'.tasks[m] == n.tasks[m];
            }
          }
        }
      }
    }
  }

  lemma ClaimSpreads(n: Net, k: nat, v: OcaValue)
    requires OneValue(n, v) && Spreading(n, v)
    requires k < |n.tasks| && n.tasks[k].setting.None? && n.tasks[k].todo != []
    ensures Spreading(Claim(n, k), v)
  {
    var n' := Claim(n, k);
    var first := n.tasks[k].todo[0];
    assert n.tasks[k].todo == [first] + n.tasks[k].todo[1..];
    forall a | Holds(n'.known, a, v) ensures Covered(n', v, a) {
      if !Holds(n.known, a, v) {
        assert n'.tasks[k].setting == Some(a);
      } else {
        assert Covered(n, v, a);
        if Announced(n, a) {
          assert n'.events == n.events;
        } else if BeingSet(n, a) {
          var m :| 0 <= m < |n.tasks| && n.tasks[m].setting == Some(a);
          assert n'.tasks[m] == n.tasks[m];
        } else {
          forall p | Forwards(n'.table, a, p) ensures Holds(n'.known, p, v) || Pending(n', a, p) {
            if p != first && Pending(n, a, p) { PendingKept(n, n', k, a, p); }
          }
        }
      }
    }
  }

  lemma FinishSpreads(n: Net, k: nat, confirms: nat, v: OcaValue)
    requires OneValue(n, v) && Spreading(n, v) && k < |n.tasks| && n.tasks[k].setting.Some? && confirms >= 1
    ensures Spreading(Finish(n, k, true, confirms), v)
  {
    var n' := Finish(n, k, true, confirms);
    var p0 := n.tasks[k].setting.value;
    assert n'.events[|n.events|] == Event(p0, v);
    forall a | Holds(n'.known, a, v) ensures Covered(n', v, a) {
      assert Covered(n, v, a);
      if Announced(n, a) {
        var m :| 0 <= m < |n.events| && n.events[m].addr == a;
        assert n'.events[m] == n.events[m];
      } else if BeingSet(n, a) {
        var m :| 0 <= m < |n.tasks| && n.tasks[m].setting == Some(a);
        if m == k { assert n'.events[|n.events|].addr == a; } else { assert n'.tasks[m] == n.tasks[m]; }
      } else {
        forall p | Forwards(n'.table, a, p) ensures Holds(n'.known, p, v) || Pending(n', a, p) {
          if Pending(n, a, p) { PendingKept(n, n', k, a, p); }
        }
      }
    }
  }

  lemma DropSpreads(n: Net, k: nat, v: OcaValue)
    requires Spreading(n, v) && k < |n.tasks| && n.tasks[k].setting.None? && n.tasks[k].todo == []
    ensures Spreading(n.(tasks := Without(n.tasks, k)), v)
  {
    var n' := n.(tasks := Without(n.tasks, k));
    forall a | Holds(n'.known, a, v) ensures Covered(n', v, a) {
      assert Covered(n, v, a);
      if Announced(n, a) {
        assert n'.events == n.events;
      } else if BeingSet(n, a) {
        var m :| 0 <= m < |n.tasks| && n.tasks[m].setting == Some(a);
        assert n'.tasks[if m < k then m else m - 1] == n.tasks[m];
      } else {
        forall p | Forwards(n'.table, a, p) ensures Holds(n'.known, p, v) || Pending(n', a, p) {
          if Pending(n, a, p) {
            var m :| 0 <= m < |n.tasks| && n.tasks[m].source == a && p in n.tasks[m].todo;
            assert n'.tasks[if m < k then m else m - 1] == n.tasks[m];
          }
        }
      }
    }
  }

  /** Whether the choice is a set that fails, or that succeeds without being confirmed. */
  predicate Lossy(n: Net, c: Choice) {
    c.Turn? && c.k < |n.tasks| && n.tasks[c.k].setting.Some? && (!c.ok || c.confirms == 0)
  }

  ghost predicate Faithful(n: Net, cs: seq<Choice>, limit: nat)
    requires Legal(n, cs, limit)
    decreases |cs|
  {
    cs == [] || (!Lossy(n, cs[0]) && Faithful(Next(n, cs[0]), cs[1..], limit))
  }

  lemma {:induction false} RunSpreads(n: Net, cs: seq<Choice>, v: OcaValue, limit: nat)
    requires OneValue(n, v) && Legal(n, cs, limit) && Spreading(n, v) && Faithful(n, cs, limit)
    ensures Spreading(Run(n, cs, limit), v) && Run(n, cs, limit).table == n.table
    decreases |cs|
  {
    if cs != [] {
      OneValueStep(n, cs[0], v, limit);
      match cs[0] {
        case Begin(k) => RecordSpreads(n, k, v);
        case Turn(k, ok, confirms) =>
          if n.tasks[k].setting.Some? {
            FinishSpreads(n, k, confirms, v);
          } else if n.tasks[k].todo != [] {
            ClaimSpreads(n, k, v);
          } else {
            DropSpreads(n, k, v);
          }
      }
      RunSpreads(Next(n, cs[0]), cs[1..], v, limit);
    }
  }

  lemma {:induction false} KnownKept(n: Net, cs: seq<Choice>, v: OcaValue, limit: nat, a: Addr)
    requires OneValue(n, v) && Legal(n, cs, limit) && Holds(n.known, a, v)
    ensures Holds(Run(n, cs, limit).known, a, v)
    decreases |cs|
  {
    if cs != [] {
      OneValueStep(n, cs[0], v, limit);
      KnownKept(Next(n, cs[0]), cs[1..], v, limit, a);
    }
  }

  /** A chain of forwarding links from `a`. */
  ghost predicate Chain(t: Table, path: seq<Addr>) {
    path != [] && forall k :: 0 <= k < |path| - 1 ==> Forwards(t, path[k], path[k + 1])
  }

  lemma {:induction false} ChainClosed(n: Net, v: OcaValue, path: seq<Addr>)
    requires Spreading(n, v) && Quiescent(n) && Chain(n.table, path) && Holds(n.known, path[0], v)
    ensures Holds(n.known, path[|path| - 1], v)
    decreases |path|
  {
    if |path| > 1 {
      assert Covered(n, v, path[0]) && Forwards(n.table, path[0], path[1]);
      forall k | 0 <= k < |path[1..]| - 1 ensures Forwards(n.table, path[1..][k], path[1..][k + 1]) {
        assert Forwards(n.table, path[k + 1], path[k + 2]);
      }
      ChainClosed(n, v, path[1..]);
    }
  }

  // ---------------------------------------------------------------- what the devices hold

  /** The map and the devices agree about `v`, but for the address each task is setting and the
      addresses whose set failed; and no address is being set twice over. */
  ghost predicate Truthful(n: Net, v: OcaValue) {
    && (forall k :: 0 <= k < |n.events| ==> Holds(n.held, n.events[k].addr, v) && Holds(n.known, n.events[k].addr, v))
    && (forall a :: Holds(n.known, a, v) && !BeingSet(n, a) ==> (Holds(n.held, a, v) <==> a !in n.failed))
    && (forall a :: !Holds(n.known, a, v) || BeingSet(n, a) ==> !Holds(n.held, a, v) && a !in n.failed)
    && (forall a :: BeingSet(n, a) ==> Holds(n.known, a, v))
    && (forall k, m :: 0 <= k < m < |n.tasks| && n.tasks[k].setting.Some? ==> n.tasks[k].setting != n.tasks[m].setting)
  }

  lemma RecordTruthful(n: Net, k: nat, v: OcaValue)
    requires OneValue(n, v) && Truthful(n, v) && k < |n.events|
    ensures Truthful(Record(n, k), v)
  {
    var n' := Record(n, k);
    assert Holds(n.held, n.events[k].addr, v);
    forall a ensures BeingSet(n', a) <==> BeingSet(n, a) {
      if BeingSet(n, a) {
        var m :| 0 <= m < |n.tasks| && n.tasks[m].setting == Some(a);
        assert n'.tasks[m] == n.tasks[m];
      }
    }
  }

  lemma ClaimTruthful(n: Net, k: nat, v: OcaValue)
    requires OneValue(n, v) && Truthful(n, v)
    requires k < |n.tasks| && n.tasks[k].setting.None? && n.tasks[k].todo != []
    ensures Truthful(Claim(n, k), v)
  {
    var n' := Claim(n, k);
    forall a ensures BeingSet(n', a) <==> BeingSet(n, a) || n'.tasks[k].setting == Some(a) {
      if BeingSet(n, a) {
        var m :| 0 <= m < |n.tasks| && n.tasks[m].setting == Some(a);
        assert n'.tasks[m] == n.tasks[m];
      }
    }
    forall i, m | 0 <= i < m < |n'.tasks| && n'.tasks[i].setting.Some?
      ensures n'.tasks[i].setting != n'.tasks[m].setting
    {
      if m == k && n'.tasks[k].setting.Some? { assert BeingSet(n, n'.tasks[i].setting.value); }
      if i == k && n'.tasks[m].setting.Some? { assert BeingSet(n, n'.tasks[m].setting.value); }
    }
  }

  lemma FinishTruthful(n: Net, k: nat, ok: bool, confirms: nat, v: OcaValue)
    requires OneValue(n, v) && Truthful(n, v) && k < |n.tasks| && n.tasks[k].setting.Some?
    ensures Truthful(Finish(n, k, ok, confirms), v)
  {
    var n' := Finish(n, k, ok, confirms);
    var p := n.tasks[k].setting.value;
    assert BeingSet(n, p);
    forall a ensures BeingSet(n', a) <==> BeingSet(n, a) && a != p {
      if BeingSet(n, a) && a != p {
        var m :| 0 <= m < |n.tasks| && n.tasks[m].setting == Some(a);
        assert n'.tasks[m] == n.tasks[m];
      }
    }
  }

  lemma DropTruthful(n: Net, k: nat, v: OcaValue)
    requires Truthful(n, v) && k < |n.tasks| && n.tasks[k].setting.None?
    ensures Truthful(n.(tasks := Without(n.tasks, k)), v)
  {
    var n' := n.(tasks := Without(n.tasks, k));
    forall a ensures BeingSet(n', a) <==> BeingSet(n, a) {
      if BeingSet(n, a) {
        var m :| 0 <= m < |n.tasks| && n.tasks[m].setting == Some(a);
        assert n'.tasks[if m < k then m else m - 1] == n.tasks[m];
      }
    }
  }

  lemma {:induction false} RunTruthful(n: Net, cs: seq<Choice>, v: OcaValue, limit: nat)
    requires OneValue(n, v) && Legal(n, cs, limit) && Truthful(n, v)
    ensures Truthful(Run(n, cs, limit), v)
    ensures Faithful(n, cs, limit) ==> Run(n, cs, limit).failed == n.failed
    decreases |cs|
  {
    if cs != [] {
      OneValueStep(n, cs[0], v, limit);
      match cs[0] {
        case Begin(k) => RecordTruthful(n, k, v);
        case Turn(k, ok, confirms) =>
          if n.tasks[k].setting.Some? {
            FinishTruthful(n, k, ok, confirms, v);
          } else if n.tasks[k].todo != [] {
            ClaimTruthful(n, k, v);
          } else {
            DropTruthful(n, k, v);
          }
      }
      RunTruthful(Next(n, cs[0]), cs[1..], v, limit);
    }
  }

  // ---------------------------------------------------------------- one report, start to finish

  /** A device reports `v` at `a` to an idle Router whose map is true of every other address and
      closed: whoever is known to hold `v` has every registered peer known to hold it too. */
  ghost predicate Injected(n: Net, a: Addr, v: OcaValue) {
    && n.events == [Event(a, v)] && n.tasks == [] && n.sets == [] && n.failed == {}
    && Holds(n.held, a, v)
    && (forall b :: b != a ==> (Holds(n.known, b, v) <==> Holds(n.held, b, v)))
    && (forall b, p :: b != a && Holds(n.known, b, v) && Forwards(n.table, b, p) ==> p == a || Holds(n.known, p, v))
  }

  lemma InjectedRecorded(n: Net, a: Addr, v: OcaValue)
    requires Injected(n, a, v)
    ensures OneValue(n, v) && OneValue(Record(n, 0), v)
    ensures Spreading(Record(n, 0), v) && Truthful(Record(n, 0), v)
  {
    PeersMapped(n.table.mappings, a);
    var n' := Record(n, 0);
    forall b | Holds(n'.known, b, v) ensures Covered(n', v, b) {
      if b == a {
        forall p | Forwards(n'.table, a, p) ensures Pending(n', a, p) {
          assert n'.tasks[0].source == a && p in n'.tasks[0].todo;
        }
      }
    }
    assert forall b :: !BeingSet(n', b);
  }

  /** After one report has run its course a device known to hold the value really holds it exactly
      if its set did not fail: a failed set leaves its claim in place. */
  lemma HeldIffNotFailed(n: Net, a: Addr, v: OcaValue, cs: seq<Choice>, limit: nat, b: Addr)
    requires Injected(n, a, v) && Legal(n, cs, limit) && Quiescent(Run(n, cs, limit))
    requires Holds(Run(n, cs, limit).known, b, v)
    ensures Holds(Run(n, cs, limit).held, b, v) <==> b !in Run(n, cs, limit).failed
  {
    InjectedRecorded(n, a, v);
    assert cs != [] && cs[0] == Begin(0);
    RunTruthful(Record(n, 0), cs[1..], v, limit);
  }

  /** Convergence: if every set succeeds and is confirmed at least once, then when all is quiet
      every address a chain of registered links leads to holds the value the source reported. */
  lemma Converges(n: Net, a: Addr, v: OcaValue, cs: seq<Choice>, limit: nat, path: seq<Addr>)
    requires Injected(n, a, v) && Legal(n, cs, limit) && Faithful(n, cs, limit) && Quiescent(Run(n, cs, limit))
    requires Chain(n.table, path) && path[0] == a
    ensures Holds(Run(n, cs, limit).held, path[|path| - 1], v)
  {
    InjectedRecorded(n, a, v);
    assert cs != [] && cs[0] == Begin(0);
    var n' := Record(n, 0);
    RunSpreads(n', cs[1..], v, limit);
    RunTruthful(n', cs[1..], v, limit);
    KnownKept(n', cs[1..], v, limit, a);
    ChainClosed(Run(n, cs, limit), v, path);
  }
}
