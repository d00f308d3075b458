/** Several values in flight at once: which mapping tables the Router's echo suppression is sure to
    bring to rest from every state, and which not. */
module RouterCycles {
  import opened Wrappers
  import opened RouterNet

  // ---------------------------------------------------------------- the question

  /** Whether every run from `n` stops within one bound. */
  ghost predicate Ends(n: Net, limit: nat) {
    exists bound: nat :: Bounded(n, limit, bound)
  }

  ghost predicate Bounded(n: Net, limit: nat, bound: nat) {
    forall cs :: Legal(n, cs, limit) ==> |cs| <= bound
  }

  /** Whatever is reported, known and held: nothing being handled, every run comes to an end. */
  ghost predicate AlwaysEnds(t: Table, limit: nat) {
    forall n: Net :: n.table == t && n.tasks == [] ==> Ends(n, limit)
  }

  predicate Links(t: Table, a: Addr, p: Addr) {
    Forwards(t, a, p) && p != a
  }

  /** A chain of registered links, each to another address. */
  ghost predicate Path(t: Table, path: seq<Addr>) {
    |path| >= 2 && forall k :: 0 <= k < |path| - 1 ==> Links(t, path[k], path[k + 1])
  }

  ghost predicate Leads(t: Table, a: Addr, b: Addr) {
    exists path :: Path(t, path) && path[0] == a && path[|path| - 1] == b
  }

  /** Some address leads back to itself by way of another. */
  ghost predicate Cyclic(t: Table) {
    exists a :: Leads(t, a, a)
  }

  // ---------------------------------------------------------------- without a cycle

  ghost function Reached(t: Table, a: Addr): set<Addr> {
    set b | b in Mapped(t.mappings) && Leads(t, a, b)
  }

  ghost function Rank(t: Table, a: Addr): nat {
    |Reached(t, a)|
  }

  lemma LeadsOn(t: Table, a: Addr, p: Addr, b: Addr)
    requires Links(t, a, p) && Leads(t, p, b)
    ensures Leads(t, a, b)
  {
    var path :| Path(t, path) && path[0] == p && path[|path| - 1] == b;
    var longer := [a] + path;
    forall k | 0 <= k < |longer| - 1 ensures Links(t, longer[k], longer[k + 1]) {
      if k > 0 { assert Links(t, path[k - 1], path[k]); }
    }
    assert Path(t, longer) && longer[0] == a && longer[|longer| - 1] == b;
  }

  lemma RankFalls(t: Table, a: Addr, p: Addr)
    requires !Cyclic(t) && Links(t, a, p)
    ensures Rank(t, p) < Rank(t, a)
  {
    assert p in Mapped(t.mappings) by { PeersMapped(t.mappings, a); }
    var direct := [a, p];
    assert Path(t, direct) && direct[0] == a && direct[|direct| - 1] == p;
    forall b | b in Reached(t, p) ensures b in Reached(t, a) { LeadsOn(t, a, p, b); }
    assert p in Reached(t, a) && p !in Reached(t, p);
    SubsetSize(Reached(t, p) + {p}, Reached(t, a));
  }

  /** What one peer of an address of rank `r` can still cost: looking at it, its set, and the set it may
      come to owe back to a listener that was looking at itself. */
  function PeerWork(r: nat, links: nat, limit: nat): nat
    decreases r, 0
  {
    1 + if r == 0 then 0 else 2 * SetWork(r - 1, links, limit)
  }

  function ReportWork(r: nat, links: nat, limit: nat): nat
    decreases r, 1
  {
    2 + links * PeerWork(r, links, limit)
  }

  function SetWork(r: nat, links: nat, limit: nat): nat
    decreases r, 2
  {
    1 + limit * ReportWork(r, links, limit)
  }

  lemma {:induction false} SetWorkGrows(q: nat, r: nat, links: nat, limit: nat)
    requires q <= r
    ensures SetWork(q, links, limit) <= SetWork(r, links, limit)
  {
    if q > 0 { SetWorkGrows(q - 1, r - 1, links, limit); }
    var (p, p') := (PeerWork(q, links, limit), PeerWork(r, links, limit));
    assert p <= p';
    hide PeerWork;
    Fewer(p, p', links);
    Fewer(ReportWork(q, links, limit), ReportWork(r, links, limit), limit);
  }

  /** A listener whose own address is still on its list and has since been claimed for another value
      will set it. */
  ghost function SelfWork(t: Table, known: map<Addr, OcaValue>, task: Task, limit: nat): nat {
    if task.source in task.todo && !Holds(known, task.source, task.value)
    then SetWork(Rank(t, task.source), |t.mappings|, limit) else 0
  }

  ghost function TaskWork(t: Table, known: map<Addr, OcaValue>, task: Task, limit: nat): nat {
    1 + |task.todo| * PeerWork(Rank(t, task.source), |t.mappings|, limit)
    + (if task.setting.Some? then SetWork(Rank(t, task.setting.value), |t.mappings|, limit) else 0)
    + SelfWork(t, known, task, limit)
  }

  ghost function TasksWork(t: Table, known: map<Addr, OcaValue>, tasks: seq<Task>, limit: nat): nat {
    if tasks == [] then 0 else TaskWork(t, known, tasks[0], limit) + TasksWork(t, known, tasks[1..], limit)
  }

  ghost function EventsWork(t: Table, events: seq<Event>, limit: nat): nat {
    if events == [] then 0
    else ReportWork(Rank(t, events[0].addr), |t.mappings|, limit) + EventsWork(t, events[1..], limit)
  }

  ghost function WorkLeft(n: Net, limit: nat): nat {
    EventsWork(n.table, n.events, limit) + TasksWork(n.table, n.known, n.tasks, limit)
  }

  /** One task per device, looking only at peers of its source. */
  ghost predicate InLine(n: Net) {
    && (forall i, j :: 0 <= i < j < |n.tasks| ==> n.tasks[i].source.device != n.tasks[j].source.device)
    && (forall i, p :: 0 <= i < |n.tasks| && p in n.tasks[i].todo ==> p in Peers(n.table.mappings, n.tasks[i].source))
  }

  lemma InLineStep(n: Net, c: Choice, limit: nat)
    requires InLine(n) && Enabled(n, c, limit)
    ensures InLine(Next(n, c)) && Next(n, c).table == n.table
  {
    hide Peers, Repeat, Holds;
    match c
    case Begin(k) =>
    case Turn(k, _, _) =>
      if n.tasks[k].setting.None? && n.tasks[k].todo == [] {
        var tasks := Without(n.tasks, k);
        assert forall i :: 0 <= i < |tasks| ==> tasks[i] == n.tasks[if i < k then i else i + 1];
      }
  }

  lemma {:induction false} EventsWorkAppend(t: Table, es: seq<Event>, fs: seq<Event>, limit: nat)
    ensures EventsWork(t, es + fs, limit) == EventsWork(t, es, limit) + EventsWork(t, fs, limit)
  {
    if es == [] {
      assert es + fs == fs;
    } else {
      assert (es + fs)[1..] == es[1..] + fs;
      EventsWorkAppend(t, es[1..], fs, limit);
    }
  }

  lemma EventsWorkWithout(t: Table, es: seq<Event>, k: nat, limit: nat)
    requires k < |es|
    ensures EventsWork(t, es, limit)
            == EventsWork(t, Without(es, k), limit) + ReportWork(Rank(t, es[k].addr), |t.mappings|, limit)
  {
    assert es == es[..k] + ([es[k]] + es[k + 1..]);
    EventsWorkAppend(t, es[..k], [es[k]] + es[k + 1..], limit);
    assert ([es[k]] + es[k + 1..])[1..] == es[k + 1..];
    EventsWorkAppend(t, es[..k], es[k + 1..], limit);
  }

  lemma {:induction false} RepeatWork(t: Table, e: Event, m: nat, limit: nat)
    ensures EventsWork(t, Repeat(e, m), limit) == m * ReportWork(Rank(t, e.addr), |t.mappings|, limit)
  {
    if m > 0 {
      RepeatWork(t, e, m - 1, limit);
      assert Repeat(e, m)[1..] == Repeat(e, m - 1);
      Once(m, ReportWork(Rank(t, e.addr), |t.mappings|, limit));
    }
  }

  lemma Once(m: nat, c: nat)
    requires m > 0
    ensures m * c == (m - 1) * c + c
  {}

  lemma {:induction false} TasksWorkUpdate(t: Table, known: map<Addr, OcaValue>, tasks: seq<Task>, k: nat, task: Task, limit: nat)
    requires k < |tasks|
    ensures TasksWork(t, known, tasks[k := task], limit)
            == TasksWork(t, known, tasks, limit) - TaskWork(t, known, tasks[k], limit) + TaskWork(t, known, task, limit)
  {
    if k > 0 {
      assert tasks[k := task][1..] == tasks[1..][k - 1 := task];
      TasksWorkUpdate(t, known, tasks[1..], k - 1, task, limit);
    } else {
      assert tasks[k := task][1..] == tasks[1..];
    }
  }

  lemma {:induction false} TasksWorkWithout(t: Table, known: map<Addr, OcaValue>, tasks: seq<Task>, k: nat, limit: nat)
    requires k < |tasks|
    ensures TasksWork(t, known, Without(tasks, k), limit)
            == TasksWork(t, known, tasks, limit) - TaskWork(t, known, tasks[k], limit)
  {
    if k > 0 {
      assert Without(tasks, k)[0] == tasks[0] && Without(tasks, k)[1..] == Without(tasks[1..], k - 1);
      TasksWorkWithout(t, known, tasks[1..], k - 1, limit);
    } else {
      assert Without(tasks, k) == tasks[1..];
    }
  }

  lemma {:induction false} TasksWorkAppend(t: Table, known: map<Addr, OcaValue>, tasks: seq<Task>, task: Task, limit: nat)
    ensures TasksWork(t, known, tasks + [task], limit)
            == TasksWork(t, known, tasks, limit) + TaskWork(t, known, task, limit)
  {
    if tasks != [] {
      assert (tasks + [task])[1..] == tasks[1..] + [task];
      TasksWorkAppend(t, known, tasks[1..], task, limit);
    } else {
      assert (tasks + [task])[1..] == [];
    }
  }

  /** An address newly claimed or reported can put only its own listener's task in debt. */
  lemma {:induction false} OneDebtor(t: Table, known: map<Addr, OcaValue>, tasks: seq<Task>, p: Addr, v: OcaValue, limit: nat)
    requires forall i, j :: 0 <= i < j < |tasks| ==> tasks[i].source.device != tasks[j].source.device
    ensures TasksWork(t, known[p := v], tasks, limit)
            <= TasksWork(t, known, tasks, limit) + SetWork(Rank(t, p), |t.mappings|, limit)
    ensures (forall i :: 0 <= i < |tasks| ==> tasks[i].source != p)
            ==> TasksWork(t, known[p := v], tasks, limit) == TasksWork(t, known, tasks, limit)
  {
    if tasks != [] {
      OneDebtor(t, known, tasks[1..], p, v, limit);
      if tasks[0].source == p {
        forall i | 0 <= i < |tasks[1..]| ensures tasks[1..][i].source != p {
          assert tasks[0].source.device != tasks[i + 1].source.device;
        }
      } else if forall i :: 0 <= i < |tasks| ==> tasks[i].source != p {
        assert forall i :: 0 <= i < |tasks[1..]| ==> tasks[1..][i].source == tasks[i + 1].source;
      }
    }
  }

  lemma RecordWorksOff(n: Net, k: nat, limit: nat)
    requires InLine(n) && NextInLine(n, k)
    ensures WorkLeft(Record(n, k), limit) < WorkLeft(n, limit)
  {
    var n' := Record(n, k);
    var e := n.events[k];
    var task := Task(e.addr, e.value, Peers(n.table.mappings, e.addr), None);
    EventsWorkWithout(n.table, n.events, k, limit);
    TasksWorkAppend(n.table, n'.known, n.tasks, task, limit);
    OneDebtor(n.table, n.known, n.tasks, e.addr, e.value, limit);
    PeersMapped(n.table.mappings, e.addr);
    Fewer(|task.todo|, |n.table.mappings|, PeerWork(Rank(n.table, e.addr), |n.table.mappings|, limit));
  }

  /** What a claim adds for the tasks as they were: at most two sets of a lower rank. */
  lemma ClaimAdds(n: Net, k: nat, limit: nat)
    requires !Cyclic(n.table) && InLine(n)
    requires k < |n.tasks| && n.tasks[k].setting.None? && n.tasks[k].todo != []
    requires var p := n.tasks[k].todo[0]; p.device in n.table.registered && !Holds(n.known, p, n.tasks[k].value)
    ensures var (task, task', t) := (n.tasks[k], Claim(n, k).tasks[k], n.table);
            var (known, known') := (n.known, n.known[task.todo[0] := task.value]);
            TasksWork(t, known', n.tasks, limit) - TaskWork(t, known', task, limit) + TaskWork(t, known', task', limit)
            < TasksWork(t, known, n.tasks, limit)
  {
    hide SetWork, Rank, Cyclic;
    var (task, t, links) := (n.tasks[k], n.table, |n.table.mappings|);
    var p := task.todo[0];
    assert p in Peers(t.mappings, task.source);
    Once(|task.todo|, PeerWork(Rank(t, task.source), links, limit));
    if p == task.source {
      ClaimedItself(n, k, limit);
    } else {
      OneDebtor(t, n.known, n.tasks, p, task.value, limit);
      RankFalls(t, task.source, p);
      SetWorkGrows(Rank(t, p), Rank(t, task.source) - 1, links, limit);
    }
  }

  /** A peer passed over costs no more than the look at it. */
  lemma SkipAdds(n: Net, k: nat, limit: nat)
    requires k < |n.tasks| && n.tasks[k].setting.None? && n.tasks[k].todo != []
    ensures TaskWork(n.table, n.known, n.tasks[k].(todo := n.tasks[k].todo[1..]), limit)
            < TaskWork(n.table, n.known, n.tasks[k], limit)
  {
    hide SetWork, Rank;
    Once(|n.tasks[k].todo|, PeerWork(Rank(n.table, n.tasks[k].source), |n.table.mappings|, limit));
  }

  lemma ClaimWorksOff(n: Net, k: nat, limit: nat)
    requires !Cyclic(n.table) && InLine(n)
    requires k < |n.tasks| && n.tasks[k].setting.None? && n.tasks[k].todo != []
    ensures WorkLeft(Claim(n, k), limit) < WorkLeft(n, limit)
  {
    hide TaskWork, EventsWork, TasksWork, Rank, Cyclic, InLine;
    var n' := Claim(n, k);
    var (task, p) := (n.tasks[k], n.tasks[k].todo[0]);
    TasksWorkUpdate(n.table, n'.known, n.tasks, k, n'.tasks[k], limit);
    if p.device !in n.table.registered || Holds(n.known, p, task.value) {
      SkipAdds(n, k, limit);
    } else {
      ClaimAdds(n, k, limit);
    }
  }

  /** A task claiming its own address owed that set already. */
  lemma ClaimedItself(n: Net, k: nat, limit: nat)
    requires InLine(n) && k < |n.tasks| && n.tasks[k].source in n.tasks[k].todo
    requires !Holds(n.known, n.tasks[k].source, n.tasks[k].value)
    ensures var task := n.tasks[k]; var known' := n.known[task.source := task.value];
            TasksWork(n.table, known', n.tasks, limit)
            == TasksWork(n.table, n.known, n.tasks, limit) - SelfWork(n.table, n.known, task, limit)
  {
    hide SetWork, PeerWork, Rank;
    var task := n.tasks[k];
    var known' := n.known[task.source := task.value];
    var without := task.(todo := []);
    var others := n.tasks[k := without];
    TasksWorkUpdate(n.table, known', n.tasks, k, without, limit);
    TasksWorkUpdate(n.table, n.known, n.tasks, k, without, limit);
    OthersUnmoved(n.table, n.known, others, k, task.value, limit);
  }

  lemma {:induction false} OthersUnmoved(t: Table, known: map<Addr, OcaValue>, tasks: seq<Task>, k: nat, v: OcaValue, limit: nat)
    requires forall i, j :: 0 <= i < j < |tasks| ==> tasks[i].source.device != tasks[j].source.device
    requires k < |tasks| && tasks[k].todo == []
    ensures TasksWork(t, known[tasks[k].source := v], tasks, limit) == TasksWork(t, known, tasks, limit)
  {
    if k == 0 {
      forall i | 0 <= i < |tasks[1..]| ensures tasks[1..][i].source != tasks[0].source {
        assert tasks[0].source.device != tasks[i + 1].source.device;
      }
      OneDebtor(t, known, tasks[1..], tasks[0].source, v, limit);
    } else {
      assert tasks[0].source != tasks[k].source;
      OthersUnmoved(t, known, tasks[1..], k - 1, v, limit);
    }
  }

  lemma FinishWorksOff(n: Net, k: nat, ok: bool, confirms: nat, limit: nat)
    requires k < |n.tasks| && n.tasks[k].setting.Some? && confirms <= limit
    ensures WorkLeft(Finish(n, k, ok, confirms), limit) < WorkLeft(n, limit)
  {
    var n' := Finish(n, k, ok, confirms);
    var task := n.tasks[k];
    var e := Event(task.setting.value, task.value);
    TasksWorkUpdate(n.table, n.known, n.tasks, k, task.(setting := None), limit);
    EventsWorkAppend(n.table, n.events, Repeat(e, confirms), limit);
    RepeatWork(n.table, e, confirms, limit);
    Fewer(confirms, limit, ReportWork(Rank(n.table, e.addr), |n.table.mappings|, limit));
  }

  lemma StepWorksOff(n: Net, c: Choice, limit: nat)
    requires !Cyclic(n.table) && InLine(n) && Enabled(n, c, limit)
    ensures WorkLeft(Next(n, c), limit) < WorkLeft(n, limit)
  {
    match c
    case Begin(k) => RecordWorksOff(n, k, limit);
    case Turn(k, ok, confirms) =>
      if n.tasks[k].setting.Some? {
        FinishWorksOff(n, k, ok, confirms, limit);
      } else if n.tasks[k].todo != [] {
        ClaimWorksOff(n, k, limit);
      } else {
        TasksWorkWithout(n.table, n.known, n.tasks, k, limit);
      }
  }

  /** Without a cycle every run stops, any number of values in flight. */
  lemma {:induction false} AcyclicRunsEnd(n: Net, cs: seq<Choice>, limit: nat)
    requires !Cyclic(n.table) && InLine(n) && Legal(n, cs, limit)
    ensures |cs| <= WorkLeft(n, limit)
    decreases |cs|
  {
    if cs != [] {
      StepWorksOff(n, cs[0], limit);
      InLineStep(n, cs[0], limit);
      AcyclicRunsEnd(Next(n, cs[0]), cs[1..], limit);
    }
  }

  // ---------------------------------------------------------------- around a cycle

  /** What is known once a list of peers has been seen to. */
  function Spread(t: Table, known: map<Addr, OcaValue>, todo: seq<Addr>, v: OcaValue): map<Addr, OcaValue>
    decreases |todo|
  {
    if todo == [] then known
    else Spread(t, if todo[0].device in t.registered then known[todo[0] := v] else known, todo[1..], v)
  }

  lemma {:induction false} SpreadAt(t: Table, known: map<Addr, OcaValue>, todo: seq<Addr>, v: OcaValue, a: Addr, u: OcaValue)
    ensures Holds(Spread(t, known, todo, v), a, u)
            <==> (if a in todo && a.device in t.registered then u == v else Holds(known, a, u))
    decreases |todo|
  {
    if todo != [] {
      SpreadAt(t, if todo[0].device in t.registered then known[todo[0] := v] else known, todo[1..], v, a, u);
    }
  }

  /** A lone task sees to its next peer: the set succeeds, and is confirmed only if it is of `to` and `due`. */
  lemma SeeToOne(n: Net, task: Task, to: Addr, due: bool) returns (cs: seq<Choice>, still: bool)
    requires n.tasks == [task] && task.setting.None? && task.todo != []
    requires due ==> to in task.todo && to.device in n.table.registered && !Holds(n.known, to, task.value)
    ensures Legal(n, cs, 1)
    ensures var n' := Run(n, cs, 1); var p := task.todo[0];
            && n'.table == n.table && n'.tasks == [task.(todo := task.todo[1..])]
            && n'.known == (if p.device in n.table.registered then n.known[p := task.value] else n.known)
            && n'.events == n.events + (if due && !still then [Event(to, task.value)] else [])
            && still == (due && p != to)
  {
    var p := task.todo[0];
    var rest := task.(todo := task.todo[1..]);
    var n1 := Claim(n, 0);
    still := due && p != to;
    if n1.tasks[0].setting.None? {
      assert n1.tasks == [rest];
      assert p.device in n.table.registered ==> n.known[p := task.value] == n.known;
      LegalCons(n, Turn(0, true, 0), [], 1);
      cs := [Turn(0, true, 0)] + [];
    } else {
      var confirms := if due && p == to then 1 else 0;
      assert Repeat(Event(p, task.value), confirms) == if due && !still then [Event(to, task.value)] else [];
      assert Finish(n1, 0, true, confirms).tasks == [rest];
      cs := [Turn(0, true, 0), Turn(0, true, confirms)];
      TwoSteps(n, cs[0], cs[1], 1);
    }
  }

  /** A lone task taken to its end: every set succeeds, and the first of `to` - if it is `due` - is the
      only one confirmed. */
  lemma {:induction false} SeeTo(n: Net, task: Task, to: Addr, due: bool) returns (cs: seq<Choice>)
    requires n.tasks == [task] && task.setting.None?
    requires due ==> to in task.todo && to.device in n.table.registered && !Holds(n.known, to, task.value)
    ensures Legal(n, cs, 1)
    ensures var n' := Run(n, cs, 1);
            && n'.table == n.table && n'.tasks == [] && n'.known == Spread(n.table, n.known, task.todo, task.value)
            && n'.events == n.events + if due then [Event(to, task.value)] else []
    decreases |task.todo|
  {
    if task.todo == [] {
      assert Without(n.tasks, 0) == [];
      LegalCons(n, Turn(0, true, 0), [], 1);
      cs := [Turn(0, true, 0)] + [];
    } else {
      var first, still := SeeToOne(n, task, to, due);
      hide Legal, Run;
      var more := SeeTo(Run(n, first, 1), task.(todo := task.todo[1..]), to, still);
      RunSplit(n, first, more, 1);
      cs := first + more;
    }
  }

  lemma TwoSteps(n: Net, c: Choice, d: Choice, limit: nat)
    requires Enabled(n, c, limit) && Enabled(Next(n, c), d, limit)
    ensures Legal(n, [c, d], limit) && Run(n, [c, d], limit) == Next(Next(n, c), d)
  {
    assert [c, d][1..] == [d] && [d][1..] == [];
    assert Legal(Next(Next(n, c), d), [], limit);
    assert Legal(Next(n, c), [d], limit) && Run(Next(n, c), [d], limit) == Next(Next(n, c), d);
  }

  lemma LegalCons(n: Net, c: Choice, cs: seq<Choice>, limit: nat)
    requires Enabled(n, c, limit) && Legal(Next(n, c), cs, limit)
    ensures Legal(n, [c] + cs, limit) && Run(n, [c] + cs, limit) == Run(Next(n, c), cs, limit)
  {
    assert ([c] + cs)[1..] == cs;
  }

  /** Nobody is handling anything, and these reports wait. */
  predicate Waiting(n: Net, t: Table, events: seq<Event>) {
    n.table == t && n.tasks == [] && n.events == events
  }

  /** The oldest report handled from start to finish: `to`, if it is `due`, is set and says so. */
  lemma HandleOldest(n: Net, e: Event, later: seq<Event>, to: Addr, due: bool) returns (cs: seq<Choice>)
    requires Waiting(n, n.table, [e] + later)
    requires due ==> Links(n.table, e.addr, to) && !Holds(n.known, to, e.value)
    ensures |cs| >= 1 && Legal(n, cs, 1)
    ensures var n' := Run(n, cs, 1);
            && Waiting(n', n.table, later + if due then [Event(to, e.value)] else [])
            && n'.known == Spread(n.table, n.known[e.addr := e.value], Peers(n.table.mappings, e.addr), e.value)
  {
    var n1 := Record(n, 0);
    assert Without(n.events, 0) == later;
    var task := Task(e.addr, e.value, Peers(n.table.mappings, e.addr), None);
    assert n1.tasks == [task];
    var more := SeeTo(n1, task, to, due);
    LegalCons(n, Begin(0), more, 1);
    cs := [Begin(0)] + more;
  }

  /** Two values reported one after the other at one address move on to the next, and the first of them
      is known nowhere it was not known before. */
  lemma MoveOn(n: Net, at: Addr, to: Addr, x: OcaValue, y: OcaValue) returns (cs: seq<Choice>)
    requires Waiting(n, n.table, [Event(at, x), Event(at, y)]) && !Holds(n.known, to, x)
    requires x != y && Links(n.table, at, to)
    ensures |cs| >= 1 && Legal(n, cs, 1)
    ensures var n' := Run(n, cs, 1);
            && Waiting(n', n.table, [Event(to, x), Event(to, y)])
            && forall a :: Holds(n'.known, a, x) ==> Holds(n.known, a, x)
  {
    var ps := Peers(n.table.mappings, at);
    assert [Event(at, x)] + [Event(at, y)] == [Event(at, x), Event(at, y)];
    var first := HandleOldest(n, Event(at, x), [Event(at, y)], to, true);
    var n1 := Run(n, first, 1);
    forall a, u ensures Holds(n1.known, a, u)
                        <==> if a in ps && a.device in n.table.registered then u == x else Holds(n.known[at := x], a, u)
    {
      SpreadAt(n.table, n.known[at := x], ps, x, a, u);
    }
    assert [Event(at, y)] + [Event(to, x)] == [Event(at, y), Event(to, x)];
    assert Holds(n1.known, to, x);
    var second := HandleOldest(n1, Event(at, y), [Event(to, x)], to, true);
    var n2 := Run(n1, second, 1);
    assert [Event(to, x)] + [Event(to, y)] == [Event(to, x), Event(to, y)];
    forall a | Holds(n2.known, a, x) ensures Holds(n.known, a, x) {
      SpreadAt(n.table, n1.known[at := y], ps, y, a, x);
      assert a != at && Holds(n1.known, a, x);
    }
    RunSplit(n, first, second, 1);
    cs := first + second;
  }

  ghost predicate Unheld(known: map<Addr, OcaValue>, path: seq<Addr>, x: OcaValue) {
    forall k :: 0 <= k < |path| ==> !Holds(known, path[k], x)
  }

  /** Around a closed path for as long as anyone likes. */
  lemma {:induction false} GoesAround(n: Net, path: seq<Addr>, i: nat, x: OcaValue, y: OcaValue, turns: nat)
    returns (cs: seq<Choice>)
    requires Path(n.table, path) && path[0] == path[|path| - 1] && i < |path| - 1 && x != y
    requires Waiting(n, n.table, [Event(path[i], x), Event(path[i], y)]) && Unheld(n.known, path, x)
    ensures |cs| >= turns && Legal(n, cs, 1)
    decreases turns
  {
    if turns == 0 {
      cs := [];
    } else {
      assert Links(n.table, path[i], path[i + 1]);
      var first := MoveOn(n, path[i], path[i + 1], x, y);
      var next := if i + 1 == |path| - 1 then 0 else i + 1;
      var rest := GoesAround(Run(n, first, 1), path, next, x, y, turns - 1);
      RunSplit(n, first, rest, 1);
      cs := first + rest;
    }
  }

  lemma {:induction false} LegalMore(n: Net, cs: seq<Choice>, less: nat, limit: nat)
    requires less <= limit && Legal(n, cs, less)
    ensures Legal(n, cs, limit)
    decreases |cs|
  {
    if cs != [] { LegalMore(Next(n, cs[0]), cs[1..], less, limit); }
  }

  /** With a cycle there is no end: whatever else is known and held, two values reported at an address of
      the cycle, the first of them known at none of its addresses, can chase each other around it. */
  lemma CycleNeverEnds(n: Net, path: seq<Addr>, x: OcaValue, y: OcaValue, limit: nat)
    requires Path(n.table, path) && path[0] == path[|path| - 1] && x != y && limit >= 1
    requires Waiting(n, n.table, [Event(path[0], x), Event(path[0], y)]) && Unheld(n.known, path, x)
    ensures !Ends(n, limit)
  {
    forall bound: nat ensures !Bounded(n, limit, bound) {
      var cs := GoesAround(n, path, 0, x, y, bound + 1);
      LegalMore(n, cs, 1, limit);
    }
  }

  /** A mapping table is sure to come to rest from every state, however the listeners interleave, exactly
      if no address leads back to itself by way of another. */
  lemma TableEndsIff(t: Table, limit: nat)
    requires limit >= 1
    ensures AlwaysEnds(t, limit) <==> !Cyclic(t)
  {
    if !Cyclic(t) {
      forall n: Net | n.table == t && n.tasks == [] ensures Ends(n, limit) {
        forall cs | Legal(n, cs, limit) ensures |cs| <= WorkLeft(n, limit) { AcyclicRunsEnd(n, cs, limit); }
        assert Bounded(n, limit, WorkLeft(n, limit));
      }
    } else {
      var a :| Leads(t, a, a);
      var path :| Path(t, path) && path[0] == a && path[|path| - 1] == a;
      var n := Net(t, map[], [Event(a, Bool(true)), Event(a, Bool(false))], [], map[], [], {});
      CycleNeverEnds(n, path, Bool(true), Bool(false), limit);
    }
  }

  // ---------------------------------------------------------------- two linked objects

  /** Two objects on registered devices, linked to each other and to nothing else. */
  predicate Paired(t: Table, a: Addr, b: Addr) {
    && a != b && Peers(t.mappings, a) == [b] && Peers(t.mappings, b) == [a]
    && a.device in t.registered && b.device in t.registered
  }

  /** `a` has reported `x` and `b` has reported `y`, and nothing else is going on. */
  predicate BothReported(n: Net, a: Addr, b: Addr, x: OcaValue, y: OcaValue) {
    Paired(n.table, a, b) && Waiting(n, n.table, [Event(a, x), Event(b, y)])
  }

  /** Each listener takes its report. */
  lemma TakeBoth(n: Net, a: Addr, b: Addr, x: OcaValue, y: OcaValue)
    requires a.device != b.device && BothReported(n, a, b, x, y)
    ensures var cs := [Begin(0), Begin(0)];
            && Legal(n, cs, 1)
            && Run(n, cs, 1) == n.(events := [], tasks := [Task(a, x, [b], None), Task(b, y, [a], None)],
                                   known := n.known[a := x][b := y])
  {
    var n1 := Next(n, Begin(0));
    assert n1.events == [Event(b, y)] && n1.tasks == [Task(a, x, [b], None)];
    var n2 := Next(n1, Begin(0));
    assert n2.events == [] && n2.tasks == [Task(a, x, [b], None)] + [Task(b, y, [a], None)];
    TwoSteps(n, Begin(0), Begin(0), 1);
  }

  /** Each claims the other's end, which reported something else. */
  lemma ClaimBoth(n: Net, a: Addr, b: Addr, x: OcaValue, y: OcaValue)
    requires Paired(n.table, a, b) && x != y
    requires n.tasks == [Task(a, x, [b], None), Task(b, y, [a], None)] && Holds(n.known, a, x) && Holds(n.known, b, y)
    ensures var cs := [Turn(0, true, 1), Turn(1, true, 1)];
            && Legal(n, cs, 1)
            && Run(n, cs, 1) == n.(tasks := [Task(a, x, [], Some(b)), Task(b, y, [], Some(a))],
                                   known := n.known[b := x][a := y])
  {
    assert [a][1..] == [] && [b][1..] == [];
    var n1 := Next(n, Turn(0, true, 1));
    assert n1.tasks == [Task(a, x, [], Some(b)), Task(b, y, [a], None)];
    var n2 := Next(n1, Turn(1, true, 1));
    assert n2.tasks == [Task(a, x, [], Some(b)), Task(b, y, [], Some(a))];
    TwoSteps(n, Turn(0, true, 1), Turn(1, true, 1), 1);
  }

  /** Both sets are made, and confirmed once each. */
  lemma SetBoth(n: Net, a: Addr, b: Addr, x: OcaValue, y: OcaValue)
    requires n.events == [] && n.tasks == [Task(a, x, [], Some(b)), Task(b, y, [], Some(a))]
    ensures var cs := [Turn(0, true, 1), Turn(1, true, 1)];
            && Legal(n, cs, 1)
            && Run(n, cs, 1).table == n.table && Run(n, cs, 1).events == [Event(b, x), Event(a, y)]
            && Run(n, cs, 1).tasks == [Task(a, x, [], None), Task(b, y, [], None)]
  {
    assert Repeat(Event(b, x), 1) == [Event(b, x)] && Repeat(Event(a, y), 1) == [Event(a, y)];
    var n1 := Next(n, Turn(0, true, 1));
    assert n1.events == [Event(b, x)] && n1.tasks == [Task(a, x, [], None), Task(b, y, [], Some(a))];
    var n2 := Next(n1, Turn(1, true, 1));
    assert n2.events == [Event(b, x)] + [Event(a, y)];
    TwoSteps(n, Turn(0, true, 1), Turn(1, true, 1), 1);
  }

  lemma DropBoth(n: Net, t1: Task, t2: Task)
    requires n.tasks == [t1, t2] && t1.setting.None? && t2.setting.None? && t1.todo == [] && t2.todo == []
    ensures var cs := [Turn(0, true, 1), Turn(0, true, 1)];
            Legal(n, cs, 1) && Run(n, cs, 1) == n.(tasks := [])
  {
    var n1 := Next(n, Turn(0, true, 1));
    assert n1.tasks == [t2];
    assert Without([t2], 0) == [];
    TwoSteps(n, Turn(0, true, 1), Turn(0, true, 1), 1);
  }

  /** Handled side by side, two reports of different values change ends: each peer is known to hold the
      other value, whatever was known before. */
  lemma Cross(n: Net, a: Addr, b: Addr, x: OcaValue, y: OcaValue) returns (cs: seq<Choice>)
    requires a.device != b.device && x != y && BothReported(n, a, b, x, y)
    ensures |cs| == 8 && Legal(n, cs, 1) && BothReported(Run(n, cs, 1), b, a, x, y)
  {
    var turns := [Turn(0, true, 1), Turn(1, true, 1)];
    TakeBoth(n, a, b, x, y);
    var n2 := Run(n, [Begin(0), Begin(0)], 1);
    ClaimBoth(n2, a, b, x, y);
    var n4 := Run(n2, turns, 1);
    SetBoth(n4, a, b, x, y);
    var n6 := Run(n4, turns, 1);
    DropBoth(n6, Task(a, x, [], None), Task(b, y, [], None));
    hide Legal, Run, Next, Enabled;
    RunSplit(n4, turns, [Turn(0, true, 1), Turn(0, true, 1)], 1);
    RunSplit(n2, turns, turns + [Turn(0, true, 1), Turn(0, true, 1)], 1);
    RunSplit(n, [Begin(0), Begin(0)], turns + (turns + [Turn(0, true, 1), Turn(0, true, 1)]), 1);
    cs := [Begin(0), Begin(0)] + (turns + (turns + [Turn(0, true, 1), Turn(0, true, 1)]));
  }

  lemma {:induction false} CrossForever(n: Net, a: Addr, b: Addr, x: OcaValue, y: OcaValue, turns: nat)
    returns (cs: seq<Choice>)
    requires a.device != b.device && x != y && BothReported(n, a, b, x, y)
    ensures |cs| == 8 * turns && Legal(n, cs, 1)
    decreases turns
  {
    if turns == 0 {
      cs := [];
    } else {
      var first := Cross(n, a, b, x, y);
      var rest := CrossForever(Run(n, first, 1), b, a, x, y, turns - 1);
      RunSplit(n, first, rest, 1);
      cs := first + rest;
    }
  }

  lemma PairIsCyclic(t: Table, a: Addr, b: Addr)
    requires Paired(t, a, b)
    ensures Path(t, [a, b, a])
  {}

  /** On one device the reports are handled one after the other: three of them later both values have been
      reported at `a`, and `y` is known at neither end. */
  lemma OneAfterAnother(n: Net, a: Addr, b: Addr, x: OcaValue, y: OcaValue) returns (cs: seq<Choice>)
    requires x != y && BothReported(n, a, b, x, y) && !Holds(n.known, b, x)
    ensures Legal(n, cs, 1)
    ensures var n' := Run(n, cs, 1);
            Waiting(n', n.table, [Event(a, y), Event(a, x)]) && Holds(n'.known, a, x) && Holds(n'.known, b, x)
  {
    assert [Event(a, x), Event(b, y)] == [Event(a, x)] + [Event(b, y)];
    var first := HandleOldest(n, Event(a, x), [Event(b, y)], b, true);
    var n1 := Run(n, first, 1);
    SpreadAt(n.table, n.known[a := x], [b], x, a, x);
    assert n1.events == [Event(b, y)] + [Event(b, x)];
    var second := HandleOldest(n1, Event(b, y), [Event(b, x)], a, true);
    var n2 := Run(n1, second, 1);
    SpreadAt(n.table, n1.known[b := y], [a], y, a, y);
    assert n2.events == [Event(b, x)] + [Event(a, y)];
    var third := HandleOldest(n2, Event(b, x), [Event(a, y)], a, true);
    SpreadAt(n.table, n2.known[b := x], [a], x, a, x);
    SpreadAt(n.table, n2.known[b := x], [a], x, b, x);
    assert [Event(a, y)] + [Event(a, x)] == [Event(a, y), Event(a, x)];
    RunSplit(n1, second, third, 1);
    RunSplit(n, first, second + third, 1);
    cs := first + (second + third);
  }

  /** On one device, with `b` known to hold `x` already, there is one way to begin: the first report is
      taken, its peer skipped, and its task dropped. */
  lemma OneWay(n: Net, a: Addr, b: Addr, x: OcaValue, y: OcaValue, c: Choice, limit: nat, stage: nat)
    requires BothReported(n, a, b, x, y) && a.device == b.device && Holds(n.known, b, x) && stage < 3
    requires Enabled(DyingOut(n, a, b, x, y, stage), c, limit)
    ensures Next(DyingOut(n, a, b, x, y, stage), c) == DyingOut(n, a, b, x, y, stage + 1)
  {
    if stage == 0 {
      assert n.events[0].addr.device == n.events[1].addr.device;
      assert c.Begin? && c.k == 0;
      assert Without(n.events, 0) == [Event(b, y)];
      assert Record(n, 0).tasks == [Task(a, x, [b], None)];
    } else {
      assert [b][1..] == [];
      assert c.Turn? && c.k == 0;
    }
  }

  function DyingOut(n: Net, a: Addr, b: Addr, x: OcaValue, y: OcaValue, stage: nat): Net {
    if stage == 0 then n
    else
      n.(events := [Event(b, y)], known := n.known[a := x],
         tasks := if stage == 1 then [Task(a, x, [b], None)] else if stage == 2 then [Task(a, x, [], None)] else [])
  }

  lemma FirstDiesOut(n: Net, a: Addr, b: Addr, x: OcaValue, y: OcaValue, cs: seq<Choice>, limit: nat, stage: nat)
    requires BothReported(n, a, b, x, y) && a.device == b.device && Holds(n.known, b, x) && stage <= 3
    requires Legal(DyingOut(n, a, b, x, y, stage), cs, limit)
    ensures |cs| <= 3 - stage + Work(DyingOut(n, a, b, x, y, 3), y, limit)
    decreases 3 - stage
  {
    if stage == 3 {
      RunsEnd(DyingOut(n, a, b, x, y, 3), cs, y, limit);
    } else if cs != [] {
      OneWay(n, a, b, x, y, cs[0], limit, stage);
      FirstDiesOut(n, a, b, x, y, cs[1..], limit, stage + 1);
    }
  }

  /** Two linked objects that have each reported a value come to rest, whatever was known of them, exactly
      if it was the same value - or if one device reported both, and its listener already knew the second
      object to hold the first one's value. */
  lemma PairEndsIff(n: Net, a: Addr, b: Addr, x: OcaValue, y: OcaValue, limit: nat)
    requires BothReported(n, a, b, x, y) && limit >= 1
    ensures Ends(n, limit) <==> x == y || (a.device == b.device && Holds(n.known, b, x))
  {
    if x == y {
      forall cs | Legal(n, cs, limit) ensures |cs| <= Work(n, x, limit) { RunsEnd(n, cs, x, limit); }
      assert Bounded(n, limit, Work(n, x, limit));
    } else if a.device != b.device {
      forall bound: nat ensures !Bounded(n, limit, bound) {
        var cs := CrossForever(n, a, b, x, y, bound + 1);
        LegalMore(n, cs, 1, limit);
      }
    } else if Holds(n.known, b, x) {
      var n3 := DyingOut(n, a, b, x, y, 3);
      forall cs | Legal(n, cs, limit) ensures |cs| <= 3 + Work(n3, y, limit) { FirstDiesOut(n, a, b, x, y, cs, limit, 0); }
      assert Bounded(n, limit, 3 + Work(n3, y, limit));
    } else {
      var start := OneAfterAnother(n, a, b, x, y);
      var n' := Run(n, start, 1);
      PairIsCyclic(n.table, a, b);
      assert !Holds(n'.known, a, y) && !Holds(n'.known, b, y);
      forall bound: nat ensures !Bounded(n, limit, bound) {
        var cs := GoesAround(n', [a, b, a], 0, y, x, bound + 1);
        RunSplit(n, start, cs, 1);
        LegalMore(n, start + cs, 1, limit);
      }
    }
  }
}
