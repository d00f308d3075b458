/** The Router itself: the shared state its listeners change and what handling one event does to it. */
module Router {
  import opened RouterNet

  // ---------------------------------------------------------------- the mapping table

  predicate Links(m: Mapping, from: Addr, to: Addr) {
    m.origin == from && m.to == to
  }

  /** The table without its first mapping from `from` to `to`. */
  function Unmapped(ms: seq<Mapping>, from: Addr, to: Addr): seq<Mapping> {
    if ms == [] then []
    else if Links(ms[0], from, to) then ms[1..]
    else [ms[0]] + Unmapped(ms[1..], from, to)
  }

  lemma {:induction false} UnmappedAt(ms: seq<Mapping>, k: nat, from: Addr, to: Addr)
    requires k < |ms| && Links(ms[k], from, to)
    requires forall j :: 0 <= j < k ==> !Links(ms[j], from, to)
    ensures Unmapped(ms, from, to) == ms[..k] + ms[k + 1..]
  {
    if k > 0 {
      UnmappedAt(ms[1..], k - 1, from, to);
      assert ms[..k] == [ms[0]] + ms[1..][..k - 1];
    }
  }

  lemma {:induction false} UnmappedNowhere(ms: seq<Mapping>, from: Addr, to: Addr)
    requires forall j :: 0 <= j < |ms| ==> !Links(ms[j], from, to)
    ensures Unmapped(ms, from, to) == ms
  {
    if ms != [] { UnmappedNowhere(ms[1..], from, to); }
  }

  lemma {:induction false} PeersConcat(ms: seq<Mapping>, ns: seq<Mapping>, a: Addr)
    ensures Peers(ms + ns, a) == Peers(ms, a) + Peers(ns, a)
  {
    if ms == [] {
      assert ms + ns == ns;
    } else {
      assert (ms + ns)[0] == ms[0] && (ms + ns)[1..] == ms[1..] + ns;
      PeersConcat(ms[1..], ns, a);
    }
  }

  /** Removing a pair takes one link out of every address's peers and leaves the others in order. */
  lemma RemovalUnlinksOne(ms: seq<Mapping>, from: Addr, to: Addr, k: nat, a: Addr)
    requires k < |ms| && Links(ms[k], from, to)
    requires forall j :: 0 <= j < k ==> !Links(ms[j], from, to)
    ensures Peers(ms, a) == Peers(ms[..k], a) + Peers([ms[k]], a) + Peers(ms[k + 1..], a)
    ensures Peers(Unmapped(ms, from, to), a) == Peers(ms[..k], a) + Peers(ms[k + 1..], a)
  {
    UnmappedAt(ms, k, from, to);
    PeersConcat(ms[..k], ms[k + 1..], a);
    PeersConcat([ms[k]], ms[k + 1..], a);
    PeersConcat(ms[..k], [ms[k]] + ms[k + 1..], a);
    assert ms == ms[..k] + ([ms[k]] + ms[k + 1..]);
  }

  /** Removing the pair just added undoes the addition, provided it was not mapped before. */
  lemma RemoveUndoesAdd(ms: seq<Mapping>, m: Mapping)
    requires forall j :: 0 <= j < |ms| ==> !Links(ms[j], m.origin, m.to)
    ensures Unmapped(ms + [m], m.origin, m.to) == ms
  {
    UnmappedAt(ms + [m], |ms|, m.origin, m.to);
    assert (ms + [m])[..|ms|] == ms;
  }

  /** Who hears from whom: along every mapping, and against it when it is bidirectional. */
  lemma {:induction false} PeersIff(ms: seq<Mapping>, a: Addr, p: Addr)
    ensures p in Peers(ms, a)
            <==> exists k :: 0 <= k < |ms| && (Links(ms[k], a, p) || (ms[k].bidirectional && Links(ms[k], p, a)))
  {
    if ms != [] {
      PeersIff(ms[1..], a, p);
      if k :| 0 <= k < |ms[1..]| && (Links(ms[1..][k], a, p) || (ms[1..][k].bidirectional && Links(ms[1..][k], p, a))) {
        assert ms[k + 1] == ms[1..][k];
      }
      if k :| 0 <= k < |ms| && (Links(ms[k], a, p) || (ms[k].bidirectional && Links(ms[k], p, a))) {
        if k > 0 { assert ms[1..][k - 1] == ms[k]; }
      }
    }
  }

  /** One mapping's share of the peers; by `PeersConcat` a table's are its mappings' shares in order. */
  lemma PeersOne(m: Mapping, a: Addr)
    ensures Peers([m], a) == if Links(m, a, m.to) then [m.to]
                             else if m.bidirectional && Links(m, m.origin, a) then [m.origin] else []
  {
    assert [m][1..] == [];
  }

  // ---------------------------------------------------------------- one event, uninterrupted

  datatype Effect = Effect(known: map<Addr, OcaValue>, sets: seq<Addr>)

  /** Passing `v` on to the peers in turn: which of them are set, and the map after it. */
  function Passing(registered: set<string>, known: map<Addr, OcaValue>, v: OcaValue, todo: seq<Addr>): Effect
    decreases |todo|
  {
    if todo == [] then Effect(known, [])
    else if todo[0].device !in registered || Holds(known, todo[0], v) then Passing(registered, known, v, todo[1..])
    else
      var rest := Passing(registered, known[todo[0] := v], v, todo[1..]);
      Effect(rest.known, [todo[0]] + rest.sets)
  }

  lemma {:induction false} PassingAppend(registered: set<string>, known: map<Addr, OcaValue>, v: OcaValue,
                                         todo: seq<Addr>, p: Addr)
    ensures var before := Passing(registered, known, v, todo);
            Passing(registered, known, v, todo + [p])
            == if p.device !in registered || Holds(before.known, p, v) then before
               else Effect(before.known[p := v], before.sets + [p])
    decreases |todo|
  {
    if todo == [] {
      assert (todo + [p])[1..] == [];
    } else {
      assert (todo + [p])[0] == todo[0] && (todo + [p])[1..] == todo[1..] + [p];
      var known' :=
        if todo[0].device !in registered || Holds(known, todo[0], v) then known else known[todo[0] := v];
      PassingAppend(registered, known', v, todo[1..], p);
    }
  }

  /** What is known once one peer has been offered the value. */
  function Offered(registered: set<string>, known: map<Addr, OcaValue>, v: OcaValue, p: Addr): map<Addr, OcaValue> {
    if p.device !in registered || Holds(known, p, v) then known else known[p := v]
  }

  /** Exactly the registered peers that were not known to hold the value are set, each of them once. */
  lemma {:induction false} PassingSets(registered: set<string>, known: map<Addr, OcaValue>, v: OcaValue, todo: seq<Addr>)
    ensures var r := Passing(registered, known, v, todo);
            && (forall p :: p in r.sets <==> p in todo && p.device in registered && !Holds(known, p, v))
            && (forall i, j :: 0 <= i < j < |r.sets| ==> r.sets[i] != r.sets[j])
    decreases |todo|
  {
    if todo != [] {
      var known' := Offered(registered, known, v, todo[0]);
      PassingSets(registered, known', v, todo[1..]);
      assert forall p :: p in todo <==> p == todo[0] || p in todo[1..];
      var sets, rest := Passing(registered, known, v, todo).sets, Passing(registered, known', v, todo[1..]).sets;
      if known' != known {
        assert sets == [todo[0]] + rest;
        assert forall p :: p in sets <==> p == todo[0] || p in rest;
        assert todo[0] !in rest;
      } else {
        assert sets == rest;
      }
    }
  }

  /** The peers set are known to hold the value, and nothing else known has changed. */
  lemma {:induction false} PassingKnows(registered: set<string>, known: map<Addr, OcaValue>, v: OcaValue,
                                        todo: seq<Addr>, p: Addr)
    ensures var r := Passing(registered, known, v, todo);
            if p in r.sets then Holds(r.known, p, v)
            else (p in r.known <==> p in known) && (p in known ==> r.known[p] == known[p])
    decreases |todo|
  {
    if todo != [] {
      PassingKnows(registered, Offered(registered, known, v, todo[0]), v, todo[1..], p);
    }
  }

  /** What handling an event does when nothing else runs meanwhile. */
  function Handling(t: Table, known: map<Addr, OcaValue>, e: Event): Effect {
    Passing(t.registered, known[e.addr := e.value], e.value, Peers(t.mappings, e.addr))
  }

  /** Hearing the same report again sends nothing: the copies a shared broadcast domain makes of a
      change, and a device's confirmation of it, all end here. */
  lemma RepeatIsSilent(t: Table, known: map<Addr, OcaValue>, e: Event)
    ensures Handling(t, Handling(t, known, e).known, e) == Effect(Handling(t, known, e).known, [])
  {
    var peers := Peers(t.mappings, e.addr);
    var start := known[e.addr := e.value];
    var once := Handling(t, known, e);
    PassingSets(t.registered, start, e.value, peers);
    forall p ensures p in peers && p.device in t.registered ==> Holds(once.known, p, e.value) {
      PassingKnows(t.registered, start, e.value, peers, p);
    }
    PassingKnows(t.registered, start, e.value, peers, e.addr);
    assert once.known[e.addr := e.value] == once.known;
    NothingToPass(t.registered, once.known, e.value, peers);
  }

  lemma {:induction false} NothingToPass(registered: set<string>, known: map<Addr, OcaValue>, v: OcaValue, todo: seq<Addr>)
    requires forall p :: p in todo && p.device in registered ==> Holds(known, p, v)
    ensures Passing(registered, known, v, todo) == Effect(known, [])
    decreases |todo|
  {
    if todo != [] {
      assert todo[0] in todo && forall p :: p in todo[1..] ==> p in todo;
      NothingToPass(registered, known, v, todo[1..]);
    }
  }

  /** A mapping leads from `a` to `p`, or a bidirectional one from `p` to `a`. */
  ghost predicate Mapped(ms: seq<Mapping>, a: Addr, p: Addr) {
    exists k :: 0 <= k < |ms| && (Links(ms[k], a, p) || (ms[k].bidirectional && Links(ms[k], p, a)))
  }

  /** What one event does: the value reported is known of its own address; it goes, once each, to exactly the
      registered peers that are not known to hold it - the address itself among those that do - and is known of
      them from then on; nothing else known changes. */
  ghost predicate Handled(t: Table, known: map<Addr, OcaValue>, e: Event, known': map<Addr, OcaValue>, sets: seq<Addr>) {
    && (forall p :: p in sets <==> Mapped(t.mappings, e.addr, p) && p.device in t.registered && p != e.addr
                                   && !(p in known && known[p] == e.value))
    && (forall i, j :: 0 <= i < j < |sets| ==> sets[i] != sets[j])
    && (forall a :: a == e.addr || a in sets ==> a in known' && known'[a] == e.value)
    && (forall a :: a != e.addr && a !in sets ==>
          (a in known' <==> a in known) && (a in known ==> known'[a] == known[a]))
  }

  lemma HandlingIs(t: Table, known: map<Addr, OcaValue>, e: Event)
    ensures Handled(t, known, e, Handling(t, known, e).known, Handling(t, known, e).sets)
  {
    hide Passing, Peers;
    var peers, start := Peers(t.mappings, e.addr), known[e.addr := e.value];
    PassingSets(t.registered, start, e.value, peers);
    forall p ensures p in peers <==> Mapped(t.mappings, e.addr, p) {
      PeersIff(t.mappings, e.addr, p);
    }
    forall p { PassingKnows(t.registered, start, e.value, peers, p); }
  }

  /** While an address is known to hold a value, a report of that value from anywhere sends nothing to it and leaves it
      known to: so nothing a device is set to comes back from the devices confirming it. */
  lemma HoldersAreLeftAlone(t: Table, known: map<Addr, OcaValue>, e: Event, a: Addr)
    requires a in known && known[a] == e.value
    ensures a !in Handling(t, known, e).sets
    ensures a in Handling(t, known, e).known && Handling(t, known, e).known[a] == e.value
  {
    HandlingIs(t, known, e);
  }

  /** The echo the Router is there to stop: a report, and then the peers it set confirming their values in any order,
      any of them any number of times, sends nothing back to where the report came from, and nothing again to a
      peer already set. */
  lemma ConfirmationsSendNothingBack(t: Table, known: map<Addr, OcaValue>, e: Event, confirmed: seq<Addr>)
    ensures var r := Handling(t, known, e);
            var r' := HandlingAll(t, r.known, confirmed, e.value);
            && e.addr !in r'.sets
            && (forall p :: p in r.sets ==> p !in r'.sets)
  {
    HandlingIs(t, known, e);
    var r := Handling(t, known, e);
    HandlingAllLeavesAlone(t, r.known, confirmed, e.value, e.addr);
    forall p | p in r.sets ensures p !in HandlingAll(t, r.known, confirmed, e.value).sets {
      HandlingAllLeavesAlone(t, r.known, confirmed, e.value, p);
    }
  }

  /** Reports of one value from each address in turn. */
  function HandlingAll(t: Table, known: map<Addr, OcaValue>, from: seq<Addr>, v: OcaValue): Effect
    decreases |from|
  {
    if from == [] then Effect(known, [])
    else
      var r := Handling(t, known, Event(from[0], v));
      var rest := HandlingAll(t, r.known, from[1..], v);
      Effect(rest.known, r.sets + rest.sets)
  }

  lemma {:induction false} HandlingAllLeavesAlone(t: Table, known: map<Addr, OcaValue>, from: seq<Addr>, v: OcaValue,
                                                  a: Addr)
    requires a in known && known[a] == v
    ensures a !in HandlingAll(t, known, from, v).sets
    decreases |from|
  {
    if from != [] {
      HoldersAreLeftAlone(t, known, Event(from[0], v), a);
      HandlingAllLeavesAlone(t, Handling(t, known, Event(from[0], v)).known, from[1..], v, a);
    }
  }

  lemma FirstTwo(s: seq<Addr>)
    ensures s == [] || s[0] in s
    ensures |s| < 2 || (s[0] in s && s[1] in s)
    ensures |s| == 1 ==> s == [s[0]]
  {}

  /** Two objects mapped both ways: the report of one sets the other, and the other's confirmation sets nothing. */
  lemma PairSettles(a: Addr, b: Addr, v: OcaValue)
    requires a != b
    ensures var t := Table({a.device, b.device}, [Mapping(a, b, true)]);
            var r := Handling(t, map[], Event(a, v));
            && r.sets == [b]
            && Handling(t, r.known, Event(b, v)).sets == []
  {
    var t := Table({a.device, b.device}, [Mapping(a, b, true)]);
    var r := Handling(t, map[], Event(a, v));
    HandlingIs(t, map[], Event(a, v));
    HandlingIs(t, r.known, Event(b, v));
    assert Links(t.mappings[0], a, b);
    assert b in r.sets;
    assert forall p :: p in r.sets ==> p == b;
    FirstTwo(r.sets);
    FirstTwo(Handling(t, r.known, Event(b, v)).sets);
  }

  /** The last task on the list, left to run alone whatever the outcome of its sets, has the
      effect of `Passing`: the protocol's steps are the pieces of the method below. */
  lemma {:induction false} PassingIsRun(n: Net, oks: seq<bool>) returns (cs: seq<Choice>)
    requires n.tasks != [] && n.tasks[|n.tasks| - 1].setting.None?
    requires |oks| == |n.tasks[|n.tasks| - 1].todo|
    ensures Legal(n, cs, 0)
    ensures var t := n.tasks[|n.tasks| - 1]; var r := Passing(n.table.registered, n.known, t.value, t.todo);
            var n' := Run(n, cs, 0);
            && n'.known == r.known && n'.sets == n.sets + r.sets
            && n'.tasks == n.tasks[..|n.tasks| - 1] && n'.events == n.events
    decreases |oks|
  {
    var last := |n.tasks| - 1;
    var t := n.tasks[last];
    if t.todo == [] {
      cs := [Turn(last, true, 0)];
      var n' := Next(n, cs[0]);
      assert cs[1..] == [];
      assert n'.tasks == n.tasks[..last];
      assert n'.sets + [] == n'.sets;
    } else {
      var n1 := Next(n, Turn(last, oks[0], 0));
      if n1.tasks[last].setting.None? {
        var rest := PassingIsRun(n1, oks[1..]);
        cs := [Turn(last, oks[0], 0)] + rest;
        assert cs[1..] == rest;
        assert n1.tasks[..last] == n.tasks[..last];
      } else {
        cs := SetAndPass(n, oks);
      }
    }
  }

  /** A claim, and the set it leads to coming back unconfirmed. */
  function ClaimedAndSet(n: Net, k: nat): Net
    requires k < |n.tasks| && n.tasks[k].todo != []
  {
    var t := n.tasks[k];
    n.(known := n.known[t.todo[0] := t.value], sets := n.sets + [t.todo[0]],
       tasks := n.tasks[k := t.(todo := t.todo[1..])])
  }

  lemma TwoTurns(n: Net, k: nat, ok: bool) returns (n2: Net)
    requires k < |n.tasks| && n.tasks[k].setting.None? && n.tasks[k].todo != []
    requires Next(n, Turn(k, ok, 0)).tasks[k].setting.Some?
    ensures Legal(n, [Turn(k, ok, 0), Turn(k, ok, 0)], 0) && n2 == Run(n, [Turn(k, ok, 0), Turn(k, ok, 0)], 0)
    ensures var m := ClaimedAndSet(n, k);
            n2.table == m.table && n2.known == m.known && n2.sets == m.sets && n2.tasks == m.tasks && n2.events == m.events
    ensures var t := n.tasks[k];
            t.todo[0].device in n.table.registered && !Holds(n.known, t.todo[0], t.value)
  {
    var turn := Turn(k, ok, 0);
    var n1 := Next(n, turn);
    n2 := Next(n1, turn);
    assert [turn, turn][1..] == [turn] && [turn][1..] == [];
    assert Legal(n2, [], 0) && Run(n2, [], 0) == n2;
    assert Legal(n1, [turn], 0) && Run(n1, [turn], 0) == Run(n2, [], 0);
    assert n2.tasks == ClaimedAndSet(n, k).tasks;
    assert n.events + [] == n.events;
  }

  lemma {:induction false} SetAndPass(n: Net, oks: seq<bool>) returns (cs: seq<Choice>)
    requires n.tasks != [] && n.tasks[|n.tasks| - 1].setting.None?
    requires |oks| == |n.tasks[|n.tasks| - 1].todo| > 0
    requires Next(n, Turn(|n.tasks| - 1, oks[0], 0)).tasks[|n.tasks| - 1].setting.Some?
    ensures Legal(n, cs, 0)
    ensures var t := n.tasks[|n.tasks| - 1]; var r := Passing(n.table.registered, n.known, t.value, t.todo);
            var n' := Run(n, cs, 0);
            && n'.known == r.known && n'.sets == n.sets + r.sets
            && n'.tasks == n.tasks[..|n.tasks| - 1] && n'.events == n.events
    decreases |oks|, 0
  {
    var last := |n.tasks| - 1;
    var n2 := TwoTurns(n, last, oks[0]);
    hide Claim, Finish, Next, Legal, Run;
    var rest := PassingIsRun(n2, oks[1..]);
    RunSplit(n, [Turn(last, oks[0], 0), Turn(last, oks[0], 0)], rest, 0);
    cs := [Turn(last, oks[0], 0), Turn(last, oks[0], 0)] + rest;
    assert n2.tasks[..last] == n.tasks[..last];
    assert n2.sets == n.sets + [n.tasks[last].todo[0]];
  }

  /** Handling an event is a run of the protocol that starts with taking it off the wire. */
  lemma HandlingIsRun(n: Net, k: nat, oks: seq<bool>) returns (cs: seq<Choice>)
    requires NextInLine(n, k) && |oks| == |Peers(n.table.mappings, n.events[k].addr)|
    ensures cs != [] && cs[0] == Begin(k) && Legal(n, cs, 0)
    ensures var r := Handling(n.table, n.known, n.events[k]);
            var n' := Run(n, cs, 0);
            && n'.known == r.known && n'.sets == n.sets + r.sets
            && n'.tasks == n.tasks && n'.events == n.events[..k] + n.events[k + 1..]
  {
    hide Passing, Peers;
    var begun := Next(n, Begin(k));
    var rest := PassingIsRun(begun, oks);
    cs := [Begin(k)] + rest;
    assert cs[1..] == rest;
    assert begun.tasks[..|begun.tasks| - 1] == n.tasks;
  }

  // ---------------------------------------------------------------- the object

  /** A Router: its devices, mapping table and shared map, and a log of the sets it has issued. */
  class Router {
    var devices: set<string>
    var mappings: seq<Mapping>
    var lastKnown: map<Addr, OcaValue>
    ghost var sets: seq<Addr>

    constructor (ms: seq<Mapping>)
      ensures mappings == ms && devices == {} && lastKnown == map[] && sets == []
    {
      devices, mappings, lastKnown, sets := {}, ms, map[], [];
    }

    /** What is known of the device's objects from an earlier registration stays known. */
    method RegisterDevice(id: string)
      modifies `devices
      ensures devices == old(devices) + {id}
    {
      devices := devices + {id};
    }

    /** Nothing known of the device's objects is forgotten. */
    method DeregisterDevice(id: string) returns (found: bool)
      modifies `devices
      ensures found <==> id in old(devices)
      ensures devices == old(devices) - {id}
    {
      found := id in devices;
      devices := devices - {id};
    }

    method UpdateMappings(ms: seq<Mapping>)
      modifies `mappings
      ensures mappings == ms
    {
      mappings := ms;
    }

    method AddMapping(m: Mapping)
      modifies `mappings
      ensures mappings == old(mappings) + [m]
    {
      mappings := mappings + [m];
    }

    method RemoveMapping(from: Addr, to: Addr) returns (found: bool)
      modifies `mappings
      ensures found <==> exists k :: 0 <= k < |old(mappings)| && Links(old(mappings)[k], from, to)
      ensures mappings == Unmapped(old(mappings), from, to)
    {
      var k := 0;
      while k < |mappings| && !Links(mappings[k], from, to)
        invariant 0 <= k <= |mappings| && mappings == old(mappings)
        invariant forall j :: 0 <= j < k ==> !Links(mappings[j], from, to)
      {
        k := k + 1;
      }
      found := k < |mappings|;
      if found {
        UnmappedAt(mappings, k, from, to);
        mappings := mappings[..k] + mappings[k + 1..];
      } else {
        UnmappedNowhere(mappings, from, to);
      }
    }

    method PeersOf(a: Addr) returns (peers: seq<Addr>)
      ensures peers == Peers(mappings, a)
    {
      peers := [];
      var k := 0;
      while k < |mappings|
        invariant 0 <= k <= |mappings|
        invariant peers + Peers(mappings[k..], a) == Peers(mappings, a)
      {
        var m := mappings[k];
        assert mappings[k..][0] == m && mappings[k..][1..] == mappings[k + 1..];
        ghost var before := peers;
        if m.origin == a {
          peers := peers + [m.to];
          assert before + ([m.to] + Peers(mappings[k + 1..], a)) == peers + Peers(mappings[k + 1..], a);
        } else if m.bidirectional && m.to == a {
          peers := peers + [m.origin];
          assert before + ([m.origin] + Peers(mappings[k + 1..], a)) == peers + Peers(mappings[k + 1..], a);
        }
        k := k + 1;
      }
      assert mappings[k..] == [];
    }

    /** Under one lock: whether the peer is to be set, having claimed the value for it if so. */
    method Claim(peer: Addr, v: OcaValue) returns (claimed: bool)
      modifies `lastKnown
      ensures claimed <==> !Holds(old(lastKnown), peer, v)
      ensures lastKnown == old(lastKnown)[peer := v]
    {
      if peer in lastKnown && lastKnown[peer] == v {
        assert lastKnown == lastKnown[peer := v];
        return false;
      }
      lastKnown := lastKnown[peer := v];
      return true;
    }

    /** A set goes out; whether it succeeds changes nothing here. */
    ghost method SetObject(peer: Addr)
      modifies `sets
      ensures sets == old(sets) + [peer]
    {
      sets := sets + [peer];
    }

    method HandleEvent(e: Event)
      modifies `lastKnown, `sets
      ensures var r := Handling(Table(devices, mappings), old(lastKnown), e);
              lastKnown == r.known && sets == old(sets) + r.sets
      ensures old(sets) <= sets
              && Handled(Table(devices, mappings), old(lastKnown), e, lastKnown, sets[|old(sets)|..])
    {
      lastKnown := lastKnown[e.addr := e.value];
      ghost var start := lastKnown;
      var peers := PeersOf(e.addr);
      var k := 0;
      while k < |peers|
        invariant 0 <= k <= |peers|
        invariant Effect(lastKnown, sets)
                  == var r := Passing(devices, start, e.value, peers[..k]); Effect(r.known, old(sets) + r.sets)
      {
        PassingAppend(devices, start, e.value, peers[..k], peers[k]);
        assert peers[..k + 1] == peers[..k] + [peers[k]];
        if peers[k].device in devices {
          var claimed := Claim(peers[k], e.value);
          if claimed { SetObject(peers[k]); }
          else { assert lastKnown[peers[k] := e.value] == lastKnown; }
        }
        k := k + 1;
      }
      assert peers[..k] == peers;
      HandlingIs(Table(devices, mappings), old(lastKnown), e);
      assert sets[|old(sets)|..] == Handling(Table(devices, mappings), old(lastKnown), e).sets;
    }
  }
}
