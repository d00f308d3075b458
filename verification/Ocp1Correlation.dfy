/** Requests in flight: any number of callers allocating handles and waiting while the reader task
    delivers answers, each lock-protected piece one atomic step. */
module Ocp1Correlation {
  import opened Bytes
  import opened Ocp1Client
  import opened Ocp1Pdu

  datatype Outcome = Answered(response: Message) | Failed

  /** Where a request is. `serial` says which turn of the handle counter gave it its handle. */
  datatype Phase =
    | Asking
    | AskingAgain(serial: nat)
    | Holding(handle: u32, serial: nat)
    | Waiting(handle: u32, serial: nat)
    | Expired(handle: u32, serial: nat)
    | Done(outcome: Outcome)

  /** `fetched` counts the counter's turns, which the counter itself only knows modulo its width. */
  datatype World = World(fetched: nat, counter: u32, pending: map<u32, Ticket>, phases: seq<Phase>)

  datatype Step =
    | Start
    | Fetch(t: Ticket)
    | Insert(t: Ticket)
    | Refuse(t: Ticket)
    | Expire(t: Ticket)
    | Forget(t: Ticket)
    | Receive(m: Message)
    | Hangup

  function HandleOf(serial: nat): u32 {
    (1 + serial) % SPAN32
  }

  predicate Enabled(w: World, s: Step) {
    match s
    case Start => true
    case Fetch(t) => t < |w.phases| && (w.phases[t].Asking? || w.phases[t].AskingAgain?)
    case Insert(t) => t < |w.phases| && w.phases[t].Holding?
    case Refuse(t) => t < |w.phases| && w.phases[t].Waiting?
    case Expire(t) => t < |w.phases| && w.phases[t].Waiting?
    case Forget(t) => t < |w.phases| && w.phases[t].Expired?
    case Receive(m) => true
    case Hangup => true
  }

  /** A waiter whose channel is dropped unanswered learns that the connection is gone. */
  function Dropped(p: Phase): Phase {
    if p.Waiting? then Done(Failed) else p
  }

  /** An answer only reaches a request that has not given up on it. */
  function Sent(p: Phase, m: Message): Phase {
    if p.Waiting? then Done(Answered(m)) else p
  }

  function Next(w: World, s: Step): World
    requires Enabled(w, s)
  {
    match s
    case Start => w.(phases := w.phases + [Asking])
    case Fetch(t) =>
      w.(fetched := w.fetched + 1, counter := (w.counter + 1) % SPAN32,
         phases := w.phases[t := if w.counter == 0 && w.phases[t].Asking? then AskingAgain(w.fetched)
                                 else Holding(w.counter, w.fetched)])
    case Insert(t) =>
      w.(pending := w.pending[w.phases[t].handle := t],
         phases := w.phases[t := Waiting(w.phases[t].handle, w.phases[t].serial)])
    case Refuse(t) => w.(pending := w.pending - {w.phases[t].handle}, phases := w.phases[t := Done(Failed)])
    case Expire(t) => w.(phases := w.phases[t := Expired(w.phases[t].handle, w.phases[t].serial)])
    case Forget(t) => w.(pending := w.pending - {w.phases[t].handle}, phases := w.phases[t := Done(Failed)])
    case Receive(m) =>
      var d := Dispatch(Desk(w.pending, [], []), m);
      if |d.answers| == 1 && d.answers[0].ticket < |w.phases| then
        w.(pending := d.pending,
           phases := w.phases[d.answers[0].ticket := Sent(w.phases[d.answers[0].ticket], d.answers[0].response)])
      else w.(pending := d.pending)
    case Hangup =>
      w.(pending := map[], phases := seq(|w.phases|, i requires 0 <= i < |w.phases| => Dropped(w.phases[i])))
  }

  // ---------------------------------------------------------------- the invariant

  predicate Live(p: Phase) {
    p.AskingAgain? || p.Holding? || p.Waiting? || p.Expired?
  }

  /** Within the lifetime of any handle the counter has not come all the way round. */
  ghost predicate Recent(w: World) {
    forall t :: 0 <= t < |w.phases| && Live(w.phases[t]) ==> w.fetched - w.phases[t].serial < SPAN32
  }

  ghost predicate Sound(p: Phase, fetched: nat) {
    && (Live(p) ==> p.serial < fetched)
    && (p.AskingAgain? ==> HandleOf(p.serial) == 0)
    && (p.Holding? || p.Waiting? || p.Expired? ==> p.handle == HandleOf(p.serial) != 0)
  }

  ghost predicate Listed(w: World, h: u32)
    requires h in w.pending
  {
    var t := w.pending[h];
    t < |w.phases| && (w.phases[t].Waiting? || w.phases[t].Expired?) && w.phases[t].handle == h
  }

  ghost predicate Inv(w: World) {
    && w.counter == HandleOf(w.fetched)
    && (forall t :: 0 <= t < |w.phases| ==> Sound(w.phases[t], w.fetched))
    && (forall t, u :: 0 <= t < u < |w.phases| && Live(w.phases[t]) && Live(w.phases[u]) ==>
          w.phases[t].serial != w.phases[u].serial)
    && (forall h :: h in w.pending ==> Listed(w, h))
    && (forall t :: 0 <= t < |w.phases| && w.phases[t].Waiting? ==>
          w.phases[t].handle in w.pending && w.pending[w.phases[t].handle] == t)
  }

  /** Two turns of the counter give the same handle exactly if they are a whole number of its rounds
      apart. */
  lemma HandlesCollideIff(s: nat, s': nat)
    ensures HandleOf(s) == HandleOf(s') <==> (s - s') % SPAN32 == 0
  {}

  /** The handles of two requests in flight differ. */
  lemma HandlesDiffer(w: World, t: Ticket, u: Ticket)
    requires Inv(w) && Recent(w) && t != u && t < |w.phases| && u < |w.phases|
    requires w.phases[t].Holding? || w.phases[t].Waiting? || w.phases[t].Expired?
    requires w.phases[u].Holding? || w.phases[u].Waiting? || w.phases[u].Expired?
    ensures w.phases[t].handle != w.phases[u].handle && w.phases[t].handle != 0
  {
    var s, s' := w.phases[t].serial, w.phases[u].serial;
    assert Sound(w.phases[t], w.fetched) && Sound(w.phases[u], w.fetched);
    HandlesCollideIff(s, s');
  }

  lemma FetchInv(w: World, t: Ticket)
    requires Inv(w) && Recent(w) && Enabled(w, Fetch(t))
    ensures Inv(Next(w, Fetch(t)))
  {
    var w' := Next(w, Fetch(t));
    assert Sound(w.phases[t], w.fetched);
    if w.phases[t].AskingAgain? { HandlesCollideIff(w.fetched, w.phases[t].serial); }
    forall u | 0 <= u < |w'.phases| ensures Sound(w'.phases[u], w'.fetched) {
      if u != t { assert Sound(w.phases[u], w.fetched); }
    }
    forall h | h in w'.pending ensures Listed(w', h) { assert Listed(w, h); }
  }

  lemma InsertInv(w: World, t: Ticket)
    requires Inv(w) && Recent(w) && Enabled(w, Insert(t))
    ensures Inv(Next(w, Insert(t)))
  {
    var w' := Next(w, Insert(t));
    assert Sound(w.phases[t], w.fetched);
    forall u | 0 <= u < |w'.phases| ensures Sound(w'.phases[u], w'.fetched) { assert Sound(w.phases[u], w.fetched); }
    forall h | h in w'.pending ensures Listed(w', h) {
      if h != w.phases[t].handle { assert Listed(w, h); }
    }
    forall u | 0 <= u < |w'.phases| && w'.phases[u].Waiting?
      ensures w'.phases[u].handle in w'.pending && w'.pending[w'.phases[u].handle] == u
    {
      if u != t { HandlesDiffer(w, t, u); }
    }
  }

  /** A handle taken out of the table by the request it belongs to disturbs no other. */
  lemma RemoveInv(w: World, t: Ticket)
    requires Inv(w) && Recent(w) && t < |w.phases| && (w.phases[t].Waiting? || w.phases[t].Expired?)
    ensures Inv(w.(pending := w.pending - {w.phases[t].handle}, phases := w.phases[t := Done(Failed)]))
  {
    var w' := w.(pending := w.pending - {w.phases[t].handle}, phases := w.phases[t := Done(Failed)]);
    forall u | 0 <= u < |w'.phases| ensures Sound(w'.phases[u], w'.fetched) { assert Sound(w.phases[u], w.fetched); }
    forall h | h in w'.pending ensures Listed(w', h) { assert Listed(w, h); }
    forall u | 0 <= u < |w'.phases| && w'.phases[u].Waiting?
      ensures w'.phases[u].handle in w'.pending && w'.pending[w'.phases[u].handle] == u
    {
      HandlesDiffer(w, t, u);
    }
  }

  lemma ExpireInv(w: World, t: Ticket)
    requires Inv(w) && Enabled(w, Expire(t))
    ensures Inv(Next(w, Expire(t)))
  {
    var w' := Next(w, Expire(t));
    forall u | 0 <= u < |w'.phases| ensures Sound(w'.phases[u], w'.fetched) { assert Sound(w.phases[u], w.fetched); }
    forall h | h in w'.pending ensures Listed(w', h) { assert Listed(w, h); }
  }

  /** An answer changes exactly one thing: the request waiting under its handle, if one is, has it. */
  lemma AnswerReachesItsRequest(w: World, m: Message, t: Ticket)
    requires Inv(w) && Recent(w) && t < |w.phases|
    ensures |Next(w, Receive(m)).phases| == |w.phases|
    ensures Next(w, Receive(m)).phases[t]
            == if m.Response? && w.phases[t].Waiting? && w.phases[t].handle == m.handle then Done(Answered(m))
               else w.phases[t]
  {
    if m.Response? && m.handle in w.pending {
      assert Listed(w, m.handle);
      var u := w.pending[m.handle];
      if u != t && w.phases[t].Waiting? { HandlesDiffer(w, u, t); }
    }
  }

  lemma ReceiveInv(w: World, m: Message)
    requires Inv(w) && Recent(w)
    ensures Inv(Next(w, Receive(m)))
  {
    var w' := Next(w, Receive(m));
    if m.Response? && m.handle in w.pending {
      assert Listed(w, m.handle);
      var t := w.pending[m.handle];
      assert w'.pending == w.pending - {m.handle} && w'.phases == w.phases[t := Sent(w.phases[t], m)];
      forall u | 0 <= u < |w'.phases| ensures Sound(w'.phases[u], w'.fetched) { assert Sound(w.phases[u], w.fetched); }
      forall h | h in w'.pending ensures Listed(w', h) { assert Listed(w, h); }
      forall u | 0 <= u < |w'.phases| && w'.phases[u].Waiting?
        ensures w'.phases[u].handle in w'.pending && w'.pending[w'.phases[u].handle] == u
      {
        HandlesDiffer(w, t, u);
      }
    } else {
      assert w' == w;
    }
  }

  lemma HangupInv(w: World)
    requires Inv(w)
    ensures Inv(Next(w, Hangup))
  {
    var w' := Next(w, Hangup);
    forall u | 0 <= u < |w'.phases| ensures Sound(w'.phases[u], w'.fetched) { assert Sound(w.phases[u], w.fetched); }
  }

  lemma StepInv(w: World, s: Step)
    requires Inv(w) && Recent(w) && Enabled(w, s)
    ensures Inv(Next(w, s))
  {
    match s
    case Start =>
      forall h | h in w.pending ensures Listed(Next(w, s), h) { assert Listed(w, h); }
    case Fetch(t) => FetchInv(w, t);
    case Insert(t) => InsertInv(w, t);
    case Refuse(t) => RemoveInv(w, t);
    case Expire(t) => ExpireInv(w, t);
    case Forget(t) => RemoveInv(w, t);
    case Receive(m) => ReceiveInv(w, m);
    case Hangup => HangupInv(w);
  }

  // ---------------------------------------------------------------- whole runs

  /** Any steps in any order, as long as the counter never comes round within a handle's lifetime. */
  ghost predicate Legal(w: World, run: seq<Step>)
    decreases |run|
  {
    Recent(w) && (run == [] || (Enabled(w, run[0]) && Legal(Next(w, run[0]), run[1..])))
  }

  function Run(w: World, run: seq<Step>): World
    requires Legal(w, run)
    decreases |run|
  {
    if run == [] then w else Run(Next(w, run[0]), run[1..])
  }

  /** A connection just made. */
  function Fresh(): World {
    World(0, 1, map[], [])
  }

  lemma {:induction false} RunInv(w: World, run: seq<Step>)
    requires Inv(w) && Legal(w, run)
    ensures Inv(Run(w, run)) && Recent(Run(w, run))
    decreases |run|
  {
    if run != [] {
      StepInv(w, run[0]);
      RunInv(Next(w, run[0]), run[1..]);
    }
  }

  /** In every run a request's handle is its own and not zero, and an answer that arrives goes to it
      exactly if it is waiting under the answer's handle - and then to no other request. */
  lemma EachAnswerToItsOwn(run: seq<Step>, m: Message, t: Ticket)
    requires Legal(Fresh(), run) && t < |Run(Fresh(), run).phases|
    ensures var w := Run(Fresh(), run); var w' := Next(w, Receive(m));
            && (w.phases[t].Waiting? ==> w.phases[t].handle != 0)
            && (w'.phases[t] != w.phases[t] <==> m.Response? && w.phases[t].Waiting? && w.phases[t].handle == m.handle)
            && (w'.phases[t] != w.phases[t] ==> w'.phases[t] == Done(Answered(m)))
            && forall u :: 0 <= u < |w.phases| && u != t ==>
                 && (w.phases[t].Waiting? && w.phases[u].Waiting? ==> w.phases[u].handle != w.phases[t].handle)
                 && (w'.phases[t] != w.phases[t] ==> w'.phases[u] == w.phases[u])
  {
    var w := Run(Fresh(), run);
    var w' := Next(w, Receive(m));
    RunInv(Fresh(), run);
    AnswerReachesItsRequest(w, m, t);
    forall u | 0 <= u < |w.phases| && u != t
      ensures w.phases[t].Waiting? && w.phases[u].Waiting? ==> w.phases[u].handle != w.phases[t].handle
      ensures w'.phases[t] != w.phases[t] ==> w'.phases[u] == w.phases[u]
    {
      AnswerReachesItsRequest(w, m, u);
      if w.phases[t].Waiting? && w.phases[u].Waiting? { HandlesDiffer(w, t, u); }
    }
  }

  lemma {:induction false} SettledStays(w: World, run: seq<Step>, t: Ticket)
    requires Inv(w) && Legal(w, run) && t < |w.phases|
    ensures t < |Run(w, run).phases|
    ensures w.phases[t].Done? ==> Run(w, run).phases[t] == w.phases[t]
    ensures w.phases[t].Expired? ==> Run(w, run).phases[t] == w.phases[t] || Run(w, run).phases[t] == Done(Failed)
    decreases |run|
  {
    if run != [] {
      StepInv(w, run[0]);
      if run[0].Receive? { AnswerReachesItsRequest(w, run[0].m, t); }
      SettledStays(Next(w, run[0]), run[1..], t);
    }
  }

  /** A request is answered at most once, and an answer that comes after it has given up reaches no
      one - however much later, and whatever else is going on. */
  lemma AnsweredOnceOrNever(before: seq<Step>, after: seq<Step>, t: Ticket)
    requires Legal(Fresh(), before) && Legal(Run(Fresh(), before), after)
    requires t < |Run(Fresh(), before).phases|
    ensures var w := Run(Fresh(), before); var w' := Run(w, after);
            && t < |w'.phases|
            && (w.phases[t].Done? ==> w'.phases[t] == w.phases[t])
            && (w.phases[t].Expired? ==> !(w'.phases[t].Done? && w'.phases[t].outcome.Answered?))
  {
    RunInv(Fresh(), before);
    SettledStays(Run(Fresh(), before), after, t);
  }

  /** What the limit on a handle's lifetime rules out: when the counter has come all the way round a new
      request takes the old one's handle and its place, and gets the answer. */
  lemma LappedRequestLosesItsAnswer(w: World, t: Ticket, u: Ticket, m: Message)
    requires Inv(w) && t < |w.phases| && u < |w.phases| && w.phases[u].Asking?
    requires w.phases[t].Waiting? && w.fetched - w.phases[t].serial == SPAN32
    requires m.Response? && m.handle == w.phases[t].handle
    ensures Enabled(Next(w, Fetch(u)), Insert(u))
    ensures var w' := Next(Next(Next(w, Fetch(u)), Insert(u)), Receive(m));
            w'.phases[u] == Done(Answered(m)) && w'.phases[t] == w.phases[t]
  {
    assert Sound(w.phases[t], w.fetched);
    HandlesCollideIff(w.fetched, w.phases[t].serial);
  }

  /** A request made with nothing else going on takes the client's own handle: the steps above are the
      pieces of `Client.Request`. */
  lemma RequestIsSteps(w: World) returns (run: seq<Step>)
    requires Inv(w) && Recent(w)
    requires forall t :: 0 <= t < |w.phases| && Live(w.phases[t]) ==> w.fetched + 2 - w.phases[t].serial < SPAN32
    ensures Legal(w, run)
    ensures var w' := Run(w, run); var h: u32 := if w.counter == 0 then 1 else w.counter;
            && w'.counter == (h + 1) % SPAN32 && w'.pending == w.pending[h := |w.phases|]
            && |w'.phases| == |w.phases| + 1 && w'.phases[|w.phases|].Waiting?
  {
    var t := |w.phases|;
    var w1 := Next(w, Start);
    var w2 := Next(w1, Fetch(t));
    if w.counter == 0 {
      var w3 := Next(w2, Fetch(t));
      var w4 := Next(w3, Insert(t));
      run := [Start, Fetch(t), Fetch(t), Insert(t)];
      assert run[1..] == [Fetch(t), Fetch(t), Insert(t)] && run[1..][1..] == [Fetch(t), Insert(t)];
      assert run[1..][1..][1..] == [Insert(t)] && [Insert(t)][1..] == [];
      assert Legal(w4, []) && Legal(w3, [Insert(t)]) && Run(w3, [Insert(t)]) == w4;
      assert Legal(w2, run[1..][1..]) && Run(w2, run[1..][1..]) == w4;
      assert Legal(w1, run[1..]) && Run(w1, run[1..]) == w4;
    } else {
      var w3 := Next(w2, Insert(t));
      run := [Start, Fetch(t), Insert(t)];
      assert run[1..] == [Fetch(t), Insert(t)] && run[1..][1..] == [Insert(t)] && [Insert(t)][1..] == [];
      assert Legal(w3, []) && Legal(w2, [Insert(t)]) && Run(w2, [Insert(t)]) == w3;
      assert Legal(w1, run[1..]) && Run(w1, run[1..]) == w3;
    }
  }
}
