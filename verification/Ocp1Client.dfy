/** The OCP.1 controller: its reader task, and how answers find the requests they belong to. */
module Ocp1Client {
  import opened Bytes
  import opened Framing
  import opened Ocp1Pdu
  import opened Wrappers

  /** A request waiting for its answer. */
  type Ticket = nat

  datatype Answer = Answer(ticket: Ticket, response: Message)

  /** Everything a message from the device can change. */
  datatype Desk = Desk(pending: map<u32, Ticket>, answers: seq<Answer>, notified: seq<Message>)

  function Dispatch(d: Desk, m: Message): Desk {
    match m
    case Response(handle, _, _, _) =>
      if handle in d.pending
      then d.(pending := d.pending - {handle}, answers := d.answers + [Answer(d.pending[handle], m)])
      else d
    case Notification(_, _, _) => d.(notified := d.notified + [m])
    case KeepAlive(_) => d
    case Command(_, _, _, _, _) => d
  }

  function DispatchAll(d: Desk, ms: seq<Message>): Desk
    decreases |ms|
  {
    if ms == [] then d else DispatchAll(Dispatch(d, ms[0]), ms[1..])
  }

  lemma {:induction false} DispatchConcat(d: Desk, a: seq<Message>, b: seq<Message>)
    ensures DispatchAll(d, a + b) == DispatchAll(DispatchAll(d, a), b)
    decreases |a|
  {
    if a == [] {
      assert a + b == b;
    } else {
      assert (a + b)[0] == a[0] && (a + b)[1..] == a[1..] + b;
      DispatchConcat(Dispatch(d, a[0]), a[1..], b);
    }
  }

  // ---------------------------------------------------------------- who hears of what

  /** The notifications among `ms`, in order. */
  function Notifications(ms: seq<Message>): seq<Message> {
    if ms == [] then []
    else
      var front, last := ms[..|ms| - 1], ms[|ms| - 1];
      Notifications(front) + if last.Notification? then [last] else []
  }

  /** Some response among `ms` is for `handle`. */
  ghost predicate Responded(ms: seq<Message>, handle: u32) {
    exists k :: 0 <= k < |ms| && ms[k].Response? && ms[k].handle == handle
  }

  /** The responses that are the first for a handle someone waits under, in order, each for whoever does. */
  ghost function Answers(pending: map<u32, Ticket>, ms: seq<Message>): seq<Answer> {
    if ms == [] then []
    else
      var front, last := ms[..|ms| - 1], ms[|ms| - 1];
      Answers(pending, front)
      + if last.Response? && last.handle in pending && !Responded(front, last.handle)
        then [Answer(pending[last.handle], last)] else []
  }

  /** `ms` delivered: subscribers hear of the notifications and of nothing else; of those waiting, each whose handle is
      responded to has the first such response, and the others still wait. Commands and heartbeats do nothing. */
  ghost predicate Delivered(d: Desk, ms: seq<Message>, d': Desk) {
    && d'.notified == d.notified + Notifications(ms)
    && d'.answers == d.answers + Answers(d.pending, ms)
    && (forall h :: h in d'.pending <==> h in d.pending && !Responded(ms, h))
    && (forall h <- d'.pending :: d'.pending[h] == d.pending[h])
  }

  lemma RespondedAppend(front: seq<Message>, last: Message, h: u32)
    ensures Responded(front + [last], h) <==> Responded(front, h) || (last.Response? && last.handle == h)
  {
    var ms := front + [last];
    if Responded(front, h) {
      var k :| 0 <= k < |front| && front[k].Response? && front[k].handle == h;
      assert ms[k] == front[k];
    }
    if last.Response? && last.handle == h { assert ms[|front|] == last; }
    if Responded(ms, h) && !Responded(front, h) {
      var k :| 0 <= k < |ms| && ms[k].Response? && ms[k].handle == h;
      assert k < |front| ==> front[k] == ms[k];
    }
  }

  lemma DeliveredNext(d: Desk, front: seq<Message>, before: Desk, last: Message)
    requires Delivered(d, front, before)
    ensures Delivered(d, front + [last], Dispatch(before, last))
  {
    hide Responded, Answers, Notifications;
    OneMore(d.pending, front, last);
    forall h { RespondedAppend(front, last, h); }
  }

  lemma OneMore(pending: map<u32, Ticket>, front: seq<Message>, last: Message)
    ensures Notifications(front + [last]) == Notifications(front) + if last.Notification? then [last] else []
    ensures Answers(pending, front + [last])
            == Answers(pending, front)
               + if last.Response? && last.handle in pending && !Responded(front, last.handle)
                 then [Answer(pending[last.handle], last)] else []
  {
    hide Responded;
    assert (front + [last])[..|front|] == front;
  }

  lemma {:induction false} DispatchedIsDelivered(d: Desk, ms: seq<Message>)
    ensures Delivered(d, ms, DispatchAll(d, ms))
    decreases |ms|
  {
    if ms == [] {
      assert d.notified + [] == d.notified && d.answers + [] == d.answers;
    } else {
      var front, last := ms[..|ms| - 1], ms[|ms| - 1];
      assert ms == front + [last];
      DispatchedIsDelivered(d, front);
      DispatchConcat(d, front, [last]);
      assert [last][1..] == [];
      var before := DispatchAll(d, front);
      assert DispatchAll(before, [last]) == DispatchAll(Dispatch(before, last), []);
      hide Delivered, Dispatch;
      DeliveredNext(d, front, before, last);
    }
  }

  /** What one read of the socket gives: bytes, or - the connection closed or failed - nothing more. */
  type Read = Option<seq<byte>>

  /** The chunks up to the first read that gives none, and whether there is one. */
  function Chunks(received: seq<Read>): seq<seq<byte>> {
    if received == [] || Hangup(received[0]) then [] else [received[0].value] + Chunks(received[1..])
  }

  predicate Hangup(r: Read) {
    r.None? || r.value == []
  }

  predicate HangsUp(received: seq<Read>) {
    exists k :: 0 <= k < |received| && Hangup(received[k])
  }

  datatype Ended = StillReading | HungUp | Desynchronised

  /** The reader's outcome in terms of the bytes received: what they decode to is dispatched, and if
      the connection then ends, everyone still waiting is woken - but not if the stream made no sense,
      which leaves them waiting for their timeout. */
  ghost function ReadOutcome(d: Desk, received: seq<Read>): (Desk, Ended)
    requires Stable(ReadStep)
  {
    var drained := Drain(ReadStep, (), Concat(Chunks(received)));
    var d' := DispatchAll(d, drained.out);
    if drained.stopped then (d', Desynchronised)
    else if HangsUp(received) then (d'.(pending := map[]), HungUp)
    else (d', StillReading)
  }

  lemma {:induction false} ChunksOf(received: seq<Read>, k: nat)
    requires k <= |received| && forall j :: 0 <= j < k ==> !Hangup(received[j])
    ensures Chunks(received) == Chunks(received[..k]) + Chunks(received[k..])
    ensures |Chunks(received[..k])| == k
  {
    if k == 0 {
      assert received[..0] == [] && received[0..] == received;
    } else {
      ChunksOf(received[1..], k - 1);
      assert received[..k][1..] == received[1..][..k - 1] && received[1..][k - 1..] == received[k..];
    }
  }

  lemma {:induction false} ChunksSnoc(received: seq<Read>, k: nat)
    requires k < |received| && !Hangup(received[k]) && forall j :: 0 <= j < k ==> !Hangup(received[j])
    ensures Chunks(received[..k + 1]) == Chunks(received[..k]) + [received[k].value]
  {
    ChunksOf(received[..k + 1], k);
    assert received[..k + 1][..k] == received[..k] && received[..k + 1][k..] == [received[k]];
    assert Chunks([received[k]]) == [received[k].value] + Chunks([]);
  }

  lemma {:induction false} ConcatAppend<T>(a: seq<seq<T>>, b: seq<seq<T>>)
    ensures Concat(a + b) == Concat(a) + Concat(b)
  {
    if a == [] {
      assert a + b == b;
    } else {
      assert (a + b)[0] == a[0] && (a + b)[1..] == a[1..] + b;
      ConcatAppend(a[1..], b);
    }
  }

  /** Once a stream has stopped making sense, more of it changes nothing. */
  lemma StaysStopped(b: seq<byte>, c: seq<byte>)
    requires Stable(ReadStep) && Drain(ReadStep, (), b).stopped
    ensures Drain(ReadStep, (), b + c).stopped && Drain(ReadStep, (), b + c).out == Drain(ReadStep, (), b).out
  {
    DrainAgain(ReadStep, (), b, c);
  }

  /** Where the reader stands once `bytes` have arrived and made sense: `buf` is left over. */
  ghost predicate UpTo(d: Desk, now: Desk, bytes: seq<byte>, buf: seq<byte>)
    requires Stable(ReadStep)
  {
    var drained := Drain(ReadStep, (), bytes);
    !drained.stopped && drained.rest == buf && now == DispatchAll(d, drained.out)
  }

  /** Draining the buffer when a chunk has been added to it is draining the whole stream so far. */
  lemma ChunkArrives(d: Desk, now: Desk, bytes: seq<byte>, buf: seq<byte>, chunk: seq<byte>)
    requires Stable(ReadStep) && UpTo(d, now, bytes, buf)
    ensures var whole := Drain(ReadStep, (), bytes + chunk); var cut := Drain(ReadStep, (), buf + chunk);
            && whole.stopped == cut.stopped && whole.rest == cut.rest
            && DispatchAll(d, whole.out) == DispatchAll(now, cut.out)
  {
    DrainAgain(ReadStep, (), bytes, chunk);
    DispatchConcat(d, Drain(ReadStep, (), bytes).out, Drain(ReadStep, (), buf + chunk).out);
  }

  lemma ChunkJoins(received: seq<Read>, k: nat)
    requires k < |received| && !Hangup(received[k]) && forall j :: 0 <= j < k ==> !Hangup(received[j])
    ensures Concat(Chunks(received[..k + 1])) == Concat(Chunks(received[..k])) + received[k].value
  {
    ChunksSnoc(received, k);
    ConcatAppend(Chunks(received[..k]), [received[k].value]);
    assert Concat([received[k].value]) == received[k].value;
  }

  /** How the loop ends when the `k`-th read gives nothing. */
  lemma EndsAtHangup(d: Desk, now: Desk, received: seq<Read>, k: nat, buf: seq<byte>)
    requires Stable(ReadStep) && k < |received| && Hangup(received[k])
    requires forall j :: 0 <= j < k ==> !Hangup(received[j])
    requires UpTo(d, now, Concat(Chunks(received[..k])), buf)
    ensures ReadOutcome(d, received) == (now.(pending := map[]), HungUp)
  {
    ChunksOf(received, k);
    assert received[k..][0] == received[k] && Chunks(received[k..]) == [];
    assert Chunks(received) == Chunks(received[..k]);
  }

  /** How the loop ends when the stream stops making sense with the `k`-th read. */
  lemma EndsDesynchronised(d: Desk, received: seq<Read>, k: nat)
    requires Stable(ReadStep) && k < |received| && forall j :: 0 <= j <= k ==> !Hangup(received[j])
    requires Drain(ReadStep, (), Concat(Chunks(received[..k + 1]))).stopped
    ensures ReadOutcome(d, received)
            == (DispatchAll(d, Drain(ReadStep, (), Concat(Chunks(received[..k + 1]))).out), Desynchronised)
  {
    ChunksOf(received, k + 1);
    ConcatAppend(Chunks(received[..k + 1]), Chunks(received[k + 1..]));
    StaysStopped(Concat(Chunks(received[..k + 1])), Concat(Chunks(received[k + 1..])));
  }

  // ---------------------------------------------------------------- the reads that count

  /** The first `n` reads gave bytes, and there is no next one or it gave none. */
  ghost predicate EndsAt(received: seq<Read>, n: nat) {
    && n <= |received|
    && (forall j :: 0 <= j < n ==> received[j] != None && received[j] != Some([]))
    && (n == |received| || received[n] == None || received[n] == Some([]))
  }

  /** The bytes of the first `n` reads. */
  function Joined(received: seq<Read>, n: nat): seq<byte>
    requires n <= |received| && forall j :: 0 <= j < n ==> received[j] != None
  {
    if n == 0 then [] else Joined(received, n - 1) + received[n - 1].value
  }

  lemma {:induction false} EndsSomewhere(received: seq<Read>, from: nat) returns (n: nat)
    requires from <= |received| && forall j :: 0 <= j < from ==> received[j] != None && received[j] != Some([])
    ensures EndsAt(received, n)
    decreases |received| - from
  {
    if from == |received| || received[from] == None || received[from] == Some([]) {
      n := from;
    } else {
      n := EndsSomewhere(received, from + 1);
    }
  }

  lemma {:induction false} JoinedIs(received: seq<Read>, n: nat)
    requires n <= |received| && forall j :: 0 <= j < n ==> received[j] != None && received[j] != Some([])
    ensures Concat(Chunks(received[..n])) == Joined(received, n)
  {
    if n > 0 {
      assert forall j :: 0 <= j < n ==> !Hangup(received[j]);
      JoinedIs(received, n - 1);
      ChunkJoins(received, n - 1);
    }
  }

  /** How reading ends, in terms of the reads: their messages are delivered, and everyone still waiting is woken if
      the connection ends, but not if the stream stops making sense before it does. */
  ghost predicate ReadUpTo(d: Desk, received: seq<Read>, n: nat, d': Desk, ended: Ended)
    requires Stable(ReadStep) && EndsAt(received, n)
  {
    var drained := Drain(ReadStep, (), Joined(received, n));
    && ended == (if drained.stopped then Desynchronised else if n < |received| then HungUp else StillReading)
    && (ended != HungUp ==> Delivered(d, drained.out, d'))
    && (ended == HungUp ==> d'.pending == map[])
    && (ended == HungUp ==> exists waiting :: Delivered(d, drained.out, d'.(pending := waiting)))
  }

  ghost predicate ReadTo(d: Desk, received: seq<Read>, d': Desk, ended: Ended)
    requires Stable(ReadStep)
  {
    forall n: nat :: EndsAt(received, n) ==> ReadUpTo(d, received, n, d', ended)
  }

  lemma OutcomeIs(d: Desk, received: seq<Read>)
    requires Stable(ReadStep)
    ensures ReadTo(d, received, ReadOutcome(d, received).0, ReadOutcome(d, received).1)
  {
    hide ReadUpTo, ReadOutcome;
    forall n: nat | EndsAt(received, n)
      ensures ReadUpTo(d, received, n, ReadOutcome(d, received).0, ReadOutcome(d, received).1)
    {
      OutcomeAt(d, received, n);
    }
  }

  lemma OutcomeAt(d: Desk, received: seq<Read>, n: nat)
    requires Stable(ReadStep) && EndsAt(received, n)
    ensures ReadUpTo(d, received, n, ReadOutcome(d, received).0, ReadOutcome(d, received).1)
  {
    hide Drain, Stable, ReadStep, Delivered, DispatchAll;
    assert forall j :: 0 <= j < n ==> !Hangup(received[j]);
    ChunksOf(received, n);
    JoinedIs(received, n);
    assert Chunks(received[n..]) == [];
    assert Chunks(received) == Chunks(received[..n]);
    var drained := Drain(ReadStep, (), Joined(received, n));
    DispatchedIsDelivered(d, drained.out);
    if n < |received| { assert Hangup(received[n]); }
    var d' := DispatchAll(d, drained.out);
    assert d'.(pending := map[]).(pending := d'.pending) == d';
  }

  class Client {
    var nextHandle: u32
    var pending: map<u32, Ticket>
    ghost var answers: seq<Answer>
    ghost var notified: seq<Message>

    constructor ()
      ensures nextHandle == 1 && State() == Desk(map[], [], [])
    {
      nextHandle, pending, answers, notified := 1, map[], [], [];
    }

    ghost function State(): Desk
      reads this
    {
      Desk(pending, answers, notified)
    }

    /** The counter's value is taken and the counter moves on, wrapping at the width of a handle. */
    method FetchAdd() returns (h: u32)
      modifies `nextHandle
      ensures h == old(nextHandle) && nextHandle == (h + 1) % SPAN32
    {
      h := nextHandle;
      nextHandle := (h + 1) % SPAN32;
    }

    /** Handle 0 means none, and is passed over. */
    method NextHandle() returns (h: u32)
      modifies `nextHandle
      ensures h == (if old(nextHandle) == 0 then 1 else old(nextHandle)) && h != 0
      ensures nextHandle == (h + 1) % SPAN32
    {
      h := FetchAdd();
      if h == 0 {
        h := FetchAdd();
      }
    }

    /** A request goes out: unless the connection is gone it is left waiting under a fresh handle. */
    method Request(t: Ticket, connected: bool) returns (handle: Option<u32>)
      modifies `nextHandle, `pending
      ensures var h := if old(nextHandle) == 0 then 1 else old(nextHandle);
              && nextHandle == (h + 1) % SPAN32
              && (connected ==> handle == Some(h) && pending == old(pending)[h := t])
              && (!connected ==> handle == None && pending == old(pending) - {h})
    {
      var h := NextHandle();
      pending := pending[h := t];
      if !connected {
        assert pending - {h} == old(pending) - {h};
        pending := pending - {h};
        return None;
      }
      return Some(h);
    }

    /** A request gives up waiting. */
    method Timeout(h: u32)
      modifies `pending
      ensures pending == old(pending) - {h}
    {
      pending := pending - {h};
    }

    method Deliver(m: Message)
      modifies `pending, `answers, `notified
      ensures State() == Dispatch(old(State()), m)
    {
      match m {
        case Response(handle, _, _, _) =>
          if handle in pending {
            answers := answers + [Answer(pending[handle], m)];
            pending := pending - {handle};
          }
        case Notification(_, _, _) => notified := notified + [m];
        case KeepAlive(_) =>
        case Command(_, _, _, _, _) =>
      }
    }

    method DeliverAll(ms: seq<Message>)
      modifies `pending, `answers, `notified
      ensures State() == DispatchAll(old(State()), ms)
      ensures Delivered(old(State()), ms, State())
    {
      DispatchedIsDelivered(State(), ms);
      var k := 0;
      while k < |ms|
        invariant 0 <= k <= |ms| && DispatchAll(State(), ms[k..]) == DispatchAll(old(State()), ms)
      {
        assert ms[k..][1..] == ms[k + 1..];
        Deliver(ms[k]);
        k := k + 1;
      }
    }

    /** The inner loop: cuts whole PDUs off the buffer, each of them at least ten bytes. */
    method Cut(buf: seq<byte>) returns (rest: seq<byte>, desynchronised: bool)
      requires Stable(ReadStep)
      modifies `pending, `answers, `notified
      ensures var d := Drain(ReadStep, (), buf);
              && desynchronised == d.stopped && rest == d.rest && State() == DispatchAll(old(State()), d.out)
              && Delivered(old(State()), d.out, State())
    {
      DispatchedIsDelivered(State(), Drain(ReadStep, (), buf).out);
      rest := buf;
      ghost var done: seq<Message> := [];
      PrependTwice([], [], Drain(ReadStep, (), buf));
      while true
        invariant Drain(ReadStep, (), buf) == Prepend(done, Drain(ReadStep, (), rest))
        invariant State() == DispatchAll(old(State()), done)
        decreases |rest| / HEADER_LEN
      {
        assert done + [] == done;
        var len := PduLen(rest);
        if len.Err? {
          return rest, true;
        }
        if len.value.None? {
          return rest, false;
        }
        var n := len.value.value;
        var messages := Decode(rest[..n]);
        var ms := match messages case Ok(ms) => ms case Err(_) => [];
        PrependTwice(done, ms, Drain(ReadStep, (), rest[n..]));
        DispatchConcat(old(State()), done, ms);
        rest := rest[n..];
        DeliverAll(ms);
        done := done + ms;
      }
    }

    method ReadLoop(received: seq<Read>) returns (ended: Ended)
      modifies `pending, `answers, `notified
      ensures Stable(ReadStep)
      ensures (State(), ended) == ReadOutcome(old(State()), received)
      ensures ReadTo(old(State()), received, State(), ended)
    {
      ReadStepStable();
      OutcomeIs(State(), received);
      assert UpTo(old(State()), State(), Concat(Chunks(received[..0])), []);
      hide Drain, ReadStep, Stable, Concat, Chunks, DispatchAll, ReadTo;
      var buf: seq<byte> := [];
      var k := 0;
      while k < |received|
        invariant 0 <= k <= |received|
        invariant forall j :: 0 <= j < k ==> !Hangup(received[j])
        invariant UpTo(old(State()), State(), Concat(Chunks(received[..k])), buf)
      {
        if received[k].None? || received[k].value == [] {
          EndsAtHangup(old(State()), State(), received, k, buf);
          pending := map[];
          return HungUp;
        }
        ChunkJoins(received, k);
        ChunkArrives(old(State()), State(), Concat(Chunks(received[..k])), buf, received[k].value);
        var desynchronised: bool;
        buf, desynchronised := Cut(buf + received[k].value);
        if desynchronised {
          EndsDesynchronised(old(State()), received, k);
          return Desynchronised;
        }
        k := k + 1;
      }
      assert received[..k] == received;
      return StillReading;
    }
  }
}
