/** Where dLive's parser and the MIDI 1.0 reading of a byte stream part: there a System Common message cancels
    running status and its data is its own, and a System Real Time one leaves running status alone. */
module MidiStandard {
  import opened Bytes
  import opened Framing
  import opened Midi
  import opened Wrappers

  const FIRST_REAL_TIME: byte := 0xF8

  /** One turn of a parser of channel messages and SysEx that keeps MIDI's rule. */
  function StandardStep(running: Option<byte>, b: seq<byte>): Cut<Option<byte>, seq<byte>> {
    if b != [] && SYSEX_START < b[0] < FIRST_REAL_TIME then Take(1, None, []) else DliveStep(running, b)
  }

  lemma StandardStable()
    ensures Stable(StandardStep)
  {
    forall s, b ensures Cuts(StandardStep, s, b) {}
    forall s, b, c ensures Extends(StandardStep, s, b, c) {
      DliveExtends(s, b, c);
      if b != [] { assert (b + c)[0] == b[0]; }
    }
  }

  lemma StandardCutsMessages()
    ensures CutsMessages(StandardStep)
  {
    forall s, running | Sendable([s], running) ensures CutsMessage(StandardStep, s, running) {
      DliveCuts(s, running);
      assert IsMessage([s][0].message);
      assert s.message[0] <= SYSEX_START;
      if s.omitted { assert s.message[1..][0] == s.message[1]; }
    }
  }

  /** The messages from the first whose status is on the wire. */
  function FromStated(ss: seq<Sent>): seq<Sent> {
    if ss == [] || !ss[0].omitted then ss else FromStated(ss[1..])
  }

  lemma {:induction false} FromStatedIsAllIff(ss: seq<Sent>)
    ensures |FromStated(ss)| <= |ss|
    ensures |FromStated(ss)| == |ss| <==> ss == [] || !ss[0].omitted
  {
    if ss != [] && ss[0].omitted { FromStatedIsAllIff(ss[1..]); }
  }

  /** With nothing running, data bytes are dropped up to the next status. */
  lemma {:induction false} StandardDropsData(data: seq<byte>, tail: seq<byte>)
    requires DataBytes(data) && Stable(StandardStep)
    ensures Drain(StandardStep, None, data + tail) == Drain(StandardStep, None, tail)
  {
    if data == [] {
      assert data + tail == tail;
    } else {
      assert data + tail == [data[0]] + (data[1..] + tail);
      CutFirst(StandardStep, None, [data[0]], None, [], data[1..] + tail);
      StandardDropsData(data[1..], tail);
      PrependTwice([], [], Drain(StandardStep, None, tail));
    }
  }

  /** With its running status cancelled a stream gives its messages from the first stated one. */
  lemma {:induction false} CancelledGivesStated(ss: seq<Sent>, running: Option<byte>)
    requires Sendable(ss, running) && Stable(StandardStep) && CutsMessages(StandardStep)
    ensures Drain(StandardStep, None, Stream(ss, running)).out == Messages(FromStated(ss))
    decreases |ss|
  {
    hide StandardStep, CutsMessages, Stable;
    if ss != [] && ss[0].omitted {
      var m := ss[0].message;
      StandardDropsData(m[1..], Stream(ss[1..], Leaves(m)));
      CancelledGivesStated(ss[1..], Leaves(m));
    } else {
      assert Stream(ss, running) == Stream(ss, None);
      GivesMessages(StandardStep, ss, None, []);
      NothingRunsOn(Running(ss, None));
      assert Stream(ss, None) + [] == Stream(ss, None) && Messages(ss) + [] == Messages(ss);
    }
  }

  lemma NothingRunsOn(running: Option<byte>)
    ensures Stable(StandardStep) ==> Drain(StandardStep, running, []) == Drained(running, [], [], false)
  {}

  /** Messages with another between them: a status byte that starts none of ours, and its data. */
  ghost function Interrupted(before: seq<Sent>, b: byte, data: seq<byte>, after: seq<Sent>, running: Option<byte>): seq<byte>
    requires Sendable(before, running) && Sendable(after, Running(before, running))
  {
    Stream(before, running) + ([b] + (data + Stream(after, Running(before, running))))
  }

  // ---------------------------------------------------------------- what dLive's parser makes of it

  /** How many data bytes the running status has the parser take for a message; none, without one. */
  function PhantomLen(running: Option<byte>): (n: nat)
    ensures n <= 2
  {
    if running.Some? && ChannelLen(running.value).Some? then ChannelLen(running.value).value else 0
  }

  /** How many of `k` data bytes are left over by messages of `n`. */
  function Over(k: nat, n: nat): (o: nat)
    ensures o <= k
  {
    if n == 2 then k % 2 else 0
  }

  lemma OverSum(a: nat, b: nat, n: nat)
    requires Over(b, n) == 0
    ensures Over(a + b, n) == Over(a, n)
  {}

  /** The messages data bytes make under a running status. */
  function Phantoms(status: byte, data: seq<byte>, n: nat): (ms: seq<seq<byte>>)
    requires 1 <= n <= 2
    ensures |ms| == if n == 1 then |data| else |data| / 2
    decreases |data|
  {
    if |data| < n then [] else [[status] + data[..n]] + Phantoms(status, data[n..], n)
  }

  lemma {:induction false} DlivePhantoms(status: byte, data: seq<byte>, tail: seq<byte>, n: nat)
    requires Stable(DliveStep) && DataBytes(data) && ChannelLen(status) == Some(n)
    ensures Drain(DliveStep, Some(status), data + tail)
            == Prepend(Phantoms(status, data, n), Drain(DliveStep, Some(status), data[|data| - Over(|data|, n)..] + tail))
    decreases |data|
  {
    var running := Some(status);
    if |data| < n {
      assert data[0..] == data;
      PrependTwice([], [], Drain(DliveStep, running, data + tail));
    } else {
      var (first, rest) := (data[..n], data[n..]);
      assert DliveStep(running, first) == Take(n, running, [[status] + first]) by { assert first[..n] == first; }
      OverSum(|rest|, n, n);
      hide DliveStep, ChannelLen, Over;
      assert data + tail == first + (rest + tail);
      CutFirst(DliveStep, running, first, running, [[status] + first], rest + tail);
      DlivePhantoms(status, rest, tail, n);
      var left := rest[|rest| - Over(|rest|, n)..] + tail;
      assert |data| == |rest| + n;
      assert data[|data| - Over(|data|, n)..] == rest[|rest| - Over(|rest|, n)..];
      PrependTwice([[status] + first], Phantoms(status, rest, n), Drain(DliveStep, running, left));
    }
  }

  /** With nothing usable running dLive's parser drops data too. */
  lemma {:induction false} DliveDropsData(data: seq<byte>, tail: seq<byte>, running: Option<byte>)
    requires DataBytes(data) && Stable(DliveStep) && PhantomLen(running) == 0
    ensures Drain(DliveStep, running, data + tail) == Drain(DliveStep, running, tail)
  {
    if data == [] {
      assert data + tail == tail;
    } else {
      assert data + tail == [data[0]] + (data[1..] + tail);
      CutFirst(DliveStep, running, [data[0]], running, [], data[1..] + tail);
      DliveDropsData(data[1..], tail, running);
      PrependTwice([], [], Drain(DliveStep, running, tail));
    }
  }

  /** The data bytes of the messages before the first stated one. */
  ghost function LeadData(ss: seq<Sent>, running: Option<byte>): seq<byte>
    requires Sendable(ss, running)
    decreases |ss|
  {
    if ss == [] || !ss[0].omitted then [] else Wire(ss[0]) + LeadData(ss[1..], Leaves(ss[0].message))
  }

  lemma LeadMessage(s: Sent, running: Option<byte>)
    requires Sendable([s], running) && s.omitted
    ensures s.message != [] && IsMessage(s.message) && Leaves(s.message) == running && PhantomLen(running) > 0
    ensures DataBytes(Wire(s)) && |Wire(s)| == PhantomLen(running)
  {
    assert [s][0] == s;
  }

  lemma {:induction false} LeadSplits(ss: seq<Sent>, running: Option<byte>)
    requires Sendable(ss, running)
    ensures Sendable(FromStated(ss), running)
    ensures Stream(ss, running) == LeadData(ss, running) + Stream(FromStated(ss), running)
    decreases |ss|
  {
    hide IsMessage, IsChannel, Leaves, Wire;
    if ss == [] || !ss[0].omitted {
      assert [] + Stream(ss, running) == Stream(ss, running);
    } else {
      assert Sendable([ss[0]], running) by { assert [ss[0]][1..] == []; }
      LeadMessage(ss[0], running);
      LeadSplits(ss[1..], running);
      var (first, rest) := (LeadData(ss[1..], running), Stream(FromStated(ss), running));
      assert Wire(ss[0]) + (first + rest) == (Wire(ss[0]) + first) + rest;
    }
  }

  lemma {:induction false} LeadIsWhole(ss: seq<Sent>, running: Option<byte>)
    requires Sendable(ss, running)
    ensures DataBytes(LeadData(ss, running)) && Over(|LeadData(ss, running)|, PhantomLen(running)) == 0
    ensures LeadData(ss, running) == [] <==> ss == [] || !ss[0].omitted
    decreases |ss|
  {
    hide IsMessage, IsChannel, Leaves, Wire;
    if ss != [] && ss[0].omitted {
      assert Sendable([ss[0]], running) by { assert [ss[0]][1..] == []; }
      LeadMessage(ss[0], running);
      LeadIsWhole(ss[1..], running);
      OverSum(|Wire(ss[0])|, |LeadData(ss[1..], running)|, PhantomLen(running));
    }
  }

  lemma {:induction false} MessagesNotEmpty(ss: seq<Sent>, running: Option<byte>)
    requires Sendable(ss, running)
    ensures forall k :: 0 <= k < |ss| ==> ss[k].message != [] && IsMessage(ss[k].message)
    decreases |ss|
  {
    if ss != [] {
      MessagesNotEmpty(ss[1..], Leaves(ss[0].message));
      assert forall k :: 1 <= k < |ss| ==> ss[k] == ss[1..][k - 1];
    }
  }

  lemma DliveCutsGarbled(status: byte, over: byte, tail: seq<byte>)
    requires Stable(DliveStep) && ChannelLen(status) == Some(2) && over < 0x80 && tail != []
    ensures var d := Drain(DliveStep, Some(status), [over] + tail); d.out != [] && d.out[0] == [status, over, tail[0]]
  {
    var two := [over, tail[0]];
    assert two[..2] == two && [status] + two == [status, over, tail[0]];
    assert [over] + tail == two + tail[1..];
    CutFirst(DliveStep, Some(status), two, Some(status), [[status, over, tail[0]]], tail[1..]);
  }

  /** Whether what follows a System Common byte is read alike: no status is running that data could be
      taken for, or there is too little data for a message and nothing after it to make it up. */
  predicate ReadAlike(data: seq<byte>, after: seq<Sent>, running: Option<byte>) {
    || PhantomLen(running) == 0
    || (|data| < PhantomLen(running) && (after == [] || (data == [] && !after[0].omitted)))
  }

  lemma LeadFound(after: seq<Sent>, running: Option<byte>) returns (lead: seq<byte>)
    requires Sendable(after, running)
    ensures DataBytes(lead) && Over(|lead|, PhantomLen(running)) == 0 && Sendable(FromStated(after), running)
    ensures lead == [] <==> after == [] || !after[0].omitted
    ensures Stream(after, running) == lead + Stream(FromStated(after), running)
  {
    LeadSplits(after, running);
    LeadIsWhole(after, running);
    lead := LeadData(after, running);
  }

  /** All the data up to the first stated message, and the phantoms it makes. */
  lemma LeadParsed(data: seq<byte>, after: seq<Sent>, running: Option<byte>) returns (lead: seq<byte>)
    requires Stable(DliveStep) && DataBytes(data) && Sendable(after, running) && PhantomLen(running) > 0
    ensures DataBytes(lead) && |lead| >= |data| && Over(|lead|, PhantomLen(running)) == Over(|data|, PhantomLen(running))
    ensures |lead| == |data| <==> after == [] || !after[0].omitted
    ensures Sendable(FromStated(after), running)
    ensures var n := PhantomLen(running);
            Drain(DliveStep, running, data + Stream(after, running))
            == Prepend(Phantoms(running.value, lead, n),
                       Drain(DliveStep, running, lead[|lead| - Over(|lead|, n)..] + Stream(FromStated(after), running)))
  {
    hide Drain, Stream, Sendable, FromStated, Stable, Over, Phantoms, DliveStep;
    var rest := LeadFound(after, running);
    lead := data + rest;
    OverSum(|data|, |rest|, PhantomLen(running));
    var tail := Stream(FromStated(after), running);
    assert data + (rest + tail) == lead + tail;
    DlivePhantoms(running.value, lead, tail, PhantomLen(running));
  }

  /** Data that comes out even: the phantom messages, and then the stated ones. */
  lemma EvenIff(data: seq<byte>, after: seq<Sent>, running: Option<byte>)
    requires Stable(DliveStep) && DataBytes(data) && Sendable(after, running)
    requires PhantomLen(running) > 0 && Over(|data|, PhantomLen(running)) == 0
    ensures Drain(DliveStep, running, data + Stream(after, running)).out == Messages(FromStated(after))
            <==> ReadAlike(data, after, running)
  {
    hide Drain, Stream, Sendable, FromStated, Stable, DliveStep;
    var stated := FromStated(after);
    var lead := LeadParsed(data, after, running);
    assert lead[|lead|..] + Stream(stated, running) == Stream(stated, running);
    DliveGivesMessages(stated, running);
    var phantoms := Phantoms(running.value, lead, PhantomLen(running));
    NothingBefore(phantoms, Messages(stated));
    assert phantoms == [] <==> lead == [];
  }

  lemma NothingBefore(a: seq<seq<byte>>, b: seq<seq<byte>>)
    ensures a + b == b <==> a == []
  {
    assert |a + b| == |a| + |b|;
    if a == [] { assert [] + b == b; }
  }

  /** Data that leaves one byte over: a last phantom made up with whatever comes next. */
  lemma OddIff(data: seq<byte>, after: seq<Sent>, running: Option<byte>)
    requires Stable(DliveStep) && DataBytes(data) && Sendable(after, running)
    requires PhantomLen(running) > 0 && Over(|data|, PhantomLen(running)) != 0
    ensures Drain(DliveStep, running, data + Stream(after, running)).out == Messages(FromStated(after))
            <==> ReadAlike(data, after, running)
  {
    hide Drain, Stream, Sendable, FromStated, Stable, DliveStep, IsMessage, LeadData;
    var (status, stated) := (running.value, FromStated(after));
    var lead := LeadParsed(data, after, running);
    var over := lead[|lead| - 1];
    assert lead[|lead| - 1..] == [over];
    var phantoms := Phantoms(status, lead, 2);
    FromStatedFirst(after);
    if after == [] || !after[0].omitted { FromStatedWhole(after); }
    if stated == [] {
      LeftOver(status, over);
      assert phantoms + [] == phantoms && Stream([], running) == [];
      assert [over] + [] == [over];
    } else {
      Garbled(status, over, stated, phantoms);
    }
  }

  lemma LeftOver(status: byte, over: byte)
    requires Stable(DliveStep) && ChannelLen(status) == Some(2) && over < 0x80
    ensures Drain(DliveStep, Some(status), [over]).out == [] && Stream([], Some(status)) == []
  {}

  lemma FromStatedWhole(ss: seq<Sent>)
    requires ss == [] || !ss[0].omitted
    ensures FromStated(ss) == ss
  {}

  lemma Garbled(status: byte, over: byte, stated: seq<Sent>, phantoms: seq<seq<byte>>)
    requires Stable(DliveStep) && ChannelLen(status) == Some(2) && over < 0x80
    requires Sendable(stated, Some(status)) && stated != [] && !stated[0].omitted
    ensures phantoms + Drain(DliveStep, Some(status), [over] + Stream(stated, Some(status))).out != Messages(stated)
  {
    var tail := Stream(stated, Some(status));
    MessagesNotEmpty(stated, Some(status));
    FirstByte(stated, Some(status));
    DliveCutsGarbled(status, over, tail);
    NotAMessage(status, over, tail[0]);
    hide Drain, Stream, Sendable, IsMessage, Stable;
    var all := phantoms + Drain(DliveStep, Some(status), [over] + tail).out;
    assert all[|phantoms|] == [status, over, tail[0]];
    if |phantoms| < |stated| { assert Messages(stated)[|phantoms|] == stated[|phantoms|].message; }
  }

  lemma FirstByte(ss: seq<Sent>, running: Option<byte>)
    requires Sendable(ss, running) && ss != [] && !ss[0].omitted
    ensures Stream(ss, running) != [] && Stream(ss, running)[0] >= 0x80
  {}

  lemma NotAMessage(status: byte, over: byte, next: byte)
    requires ChannelLen(status) == Some(2) && next >= 0x80
    ensures !IsMessage([status, over, next])
  {
    var m := [status, over, next];
    assert m[1..][1] == next;
  }

  lemma {:induction false} FromStatedFirst(ss: seq<Sent>)
    ensures FromStated(ss) == [] || !FromStated(ss)[0].omitted
  {
    if ss != [] && ss[0].omitted { FromStatedFirst(ss[1..]); }
  }

  lemma DliveAfterIff(data: seq<byte>, after: seq<Sent>, running: Option<byte>)
    requires Stable(DliveStep) && DataBytes(data) && Sendable(after, running)
    ensures Drain(DliveStep, running, data + Stream(after, running)).out == Messages(FromStated(after))
            <==> ReadAlike(data, after, running)
  {
    if PhantomLen(running) == 0 {
      LeadSplits(after, running);
      DliveDropsData(data, Stream(after, running), running);
      DliveGivesMessages(after, running);
    } else if Over(|data|, PhantomLen(running)) == 0 {
      EvenIff(data, after, running);
    } else {
      OddIff(data, after, running);
    }
  }

  // ---------------------------------------------------------------- the two readings

  /** What each makes of such a stream, up to what follows the byte. */
  lemma InterruptedGives(before: seq<Sent>, b: byte, data: seq<byte>, after: seq<Sent>, running: Option<byte>)
    requires b > SYSEX_START && Sendable(before, running) && Sendable(after, Running(before, running))
    ensures Stable(DliveStep) && Stable(StandardStep)
    ensures var (left, tail) := (Running(before, running), data + Stream(after, Running(before, running)));
            && Drain(DliveStep, running, Interrupted(before, b, data, after, running)).out
               == Messages(before) + Drain(DliveStep, left, tail).out
            && Drain(StandardStep, running, Interrupted(before, b, data, after, running)).out
               == Messages(before) + Drain(StandardStep, if b < FIRST_REAL_TIME then None else left, tail).out
  {
    var left := Running(before, running);
    var left' := if b < FIRST_REAL_TIME then None else left;
    var tail := data + Stream(after, left);
    DliveStable();
    DliveCutsMessages();
    StandardStable();
    StandardCutsMessages();
    assert CutsWhole(StandardStep, left, [b], left', []);
    hide StandardStep, DliveStep, CutsMessages, Sendable, Stream, Stable, Drain;
    GivesMessages(DliveStep, before, running, [b] + tail);
    StrayStatusIsDropped(b, left, tail);
    GivesMessages(StandardStep, before, running, [b] + tail);
    CutFirst(StandardStep, left, [b], left', [], tail);
    PrependTwice([], [], Drain(StandardStep, left', tail));
  }

  /** With a bare status byte between messages dLive's parser gives them all. */
  lemma DliveKeepsAll(before: seq<Sent>, b: byte, after: seq<Sent>, running: Option<byte>)
    requires b > SYSEX_START && Sendable(before, running) && Sendable(after, Running(before, running))
    ensures Stable(DliveStep)
    ensures Drain(DliveStep, running, Interrupted(before, b, [], after, running)).out == Messages(before) + Messages(after)
  {
    var left := Running(before, running);
    InterruptedGives(before, b, [], after, running);
    assert [] + Stream(after, left) == Stream(after, left);
    DliveGivesMessages(after, left);
  }

  lemma StandardAfter(b: byte, data: seq<byte>, after: seq<Sent>, running: Option<byte>)
    requires DataBytes(data) && (b >= FIRST_REAL_TIME ==> data == []) && Sendable(after, running)
    ensures Stable(StandardStep)
    ensures Drain(StandardStep, if b < FIRST_REAL_TIME then None else running, data + Stream(after, running)).out
            == Messages(if b < FIRST_REAL_TIME then FromStated(after) else after)
  {
    StandardStable();
    StandardCutsMessages();
    if b < FIRST_REAL_TIME {
      StandardDropsData(data, Stream(after, running));
      CancelledGivesStated(after, running);
    } else {
      assert data + Stream(after, running) == Stream(after, running) + [];
      GivesMessages(StandardStep, after, running, []);
      NothingRunsOn(Running(after, running));
      assert Messages(after) + [] == Messages(after);
    }
  }

  /** MIDI's reading loses, at a System Common message, the messages that relied on the status it cancels,
      and at a System Real Time one none. */
  lemma StandardLosesSome(before: seq<Sent>, b: byte, data: seq<byte>, after: seq<Sent>, running: Option<byte>)
    requires b > SYSEX_START && DataBytes(data) && (b >= FIRST_REAL_TIME ==> data == [])
    requires Sendable(before, running) && Sendable(after, Running(before, running))
    ensures Stable(StandardStep)
    ensures Drain(StandardStep, running, Interrupted(before, b, data, after, running)).out
            == Messages(before) + Messages(if b < FIRST_REAL_TIME then FromStated(after) else after)
  {
    InterruptedGives(before, b, data, after, running);
    StandardAfter(b, data, after, Running(before, running));
  }

  /** The code reads a stream with another message in it as MIDI does exactly if that message is a real-time
      one; or no channel status is running; or it has too little data for a message of the running status, and
      nothing follows - or has none, and what follows states its status. */
  lemma StrayMessageReadIff(before: seq<Sent>, b: byte, data: seq<byte>, after: seq<Sent>, running: Option<byte>)
    requires b > SYSEX_START && DataBytes(data) && (b >= FIRST_REAL_TIME ==> data == [])
    requires Sendable(before, running) && Sendable(after, Running(before, running))
    ensures Stable(DliveStep) && Stable(StandardStep)
    ensures Drain(DliveStep, running, Interrupted(before, b, data, after, running)).out
            == Drain(StandardStep, running, Interrupted(before, b, data, after, running)).out
            <==> b >= FIRST_REAL_TIME || ReadAlike(data, after, Running(before, running))
  {
    var left := Running(before, running);
    InterruptedGives(before, b, data, after, running);
    StandardLosesSome(before, b, data, after, running);
    if b >= FIRST_REAL_TIME {
      DliveKeepsAll(before, b, after, running);
    } else {
      DliveAfterIff(data, after, left);
      SameAfter(Messages(before), Drain(DliveStep, left, data + Stream(after, left)).out, Messages(FromStated(after)));
    }
  }

  lemma SameAfter(a: seq<seq<byte>>, b: seq<seq<byte>>, c: seq<seq<byte>>)
    ensures a + b == a + c <==> b == c
  {
    if a + b == a + c { assert b == (a + b)[|a|..] && c == (a + c)[|a|..]; }
  }
}
