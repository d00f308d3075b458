/** The two MIDI byte-stream parsers: dLive's, with running status, and the AHM's, without. */
module Midi {
  import opened Bytes
  import opened Framing
  import opened Wrappers

  const SYSEX_START: byte := 0xF0
  const SYSEX_END: byte := 0xF7

  /** How many data bytes follow a channel status. */
  function ChannelLen(status: byte): (n: Option<nat>)
    ensures n.Some? ==> 1 <= n.value <= 2
  {
    var high := status / 16;
    if high == 0x8 || high == 0x9 || high == 0xA || high == 0xB || high == 0xE then Some(2)
    else if high == 0xC || high == 0xD then Some(1)
    else None
  }

  /** Where a byte first is. */
  function Position(b: seq<byte>, x: byte): (p: Option<nat>)
    ensures p.Some? ==> p.value < |b| && b[p.value] == x && forall j :: 0 <= j < p.value ==> b[j] != x
    ensures p.None? ==> x !in b
  {
    if b == [] then None
    else if b[0] == x then Some(0)
    else match Position(b[1..], x) case None => None case Some(k) => Some(k + 1)
  }

  lemma PositionIs(b: seq<byte>, x: byte, k: nat)
    requires k < |b| && b[k] == x && x !in b[..k]
    ensures Position(b, x) == Some(k)
  {
    assert b[k] in b;
    forall j | 0 <= j < k ensures b[j] != x { assert b[..k][j] == b[j]; }
  }

  /** One turn of dLive's parser. The state is the status bytes may be left out after. */
  function DliveStep(running: Option<byte>, b: seq<byte>): Cut<Option<byte>, seq<byte>> {
    if b == [] then More
    else if b[0] == SYSEX_START then
      match Position(b, SYSEX_END)
      case None => More
      case Some(end) => Take(end + 1, None, [b[..end + 1]])
    else if b[0] >= 0x80 then
      match ChannelLen(b[0])
      case None => Take(1, running, [])
      case Some(n) => if |b| < 1 + n then More else Take(1 + n, Some(b[0]), [b[..1 + n]])
    else
      match running
      case None => Take(1, running, [])
      case Some(status) =>
        match ChannelLen(status)
        case None => Take(1, running, [])
        case Some(n) => if |b| < n then More else Take(n, running, [[status] + b[..n]])
  }

  /** One turn of the AHM's parser: a data byte with no status in front of it is dropped. */
  function AhmStep(s: (), b: seq<byte>): Cut<(), seq<byte>> {
    if b == [] then More
    else if b[0] < 0x80 then Take(1, (), [])
    else if b[0] == SYSEX_START then
      match Position(b, SYSEX_END)
      case None => More
      case Some(end) => Take(end + 1, (), [b[..end + 1]])
    else
      match ChannelLen(b[0])
      case None => Take(1, (), [])
      case Some(n) => if |b| < 1 + n then More else Take(1 + n, (), [b[..1 + n]])
  }

  lemma SysExExtends(b: seq<byte>, c: seq<byte>, end: nat)
    requires Position(b, SYSEX_END) == Some(end)
    ensures Position(b + c, SYSEX_END) == Some(end) && (b + c)[..end + 1] == b[..end + 1]
  {
    assert (b + c)[..end] == b[..end];
    PositionIs(b + c, SYSEX_END, end);
  }

  lemma DliveStable()
    ensures Stable(DliveStep)
  {
    forall s, b ensures Cuts(DliveStep, s, b) {}
    forall s, b, c ensures Extends(DliveStep, s, b, c) { DliveExtends(s, b, c); }
  }

  lemma DliveExtends(s: Option<byte>, b: seq<byte>, c: seq<byte>)
    ensures DliveStep(s, b).More? || DliveStep(s, b + c) == DliveStep(s, b)
  {
    if !DliveStep(s, b).More? {
      var n := DliveStep(s, b).n;
      assert (b + c)[..n] == b[..n] && (b + c)[0] == b[0];
      if b[0] == SYSEX_START { SysExExtends(b, c, n - 1); }
    }
  }

  lemma AhmStable()
    ensures Stable(AhmStep)
  {
    forall s, b ensures Cuts(AhmStep, s, b) {}
    forall s, b, c ensures Extends(AhmStep, s, b, c) { AhmExtends(s, b, c); }
  }

  lemma AhmExtends(s: (), b: seq<byte>, c: seq<byte>)
    ensures AhmStep(s, b).More? || AhmStep(s, b + c) == AhmStep(s, b)
  {
    if !AhmStep(s, b).More? {
      var n := AhmStep(s, b).n;
      assert (b + c)[..n] == b[..n] && (b + c)[0] == b[0];
      if b[0] == SYSEX_START { SysExExtends(b, c, n - 1); }
    }
  }

  // ---------------------------------------------------------------- messages and streams

  predicate DataBytes(b: seq<byte>) {
    forall k :: 0 <= k < |b| ==> b[k] < 0x80
  }

  predicate IsChannel(m: seq<byte>) {
    m != [] && m[0] >= 0x80 && ChannelLen(m[0]) == Some(|m| - 1) && DataBytes(m[1..])
  }

  predicate IsSysEx(m: seq<byte>) {
    |m| >= 2 && m[0] == SYSEX_START && m[|m| - 1] == SYSEX_END && SYSEX_END !in m[..|m| - 1]
  }

  predicate IsMessage(m: seq<byte>) {
    IsChannel(m) || IsSysEx(m)
  }

  /** The status a message leaves running: a channel message its own, a SysEx none. */
  function Leaves(m: seq<byte>): Option<byte>
    requires IsMessage(m)
  {
    if IsChannel(m) then Some(m[0]) else None
  }

  /** A message on the wire, its status left out or not. */
  datatype Sent = Sent(message: seq<byte>, omitted: bool)

  function Wire(s: Sent): seq<byte>
    requires s.message != []
  {
    if s.omitted then s.message[1..] else s.message
  }

  /** Messages, each of whose status is left out only where the one before left it running. */
  ghost predicate Sendable(ss: seq<Sent>, running: Option<byte>)
    decreases |ss|
  {
    ss == [] || (&& IsMessage(ss[0].message)
                 && (ss[0].omitted ==> IsChannel(ss[0].message) && running == Some(ss[0].message[0]))
                 && Sendable(ss[1..], Leaves(ss[0].message)))
  }

  function Messages(ss: seq<Sent>): seq<seq<byte>> {
    seq(|ss|, i requires 0 <= i < |ss| => ss[i].message)
  }

  ghost function Stream(ss: seq<Sent>, running: Option<byte>): seq<byte>
    requires Sendable(ss, running)
    decreases |ss|
  {
    if ss == [] then [] else Wire(ss[0]) + Stream(ss[1..], Leaves(ss[0].message))
  }

  ghost function Running(ss: seq<Sent>, running: Option<byte>): Option<byte>
    requires Sendable(ss, running)
    decreases |ss|
  {
    if ss == [] then running else Running(ss[1..], Leaves(ss[0].message))
  }

  lemma SysExCuts(m: seq<byte>)
    requires IsSysEx(m)
    ensures CutsWhole(DliveStep, None, m, None, [m]) && CutsWhole(AhmStep, (), m, (), [m])
    ensures forall running :: CutsWhole(DliveStep, running, m, None, [m])
  {
    PositionIs(m, SYSEX_END, |m| - 1);
    assert m[..|m|] == m;
  }

  lemma DliveCuts(s: Sent, running: Option<byte>)
    requires Sendable([s], running)
    ensures s.message != [] && CutsWhole(DliveStep, running, Wire(s), Leaves(s.message), [s.message])
  {
    var m := s.message;
    assert [s][0] == s;
    assert m[..|m|] == m;
    if IsSysEx(m) { SysExCuts(m); }
    if s.omitted {
      assert m[1..][0] == m[1] < 0x80 && m[1..][..|m| - 1] == m[1..] && [m[0]] + m[1..] == m;
    }
  }

  ghost predicate CutsMessage(step: Step<Option<byte>, seq<byte>>, s: Sent, running: Option<byte>) {
    s.message != [] && IsMessage(s.message) && CutsWhole(step, running, Wire(s), Leaves(s.message), [s.message])
  }

  /** A parser that cuts every message off whole, its status left out or not. */
  ghost predicate CutsMessages(step: Step<Option<byte>, seq<byte>>) {
    forall s, running :: Sendable([s], running) ==> CutsMessage(step, s, running)
  }

  lemma DliveCutsMessages()
    ensures CutsMessages(DliveStep)
  {
    forall s, running | Sendable([s], running) ensures CutsMessage(DliveStep, s, running) {
      DliveCuts(s, running);
      assert IsMessage([s][0].message);
    }
  }

  /** Such a parser gives the messages meant, whatever statuses the sender leaves out. */
  lemma {:induction false} GivesMessages(step: Step<Option<byte>, seq<byte>>, ss: seq<Sent>, running: Option<byte>,
                                         tail: seq<byte>)
    requires Stable(step) && CutsMessages(step) && Sendable(ss, running)
    ensures Drain(step, running, Stream(ss, running) + tail)
            == Prepend(Messages(ss), Drain(step, Running(ss, running), tail))
    decreases |ss|
  {
    hide IsMessage, IsChannel, Stable, Drain;
    if ss == [] {
      assert [] + tail == tail;
      PrependTwice([], [], Drain(step, running, tail));
    } else {
      var m := ss[0].message;
      assert Sendable([ss[0]], running) by { assert [ss[0]][1..] == []; }
      assert CutsMessage(step, ss[0], running);
      hide CutsMessages, Leaves, Wire;
      var rest := Stream(ss[1..], Leaves(m));
      CutFirst(step, running, Wire(ss[0]), Leaves(m), [m], rest + tail);
      GivesMessages(step, ss[1..], Leaves(m), tail);
      assert Stream(ss, running) + tail == Wire(ss[0]) + (rest + tail);
      assert Messages(ss) == [m] + Messages(ss[1..]);
      PrependTwice([m], Messages(ss[1..]), Drain(step, Running(ss, running), tail));
    }
  }

  /** Whatever statuses a sender leaves out, dLive's parser gives the messages meant. */
  lemma DliveGivesMessages(ss: seq<Sent>, running: Option<byte>)
    requires Sendable(ss, running) && Stable(DliveStep)
    ensures Drain(DliveStep, running, Stream(ss, running)) == Drained(Running(ss, running), [], Messages(ss), false)
  {
    DliveCutsMessages();
    NothingLeft(Running(ss, running));
    GivesMessages(DliveStep, ss, running, []);
    assert Stream(ss, running) + [] == Stream(ss, running) && Messages(ss) + [] == Messages(ss);
  }

  lemma NothingLeft(running: Option<byte>)
    ensures DliveStep(running, []).More? && AhmStep((), []).More?
    ensures Stable(DliveStep) ==> Drain(DliveStep, running, []) == Drained(running, [], [], false)
    ensures Stable(AhmStep) ==> Drain(AhmStep, (), []) == Drained((), [], [], false)
  {}

  /** What either parser makes of a stream depends on its bytes and not on how they arrive. */
  lemma ChunkingIsInvisible(chunks: seq<seq<byte>>)
    ensures Stable(DliveStep) && Stable(AhmStep)
    ensures SameStream(FeedAll(DliveStep, Drained(None, [], [], false), chunks), Drain(DliveStep, None, Concat(chunks)))
    ensures SameStream(FeedAll(AhmStep, Drained((), [], [], false), chunks), Drain(AhmStep, (), Concat(chunks)))
  {
    DliveStable();
    AhmStable();
    NothingLeft(None);
    ChunksDontMatter(DliveStep, None, chunks);
    ChunksDontMatter(AhmStep, (), chunks);
  }

  /** Running status is transparent: however its bytes arrive, a stream with statuses left out gives the
      messages the stream with every status in place gives. */
  lemma RunningStatusIsTransparent(ss: seq<Sent>, chunks: seq<seq<byte>>)
    requires Sendable(ss, None) && Concat(chunks) == Stream(ss, None)
    ensures Stable(DliveStep)
    ensures FeedAll(DliveStep, Drained(None, [], [], false), chunks)
            == Drained(Running(ss, None), [], Messages(ss), false)
  {
    DliveStable();
    NothingLeft(None);
    ChunksDontMatter(DliveStep, None, chunks);
    DliveGivesMessages(ss, None);
  }

  /** A status byte that starts neither a channel message nor a SysEx is dropped by itself wherever a
      message could start - and leaves dLive's running status standing, even where MIDI would cancel it. */
  lemma StrayStatusIsDropped(b: byte, running: Option<byte>, tail: seq<byte>)
    requires b > SYSEX_START
    ensures Stable(DliveStep) && Stable(AhmStep)
    ensures Drain(DliveStep, running, [b] + tail) == Drain(DliveStep, running, tail)
    ensures Drain(AhmStep, (), [b] + tail) == Drain(AhmStep, (), tail)
  {
    DliveStable();
    AhmStable();
    CutFirst(DliveStep, running, [b], running, [], tail);
    CutFirst(AhmStep, (), [b], (), [], tail);
    PrependTwice([], [], Drain(DliveStep, running, tail));
    PrependTwice([], [], Drain(AhmStep, (), tail));
  }

  /** Data bytes are dropped while no status is running. */
  lemma {:induction false} StrayDataIsDropped(data: seq<byte>, tail: seq<byte>)
    requires DataBytes(data)
    ensures Stable(DliveStep) && Drain(DliveStep, None, data + tail) == Drain(DliveStep, None, tail)
  {
    DliveStable();
    if data == [] {
      assert data + tail == tail;
    } else {
      assert data + tail == [data[0]] + (data[1..] + tail);
      CutFirst(DliveStep, None, [data[0]], None, [], data[1..] + tail);
      StrayDataIsDropped(data[1..], tail);
      PrependTwice([], [], Drain(DliveStep, None, tail));
    }
  }

  // ---------------------------------------------------------------- the two parsers compared

  /** The messages whose status is on the wire. */
  function Stated(ss: seq<Sent>): seq<seq<byte>> {
    if ss == [] then [] else (if ss[0].omitted then [] else [ss[0].message]) + Stated(ss[1..])
  }

  lemma {:induction false} DataIsDropped(data: seq<byte>, tail: seq<byte>)
    requires DataBytes(data) && Stable(AhmStep)
    ensures Drain(AhmStep, (), data + tail) == Drain(AhmStep, (), tail)
  {
    if data == [] {
      assert data + tail == tail;
    } else {
      assert data + tail == [data[0]] + (data[1..] + tail);
      CutFirst(AhmStep, (), [data[0]], (), [], data[1..] + tail);
      DataIsDropped(data[1..], tail);
      PrependTwice([], [], Drain(AhmStep, (), tail));
    }
  }

  lemma AhmCuts(m: seq<byte>)
    requires IsMessage(m)
    ensures CutsWhole(AhmStep, (), m, (), [m])
  {
    if IsSysEx(m) { SysExCuts(m); }
    assert m[..|m|] == m;
  }

  /** From the same stream the AHM's parser gives just the messages whose status is on the wire. */
  lemma {:induction false} AhmGivesStated(ss: seq<Sent>, running: Option<byte>)
    requires Sendable(ss, running) && Stable(AhmStep)
    ensures Drain(AhmStep, (), Stream(ss, running)) == Drained((), [], Stated(ss), false)
    decreases |ss|
  {
    hide AhmStep, Stable;
    if ss == [] {
      NothingLeft(running);
    } else {
      var m := ss[0].message;
      var rest := Stream(ss[1..], Leaves(m));
      AhmGivesStated(ss[1..], Leaves(m));
      if ss[0].omitted {
        DataIsDropped(m[1..], rest);
        PrependTwice([], [], Drain(AhmStep, (), rest));
      } else {
        AhmCuts(m);
        CutFirst(AhmStep, (), m, (), [m], rest);
      }
    }
  }

  lemma {:induction false} StatedIsAllIff(ss: seq<Sent>)
    ensures |Stated(ss)| <= |ss|
    ensures Stated(ss) == Messages(ss) <==> forall k :: 0 <= k < |ss| ==> !ss[k].omitted
  {
    if ss != [] {
      StatedIsAllIff(ss[1..]);
      assert Messages(ss) == [ss[0].message] + Messages(ss[1..]);
      if !ss[0].omitted {
        assert (forall k :: 0 <= k < |ss| ==> !ss[k].omitted)
               <==> (forall k :: 0 <= k < |ss[1..]| ==> !ss[1..][k].omitted) by {
          assert forall k :: 1 <= k < |ss| ==> ss[k] == ss[1..][k - 1];
        }
        if Stated(ss) == Messages(ss) { assert Stated(ss)[1..] == Messages(ss)[1..]; }
      }
    }
  }

  /** The two parsers agree on a stream exactly if every status is on the wire. */
  lemma ParsersAgreeIff(ss: seq<Sent>)
    requires Sendable(ss, None)
    ensures Stable(DliveStep) && Stable(AhmStep)
    ensures Drain(AhmStep, (), Stream(ss, None)).out == Drain(DliveStep, None, Stream(ss, None)).out
            <==> forall k :: 0 <= k < |ss| ==> !ss[k].omitted
  {
    DliveStable();
    AhmStable();
    DliveGivesMessages(ss, None);
    AhmGivesStated(ss, None);
    StatedIsAllIff(ss);
  }

  // ---------------------------------------------------------------- MIDI 1.0's message formats, in octets

  /** Two data bytes after 0x80 to 0xBF and 0xE0 to 0xEF, one after 0xC0 to 0xDF; no other byte is a channel status. */
  lemma ChannelLenIs(status: byte)
    ensures ChannelLen(status) == Some(2) <==> 0x80 <= status <= 0xBF || 0xE0 <= status <= 0xEF
    ensures ChannelLen(status) == Some(1) <==> 0xC0 <= status <= 0xDF
    ensures ChannelLen(status) == None <==> status < 0x80 || status >= 0xF0
  {}

  /** A channel voice or mode message: three bytes, or two for Program Change and Channel Pressure. */
  predicate IsVoice(m: seq<byte>) {
    || (|m| == 3 && (0x80 <= m[0] <= 0xBF || 0xE0 <= m[0] <= 0xEF) && m[1] < 0x80 && m[2] < 0x80)
    || (|m| == 2 && 0xC0 <= m[0] <= 0xDF && m[1] < 0x80)
  }

  /** A System Exclusive message, up to its first End of Exclusive. */
  predicate IsExclusive(m: seq<byte>) {
    |m| >= 2 && m[0] == 0xF0 && m[|m| - 1] == 0xF7 && forall k :: 0 <= k < |m| - 1 ==> m[k] != 0xF7
  }

  lemma MessagesAre(m: seq<byte>)
    ensures IsMessage(m) <==> IsVoice(m) || IsExclusive(m)
    ensures IsChannel(m) <==> IsVoice(m)
  {
    if m != [] {
      ChannelLenIs(m[0]);
      assert |m| == 2 ==> m[1..] == [m[1]];
      assert |m| == 3 ==> m[1..] == [m[1], m[2]];
      assert forall k :: 0 <= k < |m| - 1 ==> m[..|m| - 1][k] == m[k];
    }
  }

  /** Messages, and which of them go without their status: only voice messages, each after one of the same status. */
  ghost predicate MayLeaveOut(ms: seq<seq<byte>>, left: seq<bool>) {
    && |left| == |ms|
    && (forall i :: 0 <= i < |ms| ==> IsVoice(ms[i]) || IsExclusive(ms[i]))
    && (forall i :: 0 <= i < |ms| && left[i] ==> i > 0 && IsVoice(ms[i]) && ms[i - 1][0] == ms[i][0])
  }

  function Octets(ms: seq<seq<byte>>, left: seq<bool>): seq<byte>
    requires |left| == |ms| && forall i :: 0 <= i < |ms| ==> ms[i] != []
  {
    if ms == [] then []
    else (if left[0] then ms[0][1..] else ms[0]) + Octets(ms[1..], left[1..])
  }

  function AsSent(ms: seq<seq<byte>>, left: seq<bool>): seq<Sent>
    requires |left| == |ms|
  {
    seq(|ms|, i requires 0 <= i < |ms| => Sent(ms[i], left[i]))
  }

  /** The same from a message on: the status running is the last message's, if that was a voice message. */
  ghost predicate MayContinue(ms: seq<seq<byte>>, left: seq<bool>, running: Option<byte>) {
    && |left| == |ms|
    && (forall i :: 0 <= i < |ms| ==> IsVoice(ms[i]) || IsExclusive(ms[i]))
    && (ms != [] && left[0] ==> IsVoice(ms[0]) && running == Some(ms[0][0]))
    && (forall i :: 0 < i < |ms| && left[i] ==> IsVoice(ms[i]) && ms[i - 1][0] == ms[i][0])
  }

  lemma ContinueTail(ms: seq<seq<byte>>, left: seq<bool>, running: Option<byte>)
    requires ms != [] && MayContinue(ms, left, running)
    ensures IsMessage(ms[0]) && (left[0] ==> IsChannel(ms[0]) && running == Some(ms[0][0]))
    ensures MayContinue(ms[1..], left[1..], Leaves(ms[0]))
  {
    MessagesAre(ms[0]);
    if |ms| > 1 && left[1] {
      assert IsVoice(ms[1]) && ms[0][0] == ms[1][0];
    }
    forall i | 0 < i < |ms[1..]| && left[1..][i]
      ensures IsVoice(ms[1..][i]) && ms[1..][i - 1][0] == ms[1..][i][0]
    {
      assert left[i + 1] && ms[i + 1 - 1][0] == ms[i + 1][0];
    }
  }

  lemma {:induction false} AsSentIs(ms: seq<seq<byte>>, left: seq<bool>, running: Option<byte>)
    requires MayContinue(ms, left, running)
    ensures Sendable(AsSent(ms, left), running) && Messages(AsSent(ms, left)) == ms
    ensures Stream(AsSent(ms, left), running) == Octets(ms, left)
  {
    var ss := AsSent(ms, left);
    assert Messages(ss) == ms;
    if ms == [] {
      assert ss == [];
    } else {
      ContinueTail(ms, left, running);
      assert ss[0] == Sent(ms[0], left[0]) && ss[1..] == AsSent(ms[1..], left[1..]);
      hide IsMessage, IsChannel, IsVoice, IsExclusive, MayContinue, Leaves, Messages;
      AsSentIs(ms[1..], left[1..], Leaves(ms[0]));
    }
  }

  /** Voice messages of either length and System Exclusive ones, in any mix, with statuses left out wherever MIDI 1.0
      allows it and however the bytes arrive, come out of dLive's parser as they were meant. */
  lemma MessagesComeThrough(ms: seq<seq<byte>>, left: seq<bool>, chunks: seq<seq<byte>>)
    requires MayLeaveOut(ms, left) && Concat(chunks) == Octets(ms, left)
    ensures Stable(DliveStep)
    ensures var d := FeedAll(DliveStep, Drained(None, [], [], false), chunks);
            d.out == ms && d.rest == [] && !d.stopped
  {
    AsSentIs(ms, left, None);
    RunningStatusIsTransparent(AsSent(ms, left), chunks);
  }

  /** With every status on the wire they come out of the AHM's parser too. */
  lemma StatedComeThrough(ms: seq<seq<byte>>, chunks: seq<seq<byte>>)
    requires forall i :: 0 <= i < |ms| ==> IsVoice(ms[i]) || IsExclusive(ms[i])
    requires Concat(chunks) == Concat(ms)
    ensures Stable(AhmStep)
    ensures var d := FeedAll(AhmStep, Drained((), [], [], false), chunks);
            d.out == ms && d.rest == [] && !d.stopped
  {
    var none := seq(|ms|, _ => false);
    AsSentIs(ms, none, None);
    AllStated(ms, none);
    AhmStable();
    NothingLeft(None);
    ChunksDontMatter(AhmStep, (), chunks);
    AhmGivesStated(AsSent(ms, none), None);
    StatedIsAllIff(AsSent(ms, none));
  }

  lemma {:induction false} AllStated(ms: seq<seq<byte>>, none: seq<bool>)
    requires |none| == |ms| && forall i :: 0 <= i < |ms| ==> ms[i] != [] && !none[i]
    ensures Octets(ms, none) == Concat(ms)
  {
    if ms != [] { AllStated(ms[1..], none[1..]); }
  }

  /** A Program Change and a pitch bend after it, in seven bytes of both parsers' streams. */
  lemma ProgramThenBend()
    ensures Stable(DliveStep) && Stable(AhmStep)
    ensures Drain(DliveStep, None, [0xC0, 0x05, 0xE0, 0x10, 0x40]).out == [[0xC0, 0x05], [0xE0, 0x10, 0x40]]
    ensures Drain(AhmStep, (), [0xC0, 0x05, 0xE0, 0x10, 0x40]).out == [[0xC0, 0x05], [0xE0, 0x10, 0x40]]
  {
    var a: seq<byte>, b: seq<byte> := [0xC0, 0x05], [0xE0, 0x10, 0x40];
    MessagesAre(a);
    MessagesAre(b);
    DliveStable();
    AhmStable();
    DliveCuts(Sent(a, false), None);
    DliveCuts(Sent(b, false), Some(0xC0));
    AhmCuts(a);
    AhmCuts(b);
    hide DliveStep, AhmStep, Stable;
    CutFirst(DliveStep, None, a, Some(0xC0), [a], b);
    CutFirst(AhmStep, (), a, (), [a], b);
    CutFirst(DliveStep, Some(0xC0), b, Some(0xE0), [b], []);
    CutFirst(AhmStep, (), b, (), [b], []);
    NothingLeft(Some(0xE0));
    assert a + b == [0xC0, 0x05, 0xE0, 0x10, 0x40] && b + [] == b;
    assert [a] + ([b] + []) == [a, b];
  }
}
