/** The parsers as objects: a buffer that reads are pushed into and messages are taken out of. */
module MidiParsers {
  import opened Bytes
  import opened Framing
  import opened Midi
  import opened Wrappers

  lemma DliveSingle()
    ensures Single(DliveStep)
  {
    forall s, b ensures SingleAt(DliveStep, s, b) {}
  }

  lemma AhmSingle()
    ensures Single(AhmStep)
  {
    forall s, b ensures SingleAt(AhmStep, s, b) {}
  }

  /** One turn of a parser that is taken a message at a time. */
  lemma OneTurn<S(!new), M(!new)>(step: Step<S, M>, s: S, b: seq<byte>)
    requires Stable(step)
    ensures step(s, b).Take? ==> 0 < step(s, b).n <= |b|
    ensures var cut := step(s, b);
            NextOut(step, s, b)
            == if !cut.Take? then (None, s, b)
               else if cut.out == [] then NextOut(step, cut.state, b[cut.n..])
               else (Some(cut.out[0]), cut.state, b[cut.n..])
  {
    assert Cuts(step, s, b);
  }

  class DliveParser {
    var buf: seq<byte>
    var running: Option<byte>

    constructor ()
      ensures buf == [] && running == None
    {
      buf, running := [], None;
    }

    method Push(data: seq<byte>)
      modifies `buf
      ensures buf == old(buf) + data
    {
      buf := buf + data;
    }

    /** The next message, its status always present. */
    method NextMessage() returns (m: Option<seq<byte>>)
      requires Stable(DliveStep)
      modifies this
      ensures (m, running, buf) == NextOut(DliveStep, old(running), old(buf))
    {
      hide NextOut, Stable;
      while true
        invariant NextOut(DliveStep, running, buf) == NextOut(DliveStep, old(running), old(buf))
        decreases |buf|
      {
        OneTurn(DliveStep, running, buf);
        if buf == [] {
          return None;
        }
        var first := buf[0];
        if first == SYSEX_START {
          var end := Position(buf, SYSEX_END);
          if end.None? {
            return None;
          }
          m := Some(buf[..end.value + 1]);
          buf := buf[end.value + 1..];
          running := None;
          return;
        }
        if first >= 0x80 {
          var n := ChannelLen(first);
          if n.None? {
            buf := buf[1..];
            continue;
          }
          var total := 1 + n.value;
          if |buf| < total {
            return None;
          }
          m := Some(buf[..total]);
          buf := buf[total..];
          running := Some(first);
          return;
        }
        if running.None? {
          buf := buf[1..];
          continue;
        }
        var n := ChannelLen(running.value);
        if n.None? {
          buf := buf[1..];
          continue;
        }
        if |buf| < n.value {
          return None;
        }
        m := Some([running.value] + buf[..n.value]);
        buf := buf[n.value..];
        return;
      }
    }

    /** One read: pushes it and takes out every message there now is. */
    method Receive(data: seq<byte>) returns (out: seq<seq<byte>>)
      modifies this
      ensures Stable(DliveStep)
      ensures Drained(running, buf, out, false) == Drain(DliveStep, old(running), old(buf) + data)
    {
      DliveStable();
      DliveSingle();
      hide DliveStep, Stable, Single;
      Push(data);
      out := [];
      PrependTwice([], [], Drain(DliveStep, running, buf));
      while true
        invariant Prepend(out, Drain(DliveStep, running, buf)) == Drain(DliveStep, old(running), old(buf) + data)
        decreases |buf|
      {
        DrainByNext(DliveStep, running, buf);
        var m := NextMessage();
        if m.None? {
          assert out + [] == out;
          return;
        }
        PrependTwice(out, [m.value], Drain(DliveStep, running, buf));
        out := out + [m.value];
      }
    }
  }

  class AhmParser {
    var buf: seq<byte>

    constructor ()
      ensures buf == []
    {
      buf := [];
    }

    method NextMessage() returns (m: Option<seq<byte>>)
      requires Stable(AhmStep)
      modifies this
      ensures (m, (), buf) == NextOut(AhmStep, (), old(buf))
    {
      hide NextOut, Stable;
      while true
        invariant NextOut(AhmStep, (), buf) == NextOut(AhmStep, (), old(buf))
        decreases |buf|
      {
        OneTurn(AhmStep, (), buf);
        if buf == [] {
          return None;
        }
        var status := buf[0];
        if status < 0x80 {
          buf := buf[1..];
          continue;
        }
        if status == SYSEX_START {
          var end := Position(buf, SYSEX_END);
          if end.None? {
            return None;
          }
          m := Some(buf[..end.value + 1]);
          buf := buf[end.value + 1..];
          return;
        }
        var n := ChannelLen(status);
        if n.None? {
          buf := buf[1..];
          continue;
        }
        var total := 1 + n.value;
        if |buf| < total {
          return None;
        }
        m := Some(buf[..total]);
        buf := buf[total..];
        return;
      }
    }

    method Receive(data: seq<byte>) returns (out: seq<seq<byte>>)
      modifies this
      ensures Stable(AhmStep)
      ensures Drained((), buf, out, false) == Drain(AhmStep, (), old(buf) + data)
    {
      AhmStable();
      AhmSingle();
      hide AhmStep, Stable, Single;
      buf := buf + data;
      out := [];
      PrependTwice([], [], Drain(AhmStep, (), buf));
      while true
        invariant Prepend(out, Drain(AhmStep, (), buf)) == Drain(AhmStep, (), old(buf) + data)
        decreases |buf|
      {
        DrainByNext(AhmStep, (), buf);
        var m := NextMessage();
        if m.None? {
          assert out + [] == out;
          return;
        }
        PrependTwice(out, [m.value], Drain(AhmStep, (), buf));
        out := out + [m.value];
      }
    }
  }

  // ---------------------------------------------------------------- the AHM's three-message idiom

  datatype Setting = Setting(n: nat, ch: byte, param: byte, value: byte)

  /** The channel and parameter selected so far, for each MIDI channel. */
  datatype Selected = Selected(ch: map<nat, byte>, param: map<nat, byte>)

  const SELECT_CHANNEL: byte := 0x63
  const SELECT_PARAMETER: byte := 0x62
  const DATA_ENTRY: byte := 0x06

  function Track(t: Selected, m: seq<byte>): (Selected, Option<Setting>) {
    if |m| != 3 || m[0] / 16 != 0xB then (t, None)
    else
      var n := m[0] % 16;
      if m[1] == SELECT_CHANNEL then (t.(ch := t.ch[n := m[2]]), None)
      else if m[1] == SELECT_PARAMETER then (t.(param := t.param[n := m[2]]), None)
      else if m[1] == DATA_ENTRY && n in t.ch && n in t.param then (t, Some(Setting(n, t.ch[n], t.param[n], m[2])))
      else (t, None)
  }

  class NrpnTracker {
    var pendingCh: map<nat, byte>
    var pendingParam: map<nat, byte>

    constructor ()
      ensures pendingCh == map[] && pendingParam == map[]
    {
      pendingCh, pendingParam := map[], map[];
    }

    ghost function State(): Selected
      reads this
    {
      Selected(pendingCh, pendingParam)
    }

    method Feed(m: seq<byte>) returns (r: Option<Setting>)
      modifies this
      ensures (State(), r) == Track(old(State()), m)
      ensures forall before :: old(State()) == Heard(before) ==>
                State() == Heard(before + [m]) && forall s :: r == Some(s) <==> Sets(before, m, s)
    {
      forall before | State() == Heard(before)
        ensures Track(State(), m).0 == Heard(before + [m])
        ensures forall s :: Track(State(), m).1 == Some(s) <==> Sets(before, m, s)
      {
        TrackAppend(Selected(map[], map[]), before, m);
        TrackedIs(before, m);
      }
      hide Sets, Heard;
      if |m| != 3 || m[0] / 16 != 0xB {
        return None;
      }
      var n := m[0] % 16;
      if m[1] == SELECT_CHANNEL {
        pendingCh := pendingCh[n := m[2]];
      } else if m[1] == SELECT_PARAMETER {
        pendingParam := pendingParam[n := m[2]];
      } else if m[1] == DATA_ENTRY && n in pendingCh && n in pendingParam {
        return Some(Setting(n, pendingCh[n], pendingParam[n], m[2]));
      }
      return None;
    }
  }

  function TrackAll(t: Selected, ms: seq<seq<byte>>): (Selected, seq<Setting>)
    decreases |ms|
  {
    if ms == [] then (t, [])
    else
      var (t', s) := Track(t, ms[0]);
      var (t'', ss) := TrackAll(t', ms[1..]);
      (t'', Given(s) + ss)
  }

  function Given(s: Option<Setting>): seq<Setting> {
    match s case None => [] case Some(v) => [v]
  }

  lemma TrackNext(t: Selected, m: seq<byte>, ms: seq<seq<byte>>)
    ensures TrackAll(t, [m] + ms).1 == Given(Track(t, m).1) + TrackAll(Track(t, m).0, ms).1
  {
    assert ([m] + ms)[1..] == ms;
  }

  lemma TripleTracks(t: Selected, ch: byte, param: byte, value: byte)
    ensures TrackAll(t, [[0xB0, SELECT_CHANNEL, ch], [0xB0, SELECT_PARAMETER, param], [0xB0, DATA_ENTRY, value]]).1
            == [Setting(0, ch, param, value)]
  {
    hide TrackAll;
    var a, b, c := [0xB0, SELECT_CHANNEL, ch], [0xB0, SELECT_PARAMETER, param], [0xB0, DATA_ENTRY, value];
    assert [a, b, c] == [a] + ([b] + ([c] + []));
    TrackNext(t, a, [b] + ([c] + []));
    var t1 := Track(t, a).0;
    assert Track(t, a).1 == None && t1 == t.(ch := t.ch[0 := ch]);
    TrackNext(t1, b, [c] + []);
    var t2 := Track(t1, b).0;
    assert Track(t1, b).1 == None && t2 == t1.(param := t1.param[0 := param]);
    TrackNext(t2, c, []);
    assert Track(t2, c).1 == Some(Setting(0, ch, param, value));
    NothingTracked(Track(t2, c).0);
  }

  lemma NothingTracked(t: Selected)
    ensures TrackAll(t, []).1 == []
  {}

  // ---------------------------------------------------------------- what was selected, from the messages

  /** A control change of controller `cc` on MIDI channel `n`. */
  predicate IsControl(m: seq<byte>, n: nat, cc: byte) {
    n < 16 && |m| == 3 && m[0] == 0xB0 + n && m[1] == cc
  }

  /** The last value sent to controller `cc` on MIDI channel `n`. */
  function LastOn(ms: seq<seq<byte>>, n: nat, cc: byte): Option<byte> {
    if ms == [] then None
    else if IsControl(ms[|ms| - 1], n, cc) then Some(ms[|ms| - 1][2])
    else LastOn(ms[..|ms| - 1], n, cc)
  }

  /** A message sets something if it is a data entry on a MIDI channel on which both an input channel (controller 0x63)
      and a parameter (0x62) have been selected: the last of each, with its own value. */
  ghost predicate Sets(before: seq<seq<byte>>, m: seq<byte>, s: Setting) {
    && IsControl(m, s.n, 0x06) && s.value == m[2]
    && LastOn(before, s.n, 0x63) == Some(s.ch) && LastOn(before, s.n, 0x62) == Some(s.param)
  }

  /** The tracker, from its beginning. */
  function Heard(ms: seq<seq<byte>>): Selected {
    TrackAll(Selected(map[], map[]), ms).0
  }

  lemma {:induction false} TrackAppend(t: Selected, ms: seq<seq<byte>>, m: seq<byte>)
    ensures var (t', ss) := TrackAll(t, ms);
            TrackAll(t, ms + [m]) == (Track(t', m).0, ss + Given(Track(t', m).1))
    decreases |ms|
  {
    if ms == [] {
      assert (ms + [m])[1..] == [];
      var (t1, s) := Track(t, m);
      assert TrackAll(t1, []) == (t1, []) && Given(s) + [] == [] + Given(s);
    } else {
      assert (ms + [m])[0] == ms[0] && (ms + [m])[1..] == ms[1..] + [m];
      var (t1, s) := Track(t, ms[0]);
      TrackAppend(t1, ms[1..], m);
      var (t', rest) := TrackAll(t1, ms[1..]);
      assert Given(s) + (rest + Given(Track(t', m).1)) == (Given(s) + rest) + Given(Track(t', m).1);
    }
  }

  /** What is selected on a MIDI channel is what was last sent to its own two controllers. */
  lemma {:induction false} SelectedIs(ms: seq<seq<byte>>, n: nat)
    requires n < 16
    ensures (n in Heard(ms).ch <==> LastOn(ms, n, 0x63) != None)
            && (n in Heard(ms).ch ==> LastOn(ms, n, 0x63) == Some(Heard(ms).ch[n]))
    ensures (n in Heard(ms).param <==> LastOn(ms, n, 0x62) != None)
            && (n in Heard(ms).param ==> LastOn(ms, n, 0x62) == Some(Heard(ms).param[n]))
    decreases |ms|
  {
    if ms != [] {
      var front, m := ms[..|ms| - 1], ms[|ms| - 1];
      assert ms == front + [m];
      TrackAppend(Selected(map[], map[]), front, m);
      SelectedIs(front, n);
      hide TrackAll;
    }
  }

  /** Each message gives exactly the setting it makes with what was selected before it, if any. */
  lemma TrackedIs(before: seq<seq<byte>>, m: seq<byte>)
    ensures forall s :: Track(Heard(before), m).1 == Some(s) <==> Sets(before, m, s)
  {
    hide TrackAll, LastOn, Heard;
    forall s ensures Track(Heard(before), m).1 == Some(s) <==> Sets(before, m, s) {
      if s.n < 16 { SelectedIs(before, s.n); }
    }
  }

  /** What the adapter sends to set a parameter, on the MIDI channel for inputs. */
  function SetParam(ch: byte, param: byte, value: byte): seq<byte> {
    [0xB0, SELECT_CHANNEL, ch, 0xB0, SELECT_PARAMETER, param, 0xB0, DATA_ENTRY, value]
  }

  lemma ThreePieces(a: seq<byte>, b: seq<byte>, c: seq<byte>)
    requires Stable(AhmStep) && IsMessage(a) && IsMessage(b) && IsMessage(c)
    ensures Drain(AhmStep, (), a + b + c) == Drained((), [], [a, b, c], false)
  {
    AhmCuts(a);
    AhmCuts(b);
    AhmCuts(c);
    hide AhmStep, IsMessage, Stable;
    CutFirst(AhmStep, (), a, (), [a], b + c);
    CutFirst(AhmStep, (), b, (), [b], c);
    CutFirst(AhmStep, (), c, (), [c], []);
    NothingLeft(None);
    assert a + b + c == a + (b + c) && c + [] == c;
    assert [a] + ([b] + ([c] + [])) == [a, b, c];
  }

  /** What is sent to set a parameter reads, whatever was selected before, as just that setting. */
  lemma SetParamIsUnderstood(t: Selected, ch: byte, param: byte, value: byte)
    requires ch < 0x80 && param < 0x80 && value < 0x80
    ensures Stable(AhmStep)
    ensures var d := Drain(AhmStep, (), SetParam(ch, param, value));
            d.rest == [] && TrackAll(t, d.out).1 == [Setting(0, ch, param, value)]
  {
    var a, b, c := [0xB0, SELECT_CHANNEL, ch], [0xB0, SELECT_PARAMETER, param], [0xB0, DATA_ENTRY, value];
    assert a + b + c == SetParam(ch, param, value);
    AhmStable();
    ThreePieces(a, b, c);
    TripleTracks(t, ch, param, value);
  }
}
