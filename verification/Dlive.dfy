/** What dLive's messages mean: sockets, gain bytes, and the cache a read may be answered from. */
module Dlive {
  import opened Bytes
  import opened Law
  import opened Midi
  import opened Wrappers

  const GAIN_MIN_DB := 5.0
  const GAIN_MAX_DB := 60.0

  const SYSEX_HEADER: seq<byte> := [0xF0, 0x00, 0x00, 0x1A, 0x50, 0x10, 0x01, 0x00]
  const MIDI_N: byte := 0x00
  const OP_PAD_STATUS: byte := 0x08
  const OP_48V_STATUS: byte := 0x0B
  const OP_SET_48V: byte := 0x0C

  // ---------------------------------------------------------------- conversions

  /** The three socket ranges, one after another. */
  function SocketNumber(channel: nat): Option<byte> {
    if 1 <= channel <= 64 then Some(channel - 1)
    else if 65 <= channel <= 96 then Some(0x40 + (channel - 65))
    else if 97 <= channel <= 128 then Some(0x60 + (channel - 97))
    else None
  }

  function ChannelFromSocket(mp: byte): Option<nat> {
    if mp <= 0x3F then Some(mp + 1)
    else if mp <= 0x5F then Some(65 + (mp - 0x40))
    else if mp <= 0x7F then Some(97 + (mp - 0x60))
    else None
  }

  /** The two are inverse to each other, and the three ranges between them are simply all the data
      bytes in order. */
  lemma SocketsAreChannels(channel: nat, mp: byte)
    ensures SocketNumber(channel) == Some(mp) <==> ChannelFromSocket(mp) == Some(channel)
    ensures SocketNumber(channel) == Some(mp) <==> 1 <= channel <= 128 && mp == channel - 1
  {}

  function GainToByte(db: real): (b: byte)
    ensures b <= 127
  {
    var frac := (Clamp(db, GAIN_MIN_DB, GAIN_MAX_DB) - GAIN_MIN_DB) / (GAIN_MAX_DB - GAIN_MIN_DB);
    Round(frac * 127.0)
  }

  function GainFromByte(b: byte): real {
    var clipped := if b < 127 then b else 127;
    GAIN_MIN_DB + clipped as real / 127.0 * (GAIN_MAX_DB - GAIN_MIN_DB)
  }

  /** Every gain byte comes back, and a gain comes back as the nearest one the wire can say. */
  lemma GainRoundTrip(b: byte, db: real)
    ensures b <= 127 ==> GainToByte(GainFromByte(b)) == b
    ensures Abs(GainFromByte(GainToByte(db)) - Clamp(db, GAIN_MIN_DB, GAIN_MAX_DB)) <= 55.0 / 254.0
  {}

  /** The wire's scale: 0 is 5 dB, 127 is 60 dB, and the bytes between are equally far apart. */
  lemma GainScale(b: byte)
    ensures GainFromByte(b) == if b < 127 then 5.0 + b as real * 55.0 / 127.0 else 60.0
    ensures GainToByte(5.0) == 0x00 && GainToByte(10.0) == 0x0C && GainToByte(30.0) == 0x3A && GainToByte(60.0) == 0x7F
  {}

  function BoolToByte(on: bool): byte { if on then 0x7F else 0x00 }

  function ByteToBool(b: byte): bool { b >= 0x40 }

  // ---------------------------------------------------------------- messages

  datatype Update = Gain(db: real) | Phantom(on: bool) | Pad(on: bool)

  function ForSocket(mp: byte, u: Update): Option<(nat, Update)> {
    match ChannelFromSocket(mp)
    case Some(channel) => Some((channel, u))
    case None => None
  }

  function Interpret(m: seq<byte>): Option<(nat, Update)> {
    if |m| == 3 && m[0] / 16 == 0xE then ForSocket(m[1], Gain(GainFromByte(m[2])))
    else if |m| >= 12 && SYSEX_HEADER <= m && m[|m| - 1] == SYSEX_END then
      var body := m[8..|m| - 1];
      if |body| == 4 && body[1] == OP_48V_STATUS then ForSocket(body[2], Phantom(ByteToBool(body[3])))
      else if |body| == 4 && body[1] == OP_PAD_STATUS then ForSocket(body[2], Pad(ByteToBool(body[3])))
      else None
    else None
  }

  /** A gain move on a socket: the pitchbend message's two data bytes. */
  function SetGain(mp: byte, db: real): seq<byte> {
    [0xE0 + MIDI_N, mp, GainToByte(db)]
  }

  function Sysex(opcode: byte, mp: byte, value: byte): seq<byte> {
    SYSEX_HEADER + [MIDI_N, opcode, mp, value, SYSEX_END]
  }

  /** Each message's octets, and exactly the messages that say something: a pitch bend is a gain, and the two status
      opcodes of the console's SysEx are phantom power and the pad, on from 0x40 up. The second data byte of a pitch
      bend and the byte after the opcode are the socket, one less than the channel. */
  lemma MessagesAreRead(m: seq<byte>, channel: nat)
    ensures forall db :: Interpret(m) == Some((channel, Gain(db))) <==>
              |m| == 3 && 0xE0 <= m[0] <= 0xEF && m[1] < 0x80 && channel == m[1] + 1 && db == GainFromByte(m[2])
    ensures forall on :: Interpret(m) == Some((channel, Phantom(on))) <==>
              IsStatus(m, 0x0B, channel) && on == (m[11] >= 0x40)
    ensures forall on :: Interpret(m) == Some((channel, Pad(on))) <==>
              IsStatus(m, 0x08, channel) && on == (m[11] >= 0x40)
  {
    if |m| == 13 { assert m[8..12] == [m[8], m[9], m[10], m[11]]; }
  }

  predicate IsStatus(m: seq<byte>, opcode: byte, channel: nat) {
    && |m| == 13
    && m[..8] == [0xF0, 0x00, 0x00, 0x1A, 0x50, 0x10, 0x01, 0x00]
    && m[9] == opcode
    && m[10] < 0x80 && channel == m[10] + 1
    && m[12] == 0xF7
  }

  /** What is sent: the gain of a channel as a pitch bend, and its phantom power by opcode 0x0C. */
  lemma MessagesAreSent(channel: nat, db: real, on: bool)
    requires 1 <= channel <= 128
    ensures var mp := SocketNumber(channel).value;
            && SetGain(mp, db) == [0xE0, channel - 1, GainToByte(db)]
            && Sysex(OP_SET_48V, mp, BoolToByte(on))
               == [0xF0, 0x00, 0x00, 0x1A, 0x50, 0x10, 0x01, 0x00, 0x00, 0x0C, channel - 1, if on then 0x7F else 0x00, 0xF7]
    ensures SetGain(SocketNumber(30).value, 30.0) == [0xE0, 0x1D, 0x3A]
  {
    SocketsAreChannels(channel, SocketNumber(channel).value);
    GainScale(0);
  }

  /** A gain set, if the console says it back, is one whole message and reads as that channel at the
      nearest gain there is. */
  lemma SetGainIsUnderstood(channel: nat, db: real)
    requires 1 <= channel <= 128
    ensures var m := SetGain(SocketNumber(channel).value, db);
            && IsMessage(m)
            && Interpret(m) == Some((channel, Gain(GainFromByte(GainToByte(db)))))
            && Abs(Interpret(m).value.1.db - Clamp(db, GAIN_MIN_DB, GAIN_MAX_DB)) <= 55.0 / 254.0
  {
    GainRoundTrip(0, db);
    SocketsAreChannels(channel, SocketNumber(channel).value);
  }

  /** A switch's status reads as that switch; the messages that set one do not read as anything. */
  lemma SwitchIsUnderstood(channel: nat, on: bool)
    requires 1 <= channel <= 128
    ensures var mp := SocketNumber(channel).value;
            && Interpret(Sysex(OP_48V_STATUS, mp, BoolToByte(on))) == Some((channel, Phantom(on)))
            && Interpret(Sysex(OP_PAD_STATUS, mp, BoolToByte(on))) == Some((channel, Pad(on)))
            && Interpret(Sysex(OP_SET_48V, mp, BoolToByte(on))) == None
  {
    var mp := SocketNumber(channel).value;
    SocketsAreChannels(channel, mp);
    SysexBody(OP_48V_STATUS, mp, BoolToByte(on));
    SysexBody(OP_PAD_STATUS, mp, BoolToByte(on));
    SysexBody(OP_SET_48V, mp, BoolToByte(on));
  }

  lemma SysexBody(opcode: byte, mp: byte, value: byte)
    ensures var m := Sysex(opcode, mp, value);
            |m| == 13 && SYSEX_HEADER <= m && m[12] == SYSEX_END && m[8..12] == [MIDI_N, opcode, mp, value]
  {}

  // ---------------------------------------------------------------- the cache

  /** What is known of a channel. A gain that is `None` has never been read. */
  datatype PreampState = PreampState(gain: Option<real>, phantom: bool, pad: Option<bool>)

  const UNREAD := PreampState(None, false, None)

  function Applied(p: PreampState, u: Update): PreampState {
    match u
    case Gain(db) => p.(gain := Some(db))
    case Phantom(on) => p.(phantom := on)
    case Pad(on) => p.(pad := Some(on))
  }

  function Known(state: map<nat, PreampState>, channel: nat): PreampState {
    if channel in state then state[channel] else UNREAD
  }

  function Heard(state: map<nat, PreampState>, m: seq<byte>): map<nat, PreampState> {
    match Interpret(m)
    case None => state
    case Some((channel, u)) => state[channel := Applied(Known(state, channel), u)]
  }

  function HeardAll(state: map<nat, PreampState>, ms: seq<seq<byte>>): map<nat, PreampState>
    decreases |ms|
  {
    if ms == [] then state else HeardAll(Heard(state, ms[0]), ms[1..])
  }

  /** The gain the last of some messages to give one gave for a channel. */
  function LastGain(ms: seq<seq<byte>>, channel: nat): Option<real> {
    if ms == [] then None
    else
      var later := LastGain(ms[1..], channel);
      if later.Some? then later
      else
        match Interpret(ms[0])
        case Some((c, Gain(db))) => if c == channel then Some(db) else None
        case Some((_, _)) => None
        case None => None
  }

  /** A cached gain is never a placeholder: whatever else has been heard, it is the last gain reported
      for that very channel, and there is one only if there has been such a report. */
  lemma {:induction false} GainIsLastHeard(state: map<nat, PreampState>, ms: seq<seq<byte>>, channel: nat)
    ensures Known(HeardAll(state, ms), channel).gain
            == if LastGain(ms, channel).Some? then LastGain(ms, channel) else Known(state, channel).gain
    decreases |ms|
  {
    hide Interpret;
    if ms != [] {
      GainIsLastHeard(Heard(state, ms[0]), ms[1..], channel);
    }
  }

  lemma {:induction false} HeardOneMore(state: map<nat, PreampState>, ms: seq<seq<byte>>, m: seq<byte>)
    ensures HeardAll(state, ms + [m]) == Heard(HeardAll(state, ms), m)
    decreases |ms|
  {
    if ms == [] {
      assert ms + [m] == [m] && [m][1..] == [];
    } else {
      assert (ms + [m])[1..] == ms[1..] + [m];
      HeardOneMore(Heard(state, ms[0]), ms[1..], m);
    }
  }

  class Cache {
    var state: map<nat, PreampState>
    ghost var heard: seq<seq<byte>>

    /** The cache is what has been heard since it was made, and no more. */
    ghost predicate Valid()
      reads this
    {
      state == HeardAll(map[], heard)
    }

    constructor ()
      ensures Valid() && heard == []
    {
      state, heard := map[], [];
    }

    /** One message changes one field of one channel. */
    method HandleMessage(m: seq<byte>)
      requires Valid()
      modifies this
      ensures Valid() && heard == old(heard) + [m]
      ensures state == Heard(old(state), m)
    {
      HeardOneMore(map[], heard, m);
      match Interpret(m) {
        case None =>
        case Some((channel, u)) =>
          if channel !in state { state := state[channel := UNREAD]; }
          state := state[channel := Applied(state[channel], u)];
      }
      heard := heard + [m];
    }

    /** The cache answers a read exactly if a gain has been reported for the channel, and then with the
        last one reported; otherwise the device is asked. */
    method GetState(channel: nat) returns (answer: Option<PreampState>)
      requires Valid()
      ensures answer.Some? <==> LastGain(heard, channel).Some?
      ensures answer.Some? ==> answer.value.gain == LastGain(heard, channel) && answer.value == Known(state, channel)
    {
      GainIsLastHeard(map[], heard, channel);
      answer := if channel in state && state[channel].gain.Some? then Some(state[channel]) else None;
    }
  }
}
