/** The Aphex 1788A's parametric SysEx string. */
module Aphex {
  import opened Bytes
  import opened Wrappers

  const SYSEX_START: byte := 0xF0
  const SYSEX_END: byte := 0xF7
  const APHEX_ID: seq<byte> := [0x00, 0x00, 0x38]
  const MAX_DATA_BYTE: byte := 0x7F
  const MAX_COMMANDS := 64
  const HEADER_LEN := 7

  datatype Control =
    | InputGain | MainMaxOut | AuxMaxOut | PhantomPower | LowCutFilter | Limiter | PolarityReverse
    | Mute | Pad | TestToneMinus20dB | TestTone0dB | TestTone | RequestParameterDump | RequestExtendedDump

  datatype Error =
    | NotADataByte(value: byte)
    | ValueOutOfRange(control: Control, value: byte)
    | NoCommands
    | TooManyCommands(count: nat)
    | Truncated
    | NotSysEx(first: byte)
    | Unterminated
    | ForeignManufacturer(id: seq<byte>)
    | RaggedBody(length: nat)
    | UnknownOpcode(opcode: byte)

  function Opcode(c: Control): byte {
    match c
    case InputGain => 0x00
    case MainMaxOut => 0x01
    case AuxMaxOut => 0x02
    case PhantomPower => 0x03
    case LowCutFilter => 0x04
    case Limiter => 0x05
    case PolarityReverse => 0x06
    case Mute => 0x07
    case Pad => 0x08
    case TestToneMinus20dB => 0x0A
    case TestTone0dB => 0x0B
    case TestTone => 0x17
    case RequestParameterDump => 0x20
    case RequestExtendedDump => 0x56
  }

  function FromOpcode(b: byte): Option<Control> {
    match b
    case 0x00 => Some(InputGain)
    case 0x01 => Some(MainMaxOut)
    case 0x02 => Some(AuxMaxOut)
    case 0x03 => Some(PhantomPower)
    case 0x04 => Some(LowCutFilter)
    case 0x05 => Some(Limiter)
    case 0x06 => Some(PolarityReverse)
    case 0x07 => Some(Mute)
    case 0x08 => Some(Pad)
    case 0x0A => Some(TestToneMinus20dB)
    case 0x0B => Some(TestTone0dB)
    case 0x17 => Some(TestTone)
    case 0x20 => Some(RequestParameterDump)
    case 0x56 => Some(RequestExtendedDump)
    case _ => None
  }

  /** The least and the greatest value byte of a control. */
  function ValueRange(c: Control): (byte, byte) {
    match c
    case InputGain => (0x1A, 0x41)
    case MainMaxOut => (0x00, 0x1B)
    case AuxMaxOut => (0x00, 0x1B)
    case TestTone => (0x00, 0x02)
    case RequestParameterDump => (0x01, 0x01)
    case RequestExtendedDump => (0x00, MAX_DATA_BYTE)
    case _ => (0x00, 0x01)
  }

  datatype Address = Address(midiChannel: byte, midiDevice: byte, netNumber: byte)

  datatype Command = Command(control: Control, micChannel: byte, value: byte)

  datatype Message = Message(address: Address, commands: seq<Command>)

  function NewAddress(midiChannel: byte, midiDevice: byte, netNumber: byte): Result<Address, Error> {
    if midiChannel > MAX_DATA_BYTE then Err(NotADataByte(midiChannel))
    else if midiDevice > MAX_DATA_BYTE then Err(NotADataByte(midiDevice))
    else if netNumber > MAX_DATA_BYTE then Err(NotADataByte(netNumber))
    else Ok(Address(midiChannel, midiDevice, netNumber))
  }

  function NewCommand(control: Control, micChannel: byte, value: byte): Result<Command, Error> {
    if micChannel > MAX_DATA_BYTE then Err(NotADataByte(micChannel))
    else if !(ValueRange(control).0 <= value <= ValueRange(control).1) then Err(ValueOutOfRange(control, value))
    else Ok(Command(control, micChannel, value))
  }

  function NewMessage(address: Address, commands: seq<Command>): Result<Message, Error> {
    if commands == [] then Err(NoCommands)
    else if |commands| > MAX_COMMANDS then Err(TooManyCommands(|commands|))
    else Ok(Message(address, commands))
  }

  /** The messages there are: every part came from its constructor. */
  ghost predicate Constructible(m: Message) {
    && NewAddress(m.address.midiChannel, m.address.midiDevice, m.address.netNumber) == Ok(m.address)
    && (forall k :: 0 <= k < |m.commands| ==> Legal(m.commands[k]))
    && NewMessage(m.address, m.commands) == Ok(m)
  }

  predicate Legal(c: Command) {
    NewCommand(c.control, c.micChannel, c.value) == Ok(c)
  }

  // ---------------------------------------------------------------- the frame

  function PutCommands(cs: seq<Command>): seq<byte> {
    if cs == [] then [] else [Opcode(cs[0].control), cs[0].micChannel, cs[0].value] + PutCommands(cs[1..])
  }

  function Head(a: Address): seq<byte> {
    [SYSEX_START] + APHEX_ID + [a.midiChannel, a.midiDevice, a.netNumber]
  }

  function Frame(m: Message): seq<byte> {
    Head(m.address) + PutCommands(m.commands) + [SYSEX_END]
  }

  method Encode(m: Message) returns (out: seq<byte>)
    ensures out == Frame(m)
  {
    out := [SYSEX_START];
    out := out + APHEX_ID;
    out := out + [m.address.midiChannel];
    out := out + [m.address.midiDevice];
    out := out + [m.address.netNumber];
    var k := 0;
    while k < |m.commands|
      invariant 0 <= k <= |m.commands|
      invariant out + PutCommands(m.commands[k..]) == Head(m.address) + PutCommands(m.commands)
    {
      var c := m.commands[k];
      assert m.commands[k..][1..] == m.commands[k + 1..];
      ghost var rest := PutCommands(m.commands[k + 1..]);
      assert out + ([Opcode(c.control), c.micChannel, c.value] + rest)
             == (out + [Opcode(c.control), c.micChannel, c.value]) + rest;
      out := out + [Opcode(c.control), c.micChannel, c.value];
      k := k + 1;
    }
    assert out + [] == out;
    out := out + [SYSEX_END];
  }

  /** The commands of a body that is a whole number of them, or the first that is not one. */
  function GetCommands(body: seq<byte>): Result<seq<Command>, Error>
    requires |body| % 3 == 0
  {
    if body == [] then Ok([])
    else
      match FromOpcode(body[0])
      case None => Err(UnknownOpcode(body[0]))
      case Some(control) =>
        match NewCommand(control, body[1], body[2])
        case Err(e) => Err(e)
        case Ok(c) =>
          match GetCommands(body[3..])
          case Err(e) => Err(e)
          case Ok(cs) => Ok([c] + cs)
  }

  function Decode(b: seq<byte>): Result<Message, Error> {
    if |b| < HEADER_LEN + 3 + 1 then Err(Truncated)
    else if b[0] != SYSEX_START then Err(NotSysEx(b[0]))
    else if b[|b| - 1] != SYSEX_END then Err(Unterminated)
    else if b[1..4] != APHEX_ID then Err(ForeignManufacturer(b[1..4]))
    else
      var body := b[HEADER_LEN..|b| - 1];
      if |body| % 3 != 0 then Err(RaggedBody(|body|))
      else
        match NewAddress(b[4], b[5], b[6])
        case Err(e) => Err(e)
        case Ok(address) =>
          match GetCommands(body)
          case Err(e) => Err(e)
          case Ok(commands) => NewMessage(address, commands)
  }

  // ---------------------------------------------------------------- canonical both ways

  lemma OpcodesInvert(c: Control, b: byte)
    ensures FromOpcode(Opcode(c)) == Some(c)
    ensures FromOpcode(b) == Some(c) ==> b == Opcode(c)
  {}

  lemma {:induction false} CommandsBack(cs: seq<Command>)
    requires forall k :: 0 <= k < |cs| ==> Legal(cs[k])
    ensures |PutCommands(cs)| == 3 * |cs|
    ensures GetCommands(PutCommands(cs)) == Ok(cs)
  {
    if cs != [] {
      CommandsBack(cs[1..]);
      assert Legal(cs[0]);
      assert PutCommands(cs)[3..] == PutCommands(cs[1..]);
      OpcodesInvert(cs[0].control, 0);
      assert [cs[0]] + cs[1..] == cs;
    }
  }

  lemma {:induction false} CommandsCanonical(body: seq<byte>)
    requires |body| % 3 == 0 && GetCommands(body).Ok?
    ensures PutCommands(GetCommands(body).value) == body
    ensures |GetCommands(body).value| * 3 == |body|
    ensures forall k :: 0 <= k < |GetCommands(body).value| ==> Legal(GetCommands(body).value[k])
    decreases |body|
  {
    if body != [] {
      CommandsCanonical(body[3..]);
      var cs := GetCommands(body).value;
      OpcodesInvert(cs[0].control, body[0]);
      assert cs[1..] == GetCommands(body[3..]).value;
      assert body == [body[0], body[1], body[2]] + body[3..];
    }
  }

  /** Every message that can be built comes back from its frame. */
  lemma DecodeUndoesEncode(m: Message)
    requires Constructible(m)
    ensures Decode(Frame(m)) == Ok(m)
  {
    CommandsBack(m.commands);
    var b := Frame(m);
    assert b[1..4] == APHEX_ID && b[HEADER_LEN..|b| - 1] == PutCommands(m.commands);
  }

  /** Every frame accepted is the frame of the message it decodes to: nothing is normalised away. */
  lemma EncodeUndoesDecode(b: seq<byte>)
    requires Decode(b).Ok?
    ensures Frame(Decode(b).value) == b && Constructible(Decode(b).value)
  {
    var body := b[HEADER_LEN..|b| - 1];
    CommandsCanonical(body);
    assert b == [b[0]] + b[1..4] + [b[4], b[5], b[6]] + body + [b[|b| - 1]];
  }

  lemma {:induction false} CommandsAreData(cs: seq<Command>, i: nat)
    requires (forall k :: 0 <= k < |cs| ==> Legal(cs[k])) && i < |PutCommands(cs)|
    ensures PutCommands(cs)[i] <= MAX_DATA_BYTE
  {
    assert Legal(cs[0]);
    if i >= 3 { CommandsAreData(cs[1..], i - 3); }
  }

  /** Between the delimiters every octet is a data byte, however many commands there are. */
  lemma NothingLooksLikeStatus(m: Message, i: nat)
    requires Constructible(m) && 0 < i < |Frame(m)| - 1
    ensures Frame(m)[i] <= MAX_DATA_BYTE
  {
    if i >= HEADER_LEN { CommandsAreData(m.commands, i - HEADER_LEN); }
  }

  // ---------------------------------------------------------------- the published page

  /** The frame's octets: 0xF0, the manufacturer's 00 00 38, the three parts of the address, three octets a command,
      and 0xF7. */
  lemma {:induction false} FrameLayout(m: Message, k: nat)
    requires k < |m.commands|
    ensures var b := Frame(m);
            && |b| == 8 + 3 * |m.commands|
            && b[0] == 0xF0 && b[1] == 0x00 && b[2] == 0x00 && b[3] == 0x38
            && b[4] == m.address.midiChannel && b[5] == m.address.midiDevice && b[6] == m.address.netNumber
            && b[7 + 3 * k] == Opcode(m.commands[k].control)
            && b[8 + 3 * k] == m.commands[k].micChannel
            && b[9 + 3 * k] == m.commands[k].value
            && b[|b| - 1] == 0xF7
  {
    CommandAt(m.commands, k);
  }

  lemma {:induction false} CommandAt(cs: seq<Command>, k: nat)
    requires k < |cs|
    ensures |PutCommands(cs)| == 3 * |cs|
    ensures PutCommands(cs)[3 * k] == Opcode(cs[k].control)
            && PutCommands(cs)[3 * k + 1] == cs[k].micChannel && PutCommands(cs)[3 * k + 2] == cs[k].value
  {
    if k > 0 {
      CommandAt(cs[1..], k - 1);
    } else if |cs| > 1 {
      CommandAt(cs[1..], 0);
    }
  }

  /** The published table: the octets there is a command for, each control's own and its range of values. */
  const TABLE: seq<(Control, byte, byte, byte)> := [
    (InputGain, 0x00, 26, 65), (MainMaxOut, 0x01, 0, 27), (AuxMaxOut, 0x02, 0, 27), (PhantomPower, 0x03, 0, 1),
    (LowCutFilter, 0x04, 0, 1), (Limiter, 0x05, 0, 1), (PolarityReverse, 0x06, 0, 1), (Mute, 0x07, 0, 1),
    (Pad, 0x08, 0, 1), (TestToneMinus20dB, 0x0A, 0, 1), (TestTone0dB, 0x0B, 0, 1), (TestTone, 0x17, 0, 2),
    (RequestParameterDump, 0x20, 1, 1), (RequestExtendedDump, 0x56, 0, 127)]

  lemma CommandsAreTheTable(i: nat, micChannel: byte, value: byte)
    requires i < |TABLE|
    ensures var (control, opcode, least, greatest) := TABLE[i];
            && Opcode(control) == opcode
            && NewCommand(control, micChannel, value)
               == (if micChannel > 127 then Err(NotADataByte(micChannel))
                   else if value < least || value > greatest then Err(ValueOutOfRange(control, value))
                   else Ok(Command(control, micChannel, value)))
  {
    assert i in {0, 1, 2, 3, 4, 5, 6, 7, 8, 9, 10, 11, 12, 13};
  }

  lemma OtherOpcodesAreUnknown(b: byte)
    ensures FromOpcode(b) == None <==> !(b <= 0x08 || b in {0x0A, 0x0B, 0x17, 0x20, 0x56})
  {}

  /** A refused frame has the defect it is refused for, and none that is looked for earlier. */
  lemma RefusalsAreTrue(b: seq<byte>)
    requires Decode(b).Err?
    ensures match Decode(b).error
            case Truncated => |b| < 11
            case NotSysEx(first) => |b| >= 11 && first == b[0] != 0xF0
            case Unterminated => |b| >= 11 && b[0] == 0xF0 && b[|b| - 1] != 0xF7
            case ForeignManufacturer(id) => |b| >= 11 && id == b[1..4] != [0x00, 0x00, 0x38]
            case RaggedBody(length) => length == |b| - 8 && length % 3 != 0
            case NotADataByte(value) => value > 127 && value in b
            case ValueOutOfRange(control, value) =>
              Opcode(control) in b && value in b && !(ValueRange(control).0 <= value <= ValueRange(control).1)
            case UnknownOpcode(opcode) => opcode in b && FromOpcode(opcode) == None
            case TooManyCommands(count) => count > 64 && |b| == 8 + 3 * count
            case NoCommands => false
  {
    if |b| >= 11 && b[0] == SYSEX_START && b[|b| - 1] == SYSEX_END && b[1..4] == APHEX_ID && (|b| - 8) % 3 == 0 {
      var body := b[HEADER_LEN..|b| - 1];
      assert forall x :: x in body ==> x in b;
      if GetCommands(body).Err? {
        BodyRefusal(body);
      } else {
        CommandsCanonical(body);
      }
    }
  }

  lemma {:induction false} BodyRefusal(body: seq<byte>)
    requires |body| % 3 == 0 && GetCommands(body).Err?
    ensures match GetCommands(body).error
            case NotADataByte(value) => value > 127 && value in body
            case ValueOutOfRange(control, value) =>
              Opcode(control) in body && value in body && !(ValueRange(control).0 <= value <= ValueRange(control).1)
            case UnknownOpcode(opcode) => opcode in body && FromOpcode(opcode) == None
            case _ => false
    decreases |body|
  {
    match FromOpcode(body[0])
    case None =>
    case Some(control) =>
      OpcodesInvert(control, body[0]);
      assert body[1] in body && body[2] in body;
      if NewCommand(control, body[1], body[2]).Ok? {
        BodyRefusal(body[3..]);
        assert forall x :: x in body[3..] ==> x in body;
      }
  }

  /** The frame on the page: a gain of 40 dB for the first microphone of device 1 on the net. */
  lemma DocumentedFrame()
    ensures Frame(Message(Address(0, 0, 1), [Command(InputGain, 1, 40)]))
            == [0xF0, 0x00, 0x00, 0x38, 0x00, 0x00, 0x01, 0x00, 0x01, 40, 0xF7]
  {
    assert PutCommands([Command(InputGain, 1, 40)]) == [0x00, 1, 40] + PutCommands([]);
  }
}
