/** Property reports carried by DMP inside SDT inside the ACN root layer. */
module AcnDmp {
  import opened Bytes
  import opened Wrappers

  /** A property value; text is its octets, undecoded. */
  datatype Value =
    | Int8(i: int)
    | UInt8(b: byte)
    | Int16(i: int)
    | UInt32(u: u32)
    | Int32(i: int)
    | Text(text: seq<byte>)

  datatype PropertyKind = KInt8 | KUInt8 | KInt16 | KUInt32 | KInt32 | KText

  const PROP_MODEL_NAME: u32 := 0x0100_0000
  const PROP_DEVICE_NAME: u32 := 0x0100_0012
  const PROP_CHANNEL_NAME: u32 := 0x0200_0001
  const PROP_RF_BARS: u32 := 0x0200_0101
  const PROP_AF_OUTPUT_LEVEL: u32 := 0x0200_0102
  const PROP_UNKNOWN_0104: u32 := 0x0200_0104
  const PROP_RF_LEVEL_DBM: u32 := 0x0200_0114
  const PROP_FREQUENCY_KHZ: u32 := 0x0200_0804
  const PROP_UNRESOLVED_LEVEL: u32 := 0x0200_0812
  const PROP_UNRESOLVED_INDICATOR: u32 := 0x0200_0815
  const PROP_BATTERY_BARS: u32 := 0x0200_1100
  const PROP_BATTERY_RUN_TIME: u32 := 0x0200_110a
  const PROP_BATTERY_CHARGE: u32 := 0x0200_1126

  /** How wide a property is: values do not say so themselves. */
  function KindOf(address: u32): Option<PropertyKind> {
    if address in {PROP_MODEL_NAME, PROP_DEVICE_NAME, PROP_CHANNEL_NAME} then Some(KText)
    else if address in {PROP_AF_OUTPUT_LEVEL, PROP_BATTERY_BARS, PROP_BATTERY_CHARGE} then Some(KInt8)
    else if address in {PROP_RF_BARS, PROP_UNRESOLVED_INDICATOR, PROP_UNKNOWN_0104} then Some(KUInt8)
    else if address in {PROP_UNRESOLVED_LEVEL, PROP_BATTERY_RUN_TIME} then Some(KInt16)
    else if address == PROP_FREQUENCY_KHZ then Some(KUInt32)
    else if address == PROP_RF_LEVEL_DBM then Some(KInt32)
    else None
  }

  datatype Report = Report(address: u32, value: Value)

  function DecodeValue(kind: PropertyKind, raw: seq<byte>): Option<Value> {
    match kind
    case KInt8 => if |raw| >= 1 then Some(Int8(Signed(raw[0], 0x100))) else None
    case KUInt8 => if |raw| >= 1 then Some(UInt8(raw[0])) else None
    case KInt16 => if |raw| >= 2 then Some(Int16(Signed(U16Of(raw[..2]), 0x1_0000))) else None
    case KUInt32 => if |raw| >= 4 then Some(UInt32(U32Of(raw[..4]))) else None
    case KInt32 => if |raw| >= 4 then Some(Int32(Signed(U32Of(raw[..4]), 0x1_0000_0000))) else None
    case KText =>
      if |raw| < 2 then None
      else
        var total := if U16Of(raw[..2]) < 2 then 2 else U16Of(raw[..2]);
        if |raw| >= total then Some(Text(raw[2..total])) else None
  }

  /** The only address form these receivers use. */
  const ADDR_HEADER_4BYTE_ABSOLUTE: byte := 0x02

  function DecodeProperty(header: seq<byte>, data: seq<byte>): Option<Report> {
    if header == [] || header[0] != ADDR_HEADER_4BYTE_ABSOLUTE || |data| < 4 then None
    else
      match KindOf(U32Of(data[..4]))
      case None => None
      case Some(kind) =>
        match DecodeValue(kind, data[4..])
        case None => None
        case Some(v) => Some(Report(U32Of(data[..4]), v))
  }

  // ---------------------------------------------------------------- one property

  predicate IsKind(kind: PropertyKind, v: Value) {
    match kind
    case KInt8 => v.Int8? && -0x80 <= v.i < 0x80
    case KUInt8 => v.UInt8?
    case KInt16 => v.Int16? && -0x8000 <= v.i < 0x8000
    case KUInt32 => v.UInt32?
    case KInt32 => v.Int32? && -0x8000_0000 <= v.i < 0x8000_0000
    case KText => v.Text? && 2 + |v.text| < 0x1_0000
  }

  /** A report the table has a width for, and whose value has that width. */
  predicate Known(r: Report) {
    KindOf(r.address).Some? && IsKind(KindOf(r.address).value, r.value)
  }

  /** The length in front of text counts its own two octets. */
  function PutValue(kind: PropertyKind, v: Value): seq<byte>
    requires IsKind(kind, v)
  {
    match v
    case Int8(i) => [Unsigned(i, 0x100)]
    case UInt8(b) => [b]
    case Int16(i) => PutU16(Unsigned(i, 0x1_0000))
    case UInt32(u) => PutU32(u)
    case Int32(i) => PutU32(Unsigned(i, 0x1_0000_0000))
    case Text(text) => PutU16(2 + |text|) + text
  }

  function PutReport(r: Report): seq<byte>
    requires Known(r)
  {
    PutU32(r.address) + PutValue(KindOf(r.address).value, r.value)
  }

  lemma SignedBack(i: int, span: int)
    requires span % 2 == 0 && -(span / 2) <= i < span / 2
    ensures 0 <= Unsigned(i, span) < span && Signed(Unsigned(i, span), span) == i
  {}

  lemma ValueBack(kind: PropertyKind, v: Value, junk: seq<byte>)
    requires IsKind(kind, v)
    ensures DecodeValue(kind, PutValue(kind, v) + junk) == Some(v)
  {
    var raw := PutValue(kind, v) + junk;
    match v {
      case Int8(i) => SignedBack(i, 0x100);
      case UInt8(b) =>
      case Int16(i) =>
        SignedBack(i, 0x1_0000);
        U16Inverse(Unsigned(i, 0x1_0000), PutValue(kind, v));
        assert raw[..2] == PutValue(kind, v);
      case UInt32(u) =>
        U32Inverse(u, PutValue(kind, v));
        assert raw[..4] == PutValue(kind, v);
      case Int32(i) =>
        SignedBack(i, 0x1_0000_0000);
        U32Inverse(Unsigned(i, 0x1_0000_0000), PutValue(kind, v));
        assert raw[..4] == PutValue(kind, v);
      case Text(text) =>
        U16Inverse(2 + |text|, PutU16(2 + |text|));
        assert raw[..2] == PutU16(2 + |text|) && raw[2..2 + |text|] == text;
    }
  }

  /** Every property of the table comes back, whatever padding follows it. */
  lemma PropertyRoundTrip(r: Report, header: seq<byte>, junk: seq<byte>)
    requires Known(r) && header != [] && header[0] == ADDR_HEADER_4BYTE_ABSOLUTE
    ensures DecodeProperty(header, PutReport(r) + junk) == Some(r)
  {
    hide KindOf, PutU32, U32Of, DecodeValue, PutValue, IsKind;
    var kind := KindOf(r.address).value;
    var data := PutReport(r) + junk;
    U32Inverse(r.address, PutU32(r.address));
    assert data[..4] == PutU32(r.address) && data[4..] == PutValue(kind, r.value) + junk;
    ValueBack(kind, r.value, junk);
  }

  /** Nothing is guessed: what is decoded has an address in the table and the width it gives. */
  lemma DecodedIsKnown(header: seq<byte>, data: seq<byte>)
    requires DecodeProperty(header, data).Some?
    ensures Known(DecodeProperty(header, data).value)
  {
    hide KindOf;
    var r := DecodeProperty(header, data).value;
    if KindOf(r.address) == Some(KText) { assert |r.value.text| <= U16Of(data[4..][..2]) - 2 || r.value.text == []; }
  }
}
