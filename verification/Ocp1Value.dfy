/** Reading and writing OCP.1 parameter values, each as a function and as the cursor that computes it. */
module Ocp1Value {
  import opened Bytes
  import opened Wrappers

  datatype Error =
    | Truncated
    | BadSync(sync: byte)
    | BadVersion(version: u16)
    | BadLength(length: nat)
    | UnknownPduType(kind: byte)

  /** What reading a value off the front of some bytes gives, with the bytes after it. */
  datatype Parsed<+T> = Got(value: T, rest: seq<byte>) | Bad(error: Error) {
    predicate IsFailure() { Bad? }

    function PropagateFailure<U>(): Parsed<U>
      requires Bad?
    {
      Bad(error)
    }

    function Extract(): (T, seq<byte>)
      requires Got?
    {
      (value, rest)
    }
  }

  function GetRaw(n: nat, b: seq<byte>): Parsed<seq<byte>> {
    if n <= |b| then Got(b[..n], b[n..]) else Bad(Truncated)
  }

  function GetU8(b: seq<byte>): Parsed<byte> {
    if |b| >= 1 then Got(b[0], b[1..]) else Bad(Truncated)
  }

  function GetU16(b: seq<byte>): Parsed<u16> {
    if |b| >= 2 then Got(U16Of(b[..2]), b[2..]) else Bad(Truncated)
  }

  function GetU32(b: seq<byte>): Parsed<u32> {
    if |b| >= 4 then Got(U32Of(b[..4]), b[4..]) else Bad(Truncated)
  }

  /** A blob or string: its length as a `u16`, and that many octets. */
  function GetBytes(b: seq<byte>): Parsed<seq<byte>> {
    var (n, b) :- GetU16(b);
    GetRaw(n, b)
  }

  /** The length is cast to the width of its field, whatever it is. */
  function PutBytes(v: seq<byte>): seq<byte> {
    PutU16(|v| % 0x1_0000) + v
  }

  type Item<!T> = seq<byte> -> Parsed<T>

  function Items<T>(item: Item<T>, count: nat, b: seq<byte>): Parsed<seq<T>>
    decreases count
  {
    if count == 0 then Got([], b)
    else
      var (first, b) :- item(b);
      var (others, b) :- Items(item, count - 1, b);
      Got([first] + others, b)
  }

  lemma OneItem<T>(item: Item<T>, b: seq<byte>)
    ensures Items(item, 1, b) == match item(b) case Got(v, b') => Got([v], b') case Bad(e) => Bad(e)
  {
    if item(b).Got? {
      assert Items(item, 0, item(b).rest) == Got([], item(b).rest);
      assert [item(b).value] + [] == [item(b).value];
    }
  }

  /** A list: its count as a `u16`, and that many elements. */
  function GetList<T>(item: Item<T>, b: seq<byte>): Parsed<seq<T>> {
    var (count, b) :- GetU16(b);
    Items(item, count, b)
  }

  function PutAll<T>(put: T -> seq<byte>, ts: seq<T>): seq<byte> {
    if ts == [] then [] else put(ts[0]) + PutAll(put, ts[1..])
  }

  // ---------------------------------------------------------------- round trips

  lemma Assoc(a: seq<byte>, b: seq<byte>, c: seq<byte>)
    ensures (a + b) + c == a + (b + c)
  {}

  lemma GetPutU16(v: u16, rest: seq<byte>)
    ensures GetU16(PutU16(v) + rest) == Got(v, rest)
  {
    assert (PutU16(v) + rest)[..2] == PutU16(v) && (PutU16(v) + rest)[2..] == rest;
    U16Inverse(v, PutU16(v));
  }

  lemma GetPutU32(v: u32, rest: seq<byte>)
    ensures GetU32(PutU32(v) + rest) == Got(v, rest)
  {
    assert (PutU32(v) + rest)[..4] == PutU32(v) && (PutU32(v) + rest)[4..] == rest;
    U32Inverse(v, PutU32(v));
  }

  lemma PutGetU16(b: seq<byte>)
    requires GetU16(b).Got?
    ensures b == PutU16(GetU16(b).value) + GetU16(b).rest
  {
    U16Inverse(0, b[..2]);
    assert b == b[..2] + b[2..];
  }

  lemma PutGetU32(b: seq<byte>)
    requires GetU32(b).Got?
    ensures b == PutU32(GetU32(b).value) + GetU32(b).rest
  {
    U32Inverse(0, b[..4]);
    assert b == b[..4] + b[4..];
  }

  /** A blob comes back exactly if its length fits the field the length is cast to. */
  lemma BytesRoundTripIff(v: seq<byte>, rest: seq<byte>)
    ensures GetBytes(PutBytes(v) + rest) == Got(v, rest) <==> |v| < 0x1_0000
  {
    assert PutBytes(v) + rest == PutU16(|v| % 0x1_0000) + (v + rest);
    GetPutU16(|v| % 0x1_0000, v + rest);
    if |v| < 0x1_0000 {
      assert (v + rest)[..|v|] == v && (v + rest)[|v|..] == rest;
    } else {
      assert |v| % 0x1_0000 < |v|;
      assert |(v + rest)[..|v| % 0x1_0000]| < |v|;
    }
  }

  ghost predicate ReadsBack<T>(item: Item<T>, put: T -> seq<byte>, t: T, rest: seq<byte>) {
    item(put(t) + rest) == Got(t, rest)
  }

  /** `item` reads back what `put` writes, whatever follows. */
  ghost predicate Inverse<T>(item: Item<T>, put: T -> seq<byte>, t: T) {
    forall rest :: ReadsBack(item, put, t, rest)
  }

  lemma {:induction false} ItemsRoundTrip<T>(item: Item<T>, put: T -> seq<byte>, ts: seq<T>, rest: seq<byte>)
    requires forall t :: t in ts ==> Inverse(item, put, t)
    ensures Items(item, |ts|, PutAll(put, ts) + rest) == Got(ts, rest)
  {
    if ts != [] {
      assert PutAll(put, ts) + rest == put(ts[0]) + (PutAll(put, ts[1..]) + rest);
      assert ts[0] in ts && Inverse(item, put, ts[0]);
      assert ReadsBack(item, put, ts[0], PutAll(put, ts[1..]) + rest);
      ItemsRoundTrip(item, put, ts[1..], rest);
      assert [ts[0]] + ts[1..] == ts;
    }
  }

  ghost predicate WritesBack<T>(item: Item<T>, put: T -> seq<byte>, b: seq<byte>) {
    item(b).Got? ==> b == put(item(b).value) + item(b).rest
  }

  /** What `item` reads is just what `put` would have written. */
  ghost predicate Canonical<T>(item: Item<T>, put: T -> seq<byte>) {
    forall b :: WritesBack(item, put, b)
  }

  lemma {:induction false} ItemsCanonical<T>(item: Item<T>, put: T -> seq<byte>, count: nat, b: seq<byte>)
    requires Canonical(item, put) && Items(item, count, b).Got?
    ensures var r := Items(item, count, b); |r.value| == count && b == PutAll(put, r.value) + r.rest
    decreases count
  {
    if count > 0 {
      var first := item(b);
      assert WritesBack(item, put, b);
      ItemsCanonical(item, put, count - 1, first.rest);
      var others := Items(item, count - 1, first.rest);
      assert ([first.value] + others.value)[1..] == others.value;
    }
  }

  lemma ListRoundTrip<T>(item: Item<T>, put: T -> seq<byte>, ts: seq<T>, rest: seq<byte>)
    requires |ts| < 0x1_0000 && forall t :: t in ts ==> Inverse(item, put, t)
    ensures GetList(item, PutU16(|ts|) + PutAll(put, ts) + rest) == Got(ts, rest)
  {
    assert PutU16(|ts|) + PutAll(put, ts) + rest == PutU16(|ts|) + (PutAll(put, ts) + rest);
    GetPutU16(|ts|, PutAll(put, ts) + rest);
    ItemsRoundTrip(item, put, ts, rest);
  }

  lemma ListCanonical<T>(item: Item<T>, put: T -> seq<byte>, b: seq<byte>)
    requires Canonical(item, put) && GetList(item, b).Got?
    ensures var r := GetList(item, b); |r.value| < 0x1_0000 && b == PutU16(|r.value|) + PutAll(put, r.value) + r.rest
  {
    hide PutU16, U16Of;
    PutGetU16(b);
    var count := GetU16(b);
    ItemsCanonical(item, put, count.value, count.rest);
    var r := GetList(item, b);
    assert PutU16(|r.value|) + PutAll(put, r.value) + r.rest == PutU16(|r.value|) + (PutAll(put, r.value) + r.rest);
  }

  // ---------------------------------------------------------------- the cursor and the accumulator

  /** How a read that changes a cursor follows the function it computes. */
  predicate Follows<T(==)>(r: Result<T, Error>, rest: seq<byte>, p: Parsed<T>) {
    match p
    case Got(v, b) => r == Ok(v) && rest == b
    case Bad(e) => r == Err(e)
  }

  /** Reads values off `buf` from `pos` on; a short read leaves `pos` where it was. */
  class Reader {
    var buf: seq<byte>
    var pos: nat

    ghost predicate Valid()
      reads this
    {
      pos <= |buf|
    }

    function Remaining(): seq<byte>
      requires Valid()
      reads this
    {
      buf[pos..]
    }

    constructor (b: seq<byte>)
      ensures Valid() && Remaining() == b
    {
      buf, pos := b, 0;
    }

    method IsEmpty() returns (empty: bool)
      requires Valid()
      ensures empty <==> Remaining() == []
    {
      empty := pos >= |buf|;
    }

    /** Goes on with what follows the next `n` octets. */
    method Restart(n: nat)
      requires Valid() && n <= |Remaining()|
      modifies this
      ensures Valid() && Remaining() == old(Remaining())[n..]
    {
      buf, pos := Remaining()[n..], 0;
    }

    /** A short read leaves the cursor where it was. */
    method Raw(n: nat) returns (r: Result<seq<byte>, Error>)
      requires Valid()
      modifies `pos
      ensures Valid() && Follows(r, Remaining(), GetRaw(n, old(Remaining())))
      ensures r.Err? ==> pos == old(pos)
    {
      if pos + n > |buf| {
        return Err(Truncated);
      }
      r := Ok(buf[pos..pos + n]);
      pos := pos + n;
      assert buf[pos..] == old(Remaining())[n..] && r.value == old(Remaining())[..n];
    }

    method U8() returns (r: Result<byte, Error>)
      requires Valid()
      modifies `pos
      ensures Valid() && Follows(r, Remaining(), GetU8(old(Remaining())))
    {
      var raw := Raw(1);
      r := if raw.Ok? then Ok(raw.value[0]) else Err(raw.error);
    }

    method U16() returns (r: Result<u16, Error>)
      requires Valid()
      modifies `pos
      ensures Valid() && Follows(r, Remaining(), GetU16(old(Remaining())))
    {
      var raw := Raw(2);
      r := if raw.Ok? then Ok(U16Of(raw.value)) else Err(raw.error);
    }

    method U32() returns (r: Result<u32, Error>)
      requires Valid()
      modifies `pos
      ensures Valid() && Follows(r, Remaining(), GetU32(old(Remaining())))
    {
      var raw := Raw(4);
      r := if raw.Ok? then Ok(U32Of(raw.value)) else Err(raw.error);
    }

    method Bytes() returns (r: Result<seq<byte>, Error>)
      requires Valid()
      modifies `pos
      ensures Valid() && Follows(r, Remaining(), GetBytes(old(Remaining())))
    {
      var n := U16();
      if n.Err? {
        return Err(n.error);
      }
      r := Raw(n.value);
    }

    method ListOfU16() returns (r: Result<seq<u16>, Error>)
      requires Valid()
      modifies `pos
      ensures Valid() && Follows(r, Remaining(), GetList(GetU16, old(Remaining())))
    {
      var count := U16();
      if count.Err? {
        return Err(count.error);
      }
      ghost var start := Remaining();
      var out: seq<u16> := [];
      var k := 0;
      AfterNothing(Items(GetU16, count.value, start));
      while k < count.value
        invariant 0 <= k <= count.value && Valid()
        invariant Items(GetU16, count.value, start) == After(out, Items(GetU16, count.value - k, Remaining()))
      {
        ghost var here := Remaining();
        var v := U16();
        AfterItem(out, GetU16, count.value - k, here, v, Remaining());
        if v.Err? {
          return Err(v.error);
        }
        out := out + [v.value];
        k := k + 1;
      }
      assert out + [] == out;
      r := Ok(out);
    }
  }

  /** What is read in all once `out` has been read and the rest is `p`. */
  function After<T>(out: seq<T>, p: Parsed<seq<T>>): Parsed<seq<T>> {
    match p
    case Got(v, b) => Got(out + v, b)
    case Bad(e) => Bad(e)
  }

  lemma AfterNothing<T>(p: Parsed<seq<T>>)
    ensures After([], p) == p
  {
    if p.Got? { assert [] + p.value == p.value; }
  }

  /** One element more is read, and the cursor moves over it - or nothing more can be. */
  lemma AfterItem<T>(out: seq<T>, item: Item<T>, count: nat, b: seq<byte>, r: Result<T, Error>, rest: seq<byte>)
    requires count > 0 && Follows(r, rest, item(b))
    ensures r.Ok? ==> After(out, Items(item, count, b)) == After(out + [r.value], Items(item, count - 1, rest))
    ensures r.Err? ==> After(out, Items(item, count, b)) == Bad(r.error)
  {
    if r.Ok? {
      var others := Items(item, count - 1, rest);
      if others.Got? { assert out + ([r.value] + others.value) == (out + [r.value]) + others.value; }
    }
  }

  /** Appends values to `buf`. */
  class Writer {
    var buf: seq<byte>

    constructor ()
      ensures buf == []
    {
      buf := [];
    }

    method U8(v: byte)
      modifies this
      ensures buf == old(buf) + [v]
    {
      buf := buf + [v];
    }

    method U16(v: u16)
      modifies this
      ensures buf == old(buf) + PutU16(v)
    {
      buf := buf + PutU16(v);
    }

    method U32(v: u32)
      modifies this
      ensures buf == old(buf) + PutU32(v)
    {
      buf := buf + PutU32(v);
    }

    method Raw(v: seq<byte>)
      modifies this
      ensures buf == old(buf) + v
    {
      buf := buf + v;
    }

    method Bytes(v: seq<byte>)
      modifies this
      ensures buf == old(buf) + PutBytes(v)
    {
      U16(|v| % 0x1_0000);
      Raw(v);
    }
  }
}
