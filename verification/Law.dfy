/** Linear dB grids: which point a value rounds to, and where a relative move lands.

    Decibel values are `real`s here: the 32-bit rounding of the original is not modelled, every
    place where it clamps, rounds or compares is. */
module Law {

  function Abs(x: real): (r: real)
    ensures r >= 0.0 && (r == x || r == -x)
  {
    if x < 0.0 then -x else x
  }

  function Clamp(x: real, lo: real, hi: real): real {
    if x < lo then lo else if x > hi then hi else x
  }

  /** Rounds to the nearest integer, halves away from zero. */
  function Round(x: real): int {
    if x >= 0.0 then (x + 0.5).Floor else -((0.5 - x).Floor)
  }

  /** How far apart grid points are: the length of `count` steps. */
  function Span(count: int, step: real): real {
    count as real * step
  }

  function Share(part: real, whole: real): real {
    part * whole
  }

  datatype DbLaw = DbLaw(min: real, max: real, step: real) {

    /** A grid with room to move and a positive step. */
    predicate Valid() {
      min < max && step > 0.0
    }

    /** Which grid point a value lands on, counted from `min`. */
    function Index(db: real): int
      requires Valid()
    {
      Round((Clamp(db, min, max) - min) / step)
    }

    function At(index: int): real {
      Clamp(min + Span(index, step), min, max)
    }

    /** The grid point a value rounds to, as a value. */
    function Quantize(db: real): real
      requires Valid()
    {
      At(Index(db))
    }

    /** The landing value of a move, and how many dB of grid lie between it and the start. */
    function Nudge(current: real, delta: real): (real, real)
      requires Valid()
    {
      var from := Index(current);
      var target := Index(At(from) + delta);
      (At(target), Span(target - from, step))
    }

    /** Whether a move is big enough to leave an on-grid value at all. */
    predicate Moves(delta: real) {
      Abs(delta) >= step / 2.0
    }

    /** Where in the range, from 0 to 1, a value's grid point is. */
    function ToUnit(db: real): real
      requires Valid()
    {
      (Quantize(db) - min) / (max - min)
    }

    function FromUnit(unit: real): real
      requires Valid()
    {
      Quantize(min + Share(Clamp(unit, 0.0, 1.0), max - min))
    }

    /** The last grid point. */
    function Steps(): int
      requires Valid()
    {
      Round((max - min) / step)
    }

    /** The range is a whole number of steps, as it is for every law a desk ships with. */
    predicate Whole() {
      Valid() && min + Span(Steps(), step) == max
    }
  }

  const X32_TRIM := DbLaw(-18.0, 18.0, 0.25)
  const WING_TRIM := DbLaw(-18.0, 18.0, 0.1)

  // ---------------------------------------------------------------- arithmetic

  /** Multiplying by a positive factor keeps the order; the products are passed by name. */
  lemma Scale(a: real, b: real, s: real, as': real, bs: real)
    requires s > 0.0 && as' == a * s && bs == b * s
    ensures a <= b <==> as' <= bs
    ensures a < b <==> as' < bs
  {
    if a < b { assert (b - a) * s > 0.0; }
    if b < a { assert (a - b) * s > 0.0; }
  }

  lemma Divided(x: real, s: real)
    requires s > 0.0
    ensures x / s * s == x
  {}

  lemma ByItself(s: real)
    requires s > 0.0
    ensures s / s == 1.0
  {}

  lemma RoundIs(x: real, k: int)
    requires x >= 0.0
    ensures Round(x) == k <==> k as real - 0.5 <= x < k as real + 0.5
  {}

  lemma RoundQuotient(q: real, off: real, s: real, k: int)
    requires s > 0.0 && off >= 0.0 && q * s == off
    ensures Round(q) == k <==> -(s / 2.0) <= off - Span(k, s) < s / 2.0
  {
    Scale(0.0, q, s, 0.0, off);
    RoundIs(q, k);
    Scale(k as real - 0.5, q, s, Span(k, s) - s / 2.0, off);
    Scale(q, k as real + 0.5, s, off, Span(k, s) + s / 2.0);
  }

  lemma SpanApart(i: int, j: int, s: real)
    requires s > 0.0
    ensures Span(j, s) - Span(i, s) == Span(j - i, s)
    ensures i < j ==> Span(i, s) + s <= Span(j, s)
    ensures Span(0, s) == 0.0
  {
    if i < j {
      Scale(1.0, (j - i) as real, s, s, Span(j - i, s));
    }
  }

  /** Landing on grid point `k` means being within half a step of it, a half counting upwards. */
  lemma IndexIs(law: DbLaw, db: real, k: int)
    requires law.Valid()
    ensures law.Index(db) == k <==>
            -(law.step / 2.0) <= Clamp(db, law.min, law.max) - law.min - Span(k, law.step) < law.step / 2.0
  {
    var off := Clamp(db, law.min, law.max) - law.min;
    Divided(off, law.step);
    RoundQuotient(off / law.step, off, law.step, k);
  }

  lemma IndexInRange(law: DbLaw, db: real)
    requires law.Whole()
    ensures 0 <= law.Index(db) <= law.Steps()
  {
    var i := law.Index(db);
    IndexIs(law, db, i);
    SpanApart(i, 0, law.step);
    SpanApart(law.Steps(), i, law.step);
  }

  /** On a whole range no grid point is clamped. */
  lemma AtGrid(law: DbLaw, i: int)
    requires law.Whole() && 0 <= i <= law.Steps()
    ensures law.At(i) == law.min + Span(i, law.step)
    ensures law.min <= law.At(i) <= law.max
    ensures law.Index(law.At(i)) == i
  {
    SpanApart(0, i, law.step);
    SpanApart(i, law.Steps(), law.step);
    IndexIs(law, law.min + Span(i, law.step), i);
  }

  // ---------------------------------------------------------------- what the law promises

  /** Quantizing lands on the grid, within half a step, and no grid point is nearer. */
  lemma QuantizeNearest(law: DbLaw, db: real, other: int)
    requires law.Whole() && 0 <= other <= law.Steps()
    ensures 0 <= law.Index(db) <= law.Steps()
    ensures Abs(law.Quantize(db) - Clamp(db, law.min, law.max)) <= law.step / 2.0
    ensures Abs(law.Quantize(db) - db) <= Abs(law.At(other) - db)
    ensures law.Quantize(law.Quantize(db)) == law.Quantize(db)
  {
    var i := law.Index(db);
    IndexInRange(law, db);
    AtGrid(law, i);
    AtGrid(law, other);
    IndexIs(law, db, i);
    SpanApart(i, other, law.step);
    SpanApart(other, i, law.step);
  }

  /** A move ends on the grid and in range, reports exactly how far it went from the quantized
      current value, and falls short of the request by more than half a step only when the
      control is pinned at the end the move was heading for. */
  lemma NudgeBounds(law: DbLaw, current: real, delta: real)
    requires law.Whole()
    ensures var (target, applied) := law.Nudge(current, delta);
            && law.min <= target <= law.max
            && law.Quantize(target) == target
            && applied == target - law.Quantize(current)
            && (Abs(delta - applied) <= law.step / 2.0
                || (target == law.max && law.Quantize(current) + delta > law.max)
                || (target == law.min && law.Quantize(current) + delta < law.min))
  {
    var from := law.Index(current);
    IndexInRange(law, current);
    AtGrid(law, from);
    var wanted := law.At(from) + delta;
    var target := law.Index(wanted);
    IndexInRange(law, wanted);
    AtGrid(law, target);
    SpanApart(from, target, law.step);
    QuantizeNearest(law, wanted, target);
    if wanted > law.max {
      IndexIs(law, wanted, law.Steps());
      AtGrid(law, law.Steps());
    }
    if wanted < law.min {
      SpanApart(0, 0, law.step);
      IndexIs(law, wanted, 0);
    }
  }

  /** The shortcut never skips a move: one under half a step goes nowhere from any grid value. */
  lemma ShortcutAgrees(law: DbLaw, current: real, delta: real)
    requires law.Whole() && !law.Moves(delta)
    ensures law.Nudge(current, delta).1 == 0.0
  {
    var from := law.Index(current);
    IndexInRange(law, current);
    AtGrid(law, from);
    IndexIs(law, law.At(from) + delta, from);
    SpanApart(from, from, law.step);
  }

  /** Half a step rounds up, and anything less down. */
  lemma HalvesGoUp(law: DbLaw, i: int, part: real)
    requires law.Whole() && 0 <= i < law.Steps() && 0.0 <= part < law.step
    ensures law.Index(law.min + i as real * law.step + part) == if part >= law.step / 2.0 then i + 1 else i
  {
    SpanApart(0, i, law.step);
    SpanApart(i, i + 1, law.step);
    SpanApart(i, law.Steps(), law.step);
    IndexIs(law, law.min + Span(i, law.step) + part, if part >= law.step / 2.0 then i + 1 else i);
  }

  /** A move of more than half a step leaves an on-grid value, unless the control is at that end already. */
  lemma MovesGoSomewhere(law: DbLaw, i: int, delta: real)
    requires law.Whole() && 0 <= i <= law.Steps()
    requires (delta > law.step / 2.0 && i < law.Steps()) || (delta < -(law.step / 2.0) && i > 0)
    ensures law.Moves(delta) && law.Nudge(law.At(i), delta).1 != 0.0
  {
    AtGrid(law, i);
    var target := law.Index(law.At(i) + delta);
    SpanApart(i, law.Steps(), law.step);
    SpanApart(0, i, law.step);
    IndexIs(law, law.At(i) + delta, i);
    SpanNotZero(target - i, law.step);
  }

  lemma SpanNotZero(count: int, s: real)
    requires s > 0.0
    ensures Span(count, s) == 0.0 <==> count == 0
  {
    SpanApart(0, count, s);
    SpanApart(count, 0, s);
  }

  /** Unit values run from 0 for the least value to 1 for the greatest, in equal parts. */
  lemma UnitScale(law: DbLaw, i: int)
    requires law.Whole() && 0 <= i <= law.Steps()
    ensures law.ToUnit(law.At(i)) * (law.max - law.min) == i as real * law.step
    ensures law.ToUnit(law.min) == 0.0 && law.ToUnit(law.max) == 1.0
    ensures law.FromUnit(0.0) == law.min && law.FromUnit(1.0) == law.max
  {
    AtGrid(law, i);
    Divided(Span(i, law.step), law.max - law.min);
    SpanApart(0, 0, law.step);
    SpanApart(0, law.Steps(), law.step);
    AtGrid(law, 0);
    AtGrid(law, law.Steps());
    ByItself(law.max - law.min);
    assert law.Quantize(law.max) == law.max;
  }

  /** A unit value received with an error under half a step still reads back as the value sent. */
  lemma UnitRoundTrip(law: DbLaw, db: real, unit: real)
    requires law.Whole()
    requires Abs(unit - law.ToUnit(db)) < law.step / 2.0 / (law.max - law.min)
    ensures law.FromUnit(unit) == law.Quantize(db)
  {
    IndexInRange(law, db);
    AtGrid(law, law.Index(db));
    Divided(Span(law.Index(db), law.step), law.max - law.min);
    Divided(law.step / 2.0, law.max - law.min);
    UnitLands(law, law.Index(db), unit, law.ToUnit(db), law.step / 2.0 / (law.max - law.min));
  }

  lemma UnitLands(law: DbLaw, i: int, unit: real, sent: real, bound: real)
    requires law.Whole() && 0 <= i <= law.Steps()
    requires sent * (law.max - law.min) == Span(i, law.step)
    requires bound * (law.max - law.min) == law.step / 2.0
    requires Abs(unit - sent) < bound
    ensures law.FromUnit(unit) == law.At(i)
  {
    hide Share, Round;
    var read := Share(Clamp(unit, 0.0, 1.0), law.max - law.min);
    SpanApart(0, i, law.step);
    SpanApart(i, law.Steps(), law.step);
    UnitReads(law.max - law.min, law.step / 2.0, bound, unit, sent, Span(i, law.step), read);
    IndexIs(law, law.min + read, i);
  }

  /** A unit value off by less than half a step is off by less than half a step in dB too. */
  lemma UnitReads(range: real, half: real, bound: real, unit: real, sent: real, off: real, read: real)
    requires range > 0.0 && half > 0.0 && 0.0 <= off <= range
    requires sent * range == off && bound * range == half && read == Share(Clamp(unit, 0.0, 1.0), range)
    requires Abs(unit - sent) < bound
    ensures 0.0 <= read <= range
    ensures -half < read - off < half
  {
    var u := Clamp(unit, 0.0, 1.0);
    Scale(0.0, sent, range, 0.0, off);
    Scale(sent, 1.0, range, off, range);
    Scale(u - sent, bound, range, read - off, half);
    Scale(-bound, u - sent, range, -half, read - off);
    Scale(0.0, u, range, 0.0, read);
    Scale(u, 1.0, range, read, range);
  }

  lemma ShippedLawsAreWhole()
    ensures X32_TRIM.Whole() && X32_TRIM.Steps() == 144
    ensures WING_TRIM.Whole() && WING_TRIM.Steps() == 360
  {
    RoundIs((X32_TRIM.max - X32_TRIM.min) / X32_TRIM.step, 144);
    RoundIs((WING_TRIM.max - WING_TRIM.min) / WING_TRIM.step, 360);
  }
}
