/** The X32's trims: relative moves of a console that can only be told where to go. */
module X32 {
  import opened Wrappers
  import opened Law

  const TRIM_INPUTS: nat := 32

  /** How far a unit value may be off on the wire and still be read as the value meant. */
  const WIRE_TOLERANCE := X32_TRIM.step / 2.0 / (X32_TRIM.max - X32_TRIM.min)

  /** The console: the grid point each of its input trims stands at. */
  class Console {
    var trims: map<nat, int>

    predicate Valid()
      reads this
    {
      forall i :: 1 <= i <= TRIM_INPUTS ==> i in trims && 0 <= trims[i] <= X32_TRIM.Steps()
    }

    constructor (trims: map<nat, int>)
      requires forall i :: 1 <= i <= TRIM_INPUTS ==> i in trims && 0 <= trims[i] <= X32_TRIM.Steps()
      ensures Valid() && this.trims == trims
    {
      this.trims := trims;
    }

    /** A unit value arrives for one trim; the console snaps it to its grid. */
    method Receive(input: nat, unit: real)
      requires Valid() && 1 <= input <= TRIM_INPUTS
      modifies this
      ensures Valid()
      ensures trims == old(trims)[input := X32_TRIM.Index(X32_TRIM.FromUnit(unit))]
    {
      ShippedLawsAreWhole();
      IndexInRange(X32_TRIM, X32_TRIM.FromUnit(unit));
      trims := trims[input := X32_TRIM.Index(X32_TRIM.FromUnit(unit))];
    }
  }

  datatype AdapterError = UnsupportedChannel | NoReply | SendFailed

  /** A reply the console could send for a trim at grid point `index`. */
  ghost predicate Truthful(reply: Option<real>, index: int) {
    reply.Some? ==> Abs(reply.value - X32_TRIM.ToUnit(X32_TRIM.At(index))) < WIRE_TOLERANCE
  }

  lemma TruthfulRead(index: int, unit: real)
    requires 0 <= index <= X32_TRIM.Steps() && Truthful(Some(unit), index)
    ensures X32_TRIM.FromUnit(unit) == X32_TRIM.At(index)
  {
    ShippedLawsAreWhole();
    AtGrid(X32_TRIM, index);
    UnitRoundTrip(X32_TRIM, X32_TRIM.At(index), unit);
  }

  /** A value written on the grid is the value the console ends up at. */
  lemma WrittenIsHeld(index: int)
    requires 0 <= index <= X32_TRIM.Steps()
    ensures X32_TRIM.Index(X32_TRIM.FromUnit(X32_TRIM.ToUnit(X32_TRIM.At(index)))) == index
    ensures X32_TRIM.Quantize(X32_TRIM.At(index)) == X32_TRIM.At(index)
  {
    ShippedLawsAreWhole();
    AtGrid(X32_TRIM, index);
    UnitRoundTrip(X32_TRIM, X32_TRIM.At(index), X32_TRIM.ToUnit(X32_TRIM.At(index)));
  }

  /** What the console's trims become when `db` is written to one of them. */
  function Written(trims: map<nat, int>, input: nat, db: real): map<nat, int> {
    trims[input := X32_TRIM.Index(X32_TRIM.FromUnit(X32_TRIM.ToUnit(db)))]
  }

  /** It stands then at the grid point the value rounds to. */
  lemma WrittenIsNearest(trims: map<nat, int>, input: nat, db: real)
    ensures Written(trims, input, db) == trims[input := X32_TRIM.Index(db)]
  {
    ShippedLawsAreWhole();
    IndexInRange(X32_TRIM, db);
    AtGrid(X32_TRIM, X32_TRIM.Index(db));
    WrittenIsHeld(X32_TRIM.Index(db));
    hide DbLaw.Index, DbLaw.At, DbLaw.FromUnit, Span, DbLaw.Whole, DbLaw.Steps;
    assert X32_TRIM.ToUnit(db) == X32_TRIM.ToUnit(X32_TRIM.At(X32_TRIM.Index(db)));
  }

  /** Where a move from grid point `index` is meant to end. */
  function Lands(law: DbLaw, index: int, delta: real): int
    requires law.Valid()
  {
    law.Index(law.At(index) + delta)
  }

  /** The arithmetic of one move on the grid. */
  lemma MoveLands(law: DbLaw, index: int, delta: real)
    requires law.Whole() && 0 <= index <= law.Steps()
    ensures law.Nudge(law.At(index), delta)
            == (law.At(Lands(law, index, delta)), Span(Lands(law, index, delta) - index, law.step))
    ensures 0 <= Lands(law, index, delta) <= law.Steps()
    ensures !law.Moves(delta) ==> Lands(law, index, delta) == index
  {
    AtGrid(law, index);
    IndexInRange(law, law.At(index) + delta);
    if !law.Moves(delta) {
      IndexIs(law, law.At(index) + delta, index);
    }
  }

  /** Only a move that goes nowhere changes nothing. */
  lemma MoveIsNothing(law: DbLaw, from: int, to: int)
    requires law.Valid()
    ensures Span(to - from, law.step) == 0.0 <==> from == to
  {
    SpanApart(from, to, law.step);
    SpanApart(to, from, law.step);
  }

  class Adapter {
    const console: Console
    var trims: map<nat, real>

    constructor (console: Console)
      ensures this.console == console && trims == map[]
    {
      this.console := console;
      trims := map[];
    }

    /** A trim update from the console. */
    method HandleTrim(input: nat, unit: real)
      modifies this`trims
      ensures trims == old(trims)[input := X32_TRIM.FromUnit(unit)]
    {
      trims := trims[input := X32_TRIM.FromUnit(unit)];
    }

    /** Always asks the console, forgetting what was cached; `reply` is what comes back in time. */
    method GetTrim(input: nat, reply: Option<real>) returns (r: Result<real, AdapterError>)
      requires console.Valid()
      requires 1 <= input <= TRIM_INPUTS ==> Truthful(reply, console.trims[input])
      modifies this`trims
      ensures r.Ok? <==> 1 <= input <= TRIM_INPUTS && reply.Some?
      ensures r.Ok? ==> r.value == X32_TRIM.At(console.trims[input]) && trims == old(trims)[input := r.value]
      ensures r.Err? ==> trims == if 1 <= input <= TRIM_INPUTS then old(trims) - {input} else old(trims)
    {
      if !(1 <= input <= TRIM_INPUTS) {
        return Err(UnsupportedChannel);
      }
      trims := trims - {input};
      if reply.None? {
        return Err(NoReply);
      }
      HandleTrim(input, reply.value);
      TruthfulRead(console.trims[input], reply.value);
      r := Ok(trims[input]);
    }

    /** Writes a trim; `sent` is whether the write could be sent. */
    method SetTrim(input: nat, db: real, sent: bool) returns (r: Result<(), AdapterError>)
      requires console.Valid()
      modifies this`trims, console
      ensures console.Valid()
      ensures r.Ok? <==> 1 <= input <= TRIM_INPUTS && sent
      ensures r.Ok? ==> trims == old(trims)[input := X32_TRIM.Quantize(db)]
      ensures r.Ok? ==> console.trims == Written(old(console.trims), input, db)
      ensures r.Ok? ==> console.trims == old(console.trims)[input := X32_TRIM.Index(db)]
      ensures r.Err? ==> trims == old(trims) && console.trims == old(console.trims)
    {
      if !(1 <= input <= TRIM_INPUTS) {
        return Err(UnsupportedChannel);
      }
      if !sent {
        return Err(SendFailed);
      }
      WrittenIsNearest(console.trims, input, db);
      console.Receive(input, X32_TRIM.ToUnit(db));
      trims := trims[input := X32_TRIM.Quantize(db)];
      r := Ok(());
    }

    /** A relative move. If it succeeds the console's trim is where the law's nudge from its true
        position lands, and the change reported is the change made; if it fails nothing moved. */
    method NudgeTrim(input: nat, delta: real, reply: Option<real>, sent: bool)
      returns (r: Result<real, AdapterError>)
      requires console.Valid()
      requires 1 <= input <= TRIM_INPUTS ==> Truthful(reply, console.trims[input])
      modifies this`trims, console
      ensures console.Valid()
      ensures r.Ok? ==>
                && 1 <= input <= TRIM_INPUTS
                && console.trims == old(console.trims)[input := Lands(X32_TRIM, old(console.trims)[input], delta)]
                && r.value == Span(console.trims[input] - old(console.trims)[input], X32_TRIM.step)
      ensures r.Err? ==> console.trims == old(console.trims)
      ensures 1 <= input <= TRIM_INPUTS && (!X32_TRIM.Moves(delta) || (reply.Some? && sent)) ==> r.Ok?
    {
      hide DbLaw.Index, DbLaw.Quantize, DbLaw.At, DbLaw.Nudge, DbLaw.ToUnit, DbLaw.FromUnit, DbLaw.Moves, Span, Lands;
      if !(1 <= input <= TRIM_INPUTS) {
        return Err(UnsupportedChannel);
      }
      ghost var was := console.trims[input];
      ghost var to := Lands(X32_TRIM, was, delta);
      ShippedLawsAreWhole();
      MoveLands(X32_TRIM, was, delta);
      MoveIsNothing(X32_TRIM, was, to);
      if !X32_TRIM.Moves(delta) {
        assert console.trims[input := was] == console.trims;
        return Ok(0.0);
      }
      var current := GetTrim(input, reply);
      if current.Err? {
        return current;
      }
      var (target, applied) := X32_TRIM.Nudge(current.value, delta);
      WrittenIsHeld(to);
      if applied != 0.0 {
        var done := SetTrim(input, target, sent);
        if done.Err? {
          return Err(done.error);
        }
      } else {
        assert console.trims[input := was] == console.trims;
      }
      r := Ok(applied);
    }
  }
}
