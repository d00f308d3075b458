/** Incremental parsing: a buffer that grows by whatever the network delivers, cut from the front as
    far as it goes after each read. */
module Framing {
  import opened Bytes
  import opened Wrappers

  /** What a parser makes of the front of its buffer: wait for more bytes, give up on the stream for
      good, or cut `n` bytes off with whatever they stood for. */
  datatype Cut<S, M> = More | Stop | Take(n: nat, state: S, out: seq<M>)

  type Step<!S, M> = (S, seq<byte>) -> Cut<S, M>

  datatype Drained<S, M> = Drained(state: S, rest: seq<byte>, out: seq<M>, stopped: bool)

  ghost predicate Cuts<S, M>(step: Step<S, M>, s: S, b: seq<byte>) {
    step(s, b).Take? ==> 0 < step(s, b).n <= |b|
  }

  ghost predicate Extends<S, M>(step: Step<S, M>, s: S, b: seq<byte>, c: seq<byte>) {
    !step(s, b).More? ==> step(s, b + c) == step(s, b)
  }

  /** A step cuts something off whenever it cuts, and bytes it has not asked for change nothing. */
  ghost predicate Stable<S(!new), M>(step: Step<S, M>) {
    && (forall s, b :: Cuts(step, s, b))
    && (forall s, b, c :: Extends(step, s, b, c))
  }

  /** As `d`, `out` having come out before it. */
  function Prepend<S, M>(out: seq<M>, d: Drained<S, M>): Drained<S, M> {
    d.(out := out + d.out)
  }

  lemma PrependTwice<S, M>(a: seq<M>, b: seq<M>, d: Drained<S, M>)
    ensures Prepend(a, Prepend(b, d)) == Prepend(a + b, d) && Prepend([], d) == d
  {
    assert a + (b + d.out) == (a + b) + d.out;
    assert [] + d.out == d.out;
  }

  /** Cuts until the step wants more or gives up. */
  ghost function Drain<S(!new), M(!new)>(step: Step<S, M>, s: S, b: seq<byte>): Drained<S, M>
    requires Stable(step)
    decreases |b|
  {
    assert Cuts(step, s, b);
    match step(s, b)
    case More => Drained(s, b, [], false)
    case Stop => Drained(s, b, [], true)
    case Take(n, s', out) => Prepend(out, Drain(step, s', b[n..]))
  }

  /** One read's worth of bytes; a stream given up on is not read any more. */
  ghost function Feed<S(!new), M(!new)>(step: Step<S, M>, d: Drained<S, M>, chunk: seq<byte>): Drained<S, M>
    requires Stable(step)
  {
    if d.stopped then d else Prepend(d.out, Drain(step, d.state, d.rest + chunk))
  }

  ghost function FeedAll<S(!new), M(!new)>(step: Step<S, M>, d: Drained<S, M>, chunks: seq<seq<byte>>): Drained<S, M>
    requires Stable(step)
    decreases |chunks|
  {
    if chunks == [] then d else FeedAll(step, Feed(step, d, chunks[0]), chunks[1..])
  }

  /** Draining what has arrived, then draining again when more arrives, is draining it all at once. */
  lemma {:induction false} DrainAgain<S(!new), M(!new)>(step: Step<S, M>, s: S, b: seq<byte>, c: seq<byte>)
    requires Stable(step)
    ensures var first := Drain(step, s, b); var whole := Drain(step, s, b + c);
            if first.stopped then whole == first.(rest := first.rest + c)
            else whole == Feed(step, first, c)
    decreases |b|
  {
    assert Cuts(step, s, b) && Extends(step, s, b, c);
    match step(s, b)
    case More =>
      PrependTwice([], [], Drain(step, s, b + c));
    case Stop =>
      assert step(s, b + c) == Stop;
    case Take(n, s', out) =>
      assert (b + c)[n..] == b[n..] + c;
      DrainAgain(step, s', b[n..], c);
      var tail := Drain(step, s', b[n..]);
      if !tail.stopped {
        PrependTwice(out, tail.out, Drain(step, tail.state, tail.rest + c));
      }
  }

  predicate SameStream<S(==), M(==)>(d: Drained<S, M>, whole: Drained<S, M>) {
    && d.out == whole.out && d.stopped == whole.stopped
    && (!d.stopped ==> d.state == whole.state && d.rest == whole.rest)
  }

  lemma {:induction false} ChunksFrom<S(!new), M(!new)>(step: Step<S, M>, s: S, before: seq<byte>,
                                                        chunks: seq<seq<byte>>)
    requires Stable(step)
    ensures SameStream(FeedAll(step, Drain(step, s, before), chunks), Drain(step, s, before + Concat(chunks)))
    decreases |chunks|
  {
    var first := Drain(step, s, before);
    if chunks == [] {
      assert before + [] == before;
    } else {
      DrainAgain(step, s, before, chunks[0]);
      ChunksFrom(step, s, before + chunks[0], chunks[1..]);
      assert before + chunks[0] + Concat(chunks[1..]) == before + Concat(chunks);
      if first.stopped {
        StoppedForGood(step, first, chunks);
        StoppedForGood(step, Drain(step, s, before + chunks[0]), chunks[1..]);
      }
    }
  }

  lemma {:induction false} StoppedForGood<S(!new), M(!new)>(step: Step<S, M>, d: Drained<S, M>, chunks: seq<seq<byte>>)
    requires Stable(step) && d.stopped
    ensures FeedAll(step, d, chunks) == d
    decreases |chunks|
  {
    if chunks != [] { StoppedForGood(step, d, chunks[1..]); }
  }

  /** What comes out of a stream, whether it is given up on, and what is left over depend on its
      bytes alone, not on how reads split them. */
  lemma ChunksDontMatter<S(!new), M(!new)>(step: Step<S, M>, s: S, chunks: seq<seq<byte>>)
    requires Stable(step) && step(s, []).More?
    ensures SameStream(FeedAll(step, Drained(s, [], [], false), chunks), Drain(step, s, Concat(chunks)))
  {
    ChunksFrom(step, s, [], chunks);
    assert [] + Concat(chunks) == Concat(chunks);
  }

  /** The step cuts `piece` off whole. */
  ghost predicate CutsWhole<S, M>(step: Step<S, M>, s: S, piece: seq<byte>, s': S, out: seq<M>) {
    piece != [] && step(s, piece) == Take(|piece|, s', out)
  }

  lemma CutFirst<S(!new), M(!new)>(step: Step<S, M>, s: S, piece: seq<byte>, s': S, out: seq<M>, rest: seq<byte>)
    requires Stable(step) && CutsWhole(step, s, piece, s', out)
    ensures Drain(step, s, piece + rest) == Prepend(out, Drain(step, s', rest))
  {
    assert Extends(step, s, piece, rest);
    assert (piece + rest)[|piece|..] == rest;
  }

  /** Pieces the step cuts off whole, one after another, going through `states`. */
  ghost predicate CutsEach<S, M>(step: Step<S, M>, states: seq<S>, pieces: seq<seq<byte>>, outs: seq<seq<M>>) {
    && |states| == |pieces| + 1 && |outs| == |pieces|
    && forall k :: 0 <= k < |pieces| ==> CutsWhole(step, states[k], pieces[k], states[k + 1], outs[k])
  }

  /** A stream is parsed piece by piece: what comes out of one piece does not depend on what follows. */
  lemma {:induction false} PiecesDrain<S(!new), M(!new)>(step: Step<S, M>, states: seq<S>, pieces: seq<seq<byte>>,
                                                         outs: seq<seq<M>>, tail: seq<byte>)
    requires Stable(step) && CutsEach(step, states, pieces, outs)
    ensures Drain(step, states[0], Concat(pieces) + tail)
            == Prepend(Concat(outs), Drain(step, states[|pieces|], tail))
    decreases |pieces|
  {
    var d := Drain(step, states[|pieces|], tail);
    if pieces == [] {
      assert Concat(pieces) + tail == tail;
      PrependTwice([], [], d);
    } else {
      assert CutsWhole(step, states[0], pieces[0], states[1], outs[0]);
      assert Concat(pieces) + tail == pieces[0] + (Concat(pieces[1..]) + tail);
      CutFirst(step, states[0], pieces[0], states[1], outs[0], Concat(pieces[1..]) + tail);
      forall k | 0 <= k < |pieces[1..]|
        ensures CutsWhole(step, states[1..][k], pieces[1..][k], states[1..][k + 1], outs[1..][k])
      {
        assert CutsWhole(step, states[k + 1], pieces[k + 1], states[k + 2], outs[k + 1]);
      }
      PiecesDrain(step, states[1..], pieces[1..], outs[1..], tail);
      PrependTwice(outs[0], Concat(outs[1..]), d);
    }
  }

  // ---------------------------------------------------------------- one message at a time

  /** Turns until something comes out or more bytes are wanted. */
  ghost function NextOut<S(!new), M(!new)>(step: Step<S, M>, s: S, b: seq<byte>): (Option<M>, S, seq<byte>)
    requires Stable(step)
    decreases |b|
  {
    assert Cuts(step, s, b);
    match step(s, b)
    case More => (None, s, b)
    case Stop => (None, s, b)
    case Take(n, s', out) => if out == [] then NextOut(step, s', b[n..]) else (Some(out[0]), s', b[n..])
  }

  ghost predicate SingleAt<S, M>(step: Step<S, M>, s: S, b: seq<byte>) {
    !step(s, b).Stop? && (step(s, b).Take? ==> |step(s, b).out| <= 1)
  }

  /** A parser that never gives up and gives at most one message a turn. */
  ghost predicate Single<S(!new), M>(step: Step<S, M>) {
    forall s, b :: SingleAt(step, s, b)
  }

  /** Taking messages one at a time until there is none is draining the buffer. */
  lemma {:induction false} DrainByNext<S(!new), M(!new)>(step: Step<S, M>, s: S, b: seq<byte>)
    requires Stable(step) && Single(step)
    ensures var (m, s', rest) := NextOut(step, s, b);
            && |rest| <= |b| && (m.Some? ==> |rest| < |b|)
            && Drain(step, s, b)
               == (match m
                   case None => Drained(s', rest, [], false)
                   case Some(v) => Prepend([v], Drain(step, s', rest)))
    decreases |b|
  {
    assert Cuts(step, s, b) && SingleAt(step, s, b);
    match step(s, b)
    case More =>
    case Take(n, s', out) =>
      if out == [] {
        DrainByNext(step, s', b[n..]);
        PrependTwice([], [], Drain(step, s', b[n..]));
      } else {
        assert out == [out[0]];
      }
  }
}
