/** The gain lock's tables: signals as configured, and each signal as the engine follows it. */
module GainTable {
  import opened Wrappers
  import opened Law

  /** The least change of a gain that counts, and the least amount owed worth sending. */
  const EPSILON: real := 0.0001

  /** The age, in milliseconds, at which an expectation is given up. */
  const ECHO_TTL: nat := 2000

  datatype Member = Member(device: string, preamp: Option<nat>, input: Option<nat>)

  datatype Signal = Signal(name: string, members: seq<Member>)

  /** One input channel's trim, as the desks address it. */
  datatype Trim = Trim(device: string, input: nat)

  datatype Follower = Follower(device: string, input: nat, ono: Option<nat>, applied: real, owed: real) {
    function Id(): Trim {
      Trim(device, input)
    }
  }

  /** An expectation: the value of a report to come, and when it was caused. */
  datatype Expect = Expect(value: real, at: nat)

  datatype Live = Live(
    name: string,
    preamp: Option<nat>,
    ono: Option<nat>,
    gain: Option<real>,
    reference: Option<real>,
    followers: seq<Follower>,
    expected: seq<Expect>)
  {
    /** Whether leader moves are being compensated for this signal while locked. */
    predicate Armed() {
      gain.Some? && reference.Some?
    }
  }

  /** A desk's fixed equipment: the law of its trims, and the objects its preamps and trims are. */
  datatype Kit = Kit(law: DbLaw, preamps: map<nat, nat>, controls: map<nat, nat>)

  /** Everything on the far end of the router: which desks are registered, what they are, and the
      grid point each trim stands at. */
  datatype Desks = Desks(connected: set<string>, kits: map<string, Kit>, trims: map<Trim, int>) {

    /** Whether there is a control for `t` to move. */
    predicate Controls(t: Trim) {
      t in trims && t.device in kits && kits[t.device].law.Valid()
    }

    /** Every trim stands on its desk's grid, and every trim control a desk offers exists. */
    ghost predicate Sound() {
      && connected <= kits.Keys
      && (forall d <- kits :: kits[d].law.Whole() && 2.0 * EPSILON <= kits[d].law.step)
      && (forall d <- kits, i <- kits[d].controls :: Trim(d, i) in trims)
      && (forall t <- trims :: t.device in kits && 0 <= trims[t] <= kits[t.device].law.Steps())
    }
  }

  // ---------------------------------------------------------------- looking followers up

  function FindIn(fs: seq<Follower>, t: Trim): Option<Follower> {
    if fs == [] then None
    else if fs[0].Id() == t then Some(fs[0])
    else FindIn(fs[1..], t)
  }

  function Find(live: seq<Live>, t: Trim): Option<Follower> {
    if live == [] then None
    else if FindIn(live[0].followers, t).Some? then FindIn(live[0].followers, t)
    else Find(live[1..], t)
  }

  predicate Place(live: seq<Live>, i: int, j: int) {
    0 <= i < |live| && 0 <= j < |live[i].followers|
  }

  /** No two followers share a trim, which is what a validated configuration guarantees. */
  ghost predicate Distinct(live: seq<Live>) {
    forall i, j, k, l ::
      (Place(live, i, j) && Place(live, k, l) && live[i].followers[j].Id() == live[k].followers[l].Id())
      ==> i == k && j == l
  }

  lemma {:induction false} FindInIs(fs: seq<Follower>, j: nat)
    requires j < |fs|
    requires forall k :: 0 <= k < j ==> fs[k].Id() != fs[j].Id()
    ensures FindIn(fs, fs[j].Id()) == Some(fs[j])
  {
    if j > 0 {
      assert fs[1..][j - 1] == fs[j];
      forall k | 0 <= k < j - 1 ensures fs[1..][k].Id() != fs[1..][j - 1].Id() {
        assert fs[1..][k] == fs[k + 1];
      }
      FindInIs(fs[1..], j - 1);
    }
  }

  lemma {:induction false} FindInHas(fs: seq<Follower>, t: Trim)
    ensures FindIn(fs, t).None? ==> forall k :: 0 <= k < |fs| ==> fs[k].Id() != t
    ensures FindIn(fs, t).Some? ==> exists k :: 0 <= k < |fs| && fs[k].Id() == t && FindIn(fs, t).value == fs[k]
  {
    if fs != [] && fs[0].Id() != t {
      FindInHas(fs[1..], t);
      if FindIn(fs, t).Some? {
        var k :| 0 <= k < |fs[1..]| && fs[1..][k].Id() == t && FindIn(fs, t).value == fs[1..][k];
        assert fs[k + 1] == fs[1..][k];
      } else {
        forall k | 0 <= k < |fs| ensures fs[k].Id() != t {
          if k > 0 { assert fs[k] == fs[1..][k - 1]; }
        }
      }
    }
  }

  lemma {:induction false} FindIs(live: seq<Live>, i: nat, j: nat)
    requires Place(live, i, j) && Distinct(live)
    ensures Find(live, live[i].followers[j].Id()) == Some(live[i].followers[j])
  {
    var t := live[i].followers[j].Id();
    if i == 0 {
      forall k | 0 <= k < j ensures live[0].followers[k].Id() != t {
        assert Place(live, 0, k);
      }
      FindInIs(live[0].followers, j);
    } else {
      FindInHas(live[0].followers, t);
      forall k | 0 <= k < |live[0].followers| ensures live[0].followers[k].Id() != t {
        assert Place(live, 0, k);
      }
      DistinctTail(live);
      assert live[1..][i - 1] == live[i];
      FindIs(live[1..], i - 1, j);
    }
  }

  lemma DistinctTail(live: seq<Live>)
    requires live != [] && Distinct(live)
    ensures Distinct(live[1..])
  {
    var tail := live[1..];
    forall i, j, k, l | Place(tail, i, j) && Place(tail, k, l)
      && tail[i].followers[j].Id() == tail[k].followers[l].Id()
      ensures i == k && j == l
    {
      assert Place(live, i + 1, j) && Place(live, k + 1, l);
    }
  }

  /** What `Find` finds is a follower in the table. */
  lemma {:induction false} FindHas(live: seq<Live>, t: Trim) returns (i: int, j: int)
    requires Find(live, t).Some?
    ensures Place(live, i, j) && live[i].followers[j] == Find(live, t).value
    ensures live[i].followers[j].Id() == t
  {
    FindInHas(live[0].followers, t);
    if FindIn(live[0].followers, t).Some? {
      i := 0;
      j :| 0 <= j < |live[0].followers| && live[0].followers[j].Id() == t
        && FindIn(live[0].followers, t).value == live[0].followers[j];
    } else {
      i, j := FindHas(live[1..], t);
      i := i + 1;
    }
  }
}
