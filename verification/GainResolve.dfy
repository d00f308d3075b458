/** What rebuilding the table makes of every row and every follower, spelled out without the functions the engine
    is proved against: who follows and who does not, at which object, with which books; and what locking,
    electing and retrying start from. */
module GainResolve {
  import opened Wrappers
  import opened Law
  import opened GainTable
  import opened GainSpec
  import opened GainSettle
  import opened GainEffects

  /** A member that follows: not on the leader's desk, and with an input there. */
  predicate HasFollower(m: Member, leader: string) {
    m.device != leader && m.input != None
  }

  /** How many of the first `m` members follow. */
  function Before(ms: seq<Member>, leader: string, m: nat): (n: nat)
    requires m <= |ms|
  {
    if m == 0 then 0 else Before(ms, leader, m - 1) + if HasFollower(ms[m - 1], leader) then 1 else 0
  }

  /** The first of `fs` on trim `t` is at `k`. */
  ghost predicate FirstOf(fs: seq<Follower>, t: Trim, k: nat) {
    && k < |fs| && fs[k].device == t.device && fs[k].input == t.input
    && (forall n :: 0 <= n < k ==> fs[n].device != t.device || fs[n].input != t.input)
  }

  /** The follower made of a member: its trim's object if its desk is there and has one, and the books of the
      first of the signal's followers on that trim before, or none. */
  ghost predicate MadeOf(f: Follower, m: Member, previous: seq<Follower>, desks: Desks) {
    && f.device == m.device
    && m.input == Some(f.input)
    && (f.ono == if f.device in desks.connected && f.device in desks.kits && f.input in desks.kits[f.device].controls
                 then Some(desks.kits[f.device].controls[f.input]) else None)
    && ((forall k: nat :: !FirstOf(previous, Trim(f.device, f.input), k)) ==> f.applied == 0.0 && f.owed == 0.0)
    && (forall k: nat :: FirstOf(previous, Trim(f.device, f.input), k)
                         ==> f.applied == previous[k].applied && f.owed == previous[k].owed)
  }

  lemma {:induction false} FoundFirst(fs: seq<Follower>, t: Trim)
    ensures match FindIn(fs, t)
            case None => forall k :: 0 <= k < |fs| ==> fs[k].device != t.device || fs[k].input != t.input
            case Some(f) => exists k: nat :: FirstOf(fs, t, k) && fs[k] == f
  {
    if fs != [] && fs[0].Id() != t {
      FoundFirst(fs[1..], t);
      match FindIn(fs, t)
      case None =>
        forall k | 0 <= k < |fs| ensures fs[k].device != t.device || fs[k].input != t.input {
          if k > 0 { assert fs[k] == fs[1..][k - 1]; }
        }
      case Some(f) =>
        var k: nat :| FirstOf(fs[1..], t, k) && fs[1..][k] == f;
        forall n | 0 <= n < k + 1 ensures fs[n].device != t.device || fs[n].input != t.input {
          if n > 0 { assert fs[n] == fs[1..][n - 1]; }
        }
        assert FirstOf(fs, t, k + 1);
    }
  }

  lemma FollowingIs(m: Member, previous: seq<Follower>, desks: Desks)
    requires m.input.Some?
    ensures MadeOf(Following(m, FindIn(previous, Trim(m.device, m.input.value)), desks), m, previous, desks)
  {
    FoundFirst(previous, Trim(m.device, m.input.value));
  }

  lemma {:induction false} BeforeTail(ms: seq<Member>, leader: string, m: nat)
    requires 0 < m <= |ms|
    ensures Before(ms, leader, m)
            == Before(ms[1..], leader, m - 1) + if HasFollower(ms[0], leader) then 1 else 0
  {
    if m > 1 {
      BeforeTail(ms, leader, m - 1);
      assert ms[1..][m - 2] == ms[m - 1];
    }
  }

  /** There are as many followers as members that follow. */
  lemma {:induction false} FollowersCount(ms: seq<Member>, leader: string, previous: seq<Follower>, desks: Desks)
    ensures |Followers(ms, leader, previous, desks)| == Before(ms, leader, |ms|)
  {
    if ms != [] {
      FollowersCount(ms[1..], leader, previous, desks);
      BeforeTail(ms, leader, |ms|);
    }
  }

  /** Each member that follows has its follower, in the members' order. */
  lemma {:induction false} FollowerOf(ms: seq<Member>, leader: string, previous: seq<Follower>, desks: Desks, m: nat)
    requires m < |ms| && HasFollower(ms[m], leader)
    ensures Before(ms, leader, m) < |Followers(ms, leader, previous, desks)|
    ensures MadeOf(Followers(ms, leader, previous, desks)[Before(ms, leader, m)], ms[m], previous, desks)
  {
    hide MadeOf, FindIn, Following;
    if m == 0 {
      FollowingIs(ms[0], previous, desks);
    } else {
      FollowerOf(ms[1..], leader, previous, desks, m - 1);
      BeforeTail(ms, leader, m);
    }
  }

  /** The first member on the leader's desk is at `k`. */
  ghost predicate LeadsAt(ms: seq<Member>, leader: string, k: nat) {
    k < |ms| && ms[k].device == leader && forall n :: 0 <= n < k ==> ms[n].device != leader
  }

  /** The leader's preamp in a signal: the first member on its desk says. */
  lemma {:induction false} LeaderInIs(ms: seq<Member>, leader: string)
    ensures (forall k: nat :: !LeadsAt(ms, leader, k)) ==> LeaderIn(ms, leader) == None
    ensures forall k: nat :: LeadsAt(ms, leader, k) ==> LeaderIn(ms, leader) == ms[k].preamp
  {
    if ms != [] && ms[0].device != leader {
      LeaderInIs(ms[1..], leader);
      forall k: nat ensures LeadsAt(ms, leader, k) <==> k > 0 && LeadsAt(ms[1..], leader, k - 1) {
        if k > 0 && LeadsAt(ms[1..], leader, k - 1) {
          assert forall n :: 0 < n < k ==> ms[n] == ms[1..][n - 1];
        }
      }
      if k: nat :| LeadsAt(ms, leader, k) {
        assert LeadsAt(ms[1..], leader, k - 1);
      } else {
        forall k: nat ensures !LeadsAt(ms[1..], leader, k) {
          assert !LeadsAt(ms, leader, k + 1);
        }
      }
    } else if ms != [] {
      assert LeadsAt(ms, leader, 0);
    }
  }

  /** The row a signal had: the first of its name. */
  ghost predicate HadRow(live: seq<Live>, name: string, r: nat) {
    r < |live| && live[r].name == name && forall n :: 0 <= n < r ==> live[n].name != name
  }

  /** The same preamp number at the same object number. */
  predicate SamePreamp(l: Live, l': Live) {
    l.preamp == l'.preamp && l.ono == l'.ono
  }

  predicate KnowsNothing(l: Live) {
    l.gain == None && l.reference == None && l.expected == []
  }

  predicate KnowsAsMuch(l: Live, l': Live) {
    l'.gain == l.gain && l'.reference == l.reference && l'.expected == l.expected
  }

  /** The followers the row of that name had. */
  ghost predicate Previous(live: seq<Live>, name: string, fs: seq<Follower>) {
    && (forall r: nat :: HadRow(live, name, r) ==> fs == live[r].followers)
    && ((forall r: nat :: r < |live| ==> live[r].name != name) ==> fs == [])
  }

  /** What one row knows after rebuilding; nothing but the rows changes. */
  lemma ResolvedRow(w: World, i: nat)
    requires i < |w.signals|
    ensures Resolve(w) == w.(live := Resolve(w).live) && |Resolve(w).live| == |w.signals|
    ensures var (s, l) := (w.signals[i], Resolve(w).live[i]);
            && l.name == s.name
            && ((forall k: nat :: !LeadsAt(s.members, w.leader, k)) ==> l.preamp == None)
            && (forall k: nat :: LeadsAt(s.members, w.leader, k) ==> l.preamp == s.members[k].preamp)
            && l.ono == (if l.preamp != None && w.leader in w.desks.connected && w.leader in w.desks.kits
                            && l.preamp.value in w.desks.kits[w.leader].preamps
                         then Some(w.desks.kits[w.leader].preamps[l.preamp.value]) else None)
            && ((forall r: nat :: HadRow(w.live, l.name, r) ==> !SamePreamp(w.live[r], l)) ==> KnowsNothing(l))
            && (forall r: nat :: HadRow(w.live, l.name, r) && SamePreamp(w.live[r], l) ==> KnowsAsMuch(w.live[r], l))
  {
    hide Followers, LeaderIn;
    LeaderInIs(w.signals[i].members, w.leader);
    OneRowHad(w.live, w.signals[i].name);
  }

  lemma OneRowHad(live: seq<Live>, name: string)
    ensures forall r: nat :: HadRow(live, name, r) <==> r < |live| && r == Named(live, name)
  {}

  /** The followers of one row after rebuilding: as many as there are members that follow, and the one at each
      place made of the member that is there by order - whether or not it has a preamp of its own. */
  lemma ResolvedFollowers(w: World, i: nat) returns (previous: seq<Follower>)
    requires i < |w.signals|
    ensures Previous(w.live, w.signals[i].name, previous)
    ensures i < |Resolve(w).live|
    ensures var (ms, fs) := (w.signals[i].members, Resolve(w).live[i].followers);
            && |fs| == Before(ms, w.leader, |ms|)
            && forall m: nat :: m < |ms| && HasFollower(ms[m], w.leader) ==>
                 Before(ms, w.leader, m) < |fs| && MadeOf(fs[Before(ms, w.leader, m)], ms[m], previous, w.desks)
  {
    hide MadeOf, Followers, Before, LeaderIn;
    var ms := w.signals[i].members;
    var r := Named(w.live, w.signals[i].name);
    OneRowHad(w.live, w.signals[i].name);
    previous := if r < |w.live| then w.live[r].followers else [];
    if r < |w.live| { assert HadRow(w.live, w.signals[i].name, r); }
    assert Resolve(w).live[i].followers == Followers(ms, w.leader, previous, w.desks);
    FollowersCount(ms, w.leader, previous, w.desks);
    forall m: nat | m < |ms| && HasFollower(ms[m], w.leader)
      ensures Before(ms, w.leader, m) < |Resolve(w).live[i].followers|
      ensures MadeOf(Resolve(w).live[i].followers[Before(ms, w.leader, m)], ms[m], previous, w.desks)
    {
      FollowerOf(ms, w.leader, previous, w.desks, m);
    }
  }

  // ---------------------------------------------------------------- locking and electing

  /** A lock starts every row of the rebuilt table on its own: nothing applied and nothing owed; the gain read, or
      failing that the last one known, for a reference; only a reading to hear back. It moves no trim. */
  lemma LockedRow(w: World, readings: seq<Option<real>>, now: nat, i: nat)
    requires i < |w.signals|
    ensures Lock(w, readings, now)
            == w.(locked := true, down := {}, live := Lock(w, readings, now).live)
    ensures |Lock(w, readings, now).live| == |w.signals|
    ensures var (l, l') := (Resolve(w).live[i], Lock(w, readings, now).live[i]);
            && l' == l.(gain := l'.gain, reference := l'.reference, followers := l'.followers, expected := l'.expected)
            && |l'.followers| == |l.followers|
            && (forall j :: 0 <= j < |l.followers| ==>
                  l'.followers[j]
                  == Follower(l.followers[j].device, l.followers[j].input, l.followers[j].ono, 0.0, 0.0))
            && (l.ono == None ==> l'.reference == None && l'.gain == l.gain && l'.expected == l.expected)
            && (l.ono != None && i < |readings| && readings[i] != None ==>
                  l'.gain == readings[i] && l'.reference == readings[i]
                  && l'.expected == l.expected + [Expect(readings[i].value, now)])
            && (l.ono != None && (i >= |readings| || readings[i] == None) ==>
                  l'.gain == l.gain && l'.reference == l.gain && l'.expected == l.expected)
  {
    hide ResolveRow;
  }

  /** Member `j` of signal `i` is a preamp on `device`. */
  predicate HasPreamp(signals: seq<Signal>, device: string, i: int, j: int) {
    0 <= i < |signals| && 0 <= j < |signals[i].members|
    && signals[i].members[j].device == device && signals[i].members[j].preamp != None
  }

  /** An election is refused exactly while locked or for a desk without a preamp in any signal; otherwise it is the
      change of leader and a table rebuilt for it. */
  lemma ElectionIs(w: World, device: string)
    ensures w.locked || (forall i, j :: !HasPreamp(w.signals, device, i, j)) ==> Elect(w, device) == w
    ensures !w.locked && (exists i, j :: HasPreamp(w.signals, device, i, j))
            ==> Elect(w, device) == Resolve(w.(leader := device))
  {
    hide Resolve;
    assert CanLead(w.signals, device) <==> exists i, j :: HasPreamp(w.signals, device, i, j) by {
      if CanLead(w.signals, device) {
        var i, j :| 0 <= i < |w.signals| && 0 <= j < |w.signals[i].members|
          && w.signals[i].members[j].device == device && w.signals[i].members[j].preamp.Some?;
        assert HasPreamp(w.signals, device, i, j);
      }
    }
  }

  // ---------------------------------------------------------------- retrying

  ghost predicate FirstBy(fs: seq<Follower>, d: string, k: nat) {
    k < |fs| && fs[k].device == d && forall n :: 0 <= n < k ==> fs[n].device != d
  }

  /** The first follower on desk `d`, row by row. */
  ghost predicate FirstPlace(live: seq<Live>, d: string, i: nat, j: nat) {
    && Place(live, i, j) && FirstBy(live[i].followers, d, j)
    && (forall k, n :: Place(live, k, n) && k < i ==> live[k].followers[n].device != d)
  }

  lemma {:induction false} FirstInIs(fs: seq<Follower>, d: string)
    ensures match FirstIn(fs, d)
            case None => forall k :: 0 <= k < |fs| ==> fs[k].device != d
            case Some(f) => exists k: nat :: FirstBy(fs, d, k) && fs[k] == f
  {
    if fs != [] && fs[0].device != d {
      FirstInIs(fs[1..], d);
      match FirstIn(fs, d)
      case None =>
        forall k | 0 <= k < |fs| ensures fs[k].device != d {
          if k > 0 { assert fs[k] == fs[1..][k - 1]; }
        }
      case Some(f) =>
        var k: nat :| FirstBy(fs[1..], d, k) && fs[1..][k] == f;
        forall n | 0 <= n < k + 1 ensures fs[n].device != d {
          if n > 0 { assert fs[n] == fs[1..][n - 1]; }
        }
        assert FirstBy(fs, d, k + 1);
    }
  }

  lemma {:induction false} FirstOnIs(live: seq<Live>, d: string)
    ensures match FirstOn(live, d)
            case None => forall i, j :: Place(live, i, j) ==> live[i].followers[j].device != d
            case Some(f) => exists i: nat, j: nat :: FirstPlace(live, d, i, j) && live[i].followers[j] == f
  {
    if live != [] {
      FirstInIs(live[0].followers, d);
      if FirstIn(live[0].followers, d).Some? {
        var f := FirstIn(live[0].followers, d).value;
        var k: nat :| FirstBy(live[0].followers, d, k) && live[0].followers[k] == f;
        assert FirstPlace(live, d, 0, k);
      } else {
        FirstOnIs(live[1..], d);
        FirstOnTail(live, d);
      }
    }
  }

  lemma FirstOnTail(live: seq<Live>, d: string)
    requires live != [] && forall k :: 0 <= k < |live[0].followers| ==> live[0].followers[k].device != d
    ensures (forall i, j :: Place(live[1..], i, j) ==> live[1..][i].followers[j].device != d)
            ==> forall i, j :: Place(live, i, j) ==> live[i].followers[j].device != d
    ensures forall i: nat, j: nat :: FirstPlace(live[1..], d, i, j) ==>
              FirstPlace(live, d, i + 1, j) && live[i + 1].followers[j] == live[1..][i].followers[j]
  {
    assert forall i, j :: Place(live, i, j) && i > 0 ==> Place(live[1..], i - 1, j);
    assert forall i, j :: Place(live[1..], i, j) ==> Place(live, i + 1, j);
  }

  /** A retry reads exactly the desks marked down whose first follower in the table has an object. */
  lemma ProbesAre(w: World, d: string)
    ensures d in Probes(w) <==>
            d in w.down && FirstHasObject(w.live, d)
  {
    FirstOnIs(w.live, d);
    hide FirstOn;
    if d in w.down && FirstHasObject(w.live, d) {
      var i: nat, j: nat :| FirstPlace(w.live, d, i, j) && w.live[i].followers[j].ono != None;
      assert FirstOn(w.live, d).Some?;
      var k: nat, l: nat :| FirstPlace(w.live, d, k, l) && w.live[k].followers[l] == FirstOn(w.live, d).value;
      assert k == i && l == j;
    }
  }

  /** While locked, the desks that answered a retry are no longer down, and one round of moves goes out to every
      follower on them; an engine unlocked meanwhile does nothing. */
  lemma RecoveryIsRound(w: World, back: set<string>, answers: set<Trim>) returns (scope: set<Trim>)
    requires Distinct(w.live)
    ensures forall t :: t in scope <==> t.device in back && HasTrim(w.live, t)
    ensures !w.locked || back == {} ==> Recover(w, back, answers) == w
    ensures w.locked && back != {} ==>
              IsRound(w.(down := w.down - back), Recover(w, back, answers), answers, scope)
  {
    hide IsRound, Settle;
    scope := TrimsOn(w.live, back);
    SettleIsRound(w.(down := w.down - back), answers, scope);
  }

  /** Some follower is on trim `t`. */
  ghost predicate HasTrim(live: seq<Live>, t: Trim) {
    exists i, j :: Place(live, i, j) && live[i].followers[j].device == t.device && live[i].followers[j].input == t.input
  }

  /** A retry brings back exactly the desks marked down that it reads and that answer; the others stay down, and so does
      everything while the engine is not locked. */
  lemma RetryIsRound(w: World, answering: set<string>, answers: set<Trim>) returns (back: set<string>, scope: set<Trim>)
    requires Distinct(w.live)
    ensures forall d :: d in back <==> d in w.down && d in answering && FirstHasObject(w.live, d)
    ensures forall t :: t in scope <==> t.device in back && HasTrim(w.live, t)
    ensures !w.locked || back == {} ==> Retry(w, answering, answers) == w
    ensures w.locked && back != {} ==>
              IsRound(w.(down := w.down - back), Retry(w, answering, answers), answers, scope)
  {
    hide IsRound, Recover, Probes, HasTrim;
    back := Probes(w) * answering;
    forall d ensures d in Probes(w) <==> d in w.down && FirstHasObject(w.live, d) { ProbesAre(w, d); }
    scope := RecoveryIsRound(w, back, answers);
  }

  ghost predicate FirstHasObject(live: seq<Live>, d: string) {
    exists i: nat, j: nat :: FirstPlace(live, d, i, j) && live[i].followers[j].ono != None
  }
}
