/** The follower's side of the gain lock: what one round of moves does to one trim and its books. */
module GainSettle {
  import opened Law
  import opened GainTable
  import opened GainSpec

  /** Where a trim that stood at grid point `base` lands when asked to move by `total` in all. */
  function Aim(law: DbLaw, base: int, total: real): int
    requires law.Valid()
  {
    law.Index(law.min + Span(base, law.step) + total)
  }

  /** The desk would not move this trim if it were offered what it is owed. */
  predicate Rested(desks: Desks, f: Follower) {
    desks.Controls(f.Id()) && Landing(desks, f.Id(), f.owed) == desks.trims[f.Id()]
  }

  /** The books agree with the desk: `applied` is how far the trim is from `base`. */
  predicate Agrees(desks: Desks, f: Follower, base: map<Trim, int>) {
    && f.Id() in base && f.Id() in desks.trims && f.device in desks.kits
    && f.applied == Span(desks.trims[f.Id()] - base[f.Id()], desks.kits[f.device].law.step)
  }

  lemma SoundControls(desks: Desks, t: Trim)
    requires desks.Sound() && t in desks.trims
    ensures desks.Controls(t) && desks.kits[t.device].law.Whole()
    ensures 0 <= desks.trims[t] <= desks.kits[t.device].law.Steps()
    ensures 2.0 * EPSILON <= desks.kits[t.device].law.step
  {}

  /** Path independence in the small: however the books came to stand as they do, the next move
      aims where a single move of `applied + owed` from the base would have. */
  lemma LandingIsAim(desks: Desks, f: Follower, base: map<Trim, int>)
    requires desks.Sound() && Agrees(desks, f, base)
    ensures desks.Controls(f.Id())
    ensures Landing(desks, f.Id(), f.owed) == Aim(desks.kits[f.device].law, base[f.Id()], f.applied + f.owed)
    ensures 0 <= Landing(desks, f.Id(), f.owed) <= desks.kits[f.device].law.Steps()
  {
    SoundControls(desks, f.Id());
    var law := desks.kits[f.device].law;
    var now := desks.trims[f.Id()];
    AtGrid(law, now);
    SpanApart(base[f.Id()], now, law.step);
    assert law.At(now) + f.owed == law.min + Span(base[f.Id()], law.step) + (f.applied + f.owed);
    IndexInRange(law, law.At(now) + f.owed);
  }

  /** A follower rests exactly when its trim is where the whole move asked of it so far lands. */
  lemma RestedIffAimed(desks: Desks, f: Follower, base: map<Trim, int>)
    requires desks.Sound() && Agrees(desks, f, base)
    ensures Rested(desks, f)
            <==> desks.trims[f.Id()] == Aim(desks.kits[f.device].law, base[f.Id()], f.applied + f.owed)
  {
    LandingIsAim(desks, f, base);
  }

  /** Too little owed to be offered is too little to move. */
  lemma SmallOwedRests(desks: Desks, f: Follower)
    requires desks.Sound() && f.Id() in desks.trims && Abs(f.owed) < EPSILON
    ensures Rested(desks, f)
  {
    SoundControls(desks, f.Id());
    var law := desks.kits[f.device].law;
    var now := desks.trims[f.Id()];
    AtGrid(law, now);
    IndexIs(law, law.At(now) + f.owed, now);
  }

  /** One move taken: the trim goes where it was aimed, the books still agree with the desk and
      still add up to what was asked, up to a residue under EPSILON, and the follower rests. */
  lemma TakenMove(desks: Desks, f: Follower, base: map<Trim, int>, desks': Desks, f': Follower)
    requires desks.Sound() && Agrees(desks, f, base)
    requires f' == Booked(f, Change(desks, f.Id(), f.owed))
    requires desks'.kits == desks.kits && desks'.Sound() && f.Id() in desks'.trims
    requires desks'.trims[f.Id()] == Landing(desks, f.Id(), f.owed)
    ensures Agrees(desks', f', base)
    ensures Abs(f'.applied + f'.owed - (f.applied + f.owed)) < EPSILON
    ensures f'.owed != 0.0 ==> f'.applied + f'.owed == f.applied + f.owed
    ensures Rested(desks', f')
  {
    LandingIsAim(desks, f, base);
    var law := desks.kits[f.device].law;
    var was, now, b := desks.trims[f.Id()], desks'.trims[f.Id()], base[f.Id()];
    SpanApart(b, was, law.step);
    SpanApart(was, now, law.step);
    SpanApart(b, now, law.step);
    assert f'.Id() == f.Id();
    LandingIsAim(desks', f', base);
    if f'.owed == 0.0 {
      SmallOwedRests(desks', f');
    }
  }

  // ---------------------------------------------------------------- a round of moves, place by place

  /** The table a round of moves starts from: sound desks, and one trim per follower. */
  ghost predicate Sane(w: World) {
    && w.desks.Sound()
    && Distinct(w.live)
    && forall i, j :: Place(w.live, i, j) ==>
         var f := w.live[i].followers[j];
         f.device != w.leader && (f.ono.Some? ==> f.Id() in w.desks.trims)
  }

  /** What a round does at one place, and to the trim there. */
  lemma SettleAt(w: World, answers: set<Trim>, scope: set<Trim>, i: int, j: int)
    requires Distinct(w.live) && Place(w.live, i, j)
    ensures var (f, t) := (w.live[i].followers[j], w.live[i].followers[j].Id());
            var w' := Settle(w, answers, scope);
            && Place(w'.live, i, j)
            && w'.live[i].followers[j]
               == (if t in scope then SettleFollower(f, w.desks, w.down, answers) else f)
            && w'.desks.trims.Keys == w.desks.trims.Keys
            && (t in w.desks.trims ==>
                  w'.desks.trims[t] == (if t in scope && Taken(f, w.desks, w.down, answers)
                                        then Landing(w.desks, t, f.owed) else w.desks.trims[t]))
  {
    FindIs(w.live, i, j);
  }

  /** A round of moves changes nothing but `applied` and `owed` of followers in its scope. */
  lemma SettleShape(w: World, answers: set<Trim>, scope: set<Trim>)
    ensures var w' := Settle(w, answers, scope);
            && |w'.live| == |w.live|
            && (forall i :: 0 <= i < |w.live| ==>
                  w'.live[i] == w.live[i].(followers := w'.live[i].followers)
                  && |w'.live[i].followers| == |w.live[i].followers|)
            && (forall i, j :: Place(w.live, i, j) ==>
                  var (f, f') := (w.live[i].followers[j], w'.live[i].followers[j]);
                  f' == f.(applied := f'.applied, owed := f'.owed))
  {}

  lemma SettleTrimsSound(w: World, answers: set<Trim>, scope: set<Trim>)
    requires w.desks.Sound()
    ensures Settle(w, answers, scope).desks.Sound()
  {
    var w' := Settle(w, answers, scope);
    forall t | t in w'.desks.trims
      ensures t.device in w'.desks.kits && 0 <= w'.desks.trims[t] <= w'.desks.kits[t.device].law.Steps()
    {
      SoundControls(w.desks, t);
      var found := Find(w.live, t);
      if found.Some? {
        IndexInRange(w.desks.kits[t.device].law,
                     w.desks.kits[t.device].law.At(w.desks.trims[t]) + found.value.owed);
      }
    }
  }

  /** The same followers, on the same trims, in the same places. */
  ghost predicate SameIds(live: seq<Live>, live': seq<Live>) {
    && |live'| == |live|
    && (forall i :: 0 <= i < |live| ==> |live'[i].followers| == |live[i].followers|)
    && (forall i, j :: Place(live, i, j) ==>
          live'[i].followers[j].Id() == live[i].followers[j].Id()
          && live'[i].followers[j].ono == live[i].followers[j].ono)
  }

  lemma SameIdsDistinct(live: seq<Live>, live': seq<Live>)
    requires SameIds(live, live') && Distinct(live)
    ensures Distinct(live')
  {
    forall i, j, k, l | Place(live', i, j) && Place(live', k, l)
      && live'[i].followers[j].Id() == live'[k].followers[l].Id()
      ensures i == k && j == l
    {
      assert Place(live, i, j) && Place(live, k, l);
    }
  }

  lemma SaneKept(w: World, w': World)
    requires Sane(w) && SameIds(w.live, w'.live) && w'.leader == w.leader
    requires w'.desks.Sound() && w'.desks.trims.Keys == w.desks.trims.Keys
    ensures Sane(w')
  {
    SameIdsDistinct(w.live, w'.live);
    forall i, j | Place(w'.live, i, j)
      ensures w'.live[i].followers[j].device != w'.leader
      ensures w'.live[i].followers[j].ono.Some? ==> w'.live[i].followers[j].Id() in w'.desks.trims
    {
      assert Place(w.live, i, j);
      assert w'.live[i].followers[j].Id() == w.live[i].followers[j].Id();
    }
  }

  lemma SettleSane(w: World, answers: set<Trim>, scope: set<Trim>)
    requires Sane(w)
    ensures Sane(Settle(w, answers, scope))
    ensures SameIds(w.live, Settle(w, answers, scope).live)
    ensures Settle(w, answers, scope).desks.trims.Keys == w.desks.trims.Keys
  {
    SettleShape(w, answers, scope);
    SettleTrimsSound(w, answers, scope);
    SaneKept(w, Settle(w, answers, scope));
  }

  // ---------------------------------------------------------------- what a round never touches

  /** No desk marked down is nudged, and neither is the leader's own trim. */
  lemma SettleLeavesAlone(w: World, answers: set<Trim>, scope: set<Trim>, t: Trim)
    requires Sane(w) && t in w.desks.trims
    requires t.device in w.down || t.device == w.leader || t !in scope || t !in answers
    ensures Settle(w, answers, scope).desks.trims[t] == w.desks.trims[t]
  {
    if t.device == w.leader && Find(w.live, t).Some? {
      var i, j := FindHas(w.live, t);
      assert false;
    }
  }

  // ---------------------------------------------------------------- confluence

  function BookRow(l: Live, t: Trim, change: real): Live {
    l.(followers := seq(|l.followers|, j requires 0 <= j < |l.followers| =>
      if l.followers[j].Id() == t then Booked(l.followers[j], change) else l.followers[j]))
  }

  /** The move sent for `t` comes back, the others standing as they do in `w`: who was offered
      what was settled when the round began, in `w0`; the desk works from where its trim is now. */
  function OneMove(w0: World, w: World, answers: set<Trim>, t: Trim): World {
    var sent := Find(w0.live, t);
    if sent.None? || !Offered(sent.value, w0.desks.connected, w0.down) then w
    else if t in answers && w.desks.Controls(t) then
      var change := Change(w.desks, t, sent.value.owed);
      w.(live := seq(|w.live|, i requires 0 <= i < |w.live| => BookRow(w.live[i], t, change)),
         desks := w.desks.(trims := w.desks.trims[t := Landing(w.desks, t, sent.value.owed)]))
    else w.(down := w.down + {t.device})
  }

  function InOrder(w0: World, w: World, answers: set<Trim>, order: seq<Trim>): World
    decreases |order|
  {
    if order == [] then w
    else InOrder(w0, OneMove(w0, w, answers, order[0]), answers, order[1..])
  }

  function Members(order: seq<Trim>): set<Trim> {
    set t | t in order
  }

  ghost predicate NoRepeats(order: seq<Trim>) {
    forall i, j :: 0 <= i < j < |order| ==> order[i] != order[j]
  }

  /** One more move finishing is one more trim in scope. */
  lemma OneMoreMove(w: World, answers: set<Trim>, scope: set<Trim>, t: Trim)
    requires t !in scope && Distinct(w.live)
    ensures OneMove(w, Settle(w, answers, scope), answers, t) == Settle(w, answers, scope + {t})
  {
    var a := OneMove(w, Settle(w, answers, scope), answers, t);
    var b := Settle(w, answers, scope + {t});
    OneMoreRow(w, answers, scope, t);
    OneMoreTrim(w, answers, scope, t);
    OneMoreDown(w, answers, scope, t);
  }

  /** A desk's answer depends on nothing but its own law and where its trim stands. */
  lemma LandingLocal(desks: Desks, desks': Desks, t: Trim, delta: real)
    requires desks.Controls(t) && desks'.kits == desks.kits
    requires t in desks'.trims && desks'.trims[t] == desks.trims[t]
    ensures desks'.Controls(t)
    ensures Landing(desks', t, delta) == Landing(desks, t, delta)
    ensures Change(desks', t, delta) == Change(desks, t, delta)
  {}

  lemma OneMoreTrim(w: World, answers: set<Trim>, scope: set<Trim>, t: Trim)
    requires t !in scope && Distinct(w.live)
    ensures OneMove(w, Settle(w, answers, scope), answers, t).desks == Settle(w, answers, scope + {t}).desks
  {
    var s := Settle(w, answers, scope);
    var a := OneMove(w, s, answers, t);
    var b := Settle(w, answers, scope + {t});
    assert s.desks.trims.Keys == w.desks.trims.Keys;
    var sent := Find(w.live, t);
    if sent.Some? {
      var i, j := FindHas(w.live, t);
      if w.desks.Controls(t) {
        assert s.desks.trims[t] == w.desks.trims[t];
        LandingLocal(w.desks, s.desks, t, sent.value.owed);
      }
    }
    SettleTrimsGrow(w, answers, scope, t);
    assert a.desks.trims == b.desks.trims;
  }

  lemma SettleTrimsGrow(w: World, answers: set<Trim>, scope: set<Trim>, t: Trim)
    requires t !in scope
    ensures var moves := Find(w.live, t).Some? && Find(w.live, t).value.Id() == t
                         && Taken(Find(w.live, t).value, w.desks, w.down, answers);
            SettleTrims(w, answers, scope + {t})
            == if moves then SettleTrims(w, answers, scope)[t := Landing(w.desks, t, Find(w.live, t).value.owed)]
               else SettleTrims(w, answers, scope)
  {}

  lemma OneMoreDown(w: World, answers: set<Trim>, scope: set<Trim>, t: Trim)
    requires t !in scope && Distinct(w.live)
    ensures OneMove(w, Settle(w, answers, scope), answers, t).down == Settle(w, answers, scope + {t}).down
  {
    var s := Settle(w, answers, scope);
    var one := SettleDown(w, answers, {t});
    assert s.desks.trims.Keys == w.desks.trims.Keys;
    assert SettleDown(w, answers, scope + {t}) == SettleDown(w, answers, scope) + one;
    if Find(w.live, t).Some? {
      var i, j := FindHas(w.live, t);
      assert t in {t};
    }
  }

  /** The desk's answer is the one it gives in a full round. */
  lemma OneMoreAnswer(w: World, answers: set<Trim>, scope: set<Trim>, t: Trim)
    requires t !in scope && Find(w.live, t).Some?
    ensures var s := Settle(w, answers, scope);
            && (s.desks.Controls(t) <==> w.desks.Controls(t))
            && (w.desks.Controls(t) ==>
                  Change(s.desks, t, Find(w.live, t).value.owed) == Change(w.desks, t, Find(w.live, t).value.owed))
  {
    var s := Settle(w, answers, scope);
    assert s.desks.trims.Keys == w.desks.trims.Keys;
    if w.desks.Controls(t) {
      assert s.desks.trims[t] == w.desks.trims[t];
      LandingLocal(w.desks, s.desks, t, Find(w.live, t).value.owed);
    }
  }

  lemma OneMoreBook(w: World, answers: set<Trim>, scope: set<Trim>, t: Trim, i: int, j: int)
    requires t !in scope && Distinct(w.live) && Place(w.live, i, j)
    ensures var a := OneMove(w, Settle(w, answers, scope), answers, t); var b := Settle(w, answers, scope + {t});
            Place(a.live, i, j) && Place(b.live, i, j) && a.live[i].followers[j] == b.live[i].followers[j]
  {
    SettleAt(w, answers, scope, i, j);
    SettleAt(w, answers, scope + {t}, i, j);
    FindIs(w.live, i, j);
    if Find(w.live, t).Some? {
      var k, l := FindHas(w.live, t);
      OneMoreAnswer(w, answers, scope, t);
    }
    hide Find, Distinct, Change, Landing, Booked, SettleTrims, SettleDown, DbLaw.Index;
  }

  lemma OneMoreRow(w: World, answers: set<Trim>, scope: set<Trim>, t: Trim)
    requires t !in scope && Distinct(w.live)
    ensures OneMove(w, Settle(w, answers, scope), answers, t).live == Settle(w, answers, scope + {t}).live
  {
    hide Change, Landing, Booked, SettleTrims, SettleDown, SettleFollower, Offered, Taken, Distinct;
    var a := OneMove(w, Settle(w, answers, scope), answers, t);
    var b := Settle(w, answers, scope + {t});
    forall i | 0 <= i < |w.live| ensures a.live[i] == b.live[i] {
      forall j | 0 <= j < |w.live[i].followers|
        ensures a.live[i].followers[j] == b.live[i].followers[j]
      {
        OneMoreBook(w, answers, scope, t, i, j);
      }
      assert a.live[i].followers == b.live[i].followers;
    }
  }

  lemma {:induction false} FinishInOrder(w: World, answers: set<Trim>, done: set<Trim>, order: seq<Trim>)
    requires NoRepeats(order) && done !! Members(order) && Distinct(w.live)
    decreases |order|
    ensures InOrder(w, Settle(w, answers, done), answers, order) == Settle(w, answers, done + Members(order))
  {
    if order == [] {
      assert done + Members(order) == done;
    } else {
      assert order[0] in Members(order);
      OneMoreMove(w, answers, done, order[0]);
      forall t | t in order[1..] ensures t != order[0] && t in Members(order) {
        var k :| 0 <= k < |order[1..]| && order[1..][k] == t;
        assert order[k + 1] == t;
      }
      forall i, j | 0 <= i < j < |order[1..]| ensures order[1..][i] != order[1..][j] {
        assert order[i + 1] != order[j + 1];
      }
      FinishInOrder(w, answers, done + {order[0]}, order[1..]);
      assert order == [order[0]] + order[1..];
      assert done + {order[0]} + Members(order[1..]) == done + Members(order);
    }
  }

  /** The moves of a round may finish in any order: the books, the trims and the desks marked
      down come out the same. */
  lemma Confluent(w: World, answers: set<Trim>, order: seq<Trim>, other: seq<Trim>)
    requires Distinct(w.live)
    requires NoRepeats(order) && NoRepeats(other) && Members(order) == Members(other)
    ensures InOrder(w, w, answers, order) == InOrder(w, w, answers, other)
    ensures InOrder(w, w, answers, order) == Settle(w, answers, Members(order))
  {
    NothingInScope(w, answers);
    FinishInOrder(w, answers, {}, order);
    FinishInOrder(w, answers, {}, other);
    assert {} + Members(order) == Members(order);
    assert {} + Members(other) == Members(other);
  }

  lemma NothingInScope(w: World, answers: set<Trim>)
    ensures Settle(w, answers, {}) == w
  {
    var s := Settle(w, answers, {});
    forall i | 0 <= i < |w.live| ensures s.live[i] == w.live[i] {
      assert s.live[i].followers == w.live[i].followers;
    }
    assert s.live == w.live;
    assert s.desks.trims == w.desks.trims;
    assert s.down == w.down;
  }
}
