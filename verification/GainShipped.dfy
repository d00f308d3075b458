/** The desks the tool ships for, on one of the lattices the exact conservation law asks for. */
module GainShipped {
  import opened Bytes
  import opened Law
  import opened GainTable
  import opened GainSpec
  import opened GainLaws
  import opened Wrappers
  import Dlive

  /** dLive's gain steps, an X32's trim steps and a Wing's are all whole numbers of these. */
  const SHIPPED := 1.0 / 2540.0

  lemma GainsOnLattice(b: byte)
    ensures OnLattice(Dlive.GainFromByte(b), SHIPPED)
  {
    var k: int := if b < 127 then b else 127;
    assert Dlive.GainFromByte(b) == Span(12700 + 1100 * k, SHIPPED);
  }

  lemma StepsOnLattice()
    ensures SHIPPED >= EPSILON && OnLattice(X32_TRIM.step, SHIPPED) && OnLattice(WING_TRIM.step, SHIPPED)
  {
    assert X32_TRIM.step == Span(635, SHIPPED);
    assert WING_TRIM.step == Span(254, SHIPPED);
  }

  /** Every gain known is one a dLive's gain byte says. */
  ghost predicate DliveGains(w: World) {
    forall i :: 0 <= i < |w.live| && w.live[i].gain.Some? ==> exists b :: w.live[i].gain == Some(Dlive.GainFromByte(b))
  }

  /** Under a dLive leader, with X32s and Wings in any mix and nothing owed yet, the conservation law is
      exact. */
  lemma ShippedDesksAreFine(w: World)
    requires forall d <- w.desks.kits :: w.desks.kits[d].law in [X32_TRIM, WING_TRIM]
    requires DliveGains(w) && forall i, j :: Place(w.live, i, j) ==> w.live[i].followers[j].owed == 0.0
    ensures Fine(w, SHIPPED)
  {
    StepsOnLattice();
    LatticeZero(SHIPPED);
    forall i | 0 <= i < |w.live| && w.live[i].gain.Some? ensures OnLattice(w.live[i].gain.value, SHIPPED) {
      var b :| w.live[i].gain == Some(Dlive.GainFromByte(b));
      GainsOnLattice(b);
    }
  }
}
