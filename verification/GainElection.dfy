/** What a new leader inherits from the old one: whether a signal's preamp is "the same" is decided by
    its number and its object number, not by the desk it is on. */
module GainElection {
  import opened Wrappers
  import opened GainTable
  import opened GainSpec

  /** The new leader's preamp for a signal looks like the old one's. */
  predicate LooksTheSame(w: World, device: string, i: nat, k: nat)
    requires i < |w.signals| && k < |w.live|
  {
    var preamp := LeaderPreamp(w.signals[i], device);
    w.live[k].preamp == preamp && w.live[k].ono == LeaderOno(preamp, device, w.desks)
  }

  predicate NamesDiffer(signals: seq<Signal>) {
    forall i, k :: 0 <= i < k < |signals| ==> signals[i].name != signals[k].name
  }

  /** A row starts an election's new table empty exactly if the new leader's preamp has another number or
      another object number, or the old row was empty itself. */
  lemma NothingCarriesIff(w: World, device: string, i: nat)
    requires !w.locked && CanLead(w.signals, device) && i < |w.signals|
    ensures var k := Named(w.live, w.signals[i].name); var l := Elect(w, device).live[i];
            (l.gain == None && l.reference == None && l.expected == [])
            <==> (|| k == |w.live| || !LooksTheSame(w, device, i, k)
                  || (w.live[k].gain == None && w.live[k].reference == None && w.live[k].expected == []))
  {}

  lemma {:induction false} NamedInOrder(live: seq<Live>, signals: seq<Signal>, i: nat)
    requires |live| == |signals| && NamesDiffer(signals) && i < |signals|
    requires forall k :: 0 <= k < |live| ==> live[k].name == signals[k].name
    ensures Named(live, signals[i].name) == i
  {
    if i > 0 {
      assert live[0].name != signals[i].name;
      NamedInOrder(live[1..], signals[1..], i - 1);
    }
  }

  /** Resolving again for the same leader and desks keeps what each row knows. */
  lemma ResolveAgain(w: World, i: nat)
    requires NamesDiffer(w.signals) && i < |w.signals|
    ensures var (l, l') := (Resolve(w).live[i], Resolve(Resolve(w)).live[i]);
            && l'.gain == l.gain && l'.reference == l.reference && l'.ono == l.ono && l'.expected == l.expected
  {
    NamedInOrder(Resolve(w).live, w.signals, i);
  }

  /** Locking on a new leader that cannot be read: its signal is armed, on a gain only the old leader
      ever had, exactly if the two preamps look the same and the old one's gain was known. Otherwise it
      waits for the new leader's first report. */
  lemma UnreadLeaderArmsIff(w: World, device: string, i: nat, readings: seq<Option<real>>, now: nat)
    requires !w.locked && CanLead(w.signals, device) && NamesDiffer(w.signals) && i < |w.signals|
    requires ReadAt(readings, i) == None
    requires LeaderOno(LeaderPreamp(w.signals[i], device), device, w.desks).Some?
    ensures var k := Named(w.live, w.signals[i].name); var l := Lock(Elect(w, device), readings, now).live[i];
            && (l.Armed() <==> k < |w.live| && LooksTheSame(w, device, i, k) && w.live[k].gain.Some?)
            && (l.Armed() ==> l.reference == w.live[k].gain)
  {
    ResolveAgain(w.(leader := device), i);
  }
}
