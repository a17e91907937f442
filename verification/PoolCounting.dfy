/** What a pass over a pool counts: dynamicpool.go:30-60 and 119-133. */
module PoolCounting {
  import opened Cluster
  import opened Platforms
  import opened DynamicPools

  function Young(w: World, p: PlatformConfig): set<string>
    requires p.DynamicHostPool?
  {
    set i | i in Counted(w, p) && !Expired(w, i, p.maxAge)
  }

  /** The counted instances are the unexpired, the listed expired and the unlisted expired ones. */
  lemma CountedParts(w: World, p: PlatformConfig, c: Calls)
    requires p.DynamicHostPool?
    ensures Counted(w, p) == Young(w, p) + Old(w, p, c) + Unlisted(w, p, c)
    ensures Young(w, p) !! Old(w, p, c) && Young(w, p) !! Unlisted(w, p, c) && Old(w, p, c) !! Unlisted(w, p, c)
    ensures Forgotten(w, p, c) <= Old(w, p, c)
  {
    hide Idle;
  }

  lemma CountedAfterSweep(w: World, w1: World, p: PlatformConfig, c: Calls)
    requires p.DynamicHostPool? && w1 == Sweep(w, p, c).(tasks := w1.tasks)
    ensures Counted(w1, p) == Counted(w, p) - Forgotten(w, p, c)
  {
    hide Retired;
  }

  lemma YoungAfterSweep(w: World, w1: World, p: PlatformConfig, c: Calls)
    requires p.DynamicHostPool? && w1 == Sweep(w, p, c).(tasks := w1.tasks)
    ensures Young(w1, p) == Young(w, p)
  {
    CountedAfterSweep(w, w1, p, c);
    CountedParts(w, p, c);
    hide Retired, Old, Counted, Forgotten, Sweep;
    forall i ensures Expired(w1, i, p.maxAge) == Expired(w, i, p.maxAge) {
      SweepFrame(w, p, c);
    }
  }

  lemma SweepFrame(w: World, p: PlatformConfig, c: Calls)
    requires p.DynamicHostPool?
    ensures var w1 := Sweep(w, p, c);
      w1 == w.(stopped := w.stopped + Retired(w, p, c), live := w1.live) && (c.gone == {} ==> w1.live == w.live)
  {
    hide Retired;
  }

  /** What the pass compares with the limit. */
  lemma CountedInPass(w: World, w1: World, p: PlatformConfig, c: Calls)
    requires p.DynamicHostPool? && w1 == Sweep(w, p, c).(tasks := w1.tasks)
    ensures |Counted(w1, p)| - |Old(w, p, c)| == |Young(w, p)| + |Unlisted(w, p, c)| - |Forgotten(w, p, c)|
  {
    hide Counted, Old, Retired, Young, Unlisted, Forgotten, Sweep;
    CountedParts(w, p, c);
    CountedAfterSweep(w, w1, p, c);
    var young, aged, unlisted, forgotten := Young(w, p), Old(w, p, c), Unlisted(w, p, c), Forgotten(w, p, c);
    var before, after := Counted(w, p), Counted(w1, p);
    assert |young + aged + unlisted| == |young| + |aged| + |unlisted|;
    assert before == after + forgotten && after !! forgotten;
  }
}
