/** The instance limit of an auto-scaling pool: dynamicpool.go:30-60 and 103-147. */
module PoolLimits {
  import opened Collections
  import opened TaskRuns
  import opened Platforms
  import opened Cluster
  import opened HostPools
  import opened DynamicPools
  import opened PoolCounting
  import opened Reconcile
  import opened Safety
  import opened Effects
  import opened Machine
  import opened Shutdowns
  import opened Scenarios
  import opened InstanceTags

  // ---- one pass ------------------------------------------------------------------------------

  /** A launch leaves at most the limit and the expired instances seen in the pass. */
  lemma LaunchWithinTotal(w: World, w1: World, u: UserId, tr: TaskRun, p: PlatformConfig, earlier: Error, c: Calls)
    requires p.DynamicHostPool?
    ensures var o := Scale(w, w1, u, tr, p, earlier, c);
      o.world != w1 ==> |Counted(o.world, p)| <= p.maxInstances + |Old(w, p, c)|
  {
    var o := Scale(w, w1, u, tr, p, earlier, c);
    if o.world != w1 {
      var counted := Counted(w1, p);
      assert Counted(o.world, p) <= counted + {c.launch.id};
      SubsetSize(Counted(o.world, p), counted + {c.launch.id});
      hide *;
    }
  }

  /** The same for the whole allocation: the only launch of a pass is the last thing it does. */
  lemma PoolAllocateWithinTotal(w: World, u: UserId, tr: TaskRun, p: PlatformConfig, c: Calls)
    requires p.DynamicHostPool?
    ensures var o := PoolAllocate(w, u, tr, p, c);
      o.world.fleet != w.fleet ==> |Counted(o.world, p)| <= p.maxInstances + |Old(w, p, c)|
  {
    hide Scale, HostPoolAllocate, PoolHosts, Counted, Old, Retired;
    var hosts, w1 := PoolHosts(w, p, c), Sweep(w, p, c);
    if !c.instancesFail && hosts == map[] {
      LaunchWithinTotal(w, w1, u, tr, p, NoError, c);
    } else if !c.instancesFail {
      var o := HostPoolAllocate(w1, u, tr, hosts, p.platform, c);
      HostPoolAllocateStops(w1, u, tr, hosts, p.platform, c);
      LaunchWithinTotal(w, o.world, u, o.tr, p, o.error, c);
    }
  }

  // ---- when a pass exceeds the limit ------------------------------------------------------------

  /** The pool can launch, and finds the instance it launches: always on AWS, on IBM if the tag is canonical. */
  predicate FindsNew(p: PlatformConfig, c: Calls)
    requires p.DynamicHostPool? && c.launch.Launched?
  {
    CanName(p) && FindsMark(p, MarkFor(p, c.launch.hash))
  }

  lemma YoungAfterLaunch(w: World, p: PlatformConfig, u: UserId, c: Calls, undercounted: set<string>)
    requires p.DynamicHostPool? && Launches(p, c) && c.launch.id !in w.fleet && 0 <= p.maxAge
    ensures var i := c.launch.id; var w' := Boot(w, i, NewMachine(p, u, c, w.clock)).(undercounted := undercounted);
      Young(w', p) == (if FindsNew(p, c) then Young(w, p) + {i} else Young(w, p)) && i !in Young(w, p)
  {
    hide Named;
  }

  /** Whether the pass launches. */
  lemma ScaleLaunches(w: World, w1: World, u: UserId, tr: TaskRun, p: PlatformConfig, earlier: Error, c: Calls)
    requires p.DynamicHostPool? && c.launch.Launched? && !c.countFails && !c.randomFails
    ensures var o := Scale(w, w1, u, tr, p, earlier, c);
      o.world == if |Counted(w1, p)| - |Old(w, p, c)| >= p.maxInstances || !CanName(p) then w1 else
        Boot(w1, c.launch.id, NewMachine(p, u, c, w1.clock)).(undercounted := o.world.undercounted)
  {
    hide Counted, Old, Retired;
  }

  lemma FindsNewIs(p: PlatformConfig, c: Calls)
    requires p.DynamicHostPool? && c.launch.Launched?
    ensures (FindsNew(p, c) ==> CanName(p)) && Launches(p, c) == CanName(p)
  {
  }

  lemma UndercountsIs(w: World, p: PlatformConfig, c: Calls)
    requires p.DynamicHostPool?
    ensures Undercounts(w, p, c) <==> |Forgotten(w, p, c)| > |Unlisted(w, p, c)|
  {
  }

  /** A pass that can launch puts the pool over its limit of unexpired instances exactly when the pool is at
      the limit and more of the instances just stopped are no longer counted than expired ones go unlisted. */
  lemma OvershootsIff(w: World, w1: World, u: UserId, tr: TaskRun, p: PlatformConfig, earlier: Error, c: Calls)
    requires p.DynamicHostPool? && w1 == Sweep(w, p, c).(tasks := w1.tasks)
    requires c.launch.Launched? && c.launch.id !in w.fleet && !c.countFails && !c.randomFails && 0 <= p.maxAge
    requires |Young(w, p)| <= p.maxInstances
    ensures var o := Scale(w, w1, u, tr, p, earlier, c);
      |Young(o.world, p)| > p.maxInstances <==>
        |Young(w, p)| == p.maxInstances && Undercounts(w, p, c) && FindsNew(p, c)
  {
    hide Scale, Counted, Old, Young, Forgotten, Unlisted, Undercounts, FindsNew, Sweep, CanName, Launches;
    var o := Scale(w, w1, u, tr, p, earlier, c);
    CountedInPass(w, w1, p, c);
    SweepFrame(w, p, c);
    YoungAfterSweep(w, w1, p, c);
    ScaleLaunches(w, w1, u, tr, p, earlier, c);
    if Launches(p, c) {
      YoungAfterLaunch(w1, p, u, c, o.world.undercounted);
    }
    FindsNewIs(p, c);
    UndercountsIs(w, p, c);
  }

  // ---- a run that exceeds the limit ------------------------------------------------------------------

  const PLATFORM: string := "linux/x86_64"
  const POOL := DynamicHostPool("aws", "ssh", PLATFORM, 1, 10, 1, "pool", [], map[])
  const CONFIG: Settings := map[PLATFORM := POOL]
  const TASK := UserId("ns", "build")
  const TASKRUN := New(PLATFORM)

  function Pass(reachable: set<string>, gone: set<string>, id: string): Calls {
    Smooth(reachable, gone, id)
  }

  lemma EmptyPoolScales(w: World, tr: TaskRun, c: Calls)
    requires !c.instancesFail && PoolHosts(w, POOL, c) == map[]
    ensures PoolAllocate(w, TASK, tr, POOL, c) == Scale(w, Sweep(w, POOL, c), TASK, tr, POOL, NoError, c)
  {
    hide PoolHosts, Sweep, Scale, HostPoolAllocate;
  }

  lemma PassReconciles(w: World, c: Calls)
    requires w.tasks == map[User(TASK) := TASKRUN] && TASK !in w.secrets && !c.secretReadFails && !c.configFails
    ensures var o := PoolAllocate(w, TASK, SetLabel(TASKRUN, TargetPlatform, PlatformLabel(PLATFORM)), POOL, c);
      o.error == NoError ==> ReconcileUser(CONFIG, w, TASK, c).world == o.world
  {
    assert Validation.ValidPlatformFormat(PLATFORM);
    hide Validation.ValidPlatformFormat, PoolAllocate, PlatformLabel;
    assert HostOf(TASKRUN) == "" && !Finished(TASKRUN);
    assert CONFIG[PLATFORM] == POOL;
  }

  lemma PassLaunches(w: World, reachable: set<string>, gone: set<string>, id: string)
    requires w.tasks == map[User(TASK) := TASKRUN] && TASK !in w.secrets
    requires var c := Pass(reachable, gone, id);
      PoolHosts(w, POOL, c) == map[] && |Counted(Sweep(w, POOL, c), POOL)| - |Old(w, POOL, c)| < 1
    ensures var c := Pass(reachable, gone, id); var w1 := Sweep(w, POOL, c);
      ReconcileUser(CONFIG, w, TASK, c).world ==
        Boot(w1, id, Cluster.Machine(PLATFORM, "aws", [], "pool", TASK, w.clock)).(undercounted :=
          if Undercounts(w, POOL, c) then w.undercounted + {PLATFORM} else w.undercounted)
  {
    hide ReconcileUser, PoolAllocate, Counted, Old, Retired, PoolHosts, PlatformLabel;
    var c := Pass(reachable, gone, id);
    PassReconciles(w, c);
    EmptyPoolScales(w, SetLabel(TASKRUN, TargetPlatform, PlatformLabel(PLATFORM)), c);
  }

  const M0 := Cluster.Machine(PLATFORM, "aws", [], "pool", TASK, 0)
  const M1 := Cluster.Machine(PLATFORM, "aws", [], "pool", TASK, 100)
  const W0 := EMPTY
  const W1 := W0.(tasks := map[User(TASK) := TASKRUN], seen := {TASK})
  const W2 := W1.(fleet := map["a" := M0], live := {"a"})
  const W3 := W2.(clock := 100)
  const W4 := W3.(fleet := map["a" := M0, "b" := M1], live := {"a", "b"}, stopped := {"a"})
  const W5 := W4.(fleet := map["a" := M0, "b" := M1, "c" := M1], live := {"b", "c"}, undercounted := {PLATFORM})

  /** What a pass sees and does. */
  ghost predicate Sees(w: World, c: Calls, aged: set<string>, counted: set<string>) {
    && PoolHosts(w, POOL, c) == map[]
    && Old(w, POOL, c) == aged && Retired(w, POOL, c) == aged && Unlisted(w, POOL, c) == {}
    && Counted(Sweep(w, POOL, c), POOL) == counted
  }

  lemma PassLeads(w: World, w': World, reachable: set<string>, gone: set<string>, id: string, aged: set<string>, counted: set<string>)
    requires w.tasks == map[User(TASK) := TASKRUN] && TASK !in w.secrets && id !in w.fleet && id !in w.stopped && id != "" && id != "localhost"
    requires Sees(w, Pass(reachable, gone, id), aged, counted) && |counted| - |aged| < 1
    requires w' == w.(stopped := w.stopped + aged, live := w.live - aged * gone + {id},
                      fleet := w.fleet[id := Cluster.Machine(PLATFORM, "aws", [], "pool", TASK, w.clock)],
                      undercounted := if aged * gone == {} then w.undercounted else w.undercounted + {PLATFORM})
    ensures Leads(CONFIG, w, w')
  {
    hide ReconcileUser, Old, Retired, Counted, PoolHosts, Unlisted;
    var c := Pass(reachable, gone, id);
    assert Undercounts(w, POOL, c) <==> aged * gone != {};
    PassLaunches(w, reachable, gone, id);
    NoStaticNames(CONFIG, id);
    ReconcileLeads(CONFIG, w, TASK, c);
  }

  lemma FirstLaunch()
    ensures Leads(CONFIG, W1, W2)
  {
    assert Sees(W1, Pass({}, {}, "a"), {}, {});
    hide Sees, Leads;
    PassLeads(W1, W2, {}, {}, "a", {}, {});
  }

  /** A pass that reaches "a" only, when "a" is expired. */
  lemma AgedSees(w: World, gone: set<string>, id: string)
    requires w.tasks == map[User(TASK) := TASKRUN] && "a" in w.live && w.live <= w.fleet.Keys
    requires w.fleet["a"] == M0 && w.clock == 100 && forall i :: i in w.fleet ==> w.fleet[i].provider == "aws" && w.fleet[i].scope == [] && w.fleet[i].mark == "pool"
    requires forall i :: i in w.live && i != "a" ==> w.fleet[i] == M1
    ensures Sees(w, Pass({"a"}, gone, id), {"a"}, w.live - {"a"} * gone)
  {
    var c := Pass({"a"}, gone, id);
    assert Listed(w, POOL, c) == {"a"};
    assert Expired(w, "a", 10);
    assert Idle(w, "a");
    assert Old(w, POOL, c) == {"a"};
    assert Retired(w, POOL, c) == {"a"};
    hide Listed, Idle;
    assert PoolHosts(w, POOL, c) == map[];
    AllListed(w, c);
    hide Old, Retired, PoolHosts, Unlisted;
    assert Counted(Sweep(w, POOL, c), POOL) == w.live - {"a"} * gone;
  }

  lemma AllListed(w: World, c: Calls)
    requires "a" in c.reachable && w.clock == 100
    requires forall i :: i in w.live && i in w.fleet && i != "a" ==> w.fleet[i] == M1
    ensures Unlisted(w, POOL, c) == {}
  {
  }

  lemma SecondLaunch()
    ensures Leads(CONFIG, W3, W4)
  {
    AgedSees(W3, {}, "b");
    hide Sees, Leads;
    assert W3.live - {"a"} * {} == {"a"};
    PassLeads(W3, W4, {"a"}, {}, "b", {"a"}, {"a"});
  }

  lemma ThirdWorld()
    ensures W5 == W4.(stopped := W4.stopped + {"a"}, live := W4.live - {"a"} * {"a"} + {"c"},
                      fleet := W4.fleet["c" := Cluster.Machine(PLATFORM, "aws", [], "pool", TASK, W4.clock)],
                      undercounted := if {"a"} * {"a"} == {} then W4.undercounted else W4.undercounted + {PLATFORM})
  {
    assert {"a"} * {"a"} == {"a"};
    assert {"a", "b"} - {"a"} + {"c"} == {"b", "c"};
  }

  lemma ThirdLaunch()
    ensures Leads(CONFIG, W4, W5)
  {
    hide Sees, Leads;
    AgedSees(W4, {"a"}, "c");
    assert W4.live - {"a"} * {"a"} == {"b"};
    ThirdWorld();
    PassLeads(W4, W5, {"a"}, {"a"}, "c", {"a"}, {"b"});
  }

  lemma Arrival()
    ensures Leads(CONFIG, W0, W1) && Leads(CONFIG, W2, W3)
  {
    hide Leads;
    assert W1 == Arrive(W0, TASK, TASKRUN) && W3 == W2.(clock := W2.clock + 100);
    ArrivalLeads(CONFIG, W0, TASK, TASKRUN);
    TickLeads(CONFIG, W2, 100);
  }

  lemma ConfigWellFormed()
    ensures WellFormed(CONFIG) && Initial(W0) && YoungOf(W5, PLATFORM, POOL.maxAge) == {"b", "c"}
  {
  }

  /** The limit of unexpired instances can be exceeded: a pool with a limit of one ends up with two, because an
      expired instance is subtracted from the count although the provider has stopped counting it. */
  lemma OvershootingRun() returns (ws: seq<World>)
    ensures Run(CONFIG, ws) && CONFIG[PLATFORM].DynamicHostPool?
    ensures |YoungOf(ws[|ws| - 1], PLATFORM, POOL.maxAge)| > POOL.maxInstances
  {
    hide Leads, WellFormed, Initial, YoungOf;
    Arrival();
    FirstLaunch();
    SecondLaunch();
    ThirdLaunch();
    ConfigWellFormed();
    var w0, w1, w2, w3, w4, w5 := W0, W1, W2, W3, W4, W5;
    ws := [w0, w1, w2, w3, w4, w5];
    assert |{"b", "c"}| == 2;
  }
}
