/** Building runs: what is needed to show that something can happen. */
module Scenarios {
  import opened TaskRuns
  import opened Platforms
  import opened Cluster
  import opened HostPools
  import opened DynamicPools
  import opened Reconcile
  import opened Safety
  import opened Effects
  import opened Machine
  import opened InstanceTags

  lemma ArrivalLeads(cfg: Settings, w: World, u: UserId, tr: TaskRun)
    requires u !in w.seen && Untouched(tr)
    ensures Leads(cfg, w, Arrive(w, u, tr))
  {
    hide ReconcileUser, ReconcileProvision, ReconcileClean, Untouched;
    assert Admissible(cfg, w, UserCreated(u, tr)) && Arrive(w, u, tr) == Step(cfg, w, UserCreated(u, tr));
  }

  lemma TickLeads(cfg: Settings, w: World, t: nat)
    ensures Leads(cfg, w, w.(clock := w.clock + t))
  {
    hide ReconcileUser, ReconcileProvision, ReconcileClean;
    assert Admissible(cfg, w, Ticked(t)) && w.(clock := w.clock + t) == Step(cfg, w, Ticked(t));
  }

  lemma ReconcileLeads(cfg: Settings, w: World, u: UserId, c: Calls)
    requires User(u) in w.tasks && (c.launch.Launched? ==> FreshId(cfg, w, c.launch.id))
    ensures Leads(cfg, w, ReconcileUser(cfg, w, u, c).world)
  {
    hide ReconcileUser, ReconcileProvision, ReconcileClean, FreshId;
    var e := UserReconciled(u, c);
    assert Admissible(cfg, w, e) && Step(cfg, w, e) == ReconcileUser(cfg, w, u, c).world;
  }

  lemma NoStaticNames(cfg: Settings, h: string)
    requires forall p :: p in cfg ==> !cfg[p].HostPool?
    ensures !StaticName(cfg, h)
  {
  }

  const EMPTY := World(map[], {}, map[], {}, {}, 0, {}, map[], {})

  /** A TaskRun as a user creates it. */
  function New(platform: string): TaskRun {
    TaskRun(map[], map[], [], platform, 0, false, false, false)
  }

  /** A reconcile in which every call succeeds: the instances `reachable` are listed, `id` is launched if it comes to
      that, and the provider forgets the instances `gone` as soon as they are stopped. */
  function Smooth(reachable: set<string>, gone: set<string>, id: string): Calls {
    Calls(false, false, Direct, Direct, Direct, true, Direct, true, true, true, false, "", true, AddressError, StateOk,
          false, Launched(id, HashFrom("")), false, reachable, {}, gone, false, false, true, true, false, HostUpdate(0), Direct,
          false, true, true)
  }

  lemma EmptyRun(cfg: Settings)
    requires WellFormed(cfg)
    ensures Run(cfg, [EMPTY])
  {
    hide WellFormed;
  }

  /** One more world. */
  lemma Extend(cfg: Settings, ws: seq<World>, w: World)
    requires Run(cfg, ws) && Leads(cfg, ws[|ws| - 1], w)
    ensures Run(cfg, ws + [w])
  {
    hide Leads, WellFormed, Initial;
    var ws' := ws + [w];
    forall k | 0 < k < |ws'| ensures Leads(cfg, ws'[k - 1], ws'[k]) {
      if k < |ws| {
        assert ws'[k - 1] == ws[k - 1] && ws'[k] == ws[k];
      }
    }
  }

  // ---- unused names -----------------------------------------------------------------------------

  lemma {:induction false} LengthBound(names: set<string>) returns (n: nat)
    ensures forall s :: s in names ==> |s| <= n
  {
    if names == {} {
      n := 0;
    } else {
      var s :| s in names;
      var m := LengthBound(names - {s});
      n := if |s| > m then |s| else m;
    }
  }

  lemma UnusedName(names: set<string>) returns (s: string)
    ensures s !in names
  {
    var n := LengthBound(names);
    s := seq(n + 1, _ => 'x');
  }

  lemma UnusedUser(w: World) returns (u: UserId)
    ensures u !in w.seen
  {
    var names := set v | v in w.seen :: v.name;
    var s := UnusedName(names);
    u := UserId("ns", s);
    assert u in w.seen ==> u.name in names;
  }

  lemma UnusedId(cfg: Settings, w: World, others: set<string>) returns (i: string)
    ensures FreshId(cfg, w, i) && i !in others
  {
    var statics := set p, h | p in cfg && cfg[p].HostPool? && h in cfg[p].hosts :: h;
    var s := UnusedName(w.fleet.Keys + w.stopped + {"", "localhost"} + statics + others);
    i := s;
    assert StaticName(cfg, i) ==> i in statics;
  }

  // ---- reconciles of new tasks --------------------------------------------------------------------

  /** The reconcile of a new task, without errors, is its allocation. */
  lemma NewTaskAllocates(cfg: Settings, w: World, u: UserId, p: string, c: Calls)
    requires User(u) in w.tasks && w.tasks[User(u)] == New(p) && u !in w.secrets && p in cfg
    requires Validation.ValidPlatformFormat(p) && !c.secretReadFails && !c.configFails
    ensures var o := Allocate(w, u, Labelled(p), cfg[p], c);
      o.error == NoError ==> ReconcileUser(cfg, w, u, c).world == o.world
  {
    hide Validation.ValidPlatformFormat, Allocate, PlatformLabel;
    assert HostOf(New(p)) == "" && !Finished(New(p));
  }

  /** The new task in memory. */
  function Labelled(p: string): TaskRun {
    SetLabel(New(p), TargetPlatform, PlatformLabel(p))
  }

  lemma LabelledIsNew(p: string)
    ensures FailedHostList(Labelled(p)) == "" && InstanceOf(Labelled(p)) == "" && WaitingOf(Labelled(p)) == "" && WaitingOf(New(p)) == ""
    ensures HostOf(New(p)) == ""
  {
    hide PlatformLabel;
  }

  /** A pool that lists no usable host and is below its limit launches. */
  lemma EmptyPoolLaunches(w: World, u: UserId, tr: TaskRun, pc: PlatformConfig, c: Calls)
    requires pc.DynamicHostPool? && !c.instancesFail && !c.countFails && !c.randomFails && Launches(pc, c)
    requires PoolHosts(w, pc, c) == map[] && |Counted(Sweep(w, pc, c), pc)| - |Old(w, pc, c)| < pc.maxInstances
    ensures var o := PoolAllocate(w, u, tr, pc, c); var w1 := Sweep(w, pc, c);
      && o.error == NoError
      && o.world == Boot(w1, c.launch.id, NewMachine(pc, u, c, w1.clock)).(undercounted :=
           if Undercounts(w, pc, c) then w1.undercounted + {pc.platform} else w1.undercounted)
  {
    hide PoolHosts, Sweep, Counted, Old, Undercounts, HostPoolAllocate, NewMachine, CanName;
  }
}
