/** Which instances a reconcile asks the provider to terminate. */
module Shutdowns {
  import opened Text
  import opened TaskRuns
  import opened Platforms
  import opened Cluster
  import opened HostPools
  import opened DynamicHosts
  import opened DynamicPools
  import opened Reconcile
  import opened Safety
  import opened Effects
  import opened Handlers
  import opened Machine

  // ---- handlers that launch and terminate nothing -------------------------------------------------------

  lemma ErrorSecretStops(w: World, u: UserId, tr: TaskRun, wr: Write, created: bool)
    ensures var w' := CreateErrorSecret(w, User(u), tr, u, wr, created).world; w'.stopped == w.stopped && w'.fleet == w.fleet && w'.live == w.live && w.tasks.Keys <= w'.tasks.Keys
  {
    hide StoredForm;
  }

  lemma LaunchProvisioningStops(w: World, u: UserId, tr: TaskRun, address: string, platform: string, c: Calls)
    ensures var w' := LaunchProvisioning(w, u, tr, address, platform, c).world; w'.stopped == w.stopped && w'.fleet == w.fleet && w'.live == w.live && w.tasks.Keys <= w'.tasks.Keys
  {
    hide CreateErrorSecret, ProvisionRun;
    ErrorSecretStops(w, u, tr, c.earlyWrite, c.earlyCreate);
  }

  lemma HostPoolAllocateStops(w: World, u: UserId, tr: TaskRun, hosts: map<string, Host>, platform: string, c: Calls)
    ensures var w' := HostPoolAllocate(w, u, tr, hosts, platform, c).world; w'.stopped == w.stopped && w'.fleet == w.fleet && w'.live == w.live && w.tasks.Keys <= w'.tasks.Keys
  {
    hide AssignHost, NoneFree, Split, Chosen, StoredForm;
    var failed := Split(FailedHostList(tr), ',');
    if !NoneFree(w, hosts, platform, failed) {
      AssignHostStops(w, u, tr, hosts[Chosen(w, hosts, platform, failed, c.pick)], platform, c);
    }
  }

  lemma AssignHostStops(w: World, u: UserId, tr: TaskRun, host: Host, platform: string, c: Calls)
    ensures var w' := AssignHost(w, u, tr, host, platform, c).world; w'.stopped == w.stopped && w'.fleet == w.fleet && w'.live == w.live && w.tasks.Keys <= w'.tasks.Keys
  {
    hide LaunchProvisioning, StoredForm;
    var tr1 := AddFinalizer(DropLabel(SetLabel(tr, AssignedHost, host.name), WaitingForPlatform));
    LaunchProvisioningStops(Save(w, User(u), tr1, c.write), u, tr1, host.address, platform, c);
  }

  lemma ReleaseStops(w: World, u: UserId, platform: string, c: Calls)
    ensures Release(w, u, platform, c).stopped == w.stopped
  {
    hide Wake, StoredForm;
    var _ := WakeIs(if c.secretDelete then w.(secrets := w.secrets - {u}) else w, platform, c);
  }

  lemma ReconcileProvisionStops(w: World, id: TaskId, c: Calls)
    requires id in w.tasks
    ensures ReconcileProvision(w, id, c).stopped == w.stopped
  {
    hide StoredForm, WithFailure, CreateErrorSecret;
    var u := OwnerOf(Annotate(w.tasks[id], ProvisionTaskProcessed, "true"));
    if User(u) in w.tasks {
      ErrorSecretStops(w, u, w.tasks[User(u)], c.errorWrite, c.errorCreate);
    }
  }

  // ---- the strategies --------------------------------------------------------------------------

  function NewInstance(c: Calls): set<string> {
    if c.launch.Launched? then {c.launch.id} else {}
  }

  lemma AssignInstanceStops(w: World, u: UserId, tr: TaskRun, d: PlatformConfig, address: string, c: Calls)
    requires d.DynamicResolver?
    ensures var w' := AssignInstance(w, u, tr, d, address, c).world;
      w'.stopped <= w.stopped + {InstanceOf(tr)} && w.tasks.Keys <= w'.tasks.Keys
  {
    hide LaunchProvisioning, StoredForm, Abandon;
    var tr1 := Annotate(SetLabel(tr, AssignedHost, InstanceOf(tr)), CloudAddress, address);
    var w1 := Save(w, User(u), tr1, c.write);
    LaunchProvisioningStops(w1, u, tr1, address, d.platform, c);
    LaunchProvisioningSame(w1, u, tr1, address, d.platform, c);
    var o := LaunchProvisioning(w1, u, tr1, address, d.platform, c);
    AbandonStops(o.world, u, o.tr, c);
  }

  lemma LaunchProvisioningSame(w: World, u: UserId, tr: TaskRun, address: string, platform: string, c: Calls)
    ensures InstanceOf(LaunchProvisioning(w, u, tr, address, platform, c).tr) == InstanceOf(tr)
  {
    hide Save, ProvisionRun;
  }

  lemma AbandonStops(w: World, u: UserId, tr: TaskRun, c: Calls)
    ensures var w' := Abandon(w, u, tr, c).world; w'.stopped == w.stopped + {InstanceOf(tr)} && w.tasks.Keys <= w'.tasks.Keys
  {
    hide StoredForm;
  }

  lemma PollInstanceStops(w: World, u: UserId, tr: TaskRun, d: PlatformConfig, c: Calls)
    requires d.DynamicResolver?
    ensures var w' := PollInstance(w, u, tr, d, c).world;
      w'.stopped <= w.stopped + {InstanceOf(tr)} && w.tasks.Keys <= w'.tasks.Keys
  {
    hide AssignInstance, Abandon;
    AbandonStops(w, u, tr, c);
    if c.address.Address? {
      AssignInstanceStops(w, u, tr, d, c.address.text, c);
    }
  }

  lemma LaunchForTaskStops(w: World, u: UserId, tr: TaskRun, d: PlatformConfig, c: Calls)
    requires d.DynamicResolver?
    ensures var w' := LaunchForTask(w, u, tr, d, c).world; w'.stopped <= w.stopped + NewInstance(c) && w.tasks.Keys <= w'.tasks.Keys
  {
    hide StoredForm, ParseInt64, Itoa, CanName, NewMachine;
  }

  lemma AwaitCapacityStops(w: World, u: UserId, tr: TaskRun, d: PlatformConfig, c: Calls)
    requires d.DynamicResolver?
    ensures var w' := AwaitCapacity(w, u, tr, d, c).world; w'.stopped == w.stopped && w'.fleet == w.fleet && w.tasks.Keys <= w'.tasks.Keys
  {
    hide StoredForm;
  }

  lemma DynamicAllocateStops(w: World, u: UserId, tr: TaskRun, d: PlatformConfig, c: Calls)
    requires d.DynamicResolver?
    ensures var w' := DynamicAllocate(w, u, tr, d, c).world;
      w'.stopped <= w.stopped + {InstanceOf(tr)} + NewInstance(c) && w.tasks.Keys <= w'.tasks.Keys
  {
    hide Abandon, PollInstance, LaunchForTask, AwaitCapacity, TimedOut, Counted;
    AbandonStops(w, u, tr, c);
    PollInstanceStops(w, u, tr, d, c);
    AwaitCapacityStops(w, u, tr, d, c);
    LaunchForTaskStops(w, u, tr, d, c);
  }

  lemma PoolAllocateStops(w: World, u: UserId, tr: TaskRun, p: PlatformConfig, c: Calls)
    requires p.DynamicHostPool?
    ensures var w' := PoolAllocate(w, u, tr, p, c).world;
      w'.stopped <= w.stopped + Retired(w, p, c) && w.tasks.Keys <= w'.tasks.Keys
  {
    hide HostPoolAllocate, Retired, Old, Counted, PoolHosts;
    HostPoolAllocateStops(Sweep(w, p, c), u, tr, PoolHosts(w, p, c), p.platform, c);
  }

  /** The instances a reconcile of `tr` may terminate. */
  function Targets(cfg: Settings, w: World, tr: TaskRun, c: Calls): set<string> {
    {"", InstanceOf(tr)} + NewInstance(c) + if Pooled(cfg, tr.platform) then Retired(w, cfg[tr.platform], c) else {}
  }

  lemma AllocateStops(cfg: Settings, w: World, u: UserId, tr: TaskRun, c: Calls)
    requires tr.platform in cfg
    ensures var w' := Allocate(w, u, tr, cfg[tr.platform], c).world;
      w'.stopped <= w.stopped + Targets(cfg, w, tr, c) && w.tasks.Keys <= w'.tasks.Keys
  {
    hide DynamicAllocate, PoolAllocate, HostPoolAllocate, Retired, StoredForm;
    match cfg[tr.platform]
    case Local =>
    case DynamicResolver(_, _, _, _, _, _, _, _, _, _) => DynamicAllocateStops(w, u, tr, cfg[tr.platform], c);
    case DynamicHostPool(_, _, _, _, _, _, _, _, _) => PoolAllocateStops(w, u, tr, cfg[tr.platform], c);
    case HostPool(hosts, platform) => HostPoolAllocateStops(w, u, tr, hosts, platform, c);
  }

  lemma HostPoolDeallocateStops(w: World, u: UserId, hosts: map<string, Host>, platform: string, selected: string, c: Calls)
    ensures HostPoolDeallocate(w, u, hosts, platform, selected, c).0.stopped == w.stopped
  {
    hide CleanExists, CleanRun;
  }

  /** Without a selected host the release of a pool host may ask for the termination of "". */
  lemma UnlabelledDeallocateStops(w: World, u: UserId, p: PlatformConfig, c: Calls)
    requires p.DynamicHostPool?
    ensures PoolDeallocate(w, u, p, "", c).0.stopped <= w.stopped + Retired(w, p, c) + {""}
  {
    hide Retired, PoolHosts, Old, Idle, HostPoolDeallocate;
    HostPoolDeallocateStops(Sweep(w, p, c), u, PoolHosts(w, p, c), p.platform, "", c);
  }

  lemma DeallocateStops(cfg: Settings, w: World, u: UserId, c: Calls)
    requires User(u) in w.tasks && w.tasks[User(u)].platform in cfg
    ensures var tr := w.tasks[User(u)];
      Deallocate(w, u, tr, cfg[tr.platform], c).world.stopped <= w.stopped + Targets(cfg, w, tr, c)
  {
    hide PoolDeallocate, HostPoolDeallocate, Retired, HostOf;
    var tr := w.tasks[User(u)];
    match cfg[tr.platform]
    case Local =>
    case DynamicResolver(_, _, _, _, _, _, _, _, _, _) =>
    case DynamicHostPool(_, _, _, _, _, _, _, _, _) =>
      if HostOf(tr) != "" {
        PoolDeallocateStops(w, u, cfg[tr.platform], HostOf(tr), c);
      } else {
        UnlabelledDeallocateStops(w, u, cfg[tr.platform], c);
      }
    case HostPool(hosts, platform) => HostPoolDeallocateStops(w, u, hosts, platform, HostOf(tr), c);
  }

  lemma HostAssignedStops(cfg: Settings, w: World, u: UserId, c: Calls)
    requires User(u) in w.tasks
    ensures var tr := w.tasks[User(u)];
      HostAssigned(cfg, w, u, tr, c).world.stopped <= w.stopped + Targets(cfg, w, tr, c)
  {
    hide Deallocate, Release, StoredForm, Targets;
    var tr := w.tasks[User(u)];
    if tr.platform in cfg {
      DeallocateStops(cfg, w, u, c);
      var o := Deallocate(w, u, tr, cfg[tr.platform], c);
      ReleaseStops(Save(o.world, User(u), DropLabel(RemoveFinalizer(o.tr), AssignedHost), c.write), u, tr.platform, c);
    }
  }

  lemma HostAllocationStops(cfg: Settings, w: World, u: UserId, tr: TaskRun, c: Calls)
    ensures var w' := HostAllocation(cfg, w, u, tr, c).world;
      w'.stopped <= w.stopped + Targets(cfg, w, tr, c) && w.tasks.Keys <= w'.tasks.Keys
  {
    hide Allocate, CreateErrorSecret, Targets;
    ErrorSecretStops(w, u, tr, c.earlyWrite, c.earlyCreate);
    if tr.platform in cfg {
      AllocateStops(cfg, w, u, tr, c);
    }
  }

  lemma ReconcileUserStops(cfg: Settings, w: World, u: UserId, c: Calls)
    requires User(u) in w.tasks
    ensures ReconcileUser(cfg, w, u, c).world.stopped <= w.stopped + Targets(cfg, w, w.tasks[User(u)], c)
  {
    hide HostAssigned, HostAllocation, CreateErrorSecret, Targets, Validation.ValidPlatformFormat, PlatformLabel;
    var tr := w.tasks[User(u)];
    HostAssignedStops(cfg, w, u, c);
    ErrorSecretStops(w, u, tr, c.errorWrite, c.errorCreate);
    var tr1 := if Get(tr.labels, TargetPlatform) == "" then SetLabel(tr, TargetPlatform, PlatformLabel(tr.platform)) else tr;
    HostAllocationStops(cfg, w, u, tr1, c);
    SameTargets(cfg, w, tr, tr1, c);
    var o := HostAllocation(cfg, w, u, tr1, c);
    ErrorSecretStops(o.world, u, o.tr, c.errorWrite, c.errorCreate);
  }

  lemma SameTargets(cfg: Settings, w: World, a: TaskRun, b: TaskRun, c: Calls)
    requires a.platform == b.platform && InstanceOf(a) == InstanceOf(b)
    ensures Targets(cfg, w, a, c) == Targets(cfg, w, b, c)
  {
    hide Retired;
  }

  // ---- no pool instance is shut down in use ---------------------------------------------------------

  lemma TargetsUnused(cfg: Settings, w: World, u: UserId, c: Calls, i: string)
    requires WellFormed(cfg) && Good(cfg, w) && User(u) in w.tasks
    requires c.launch.Launched? ==> FreshId(cfg, w, c.launch.id)
    requires i in Targets(cfg, w, w.tasks[User(u)], c)
    ensures Stoppable(cfg, w, i)
  {
    hide Good, Retired, WellFormed, SeenOk, AllFailuresOk, StaticName, MachineFor;
    var tr := w.tasks[User(u)];
    GoodParts(cfg, w);
    if Pooled(cfg, tr.platform) && i in Retired(w, cfg[tr.platform], c) {
      RetiredStoppable(cfg, w, tr.platform, c, i);
    } else {
      assert UserOk(cfg, tr);
      assert !PoolMachine(cfg, w, i);
    }
  }

  /** An instance of a pool that a step asks to terminate is past its age, and no TaskRun names it
      at the start of the step. */
  lemma StepStops(cfg: Settings, w: World, e: Event, i: string)
    requires WellFormed(cfg) && Good(cfg, w) && Admissible(cfg, w, e)
    requires i in Step(cfg, w, e).stopped && i !in w.stopped
    ensures Stoppable(cfg, w, i)
  {
    hide Good, Stoppable, WellFormed, FreshId, ReconcileUser, ReconcileProvision, ReconcileClean, Untouched, StaticName, Targets;
    if e.ProvisionReconciled? {
      ReconcileProvisionStops(w, e.id, e.c);
    } else if e.CleanReconciled? {
      CleanStops(w, e.id, e.c);
    }
    assert e.UserReconciled?;
    ReconcileUserStops(cfg, w, e.u, e.c);
    TargetsUnused(cfg, w, e.u, e.c, i);
  }

  lemma CleanStops(w: World, id: TaskId, c: Calls)
    requires id in w.tasks
    ensures ReconcileClean(w, id, c).stopped == w.stopped
  {
  }
}
