/** What the handler of user tasks must do: allocate for a task that needs a host, end failures in an error secret, and
    clean up after a finished task. */
module HandlerOutcomes {
  import opened Text
  import opened TaskRuns
  import opened Platforms
  import opened Cluster
  import opened HostPools
  import opened DynamicHosts
  import opened DynamicPools
  import opened PoolCounting
  import opened Reconcile
  import opened Safety
  import opened Handlers
  import opened Shutdowns
  import opened Outcomes
  import opened AllocationOutcomes
  import Theorems

  // ---- tasks that need a host -----------------------------------------------------------------------

  /** The stored task is unfinished and has no host. */
  predicate NeedsHost(w: World, u: UserId) {
    User(u) in w.tasks && HostOf(w.tasks[User(u)]) == "" && !Finished(w.tasks[User(u)])
  }

  /** The task in memory, with the label of its platform. */
  function Prepared(tr: TaskRun): TaskRun {
    if Get(tr.labels, TargetPlatform) == "" then SetLabel(tr, TargetPlatform, PlatformLabel(tr.platform)) else tr
  }

  /** The error secret can be stored. */
  predicate CanReport(c: Calls) {
    c.errorWrite.Direct? && c.errorCreate
  }

  lemma ReportMakesSecret(before: World, o: Outcome, u: UserId, c: Calls)
    requires CanReport(c) && User(u) in o.world.tasks
    ensures u in ReportFailure(before, o, u, c).world.secrets
  {
    hide CreateErrorSecret;
    SecretMade(o.world, u, o.tr, c.errorWrite, c.errorCreate);
  }

  /** Every error but a conflict ends in an error secret, so that the build does not wait for credentials that will not
      come; so does a platform whose name or whose configuration is not valid. */
  lemma FailureEndsInSecret(cfg: Settings, w: World, u: UserId, c: Calls)
    requires NeedsHost(w, u)
    ensures var o := ReconcileUser(cfg, w, u, c); var p := w.tasks[User(u)].platform;
      && (CanReport(c) && o.error != NoError && o.error != Conflict ==> u in o.world.secrets)
      && (!Validation.ValidPlatformFormat(p) && CanReport(c) ==> o.error == NoError && u in o.world.secrets)
      && (Validation.ValidPlatformFormat(p) && !c.secretReadFails && (c.configFails || p !in cfg) && c.earlyWrite.Direct? && c.earlyCreate ==>
            o.error == NoError && u in o.world.secrets)
      && (Validation.ValidPlatformFormat(p) && c.secretReadFails ==> o.error == OtherError)
  {
    hide HostAllocation, ReportFailure, CreateErrorSecret, Validation.ValidPlatformFormat, PlatformLabel;
    var tr := w.tasks[User(u)];
    var tr1 := Prepared(tr);
    if CanReport(c) {
      SecretMade(w, u, tr, c.errorWrite, c.errorCreate);
    }
    HostAllocationStops(cfg, w, u, tr1, c);
    var o := HostAllocation(cfg, w, u, tr1, c);
    if CanReport(c) {
      ReportMakesSecret(w, o, u, c);
    }
    MissingConfiguration(cfg, w, u, tr1, c);
    UnreadSecret(cfg, w, u, tr1, c);
    ReportKeepsError(w, o, u, c);
  }

  lemma ReportKeepsError(before: World, o: Outcome, u: UserId, c: Calls)
    ensures ReportFailure(before, o, u, c).error == o.error
  {
  }

  lemma UnreadSecret(cfg: Settings, w: World, u: UserId, tr: TaskRun, c: Calls)
    ensures c.secretReadFails ==> HostAllocation(cfg, w, u, tr, c).error == OtherError
  {
  }

  lemma MissingConfiguration(cfg: Settings, w: World, u: UserId, tr: TaskRun, c: Calls)
    requires User(u) in w.tasks
    ensures !c.secretReadFails && (c.configFails || tr.platform !in cfg) && c.earlyWrite.Direct? && c.earlyCreate ==>
      var o := HostAllocation(cfg, w, u, tr, c); o.error == NoError && u in o.world.secrets
  {
    hide Allocate, CreateErrorSecret;
    if c.earlyWrite.Direct? {
      SecretMade(w, u, tr, c.earlyWrite, c.earlyCreate);
    }
  }

  /** A task that needs a host and has no secret yet gets the allocation of its platform's strategy. */
  lemma ReconcileAllocates(cfg: Settings, w: World, u: UserId, c: Calls)
    requires NeedsHost(w, u) && u !in w.secrets && !c.secretReadFails && !c.configFails
    requires w.tasks[User(u)].platform in cfg && Validation.ValidPlatformFormat(w.tasks[User(u)].platform)
    ensures var tr := w.tasks[User(u)]; var o := Allocate(w, u, Prepared(tr), cfg[tr.platform], c);
      && (o.error == NoError || o.error == Conflict ==> ReconcileUser(cfg, w, u, c) == o)
      && ReconcileUser(cfg, w, u, c).error == o.error
  {
    hide Validation.ValidPlatformFormat, Allocate, PlatformLabel, CreateErrorSecret;
  }

  /** The label of the platform: as it is, or set if there was none. */
  function TargetLabel(tr: TaskRun): string {
    if Get(tr.labels, TargetPlatform) == "" then PlatformLabel(tr.platform) else Get(tr.labels, TargetPlatform)
  }

  lemma PreparedView(tr: TaskRun)
    ensures var tr1 := Prepared(tr);
      && SameView(tr, tr1) && FailuresOf(tr1) == FailuresOf(tr) && Finished(tr1) == Finished(tr)
      && Get(tr1.labels, TargetPlatform) == TargetLabel(tr)
  {
    hide PlatformLabel;
  }

  /** A task of a static pool: an error secret once every host has failed, waiting while all usable hosts are full, and
      otherwise a usable host with the most free slots, with its provisioning on the way. */
  lemma StaticTaskOutcome(cfg: Settings, w: World, u: UserId, c: Calls)
    requires WellFormed(cfg) && NeedsHost(w, u) && u !in w.secrets && !c.secretReadFails && !c.configFails && !c.listFails
    requires Static(cfg, w.tasks[User(u)].platform) && Validation.ValidPlatformFormat(w.tasks[User(u)].platform)
    requires cfg[w.tasks[User(u)].platform].hosts != map[]
    requires Accepted(w, User(u), c.write) && c.sshSecretFound && c.provisionCreate && CanReport(c)
    ensures var o := ReconcileUser(cfg, w, u, c); var tr := w.tasks[User(u)]; var hosts := cfg[tr.platform].hosts;
      var failed := Split(FailedHostList(tr), ',');
      if forall h :: h in hosts ==> h in failed then o.error == AllHostsFailed && u in o.world.secrets
      else if NoneFree(w, hosts, tr.platform, failed) then o.error == NoError && Waits(o.world, u, tr.platform)
      else && o.error == NoError && (exists h :: Best(w, hosts, tr.platform, failed, h) && Has(o.world, u, hosts[h]))
           && User(u) in o.world.tasks && Get(o.world.tasks[User(u)].labels, TargetPlatform) == TargetLabel(tr)
  {
    var tr := w.tasks[User(u)];
    var p := tr.platform;
    var hosts, failed, tr1 := cfg[p].hosts, Split(FailedHostList(tr), ','), Prepared(tr);
    forall h | h in hosts ensures Matching(hosts, p, h) {
      assert ProperHost(cfg[p].hosts[h], h, p);
    }
    PreparedView(tr);
    assert cfg[p].targetPlatform == p;
    hide WellFormed, ReconcileUser, Split, NoneFree, Best, Has, Waits, Save, Validation.ValidPlatformFormat, Prepared;
    ReconcileAllocates(cfg, w, u, c);
    FailureEndsInSecret(cfg, w, u, c);
    if forall h :: h in hosts ==> h in failed {
      assert HostPoolAllocate(w, u, tr1, hosts, p, c).error == AllHostsFailed;
    } else {
      hide HostPoolAllocate;
      var h :| h in hosts && h !in failed;
      assert Candidate(hosts, p, failed, h);
      HostPoolSucceeds(w, u, tr1, hosts, p, c);
      if !NoneFree(w, hosts, p, failed) {
        HostPoolTarget(w, u, tr1, hosts, p, c);
      }
    }
  }

  /** An instance of a task that got no address in time: it is terminated and an error secret ends the task. */
  lemma TimedOutTaskOutcome(cfg: Settings, w: World, u: UserId, c: Calls, time: int)
    requires NeedsHost(w, u) && u !in w.secrets && !c.secretReadFails && !c.configFails && CanReport(c)
    requires Dynamic(cfg, w.tasks[User(u)].platform) && Validation.ValidPlatformFormat(w.tasks[User(u)].platform)
    requires UserOk(cfg, w.tasks[User(u)]) && FailedHostList(w.tasks[User(u)]) == ""
    requires InstanceOf(w.tasks[User(u)]) != "" && InstanceOf(w.tasks[User(u)]) !in w.stopped
    requires Get(w.tasks[User(u)].annotations, AllocationStartTime) == Itoa(time) && MIN_INT64 <= time <= MAX_INT64
    requires time + cfg[w.tasks[User(u)].platform].timeout < w.clock
    ensures var o := ReconcileUser(cfg, w, u, c);
      o.error != NoError && InstanceOf(w.tasks[User(u)]) in o.world.stopped && u in o.world.secrets
  {
    var tr := w.tasks[User(u)];
    var tr1, d := Prepared(tr), cfg[tr.platform];
    PreparedView(tr);
    assert tr1.annotations == tr.annotations && Held(tr1);
    TimedOutIsOther(w, u, tr1, d, c, time);
    TimeoutEnforced(w, u, tr1, d, c, time);
    FailureEndsInSecret(cfg, w, u, c);
    ReconcileAllocates(cfg, w, u, c);
    var o := DynamicAllocate(w, u, tr1, d, c);
    ErrorSecretStops(o.world, u, o.tr, c.errorWrite, c.errorCreate);
    hide Validation.ValidPlatformFormat, DynamicAllocate, PlatformLabel, CreateErrorSecret, UserOk, Itoa;
  }

  lemma TimedOutIsOther(w: World, u: UserId, tr: TaskRun, d: PlatformConfig, c: Calls, time: int)
    requires d.DynamicResolver? && FailedHostList(tr) == "" && InstanceOf(tr) != ""
    requires Get(tr.annotations, AllocationStartTime) == Itoa(time) && MIN_INT64 <= time <= MAX_INT64
    requires time + d.timeout < w.clock
    ensures DynamicAllocate(w, u, tr, d, c).error == OtherError
  {
    ParseItoa(time);
    ItoaNotEmpty(time);
    hide ParseInt64, Itoa, Save;
  }

  /** A task of an auto-scaling pool without a host left: below the limit the reconcile launches one for it. */
  lemma PoolTaskGrows(cfg: Settings, w: World, u: UserId, c: Calls)
    requires NeedsHost(w, u) && u !in w.secrets && !c.secretReadFails && !c.configFails
    requires Pooled(cfg, w.tasks[User(u)].platform) && Validation.ValidPlatformFormat(w.tasks[User(u)].platform)
    requires var p := cfg[w.tasks[User(u)].platform];
      && PlatformLabel(p.platform) != "" && NoHostLeft(w, u, Prepared(w.tasks[User(u)]), p, c)
      && !c.instancesFail && !c.countFails && !c.randomFails && Launches(p, c) && c.launch.id !in w.fleet
      && |Counted(Sweep(w, p, c), p)| - |Old(w, p, c)| < p.maxInstances
    ensures var o := ReconcileUser(cfg, w, u, c); var p := cfg[w.tasks[User(u)].platform];
      o.error == NoError && o.world.fleet == w.fleet[c.launch.id := NewMachine(p, u, c, w.clock)] && c.launch.id in o.world.live
  {
    hide ReconcileUser, PoolAllocate, Sweep, Counted, Old, NoHostLeft, NewMachine, PlatformLabel, Validation.ValidPlatformFormat, CanName;
    var tr := w.tasks[User(u)];
    ReconcileAllocates(cfg, w, u, c);
    PoolGrowsIff(w, u, Prepared(tr), cfg[tr.platform], c);
  }

  /** Where there is nothing to do nothing is done: for an unfinished task with a host or a secret, and for a finished one
      that holds nothing. */
  lemma NothingToDo(cfg: Settings, w: World, u: UserId, c: Calls)
    requires User(u) in w.tasks
    requires var tr := w.tasks[User(u)];
      || (!Finished(tr) && HostOf(tr) != "")
      || (!Finished(tr) && HostOf(tr) == "" && u in w.secrets && !c.secretReadFails && Validation.ValidPlatformFormat(tr.platform))
      || (Finished(tr) && HostOf(tr) == "" && !Held(tr))
    ensures ReconcileUser(cfg, w, u, c).world == w && ReconcileUser(cfg, w, u, c).error == NoError
  {
    hide Validation.ValidPlatformFormat, Allocate, Deallocate, CreateErrorSecret, PlatformLabel;
  }

  // ---- finished tasks -----------------------------------------------------------------------------------

  /** A cleanup task for the user task and its platform is there. */
  ghost predicate Cleaned(w: World, u: UserId, platform: string) {
    exists id :: id in w.tasks && IsCleanup(w.tasks[id], u, platform)
  }

  predicate IsCleanup(tr: TaskRun, u: UserId, platform: string) {
    KindOf(tr) == "clean" && OwnerOf(tr) == u && Get(tr.labels, TargetPlatform) == PlatformLabel(platform)
  }

  lemma CleanLabels(tr: TaskRun, u: UserId, platform: string)
    requires CleanRun(u, platform).labels.Items <= tr.labels.Items
    ensures IsCleanup(tr, u, platform)
  {
    hide PlatformLabel;
    assert (TaskType, "clean") in CleanRun(u, platform).labels.Items;
    assert (UserTaskName, u.name) in CleanRun(u, platform).labels.Items;
    assert (UserTaskNamespace, u.ns) in CleanRun(u, platform).labels.Items;
    assert (TargetPlatform, PlatformLabel(platform)) in CleanRun(u, platform).labels.Items;
  }

  lemma CleanRunIsCleanup(u: UserId, platform: string)
    ensures IsCleanup(CleanRun(u, platform), u, platform)
  {
    hide PlatformLabel;
  }

  /** Giving back a host of a pool without an error means that a cleanup task is there; and there is no error if the
      create call succeeds. */
  lemma CleanupCreated(w: World, u: UserId, hosts: map<string, Host>, platform: string, selected: string, c: Calls)
    requires selected in hosts
    ensures var (w', e) := HostPoolDeallocate(w, u, hosts, platform, selected, c);
      && (e == NoError ==> Cleaned(w', u, platform))
      && (c.cleanCreate && Clean(u, hosts[selected].address) !in w.tasks ==> e == NoError)
  {
    hide PlatformLabel;
    CleanRunIsCleanup(u, platform);
    if CleanExists(w, u, platform) {
      var id :| id in w.tasks && CleanRun(u, platform).labels.Items <= w.tasks[id].labels.Items;
      CleanLabels(w.tasks[id], u, platform);
    }
    hide CleanRun, IsCleanup;
    var id := Clean(u, hosts[selected].address);
    if !c.cleanListFails && CleanExists(w, u, platform) {
    } else if id !in w.tasks && c.cleanCreate {
      assert IsCleanup(HostPoolDeallocate(w, u, hosts, platform, selected, c).0.tasks[id], u, platform);
    }
  }

  lemma PoolCleanupCreated(w: World, u: UserId, p: PlatformConfig, selected: string, c: Calls)
    requires p.DynamicHostPool? && !c.instancesFail && selected in PoolHosts(w, p, c)
    requires c.cleanCreate && Clean(u, selected) !in w.tasks
    ensures Cleaned(PoolDeallocate(w, u, p, selected, c).0, u, p.platform)
  {
    SweepFrame(w, p, c);
    assert PoolHosts(w, p, c)[selected].address == selected;
    hide HostPoolDeallocate, PoolHosts, Sweep, Retired, Old, Idle, Cleaned;
    CleanupCreated(Sweep(w, p, c), u, PoolHosts(w, p, c), p.platform, selected, c);
  }

  /** The cleanup of a host: its deallocation has created a cleanup task, or asked to terminate the instance. */
  ghost predicate GivenBack(cfg: Settings, w: World, u: UserId, w': World)
    requires User(u) in w.tasks && w.tasks[User(u)].platform in cfg
  {
    var tr := w.tasks[User(u)];
    match cfg[tr.platform]
    case Local => true
    case DynamicResolver(_, _, _, _, _, _, _, _, _, _) => InstanceOf(tr) in w'.stopped
    case DynamicHostPool(_, _, _, _, _, _, _, _, _) => Cleaned(w', u, cfg[tr.platform].platform)
    case HostPool(_, platform) => Cleaned(w', u, platform)
  }

  /** The deallocation can do its work: the host is one of the pool's, and the calls succeed. */
  ghost predicate CanGiveBack(cfg: Settings, w: World, u: UserId, c: Calls)
    requires User(u) in w.tasks && w.tasks[User(u)].platform in cfg
  {
    var tr := w.tasks[User(u)];
    var h := HostOf(tr);
    match cfg[tr.platform]
    case Local => true
    case DynamicResolver(_, _, _, _, _, _, _, _, _, _) => true
    case DynamicHostPool(_, _, _, _, _, _, _, _, _) =>
      !c.instancesFail && h in PoolHosts(w, cfg[tr.platform], c) && c.cleanCreate && Clean(u, h) !in w.tasks
    case HostPool(hosts, _) => h in hosts && c.cleanCreate && Clean(u, hosts[h].address) !in w.tasks
  }

  lemma DeallocateGivesBack(cfg: Settings, w: World, u: UserId, c: Calls)
    requires User(u) in w.tasks && w.tasks[User(u)].platform in cfg && CanGiveBack(cfg, w, u, c)
    ensures var tr := w.tasks[User(u)]; GivenBack(cfg, w, u, Deallocate(w, u, tr, cfg[tr.platform], c).world)
  {
    hide PoolDeallocate, HostPoolDeallocate, PoolHosts, Cleaned;
    var tr := w.tasks[User(u)];
    match cfg[tr.platform]
    case Local =>
    case DynamicResolver(_, _, _, _, _, _, _, _, _, _) =>
    case DynamicHostPool(_, _, _, _, _, _, _, _, _) => PoolCleanupCreated(w, u, cfg[tr.platform], HostOf(tr), c);
    case HostPool(hosts, platform) => CleanupCreated(w, u, hosts, platform, HostOf(tr), c);
  }

  /** Labelling a TaskRun does not make a cleanup task something else, nor does the release of the user task. */
  lemma StillCleaned(w: World, id: TaskId, tr: TaskRun, wr: Write, u: UserId, platform: string)
    requires Cleaned(w, u, platform)
    requires id in w.tasks && IsCleanup(w.tasks[id], u, platform) ==> !wr.Merged? && IsCleanup(tr, u, platform)
    ensures Cleaned(Save(w, id, tr, wr), u, platform)
  {
    hide PlatformLabel, Merge;
    var k :| k in w.tasks && IsCleanup(w.tasks[k], u, platform);
    var w' := Save(w, id, tr, wr);
    assert k in w'.tasks && IsCleanup(w'.tasks[k], u, platform);
  }

  lemma ReleaseKeepsGivenBack(cfg: Settings, w: World, u: UserId, w1: World, tr1: TaskRun, c: Calls)
    requires User(u) in w.tasks && w.tasks[User(u)].platform in cfg && KindOf(w.tasks[User(u)]) != "clean"
    requires GivenBack(cfg, w, u, w1) && User(u) in w1.tasks && w1.tasks[User(u)] == w.tasks[User(u)]
    ensures GivenBack(cfg, w, u, Release(Save(w1, User(u), tr1, c.write), u, w.tasks[User(u)].platform, c))
  {
    var p := w.tasks[User(u)].platform;
    var w2 := Save(w1, User(u), tr1, c.write);
    ReleaseStops(w2, u, p, c);
    SaveStops(w1, User(u), tr1, c.write);
    var w3 := if c.secretDelete then w2.(secrets := w2.secrets - {u}) else w2;
    var id := WakeIs(w3, p, c);
    hide Wake, Save, PlatformLabel;
    forall q | Cleaned(w1, u, q) ensures Cleaned(Release(w2, u, p, c), u, q) {
      StillCleaned(w1, User(u), tr1, c.write, u, q);
      assert Cleaned(w3, u, q) by {
        var k :| k in w2.tasks && IsCleanup(w2.tasks[k], u, q);
        assert k in w3.tasks && IsCleanup(w3.tasks[k], u, q);
      }
      if id in w3.tasks {
        StillCleaned(w3, id, SetLabel(w3.tasks[id], FinishedWaiting, "true"), Direct, u, q);
      }
    }
  }

  lemma SaveStops(w: World, id: TaskId, tr: TaskRun, wr: Write)
    ensures Save(w, id, tr, wr).stopped == w.stopped
  {
  }

  /** A finished task: its host is cleaned or its instance terminated, it loses host and finalizer, its secret goes, and
      the only error left is that the secret cannot be read. */
  lemma FinishedTaskOutcome(cfg: Settings, w: World, u: UserId, c: Calls)
    requires User(u) in w.tasks && Finished(w.tasks[User(u)]) && (HostOf(w.tasks[User(u)]) != "" || Held(w.tasks[User(u)]))
    requires KindOf(w.tasks[User(u)]) != "clean" && !c.configFails && w.tasks[User(u)].platform in cfg
    requires Accepted(w, User(u), c.write)
    ensures var o := ReconcileUser(cfg, w, u, c);
      && o.error == (if c.secretReadFails then OtherError else NoError)
      && User(u) in o.world.tasks && HostOf(o.world.tasks[User(u)]) == "" && !Held(o.world.tasks[User(u)])
      && (Dynamic(cfg, w.tasks[User(u)].platform) ==>
            InstanceOf(o.world.tasks[User(u)]) == if c.terminate then "" else InstanceOf(w.tasks[User(u)]))
      && (CanGiveBack(cfg, w, u, c) ==> GivenBack(cfg, w, u, o.world))
      && (!c.secretReadFails && c.secretDelete ==> u !in o.world.secrets)
      && (!c.secretReadFails && !c.waitListFails && c.wakeWrite.Direct? ==> WokeOldest(w, o.world, u))
  {
    hide Deallocate, Release, StoredForm, Validation.ValidPlatformFormat, GivenBack, CanGiveBack;
    var tr := w.tasks[User(u)];
    var o := Deallocate(w, u, tr, cfg[tr.platform], c);
    InstanceForgotten(cfg, w, u, c);
    Theorems.DeallocateFinished(cfg, w, u, c);
    var tr' := DropLabel(RemoveFinalizer(o.tr), AssignedHost);
    SavedForm(o.world.tasks[User(u)], tr', c.write);
    var w' := Save(o.world, User(u), tr', c.write);
    Theorems.ReleaseFrees(w', u, tr.platform, c);
    ReleaseDropsSecret(w', u, tr.platform, c);
    if !c.secretReadFails && !c.waitListFails && c.wakeWrite.Direct? {
      ReleaseWakes(w', u, tr.platform, c);
      DeallocateWaiting(cfg, w, u, c);
      OldestCarries(w, o.world, w', u, tr', c.write, Release(w', u, tr.platform, c));
    }
    if CanGiveBack(cfg, w, u, c) {
      DeallocateGivesBack(cfg, w, u, c);
      ReleaseKeepsGivenBack(cfg, w, u, o.world, tr', c);
    }
  }

  /** A deallocation leaves all TaskRuns as they are; what it adds does not wait. */
  ghost predicate AddsNoWaiting(w: World, w': World) {
    && (forall id :: id in w.tasks ==> id in w'.tasks && w'.tasks[id] == w.tasks[id])
    && (forall id :: id in w'.tasks && id !in w.tasks ==> WaitingForPlatform !in w'.tasks[id].labels)
  }

  lemma HostPoolDeallocateWaiting(w: World, u: UserId, hosts: map<string, Host>, platform: string, selected: string, c: Calls)
    ensures AddsNoWaiting(w, HostPoolDeallocate(w, u, hosts, platform, selected, c).0)
  {
    hide CleanExists, PlatformLabel;
  }

  lemma PoolDeallocateWaiting(w: World, u: UserId, p: PlatformConfig, selected: string, c: Calls)
    requires p.DynamicHostPool?
    ensures AddsNoWaiting(w, PoolDeallocate(w, u, p, selected, c).0)
  {
    hide HostPoolDeallocate, PoolHosts, Retired, Old, Idle;
    HostPoolDeallocateWaiting(Sweep(w, p, c), u, PoolHosts(w, p, c), p.platform, selected, c);
  }

  lemma DeallocateWaiting(cfg: Settings, w: World, u: UserId, c: Calls)
    requires User(u) in w.tasks && w.tasks[User(u)].platform in cfg
    ensures AddsNoWaiting(w, Deallocate(w, u, w.tasks[User(u)], cfg[w.tasks[User(u)].platform], c).world)
  {
    hide HostPoolDeallocate, PoolDeallocate;
    var tr := w.tasks[User(u)];
    match cfg[tr.platform]
    case Local =>
    case DynamicResolver(_, _, _, _, _, _, _, _, _, _) =>
    case DynamicHostPool(_, _, _, _, _, _, _, _, _) => PoolDeallocateWaiting(w, u, cfg[tr.platform], HostOf(tr), c);
    case HostPool(hosts, platform) => HostPoolDeallocateWaiting(w, u, hosts, platform, HostOf(tr), c);
  }

  lemma OldestCarries(w: World, w1: World, w2: World, u: UserId, tr: TaskRun, wr: Write, w': World)
    requires User(u) in w.tasks && AddsNoWaiting(w, w1) && w2 == Save(w1, User(u), tr, wr)
    requires var p := w.tasks[User(u)].platform;
      SomeoneWaits(w2, p) ==> exists id :: OldestWaiting(w2, p, id) && Woke(w', p, id)
    ensures WokeOldest(w, w', u)
  {
    var p := w.tasks[User(u)].platform;
    hide StoredForm, PlatformLabel;
    if k :| k in w.tasks && k != User(u) && WaitsFor(w.tasks[k], p) {
      assert k in w2.tasks && w2.tasks[k] == w.tasks[k];
      var id :| OldestWaiting(w2, p, id) && Woke(w', p, id);
      SavedTimes(w1, User(u), tr, wr, id);
      assert id in w.tasks;
      forall other | other in w.tasks && other != User(u) && WaitsFor(w.tasks[other], p)
        ensures w.tasks[id].created <= w.tasks[other].created
      {
        assert other in w2.tasks && w2.tasks[other] == w.tasks[other];
      }
    }
  }

  lemma SavedTimes(w: World, id: TaskId, tr: TaskRun, wr: Write, k: TaskId)
    ensures var w' := Save(w, id, tr, wr);
      && (k in w'.tasks <==> k in w.tasks) && (k in w.tasks ==> w'.tasks[k].created == w.tasks[k].created)
  {
    if Accepted(w, id, wr) && wr.Merged? {
      MergeParts(ApplyEdit(w.tasks[id], wr.edit), tr);
      hide Merge;
    }
  }

  /** If a task other than `u` waits for the platform, one that no other than `u` is older than is marked. */
  ghost predicate WokeOldest(w: World, w': World, u: UserId)
    requires User(u) in w.tasks
  {
    var p := w.tasks[User(u)].platform;
    (exists id :: id in w.tasks && id != User(u) && WaitsFor(w.tasks[id], p)) ==>
      exists id :: Woke(w', p, id) && id in w.tasks
        && forall other :: other in w.tasks && other != User(u) && WaitsFor(w.tasks[other], p) ==> w.tasks[id].created <= w.tasks[other].created
  }

  lemma InstanceForgotten(cfg: Settings, w: World, u: UserId, c: Calls)
    requires User(u) in w.tasks && w.tasks[User(u)].platform in cfg
    ensures var tr := w.tasks[User(u)];
      Dynamic(cfg, tr.platform) ==>
        InstanceOf(Deallocate(w, u, tr, cfg[tr.platform], c).tr) == if c.terminate then "" else InstanceOf(tr)
  {
    hide PoolDeallocate, HostPoolDeallocate;
  }

  /** A finished task whose configuration cannot be had, or that cannot be written, keeps everything, and that is an error. */
  lemma FinishedTaskErrors(cfg: Settings, w: World, u: UserId, c: Calls)
    requires User(u) in w.tasks && Finished(w.tasks[User(u)]) && (HostOf(w.tasks[User(u)]) != "" || Held(w.tasks[User(u)]))
    ensures var o := ReconcileUser(cfg, w, u, c);
      && (c.configFails || w.tasks[User(u)].platform !in cfg ==> o.error == OtherError && o.world == w)
      && (!Accepted(w, User(u), c.write) ==>
            o.error != NoError && User(u) in o.world.tasks && o.world.tasks[User(u)] == w.tasks[User(u)] && o.world.secrets == w.secrets)
  {
    hide Deallocate, Release, StoredForm, Validation.ValidPlatformFormat;
    var tr := w.tasks[User(u)];
    if tr.platform in cfg {
      Theorems.DeallocateFinished(cfg, w, u, c);
      DeallocateSecrets(cfg, w, u, c);
      var o := Deallocate(w, u, tr, cfg[tr.platform], c);
      if !Accepted(w, User(u), c.write) {
        NotSaved(o.world, User(u), DropLabel(RemoveFinalizer(o.tr), AssignedHost), c.write);
      }
    }
  }

  lemma DeallocateSecrets(cfg: Settings, w: World, u: UserId, c: Calls)
    requires User(u) in w.tasks && w.tasks[User(u)].platform in cfg
    ensures Deallocate(w, u, w.tasks[User(u)], cfg[w.tasks[User(u)].platform], c).world.secrets == w.secrets
  {
    hide CleanExists, CleanRun, PoolHosts, Retired, Old, Idle;
  }

  lemma ReleaseDropsSecret(w: World, u: UserId, platform: string, c: Calls)
    ensures !c.secretReadFails && c.secretDelete ==> u !in Release(w, u, platform, c).secrets
  {
    hide Wake, StoredForm;
    var _ := WakeIs(w.(secrets := w.secrets - {u}), platform, c);
  }
}
