/** The reconciler as the program runs it: handlers that edit a TaskRun in memory step by step between calls,
    each proved equal to its function in the modules before. */
module Controller {
  import opened Text
  import opened TaskRuns
  import opened Platforms
  import opened Cluster
  import opened HostPools
  import opened DynamicHosts
  import opened DynamicPools
  import opened Reconcile
  import opened HostSelection

  /** A TaskRun held in memory. */
  class Draft {
    var labels: map<Key, string>
    var annotations: map<Key, string>
    var finalizers: seq<Finalizer>
    const rest: TaskRun        // the fields the controller never edits

    constructor (tr: TaskRun)
      ensures Value() == tr
    {
      labels, annotations, finalizers, rest := tr.labels, tr.annotations, tr.finalizers, tr;
    }

    function Value(): TaskRun
      reads this
    {
      rest.(labels := labels, annotations := annotations, finalizers := finalizers)
    }

    method Label(k: Key, v: string)
      modifies this
      ensures Value() == SetLabel(old(Value()), k, v)
    {
      labels := labels[k := v];
    }

    method Unlabel(k: Key)
      modifies this
      ensures Value() == DropLabel(old(Value()), k)
    {
      labels := labels - {k};
    }

    method Annotate(k: Key, v: string)
      modifies this
      ensures Value() == TaskRuns.Annotate(old(Value()), k, v)
    {
      annotations := annotations[k := v];
    }

    method Unannotate(k: Key)
      modifies this
      ensures Value() == DropAnnotation(old(Value()), k)
    {
      annotations := annotations - {k};
    }

    /** controllerutil.AddFinalizer. */
    method Hold() returns (added: bool)
      modifies this
      ensures Value() == AddFinalizer(old(Value())) && added == !Held(old(Value()))
    {
      added := PipelineFinalizer !in finalizers;
      if added {
        finalizers := finalizers + [PipelineFinalizer];
      }
    }

    /** controllerutil.RemoveFinalizer: every occurrence goes. */
    method LetGo()
      modifies this
      ensures Value() == RemoveFinalizer(old(Value()))
    {
      var kept: seq<Finalizer> := [];
      var i := |finalizers|;
      while i > 0
        invariant 0 <= i <= |finalizers| && unchanged(this)
        invariant kept == Without(finalizers[i..], PipelineFinalizer)
      {
        i := i - 1;
        assert finalizers[i..][1..] == finalizers[i + 1..];
        if finalizers[i] != PipelineFinalizer {
          kept := [finalizers[i]] + kept;
        }
      }
      assert finalizers[0..] == finalizers;
      finalizers := kept;
    }
  }

  class Reconciler {
    var w: World
    const cfg: Settings

    constructor (w: World, cfg: Settings)
      ensures this.w == w && this.cfg == cfg
    {
      this.w, this.cfg := w, cfg;
    }

    // ---- shared helpers ---------------------------------------------------------------------

    method Update(id: TaskId, tr: Draft, wr: Write) returns (e: Error)
      modifies this
      ensures w == Save(old(w), id, tr.Value(), wr)
      ensures e == if Accepted(old(w), id, wr) then NoError else WriteFault(wr)
    {
      e := if Accepted(w, id, wr) then NoError else WriteFault(wr);
      w := Save(w, id, tr.Value(), wr);
    }

    method MakeErrorSecret(id: TaskId, tr: Draft, u: UserId, wr: Write, created: bool) returns (e: Error)
      modifies this, tr
      ensures Outcome(w, tr.Value(), e) == CreateErrorSecret(old(w), id, old(tr.Value()), u, wr, created)
    {
      hide Save;
      var added := tr.Hold();
      if added {
        if !(id in w.tasks && wr.Direct?) {
          return WriteFault(wr);
        }
        e := Update(id, tr, Direct);
      }
      if u in w.secrets {
        return NoError;
      }
      if !created {
        return OtherError;
      }
      w := w.(secrets := w.secrets + {u});
      return NoError;
    }

    method LaunchProvisioningTask(u: UserId, tr: Draft, address: string, platform: string, c: Calls) returns (e: Error)
      modifies this, tr
      ensures Outcome(w, tr.Value(), e) == LaunchProvisioning(old(w), u, old(tr.Value()), address, platform, c)
    {
      hide CreateErrorSecret;
      if !c.sshSecretFound {
        e := MakeErrorSecret(User(u), tr, u, c.earlyWrite, c.earlyCreate);
        return;
      }
      var id := Provision(u, address);
      if id in w.tasks {
        return NoError;
      }
      if !c.provisionCreate {
        return OtherError;
      }
      w := w.(tasks := w.tasks[id := ProvisionRun(u, HostOf(tr.Value()), platform)]);
      return NoError;
    }

    // ---- HostPool and Local ------------------------------------------------------------------------

    method AllocateFromPool(u: UserId, tr: Draft, hosts: map<string, Host>, platform: string, c: Calls)
      returns (e: Error, ghost seen: Calls)
      modifies this, tr
      ensures Alike(c, seen)
      ensures Outcome(w, tr.Value(), e) == HostPoolAllocate(old(w), u, old(tr.Value()), hosts, platform, seen)
    {
      hide Save, AwaitHost, AssignHost, Split, AssignedTo, NoneFree, Alike;
      seen := c;
      AlikeSelf(c);
      if hosts == map[] || c.listFails {
        return OtherError, seen;
      }
      ghost var w0, tr0 := w, tr.Value();
      var failed := Split(FailedHostList(tr.Value()), ',');
      var selected, found, allFailed := SelectHost(w, hosts, platform, failed);
      if !found {
        return OtherError, seen;
      }
      assert exists k :: k in hosts && Matching(hosts, platform, k);
      if allFailed {
        return AllHostsFailed, seen;
      }
      if selected.None? {
        e := WaitForHost(u, tr, platform, c);
        return;
      }
      SelectedAlike(w, u, tr.Value(), hosts[selected.value], platform, c, selected.value);
      seen := c.(pick := selected.value);
      e := GiveHost(u, tr, hosts[selected.value], platform, c);
    }

    method WaitForHost(u: UserId, tr: Draft, platform: string, c: Calls) returns (e: Error)
      modifies this, tr
      ensures Outcome(w, tr.Value(), e) == AwaitHost(old(w), u, old(tr.Value()), platform, c)
    {
      hide Save;
      if WaitingOf(tr.Value()) == PlatformLabel(platform) {
        return NoError;
      }
      tr.Label(WaitingForPlatform, PlatformLabel(platform));
      e := Update(User(u), tr, c.write);
    }

    method GiveHost(u: UserId, tr: Draft, host: Host, platform: string, c: Calls) returns (e: Error)
      modifies this, tr
      ensures Outcome(w, tr.Value(), e) == AssignHost(old(w), u, old(tr.Value()), host, platform, c)
    {
      hide Save, LaunchProvisioning;
      tr.Label(AssignedHost, host.name);
      tr.Unlabel(WaitingForPlatform);
      var _ := tr.Hold();
      e := Update(User(u), tr, c.write);
      if e != NoError {
        return;
      }
      e := LaunchProvisioningTask(u, tr, host.address, platform, c);
      if e != NoError {
        tr.Unlabel(AssignedHost);
        tr.LetGo();
        var _ := Update(User(u), tr, c.rewrite);
        e := OtherError;
      }
    }

    method AllocateLocally(u: UserId, tr: Draft, c: Calls) returns (e: Error)
      modifies this, tr
      ensures Outcome(w, tr.Value(), e) == LocalAllocate(old(w), u, old(tr.Value()), c)
    {
      hide Save;
      tr.Label(AssignedHost, "localhost");
      var _ := tr.Hold();
      if !(User(u) in w.tasks && c.write.Direct?) {
        return if c.write.Merged? then Conflict else WriteFault(c.write);
      }
      e := Update(User(u), tr, Direct);
      if u in w.secrets {
        return NoError;
      }
      if !c.earlyCreate {
        return OtherError;
      }
      w := w.(secrets := w.secrets + {u});
      return NoError;
    }

    method ReleaseToPool(u: UserId, hosts: map<string, Host>, platform: string, selected: string, c: Calls) returns (e: Error)
      modifies this
      ensures (w, e) == HostPoolDeallocate(old(w), u, hosts, platform, selected, c)
    {
      if selected !in hosts {
        return NoError;
      }
      if !c.cleanListFails {
        var labels := CleanRun(u, platform).labels;
        var present := exists id :: id in w.tasks && labels.Items <= w.tasks[id].labels.Items;
        if present {
          return NoError;
        }
      }
      hide CleanRun;
      var id := Clean(u, hosts[selected].address);
      if id in w.tasks || !c.cleanCreate {
        return OtherError;
      }
      w := w.(tasks := w.tasks[id := CleanRun(u, platform)]);
      return NoError;
    }

    // ---- DynamicResolver ---------------------------------------------------------------------------

    /** TerminateInstance on `i`. */
    method Terminate(i: string, c: Calls) returns (ok: bool)
      modifies this
      ensures w == Stop(old(w), i, c.terminate && i in c.gone) && ok == c.terminate
    {
      w := Stop(w, i, c.terminate && i in c.gone);
      ok := c.terminate;
    }

    /** The instance is given up: terminated, then removed from the TaskRun. */
    method GiveUp(u: UserId, tr: Draft, c: Calls)
      modifies this, tr
      ensures Outcome(w, tr.Value(), OtherError) == Abandon(old(w), u, old(tr.Value()), c)
    {
      hide Save;
      var ok := Terminate(InstanceOf(tr.Value()), c);
      if ok {
        tr.Unannotate(CloudInstanceId);
      }
      tr.Unlabel(AssignedHost);
      tr.Unannotate(CloudDynamicPlatform);
      var _ := Update(User(u), tr, c.rewrite);
    }

    method AllocateInstance(u: UserId, tr: Draft, d: PlatformConfig, c: Calls) returns (e: Error)
      requires d.DynamicResolver?
      modifies this, tr
      ensures Outcome(w, tr.Value(), e) == DynamicAllocate(old(w), u, old(tr.Value()), d, c)
    {
      hide Save, Abandon, AssignInstance, LaunchForTask, Counted, TimedOut;
      if FailedHostList(tr.Value()) != "" {
        return OtherError;
      }
      if TimedOut(tr.Value(), d.timeout, w.clock) {
        GiveUp(u, tr, c);
        return OtherError;
      }
      if InstanceOf(tr.Value()) != "" {
        e := PollForAddress(u, tr, d, c);
        return;
      }
      if c.countFails {
        return OtherError;
      }
      if |Counted(w, d)| >= d.maxInstances {
        if WaitingOf(tr.Value()) != PlatformLabel(d.platform) {
          tr.Label(WaitingForPlatform, PlatformLabel(d.platform));
          var _ := Update(User(u), tr, c.write);
        }
        return NoError;
      }
      e := LaunchInstance(u, tr, d, c);
    }

    method PollForAddress(u: UserId, tr: Draft, d: PlatformConfig, c: Calls) returns (e: Error)
      requires d.DynamicResolver?
      modifies this, tr
      ensures Outcome(w, tr.Value(), e) == PollInstance(old(w), u, old(tr.Value()), d, c)
    {
      hide Save, Abandon, LaunchProvisioning;
      if c.address.AddressError? {
        GiveUp(u, tr, c);
        return OtherError;
      }
      var address := c.address.text;
      if address != "" {
        tr.Label(AssignedHost, InstanceOf(tr.Value()));
        tr.Annotate(CloudAddress, address);
        e := Update(User(u), tr, c.write);
        if e != NoError {
          return;
        }
        e := LaunchProvisioningTask(u, tr, address, d.platform, c);
        if e != NoError {
          GiveUp(u, tr, c);
          e := OtherError;
        }
        return;
      }
      if c.state.StateFailed? {
        GiveUp(u, tr, c);
      }
      return NoError;
    }

    method LaunchInstance(u: UserId, tr: Draft, d: PlatformConfig, c: Calls) returns (e: Error)
      requires d.DynamicResolver?
      modifies this, tr
      ensures Outcome(w, tr.Value(), e) == LaunchForTask(old(w), u, old(tr.Value()), d, c)
    {
      hide Save, ParseInt64, Itoa, LaunchFailed, RecordInstance, CanName;
      tr.Unlabel(WaitingForPlatform);
      tr.Annotate(AllocationStartTime, Itoa(w.clock));
      if !Launches(d, c) {
        e := CountFailure(u, tr, c);
      } else {
        e := RecordLaunch(u, tr, d, c.launch.id, c);
      }
    }

    method CountFailure(u: UserId, tr: Draft, c: Calls) returns (e: Error)
      modifies this, tr
      ensures Outcome(w, tr.Value(), e) == LaunchFailed(old(w), u, old(tr.Value()), c)
    {
      hide Save, ParseInt64, Itoa;
      var t := TallyOf(w, u).(launchFailures := TallyOf(w, u).launchFailures + 1);
      var count := 0;
      if FailuresOf(tr.Value()) != "" {
        var parsed := ParseInt64(FailuresOf(tr.Value()));
        if parsed.None? {
          w := Note(w, u, t);
          return OtherError;
        }
        count := parsed.value;
      }
      if count == 2 {
        w := Note(w, u, t);
        return OtherError;
      }
      count := count + 1;
      tr.Annotate(CloudFailures, Itoa(count));
      e := Update(User(u), tr, c.write);
      w := Note(w, u, if e == NoError && c.write.Direct? then t else t.(lostCounts := t.lostCounts + 1));
      return NoError;
    }

    method RecordLaunch(u: UserId, tr: Draft, d: PlatformConfig, i: string, c: Calls) returns (e: Error)
      requires d.DynamicResolver?
      modifies this, tr
      ensures Outcome(w, tr.Value(), e) == RecordInstance(old(w), u, old(tr.Value()), d, i, c)
    {
      hide Save;
      w := Boot(w, i, NewMachine(d, u, c, w.clock));
      tr.Annotate(CloudInstanceId, i);
      tr.Label(CloudDynamicPlatform, PlatformLabel(d.platform));
      var _ := tr.Hold();
      ghost var w1 := w;
      e := Update(User(u), tr, c.write);
      if e != NoError {
        NotSaved(w1, User(u), tr.Value(), c.write);
        var _ := Terminate(i, c);
      }
    }

    method ReleaseInstance(tr: Draft, c: Calls) returns (e: Error)
      modifies this, tr
      ensures Outcome(w, tr.Value(), e) == DynamicDeallocate(old(w), old(tr.Value()), c)
    {
      var ok := Terminate(InstanceOf(tr.Value()), c);
      if !ok {
        return OtherError;
      }
      tr.Unannotate(CloudInstanceId);
      tr.Unlabel(AssignedHost);
      tr.Unlabel(CloudDynamicPlatform);
      return NoError;
    }

    // ---- DynamicHostPool -------------------------------------------------------------------------------

    /** buildHostPool: one pass over the listed instances, shutting down the old idle ones. `forgot` says
        whether the pass undercounts. */
    method BuildHostPool(p: PlatformConfig, c: Calls) returns (hosts: map<string, Host>, oldCount: nat, forgot: bool)
      requires p.DynamicHostPool?
      modifies this
      ensures w == Sweep(old(w), p, c) && hosts == PoolHosts(old(w), p, c) && oldCount == |Old(old(w), p, c)|
      ensures forgot == Undercounts(old(w), p, c)
    {
      hide Listed, Old, PoolHosts, Retired, Idle, Passed, HostsIn, Stop, Sweep, Expired, Unlisted, Forgotten;
      hosts, oldCount, forgot := map[], 0, false;
      var forgotten: set<string> := {};
      var overlooked := |Unlisted(w, p, c)|;
      ghost var start := w;
      var todo := Listed(w, p, c);
      ghost var passed: set<string> := {};
      PassBegins(start, p, c);
      while todo != {}
        invariant passed + todo == Listed(start, p, c) && passed !! todo
        invariant w == Passed(start, p, c, passed) && hosts == HostsIn(start, p, passed)
        invariant oldCount == |Old(start, p, c) * passed|
        invariant forgotten == Forgotten(start, p, c) * passed
        decreases |todo|
      {
        var i :| i in todo;
        PassContinues(start, p, c, passed, i);
        if Expired(w, i, p.maxAge) {
          oldCount := oldCount + 1;
          if i !in c.idleUnknown && Idle(w, i) {
            w := Stop(w, i, i in c.gone);
            forgotten := if i in c.gone then forgotten + {i} else forgotten;
          }
        } else {
          hosts := hosts[i := Host(i, i, "", p.platform, p.sshSecret, p.concurrency)];
        }
        todo, passed := todo - {i}, passed + {i};
      }
      assert passed == Listed(start, p, c);
      PassEnds(start, p, c);
      forgot := |forgotten| > overlooked;
    }

    method AllocateFromDynamicPool(u: UserId, tr: Draft, p: PlatformConfig, c: Calls) returns (e: Error, ghost seen: Calls)
      requires p.DynamicHostPool?
      modifies this, tr
      ensures Alike(c, seen)
      ensures Outcome(w, tr.Value(), e) == PoolAllocate(old(w), u, old(tr.Value()), p, seen)
    {
      hide PoolHosts, Old, Retired, Sweep, HostPoolAllocate, Scale, Alike;
      ghost var start := w;
      seen := c;
      AlikeSelf(c);
      if c.instancesFail {
        return OtherError, seen;
      }
      var hosts, oldCount, forgot := BuildHostPool(p, c);
      var earlier := NoError;
      if hosts != map[] {
        earlier, seen := AllocateFromPool(u, tr, hosts, p.platform, c);
      }
      AlikeFields(c, seen);
      SamePass(start, p, c, seen);
      if earlier != NoError && earlier != AllHostsFailed {
        return earlier, seen;
      }
      if hosts != map[] && earlier == NoError && WaitingOf(tr.Value()) == "" {
        return NoError, seen;
      }
      SameScale(start, w, u, tr.Value(), p, earlier, c, seen);
      e := ScaleUp(start, u, tr, p, oldCount, forgot, earlier, c);
    }

    /** The second half of Allocate; `start` is the world when the pass began. */
    method ScaleUp(ghost start: World, u: UserId, tr: Draft, p: PlatformConfig, oldCount: nat, forgot: bool, earlier: Error, c: Calls)
      returns (e: Error)
      requires p.DynamicHostPool? && oldCount == |Old(start, p, c)| && forgot == Undercounts(start, p, c)
      modifies this, tr
      ensures Outcome(w, tr.Value(), e) == Scale(start, old(w), u, old(tr.Value()), p, earlier, c)
    {
      hide Counted, Old, Retired, CanName;
      if c.countFails {
        return OtherError;
      }
      if |Counted(w, p)| - oldCount >= p.maxInstances {
        return earlier;
      }
      if c.randomFails {
        return OtherError;
      }
      tr.Unlabel(WaitingForPlatform);
      if !Launches(p, c) {
        return OtherError;
      }
      w := Boot(w, c.launch.id, NewMachine(p, u, c, w.clock));
      if forgot {
        w := w.(undercounted := w.undercounted + {p.platform});
      }
      return NoError;
    }

    method ReleaseToDynamicPool(u: UserId, p: PlatformConfig, selected: string, c: Calls) returns (e: Error)
      requires p.DynamicHostPool?
      modifies this
      ensures (w, e) == PoolDeallocate(old(w), u, p, selected, c)
    {
      hide PoolHosts, Old, Retired, Sweep, HostPoolDeallocate, Idle;
      if c.instancesFail {
        return OtherError;
      }
      var hosts, oldCount, _ := BuildHostPool(p, c);
      e := ReleaseToPool(u, hosts, p.platform, selected, c);
      if e != NoError {
        return;
      }
      if oldCount > 0 && selected !in hosts {
        if selected in c.idleUnknown {
          return OtherError;
        }
        if Idle(w, selected) {
          var ok := Terminate(selected, c);
          return if ok then NoError else OtherError;
        }
      }
    }

    // ---- user tasks ----------------------------------------------------------------------------------------

    method AllocateHost(u: UserId, tr: Draft, pc: PlatformConfig, c: Calls) returns (e: Error, ghost seen: Calls)
      modifies this, tr
      ensures Alike(c, seen)
      ensures Outcome(w, tr.Value(), e) == Allocate(old(w), u, old(tr.Value()), pc, seen)
    {
      hide LocalAllocate, DynamicAllocate, PoolAllocate, HostPoolAllocate, Alike;
      seen := c;
      AlikeSelf(c);
      match pc {
        case Local => e := AllocateLocally(u, tr, c);
        case DynamicResolver(_, _, _, _, _, _, _, _, _, _) => e := AllocateInstance(u, tr, pc, c);
        case DynamicHostPool(_, _, _, _, _, _, _, _, _) => e, seen := AllocateFromDynamicPool(u, tr, pc, c);
        case HostPool(hosts, platform) => e, seen := AllocateFromPool(u, tr, hosts, platform, c);
      }
    }

    method DeallocateHost(u: UserId, tr: Draft, pc: PlatformConfig, c: Calls) returns (e: Error)
      modifies this, tr
      ensures Outcome(w, tr.Value(), e) == Deallocate(old(w), u, old(tr.Value()), pc, c)
    {
      hide DynamicDeallocate, PoolDeallocate, HostPoolDeallocate;
      match pc {
        case Local => e := NoError;
        case DynamicResolver(_, _, _, _, _, _, _, _, _, _) => e := ReleaseInstance(tr, c);
        case DynamicHostPool(_, _, _, _, _, _, _, _, _) => e := ReleaseToDynamicPool(u, pc, HostOf(tr.Value()), c);
        case HostPool(hosts, platform) => e := ReleaseToPool(u, hosts, platform, HostOf(tr.Value()), c);
      }
    }

    method HandleHostAllocation(u: UserId, tr: Draft, c: Calls) returns (e: Error, ghost seen: Calls)
      modifies this, tr
      ensures Alike(c, seen)
      ensures Outcome(w, tr.Value(), e) == HostAllocation(cfg, old(w), u, old(tr.Value()), seen)
    {
      hide Allocate, CreateErrorSecret, Alike;
      seen := c;
      AlikeSelf(c);
      if c.secretReadFails {
        return OtherError, seen;
      }
      if u in w.secrets {
        return NoError, seen;
      }
      var platform := tr.Value().platform;
      if c.configFails || platform !in cfg {
        e := MakeErrorSecret(User(u), tr, u, c.earlyWrite, c.earlyCreate);
        return;
      }
      e, seen := AllocateHost(u, tr, cfg[platform], c);
      AlikeFields(c, seen);
    }

    /** handleWaitingTasks. */
    method HandleWaitingTasks(platform: string, c: Calls) returns (ghost seen: Calls)
      modifies this
      ensures Alike(c, seen)
      ensures w == Wake(old(w), platform, seen)
    {
      hide Save, PlatformLabel, Alike, WaitsFor;
      seen := c;
      AlikeSelf(c);
      if c.waitListFails {
        return;
      }
      var oldest := OldestTask(w, platform);
      if oldest.None? {
        return;
      }
      WakeAlike(c, oldest.value);
      seen := c.(wake := oldest.value);
      var tr := new Draft(w.tasks[oldest.value]);
      tr.Label(FinishedWaiting, "true");
      if c.wakeWrite.Direct? {
        var _ := Update(oldest.value, tr, Direct);
      }
    }

    method HandleHostAssigned(u: UserId, tr: Draft, c: Calls) returns (e: Error, ghost seen: Calls)
      modifies this, tr
      ensures Alike(c, seen)
      ensures Outcome(w, tr.Value(), e) == HostAssigned(cfg, old(w), u, old(tr.Value()), seen)
    {
      hide Deallocate, Save, Wake, Release, Alike;
      seen := c;
      AlikeSelf(c);
      var platform := tr.Value().platform;
      if !Finished(tr.Value()) {
        return NoError, seen;
      }
      if c.configFails || platform !in cfg {
        return OtherError, seen;
      }
      ghost var w0, tr0 := w, tr.Value();
      var _ := DeallocateHost(u, tr, cfg[platform], c);
      tr.LetGo();
      tr.Unlabel(AssignedHost);
      e := Update(User(u), tr, c.write);
      if e != NoError {
        return;
      }
      ghost var w1 := w;
      e, seen := FreeWaiting(u, platform, c);
      AlikeFields(c, seen);
      SameRelease(w0, u, tr0, cfg[platform], c, seen);
    }

    /** The end of handleHostAssigned: the secret goes and a waiting task is woken. */
    method FreeWaiting(u: UserId, platform: string, c: Calls) returns (e: Error, ghost seen: Calls)
      modifies this
      ensures Alike(c, seen) && e == if c.secretReadFails then OtherError else NoError
      ensures w == Release(old(w), u, platform, seen)
    {
      hide Wake, Alike;
      seen := c;
      AlikeSelf(c);
      if c.secretReadFails {
        return OtherError, seen;
      }
      if c.secretDelete {
        w := w.(secrets := w.secrets - {u});
      }
      seen := HandleWaitingTasks(platform, c);
      AlikeFields(c, seen);
      return NoError, seen;
    }

    /** handleUserTask. */
    method HandleUserTask(u: UserId, c: Calls) returns (e: Error, tr: Draft, ghost seen: Calls)
      requires User(u) in w.tasks
      modifies this
      ensures Alike(c, seen)
      ensures Outcome(w, tr.Value(), e) == ReconcileUser(cfg, old(w), u, seen)
    {
      hide HostAssigned, HostAllocation, CreateErrorSecret, Validation.ValidPlatformFormat, PlatformLabel, ReportFailure, Alike;
      tr := new Draft(w.tasks[User(u)]);
      seen := c;
      AlikeSelf(c);
      if HostOf(tr.Value()) != "" || (Finished(tr.Value()) && Held(tr.Value())) {
        e, seen := HandleHostAssigned(u, tr, c);
        return;
      }
      if Finished(tr.Value()) {
        return NoError, tr, seen;
      }
      if !Validation.ValidPlatformFormat(tr.Value().platform) {
        var _ := MakeErrorSecret(User(u), tr, u, c.errorWrite, c.errorCreate);
        return NoError, tr, seen;
      }
      if Get(tr.Value().labels, TargetPlatform) == "" {
        tr.Label(TargetPlatform, PlatformLabel(tr.Value().platform));
      }
      ghost var w0 := w;
      var failures := TallyOf(w, u).launchFailures;
      e, seen := HandleHostAllocation(u, tr, c);
      AlikeFields(c, seen);
      if e != NoError && e != Conflict {
        ReportAllocationFailure(u, tr, failures, w0, e, seen, c);
      }
    }

    method ReportAllocationFailure(u: UserId, tr: Draft, failures: nat, ghost w0: World, ghost e: Error, ghost seen: Calls, c: Calls)
      requires failures == TallyOf(w0, u).launchFailures && c.errorWrite == seen.errorWrite && c.errorCreate == seen.errorCreate
      modifies this, tr
      ensures Outcome(w, tr.Value(), e) == ReportFailure(w0, Outcome(old(w), old(tr.Value()), e), u, seen)
    {
      hide CreateErrorSecret;
      var failed := MakeErrorSecret(User(u), tr, u, c.errorWrite, c.errorCreate);
      var t := TallyOf(w, u);
      if failed != NoError && t.launchFailures > failures {
        w := Note(w, u, t.(lostSecrets := t.lostSecrets + 1));
      }
    }

    // ---- provision and cleanup tasks ---------------------------------------------------------------------------

    /** handleProvisionTask. */
    method HandleProvisionTask(id: TaskId, c: Calls)
      requires id in w.tasks
      modifies this
      ensures w == ReconcileProvision(old(w), id, c)
    {
      hide ProvisionSucceeded, ProvisionFailed;
      var tr := new Draft(w.tasks[id]);
      if tr.Value().deleting || !tr.Value().done {
        return;
      }
      var success := tr.Value().succeeded;
      if Processed(tr.Value()) {
        if (success || c.retentionOver) && c.delete {
          w := w.(tasks := w.tasks - {id});
        }
        return;
      }
      tr.Annotate(ProvisionTaskProcessed, "true");
      if success {
        HandleProvisioned(id, tr, c);
      } else {
        HandleProvisionFailure(id, tr, c);
      }
    }

    method HandleProvisioned(id: TaskId, tr: Draft, c: Calls)
      modifies this
      ensures w == ProvisionSucceeded(old(w), id, tr.Value(), c)
    {
      hide Save, CreateErrorSecret;
      var u := OwnerOf(tr.Value());
      if c.secretReadFails {
        return;
      }
      if u !in w.secrets && User(u) in w.tasks {
        if c.userReadFails {
          return;
        }
        var user := new Draft(w.tasks[User(u)]);
        var e := MakeErrorSecret(User(u), user, u, c.errorWrite, c.errorCreate);
        if e != NoError {
          return;
        }
      }
      var _ := Update(id, tr, c.rewrite);
    }

    method HandleProvisionFailure(id: TaskId, tr: Draft, c: Calls)
      modifies this
      ensures w == ProvisionFailed(old(w), id, tr.Value(), c)
    {
      hide Save, RecordFailure;
      var u, host := OwnerOf(tr.Value()), HostOf(tr.Value());
      var recorded := false;
      if host != "" && !c.userReadFails && User(u) in w.tasks {
        var ok := WithdrawHost(u, host, c.write);
        if !ok {
          return;
        }
        recorded := true;
      }
      ghost var w1 := w;
      var e := Update(id, tr, c.rewrite);
      if e != NoError && recorded {
        NotSaved(w1, id, tr.Value(), c.rewrite);
        var t := TallyOf(w, u);
        w := Note(w, u, t.(lostMarks := t.lostMarks + 1));
      }
    }

    /** The host goes on the user task's list of failed hosts and its assignment is withdrawn. */
    method WithdrawHost(u: UserId, host: string, wr: Write) returns (ok: bool)
      requires User(u) in w.tasks
      modifies this
      ensures ok == Accepted(old(w), User(u), wr)
      ensures w == if ok then RecordFailure(old(w), u, host, wr) else old(w)
    {
      hide Save, Split, Join;
      var user := new Draft(w.tasks[User(u)]);
      var failed := Split(FailedHostList(user.Value()), ',');
      if failed[0] == "" {
        failed := [];
      }
      failed := failed + [host];
      user.Annotate(FailedHosts, Join(failed, ','));
      user.Unlabel(AssignedHost);
      var t := TallyOf(w, u);
      ghost var w0 := w;
      var e := Update(User(u), user, wr);
      if e != NoError {
        NotSaved(w0, User(u), user.Value(), wr);
        return false;
      }
      w := Note(w, u, t.(provisionFailures := t.provisionFailures + 1));
      return true;
    }

    /** handleCleanTask. */
    method HandleCleanTask(id: TaskId, c: Calls)
      requires id in w.tasks
      modifies this
      ensures w == ReconcileClean(old(w), id, c)
    {
      var tr := w.tasks[id];
      if tr.deleting || !tr.done {
        return;
      }
      if (tr.succeeded || c.retentionOver) && c.delete {
        w := w.(tasks := w.tasks - {id});
      }
    }
  }

  // ---- lemmas about the pieces --------------------------------------------------------------------------------

  /** The world in the middle of a pass: of the instances in `passed` the retired ones have been stopped. */
  ghost function Passed(w: World, p: PlatformConfig, c: Calls, passed: set<string>): World
    requires p.DynamicHostPool?
  {
    w.(stopped := w.stopped + Retired(w, p, c) * passed, live := w.live - Retired(w, p, c) * c.gone * passed)
  }

  ghost function HostsIn(w: World, p: PlatformConfig, passed: set<string>): map<string, Host>
    requires p.DynamicHostPool?
  {
    map i | i in passed && !Expired(w, i, p.maxAge) :: Host(i, i, "", p.platform, p.sshSecret, p.concurrency)
  }

  lemma PassBegins(w: World, p: PlatformConfig, c: Calls)
    requires p.DynamicHostPool?
    ensures Passed(w, p, c, {}) == w && HostsIn(w, p, {}) == map[] && |Old(w, p, c) * {}| == 0 && Forgotten(w, p, c) * {} == {}
  {
    hide Retired, Old;
    assert w.stopped + Retired(w, p, c) * {} == w.stopped;
    assert w.live - Retired(w, p, c) * c.gone * {} == w.live;
    assert Old(w, p, c) * {} == {};
  }

  lemma PassEnds(w: World, p: PlatformConfig, c: Calls)
    requires p.DynamicHostPool?
    ensures var all := Listed(w, p, c);
      && Passed(w, p, c, all) == Sweep(w, p, c) && HostsIn(w, p, all) == PoolHosts(w, p, c) && Old(w, p, c) * all == Old(w, p, c)
      && Forgotten(w, p, c) * all == Forgotten(w, p, c)
  {
    var all := Listed(w, p, c);
    assert Old(w, p, c) <= all && Retired(w, p, c) <= all;
    hide Listed, Old, Retired, Counted;
    assert Old(w, p, c) * all == Old(w, p, c);
    assert Retired(w, p, c) * all == Retired(w, p, c);
    assert Retired(w, p, c) * c.gone * all == Retired(w, p, c) * c.gone;
  }

  lemma PassedView(w: World, p: PlatformConfig, c: Calls, passed: set<string>, i: string)
    requires p.DynamicHostPool?
    ensures var w' := Passed(w, p, c, passed); Expired(w', i, p.maxAge) == Expired(w, i, p.maxAge) && Idle(w', i) == Idle(w, i)
  {
    hide Retired;
  }

  lemma PassContinues(w: World, p: PlatformConfig, c: Calls, passed: set<string>, i: string)
    requires p.DynamicHostPool? && i in Listed(w, p, c) && i !in passed
    ensures var w' := Passed(w, p, c, passed);
      && Expired(w', i, p.maxAge) == Expired(w, i, p.maxAge) && Idle(w', i) == Idle(w, i)
      && |Old(w, p, c) * (passed + {i})| == |Old(w, p, c) * passed| + (if Expired(w, i, p.maxAge) then 1 else 0)
      && HostsIn(w, p, passed + {i}) ==
           (if Expired(w, i, p.maxAge) then HostsIn(w, p, passed)
            else HostsIn(w, p, passed)[i := Host(i, i, "", p.platform, p.sshSecret, p.concurrency)])
      && Passed(w, p, c, passed + {i}) ==
           (if Expired(w, i, p.maxAge) && i !in c.idleUnknown && Idle(w, i) then Stop(w', i, i in c.gone) else w')
      && Forgotten(w, p, c) * (passed + {i}) ==
           (if Expired(w, i, p.maxAge) && i !in c.idleUnknown && Idle(w, i) && i in c.gone then Forgotten(w, p, c) * passed + {i}
            else Forgotten(w, p, c) * passed)
  {
    hide *;
    PassedView(w, p, c, passed, i);
    InPass(w, p, c, i);
    HostsContinue(w, p, passed, i);
    OldContinues(Old(w, p, c), passed, i);
    SetsContinue(w, p, c, passed, i);
  }

  lemma InPass(w: World, p: PlatformConfig, c: Calls, i: string)
    requires p.DynamicHostPool? && i in Listed(w, p, c)
    ensures i in Old(w, p, c) <==> Expired(w, i, p.maxAge)
    ensures i in Retired(w, p, c) <==> Expired(w, i, p.maxAge) && i !in c.idleUnknown && Idle(w, i)
  {
    hide Listed, Idle, Expired;
  }

  lemma HostsContinue(w: World, p: PlatformConfig, passed: set<string>, i: string)
    requires p.DynamicHostPool?
    ensures HostsIn(w, p, passed + {i}) ==
      if Expired(w, i, p.maxAge) then HostsIn(w, p, passed)
      else HostsIn(w, p, passed)[i := Host(i, i, "", p.platform, p.sshSecret, p.concurrency)]
  {
    hide Expired;
  }

  lemma OldContinues(aged: set<string>, passed: set<string>, i: string)
    requires i !in passed
    ensures |aged * (passed + {i})| == |aged * passed| + if i in aged then 1 else 0
  {
    if i in aged {
      assert aged * (passed + {i}) == aged * passed + {i};
    } else {
      assert aged * (passed + {i}) == aged * passed;
    }
  }

  lemma SetsContinue(w: World, p: PlatformConfig, c: Calls, passed: set<string>, i: string)
    requires p.DynamicHostPool? && i !in passed
    ensures var w' := Passed(w, p, c, passed);
      && Passed(w, p, c, passed + {i}) == (if i in Retired(w, p, c) then Stop(w', i, i in c.gone) else w')
      && Forgotten(w, p, c) * (passed + {i}) ==
           (if i in Retired(w, p, c) && i in c.gone then Forgotten(w, p, c) * passed + {i} else Forgotten(w, p, c) * passed)
  {
    hide Retired;
    var r := Retired(w, p, c);
    if i in r {
      assert r * (passed + {i}) == r * passed + {i};
      assert r * c.gone * (passed + {i}) == r * c.gone * passed + (if i in c.gone then {i} else {});
    } else {
      assert r * (passed + {i}) == r * passed;
      assert r * c.gone * (passed + {i}) == r * c.gone * passed;
    }
    assert w.stopped + (r * passed + {i}) == w.stopped + r * passed + {i};
    assert w.live - (r * c.gone * passed + {i}) == w.live - r * c.gone * passed - {i};
    assert r * c.gone * passed + {} == r * c.gone * passed;
  }

  // ---- what a walk over a map or a list settles on -------------------------------------------------------------

  /** The same results of calls, up to the order in which hosts and waiting tasks were walked. */
  predicate Alike(c: Calls, d: Calls) {
    d == c.(pick := d.pick, wake := d.wake)
  }

  lemma AlikeSelf(c: Calls)
    ensures Alike(c, c)
  {
  }

  lemma AlikeFields(c: Calls, d: Calls)
    requires Alike(c, d)
    ensures d.secretReadFails == c.secretReadFails && d.configFails == c.configFails && d.write == c.write
    ensures d.errorWrite == c.errorWrite && d.errorCreate == c.errorCreate && d.instancesFail == c.instancesFail
    ensures d.secretDelete == c.secretDelete
  {
  }

  lemma WakeAlike(c: Calls, id: TaskId)
    ensures Alike(c, c.(wake := id))
  {
  }

  lemma SelectedAlike(w: World, u: UserId, tr: TaskRun, host: Host, platform: string, c: Calls, k: string)
    ensures Alike(c, c.(pick := k)) && AssignHost(w, u, tr, host, platform, c.(pick := k)) == AssignHost(w, u, tr, host, platform, c)
  {
    hide Save, CreateErrorSecret, ProvisionRun;
  }

  lemma SamePass(w: World, p: PlatformConfig, c: Calls, d: Calls)
    requires p.DynamicHostPool? && Alike(c, d)
    ensures PoolHosts(w, p, d) == PoolHosts(w, p, c) && Old(w, p, d) == Old(w, p, c)
    ensures Retired(w, p, d) == Retired(w, p, c) && Sweep(w, p, d) == Sweep(w, p, c)
  {
    assert d.reachable == c.reachable && d.idleUnknown == c.idleUnknown && d.gone == c.gone;
    hide Alike;
    assert Listed(w, p, d) == Listed(w, p, c);
    hide Listed, Idle;
    assert Old(w, p, d) == Old(w, p, c);
    hide Old;
    assert Retired(w, p, d) == Retired(w, p, c);
  }

  lemma SameScale(w: World, w1: World, u: UserId, tr: TaskRun, p: PlatformConfig, earlier: Error, c: Calls, d: Calls)
    requires p.DynamicHostPool? && Alike(c, d)
    ensures Scale(w, w1, u, tr, p, earlier, d) == Scale(w, w1, u, tr, p, earlier, c)
  {
    hide Old, Retired, Counted, PoolHosts, Sweep;
    SamePass(w, p, c, d);
  }

  lemma SameRelease(w: World, u: UserId, tr: TaskRun, pc: PlatformConfig, c: Calls, d: Calls)
    requires Alike(c, d)
    ensures Deallocate(w, u, tr, pc, d) == Deallocate(w, u, tr, pc, c)
  {
    hide Retired, PoolHosts, CleanExists, Old, Idle, Sweep;
    if pc.DynamicHostPool? {
      SamePass(w, pc, c, d);
    }
  }
}
