/** How often launching an instance can fail for one user task: dynamic.go:192-220. */
module LaunchRetries {
  import opened Text
  import opened TaskRuns
  import opened Platforms
  import opened Cluster
  import opened HostPools
  import opened DynamicHosts
  import opened DynamicPools
  import opened Reconcile
  import opened Safety
  import opened Effects
  import opened Handlers
  import opened Machine

  // ---- the counter ------------------------------------------------------------------------

  /** Nothing more is launched for the task: its secret exists or it is finished. */
  predicate Closed(w: World, u: UserId) {
    u in w.secrets || (User(u) in w.tasks && Finished(w.tasks[User(u)]))
  }

  predicate CounterText(s: string) { s == "" || s == "1" || s == "2" }

  function Counter(s: string): nat { if s == "" then 0 else if s == "1" then 1 else 2 }

  predicate Bounded(t: Tally) {
    t.launchFailures <= 3 + t.lostCounts + t.lostSecrets
  }

  predicate Counts(w: World, u: UserId)
    requires User(u) in w.tasks
  {
    var s, t := FailuresOf(w.tasks[User(u)]), TallyOf(w, u);
    CounterText(s) && t.launchFailures <= Counter(s) + t.lostCounts + t.lostSecrets + (if Closed(w, u) then 1 else 0)
  }

  ghost predicate CountsOk(w: World) {
    && (forall u :: User(u) in w.tasks ==> Counts(w, u))
    && (forall u :: Bounded(TallyOf(w, u)))
  }

  // ---- everything but a failed launch leaves the counters alone --------------------------------

  predicate SameCounts(t: Tally, t': Tally) {
    && t'.launchFailures == t.launchFailures && t'.lostCounts == t.lostCounts && t'.lostSecrets == t.lostSecrets
    && t.lostMarks <= t'.lostMarks
  }

  /** The same user tasks with the same counters. */
  ghost predicate CountsKept(w: World, w': World) {
    && (forall u :: SameCounts(TallyOf(w, u), TallyOf(w', u)))
    && (forall u :: User(u) in w'.tasks <==> User(u) in w.tasks)
    && (forall u :: User(u) in w'.tasks && User(u) in w.tasks ==>
          FailuresOf(w'.tasks[User(u)]) == FailuresOf(w.tasks[User(u)]))
  }

  /** No list of failed hosts changes. */
  ghost predicate ListsKept(w: World, w': World) {
    forall u :: User(u) in w'.tasks && User(u) in w.tasks ==>
      FailedHostList(w'.tasks[User(u)]) == FailedHostList(w.tasks[User(u)])
  }

  ghost predicate Quiet(w: World, w': World) {
    CountsKept(w, w') && ListsKept(w, w')
  }

  /** The TaskRun in memory has the stored counter and list of failed hosts. */
  predicate Steady(w: World, u: UserId, tr: TaskRun) {
    && User(u) in w.tasks && FailuresOf(tr) == FailuresOf(w.tasks[User(u)])
    && FailedHostList(tr) == FailedHostList(w.tasks[User(u)])
  }

  lemma QuietSelf(w: World)
    ensures Quiet(w, w)
  {
  }

  lemma CountsKeptTrans(w: World, w1: World, w2: World)
    requires CountsKept(w, w1) && CountsKept(w1, w2)
    ensures CountsKept(w, w2)
  {
    forall u ensures SameCounts(TallyOf(w, u), TallyOf(w2, u)) {
      assert SameCounts(TallyOf(w, u), TallyOf(w1, u)) && SameCounts(TallyOf(w1, u), TallyOf(w2, u));
    }
  }

  lemma QuietTrans(w: World, w1: World, w2: World)
    requires Quiet(w, w1) && Quiet(w1, w2)
    ensures Quiet(w, w2)
  {
    CountsKeptTrans(w, w1, w2);
  }

  lemma SaveQuiet(w: World, u: UserId, tr: TaskRun, wr: Write)
    requires Steady(w, u, tr)
    ensures Quiet(w, Save(w, User(u), tr, wr)) && Steady(Save(w, User(u), tr, wr), u, tr)
  {
    if Accepted(w, User(u), wr) {
      SavedForm(w.tasks[User(u)], tr, wr);
      hide StoredForm;
    }
  }

  lemma ErrorSecretQuiet(w: World, u: UserId, tr: TaskRun, wr: Write, created: bool)
    requires Steady(w, u, tr)
    ensures var o := CreateErrorSecret(w, User(u), tr, u, wr, created); Quiet(w, o.world) && Steady(o.world, u, o.tr)
  {
    SaveQuiet(w, u, AddFinalizer(tr), Direct);
    hide Save;
  }

  lemma LaunchProvisioningQuiet(w: World, u: UserId, tr: TaskRun, address: string, platform: string, c: Calls)
    requires Steady(w, u, tr)
    ensures var o := LaunchProvisioning(w, u, tr, address, platform, c); Quiet(w, o.world) && Steady(o.world, u, o.tr)
  {
    hide CreateErrorSecret, ProvisionRun, Quiet;
    ErrorSecretQuiet(w, u, tr, c.earlyWrite, c.earlyCreate);
    if c.sshSecretFound {
      FrameQuiet(w, LaunchProvisioning(w, u, tr, address, platform, c).world);
    }
  }

  lemma AwaitHostQuiet(w: World, u: UserId, tr: TaskRun, platform: string, c: Calls)
    requires Steady(w, u, tr)
    ensures var o := AwaitHost(w, u, tr, platform, c); Quiet(w, o.world) && Steady(o.world, u, o.tr)
  {
    SaveQuiet(w, u, SetLabel(tr, WaitingForPlatform, PlatformLabel(platform)), c.write);
    hide Save;
  }

  lemma AssignHostQuiet(w: World, u: UserId, tr: TaskRun, host: Host, platform: string, c: Calls)
    requires Steady(w, u, tr)
    ensures var o := AssignHost(w, u, tr, host, platform, c); Quiet(w, o.world) && Steady(o.world, u, o.tr)
  {
    hide Save, LaunchProvisioning, Quiet;
    var tr1 := AddFinalizer(DropLabel(SetLabel(tr, AssignedHost, host.name), WaitingForPlatform));
    SaveQuiet(w, u, tr1, c.write);
    var w1 := Save(w, User(u), tr1, c.write);
    LaunchProvisioningQuiet(w1, u, tr1, host.address, platform, c);
    var o := LaunchProvisioning(w1, u, tr1, host.address, platform, c);
    QuietTrans(w, w1, o.world);
    var tr2 := RemoveFinalizer(DropLabel(o.tr, AssignedHost));
    SaveQuiet(o.world, u, tr2, c.rewrite);
    QuietTrans(w, o.world, Save(o.world, User(u), tr2, c.rewrite));
  }

  lemma HostPoolAllocateQuiet(w: World, u: UserId, tr: TaskRun, hosts: map<string, Host>, platform: string, c: Calls)
    requires Steady(w, u, tr)
    ensures var o := HostPoolAllocate(w, u, tr, hosts, platform, c); Quiet(w, o.world) && Steady(o.world, u, o.tr)
  {
    hide AssignHost, AwaitHost, NoneFree, Split, Chosen;
    AwaitHostQuiet(w, u, tr, platform, c);
    var failed := Split(FailedHostList(tr), ',');
    if !NoneFree(w, hosts, platform, failed) {
      AssignHostQuiet(w, u, tr, hosts[Chosen(w, hosts, platform, failed, c.pick)], platform, c);
    }
  }

  lemma LocalAllocateQuiet(w: World, u: UserId, tr: TaskRun, c: Calls)
    requires Steady(w, u, tr)
    ensures var o := LocalAllocate(w, u, tr, c); Quiet(w, o.world) && (Steady(o.world, u, o.tr))
  {
    SaveQuiet(w, u, AddFinalizer(SetLabel(tr, AssignedHost, "localhost")), Direct);
    hide Save;
  }

  lemma AbandonQuiet(w: World, u: UserId, tr: TaskRun, c: Calls)
    requires Steady(w, u, tr)
    ensures var o := Abandon(w, u, tr, c); Quiet(w, o.world) && Steady(o.world, u, o.tr)
  {
    hide Save, Quiet;
    var i := InstanceOf(tr);
    var w1 := Stop(w, i, c.terminate && i in c.gone);
    StopQuiet(w, i, c.terminate && i in c.gone);
    var tr1 := if c.terminate then DropAnnotation(tr, CloudInstanceId) else tr;
    var tr2 := DropAnnotation(DropLabel(tr1, AssignedHost), CloudDynamicPlatform);
    SaveQuiet(w1, u, tr2, c.rewrite);
    QuietTrans(w, w1, Save(w1, User(u), tr2, c.rewrite));
  }

  lemma StopQuiet(w: World, i: string, gone: bool)
    ensures Quiet(w, Stop(w, i, gone))
  {
  }

  lemma AssignInstanceQuiet(w: World, u: UserId, tr: TaskRun, d: PlatformConfig, address: string, c: Calls)
    requires Steady(w, u, tr) && d.DynamicResolver?
    ensures var o := AssignInstance(w, u, tr, d, address, c); Quiet(w, o.world) && Steady(o.world, u, o.tr)
  {
    hide Save, LaunchProvisioning, Quiet, Abandon;
    var tr1 := Annotate(SetLabel(tr, AssignedHost, InstanceOf(tr)), CloudAddress, address);
    SaveQuiet(w, u, tr1, c.write);
    var w1 := Save(w, User(u), tr1, c.write);
    LaunchProvisioningQuiet(w1, u, tr1, address, d.platform, c);
    var o := LaunchProvisioning(w1, u, tr1, address, d.platform, c);
    QuietTrans(w, w1, o.world);
    AbandonQuiet(o.world, u, o.tr, c);
    QuietTrans(w, o.world, Abandon(o.world, u, o.tr, c).world);
  }

  lemma RecordInstanceQuiet(w: World, u: UserId, tr: TaskRun, d: PlatformConfig, i: string, c: Calls)
    requires Steady(w, u, tr) && d.DynamicResolver?
    ensures var o := RecordInstance(w, u, tr, d, i, c); Quiet(w, o.world) && Steady(o.world, u, o.tr)
  {
    hide Save;
    var w1 := Boot(w, i, NewMachine(d, u, c, w.clock));
    var tr1 := AddFinalizer(SetLabel(Annotate(tr, CloudInstanceId, i), CloudDynamicPlatform, PlatformLabel(d.platform)));
    assert Quiet(w, w1) && Steady(w1, u, tr1);
    StopQuiet(w1, i, c.terminate && i in c.gone);
    SaveQuiet(w1, u, tr1, c.write);
    hide Quiet;
    QuietTrans(w, w1, Save(w1, User(u), tr1, c.write));
    QuietTrans(w, w1, Stop(w1, i, c.terminate && i in c.gone));
  }

  /** Frame: the counters live in the user tasks and the tallies. */
  lemma FrameQuiet(w: World, w': World)
    requires w'.tallies == w.tallies
    requires forall u :: User(u) in w'.tasks <==> User(u) in w.tasks
    requires forall u :: User(u) in w.tasks ==> w'.tasks[User(u)] == w.tasks[User(u)]
    ensures Quiet(w, w')
  {
  }

  lemma ScaleQuiet(w: World, w1: World, u: UserId, tr: TaskRun, p: PlatformConfig, earlier: Error, c: Calls)
    requires Steady(w1, u, tr) && p.DynamicHostPool?
    ensures var o := Scale(w, w1, u, tr, p, earlier, c); Quiet(w1, o.world) && Steady(o.world, u, o.tr)
  {
    hide Counted, Old, Retired, Quiet;
    FrameQuiet(w1, Scale(w, w1, u, tr, p, earlier, c).world);
  }

  lemma SweepQuiet(w: World, p: PlatformConfig, c: Calls)
    requires p.DynamicHostPool?
    ensures Quiet(w, Sweep(w, p, c)) && Sweep(w, p, c).tasks == w.tasks
  {
    hide Retired;
  }

  lemma PoolAllocateQuiet(w: World, u: UserId, tr: TaskRun, p: PlatformConfig, c: Calls)
    requires Steady(w, u, tr) && p.DynamicHostPool?
    ensures var o := PoolAllocate(w, u, tr, p, c); Quiet(w, o.world) && Steady(o.world, u, o.tr)
  {
    SweepQuiet(w, p, c);
    hide Sweep, Scale, HostPoolAllocate, PoolHosts;
    var hosts, w1 := PoolHosts(w, p, c), Sweep(w, p, c);
    ScaleQuiet(w, w1, u, tr, p, NoError, c);
    HostPoolAllocateQuiet(w1, u, tr, hosts, p.platform, c);
    var o := HostPoolAllocate(w1, u, tr, hosts, p.platform, c);
    ScaleQuiet(w, o.world, u, o.tr, p, o.error, c);
    hide Quiet;
    QuietTrans(w, w1, o.world);
    QuietTrans(w, w1, Scale(w, w1, u, tr, p, NoError, c).world);
    QuietTrans(w, o.world, Scale(w, o.world, u, o.tr, p, o.error, c).world);
  }

  lemma HostPoolDeallocateFrame(w: World, u: UserId, hosts: map<string, Host>, platform: string, selected: string, c: Calls)
    ensures var w' := HostPoolDeallocate(w, u, hosts, platform, selected, c).0;
      && w'.tallies == w.tallies
      && (forall v :: User(v) in w'.tasks <==> User(v) in w.tasks)
      && (forall v :: User(v) in w.tasks ==> w'.tasks[User(v)] == w.tasks[User(v)])
  {
    hide CleanExists, CleanRun;
  }

  lemma PoolDeallocateFrame(w: World, u: UserId, p: PlatformConfig, selected: string, c: Calls)
    requires p.DynamicHostPool?
    ensures var w' := PoolDeallocate(w, u, p, selected, c).0;
      && w'.tallies == w.tallies
      && (forall v :: User(v) in w'.tasks <==> User(v) in w.tasks)
      && (forall v :: User(v) in w.tasks ==> w'.tasks[User(v)] == w.tasks[User(v)])
  {
    hide Retired, PoolHosts, Old, Idle, HostPoolDeallocate;
    HostPoolDeallocateFrame(Sweep(w, p, c), u, PoolHosts(w, p, c), p.platform, selected, c);
  }

  lemma DeallocateQuiet(w: World, u: UserId, tr: TaskRun, pc: PlatformConfig, c: Calls)
    requires Steady(w, u, tr)
    ensures var o := Deallocate(w, u, tr, pc, c); Quiet(w, o.world) && Steady(o.world, u, o.tr)
  {
    hide HostPoolDeallocate, PoolDeallocate, Quiet;
    match pc
    case Local => FrameQuiet(w, w);
    case DynamicResolver(_, _, _, _, _, _, _, _, _, _) => FrameQuiet(w, DynamicDeallocate(w, tr, c).world);
    case DynamicHostPool(_, _, _, _, _, _, _, _, _) =>
      PoolDeallocateFrame(w, u, pc, HostOf(tr), c);
      FrameQuiet(w, PoolDeallocate(w, u, pc, HostOf(tr), c).0);
    case HostPool(hosts, platform) =>
      HostPoolDeallocateFrame(w, u, hosts, platform, HostOf(tr), c);
      FrameQuiet(w, HostPoolDeallocate(w, u, hosts, platform, HostOf(tr), c).0);
  }

  lemma ReleaseQuiet(w: World, u: UserId, platform: string, c: Calls)
    ensures Quiet(w, Release(w, u, platform, c))
  {
    hide Wake, Save;
    var w1 := if c.secretDelete then w.(secrets := w.secrets - {u}) else w;
    assert Quiet(w, w1) && Quiet(w, w);
    hide Quiet;
    var id := WakeIs(w1, platform, c);
    if id in w1.tasks {
      var tr := SetLabel(w1.tasks[id], FinishedWaiting, "true");
      if id.User? {
        SaveQuiet(w1, id.user, tr, Direct);
      } else {
        OtherSaveQuiet(w1, id, tr, Direct);
      }
      QuietTrans(w, w1, Save(w1, id, tr, Direct));
    }
  }

  lemma OtherSaveQuiet(w: World, id: TaskId, tr: TaskRun, wr: Write)
    requires !id.User?
    ensures Quiet(w, Save(w, id, tr, wr))
  {
    hide StoredForm;
  }

  lemma HostAssignedQuiet(cfg: Settings, w: World, u: UserId, c: Calls)
    requires User(u) in w.tasks
    ensures Quiet(w, HostAssigned(cfg, w, u, w.tasks[User(u)], c).world)
  {
    hide Save, Release, Deallocate;
    var tr := w.tasks[User(u)];
    assert Quiet(w, w);
    if tr.platform in cfg {
      DeallocateQuiet(w, u, tr, cfg[tr.platform], c);
      var o := Deallocate(w, u, tr, cfg[tr.platform], c);
      var tr' := DropLabel(RemoveFinalizer(o.tr), AssignedHost);
      SaveQuiet(o.world, u, tr', c.write);
      var w' := Save(o.world, User(u), tr', c.write);
      ReleaseQuiet(w', u, tr.platform, c);
      hide Quiet;
      QuietTrans(w, o.world, w');
      QuietTrans(w, w', Release(w', u, tr.platform, c));
    }
  }

  // ---- a failed launch ---------------------------------------------------------------------------------

  lemma CounterSteps(s: string)
    requires CounterText(s)
    ensures s != "" ==> ParseInt64(s) == Some(Counter(s))
    ensures Itoa(1) == "1" && Itoa(2) == "2"
  {
    assert Itoa(1) == "1" && Itoa(2) == "2";
    ParseItoa(1);
    ParseItoa(2);
    hide ParseInt64, Itoa;
  }

  /** Only `u` is affected. */
  ghost predicate QuietBut(w: World, w': World, u: UserId) {
    && ListsKept(w, w') && TallyOf(w, u).lostMarks <= TallyOf(w', u).lostMarks
    && (forall v :: v != u ==> SameCounts(TallyOf(w, v), TallyOf(w', v)))
    && (forall v :: User(v) in w'.tasks <==> User(v) in w.tasks)
    && (forall v :: v != u && User(v) in w'.tasks && User(v) in w.tasks ==>
          FailuresOf(w'.tasks[User(v)]) == FailuresOf(w.tasks[User(v)]))
  }

  /** The failures of `u` are accounted for, up to `slack` more. */
  predicate Accounted(w: World, u: UserId, slack: nat) {
    User(u) in w.tasks &&
    var s, t := FailuresOf(w.tasks[User(u)]), TallyOf(w, u);
    CounterText(s) && t.launchFailures <= Counter(s) + t.lostCounts + t.lostSecrets + slack
  }

  /** Exactly one more launch has failed, and it is on the counter or reported as an error. */
  ghost predicate LaunchCounted(w: World, u: UserId, o: Outcome) {
    && QuietBut(w, o.world, u)
    && TallyOf(o.world, u).launchFailures == TallyOf(w, u).launchFailures + 1
    && Accounted(o.world, u, if o.error == NoError then 0 else 1)
    && (o.error != NoError ==> Steady(o.world, u, o.tr)) && o.error != Conflict
  }

  lemma FinalLaunchCounts(w: World, u: UserId, tr: TaskRun)
    requires Steady(w, u, tr) && Accounted(w, u, 0)
    ensures var t := TallyOf(w, u).(launchFailures := TallyOf(w, u).launchFailures + 1);
      LaunchCounted(w, u, Outcome(Note(w, u, t), tr, OtherError))
  {
  }

  lemma SaveQuietBut(w: World, u: UserId, tr: TaskRun, wr: Write, t: Tally)
    requires User(u) in w.tasks && FailedHostList(tr) == FailedHostList(w.tasks[User(u)])
    requires t.lostMarks == TallyOf(w, u).lostMarks
    ensures QuietBut(w, Note(Save(w, User(u), tr, wr), u, t), u) && User(u) in Save(w, User(u), tr, wr).tasks
    ensures var s := FailuresOf(Save(w, User(u), tr, wr).tasks[User(u)]);
      s == if Accepted(w, User(u), wr) && wr.Direct? then FailuresOf(tr) else FailuresOf(w.tasks[User(u)])
  {
    if Accepted(w, User(u), wr) {
      SavedForm(w.tasks[User(u)], tr, wr);
      hide StoredForm;
    }
  }

  lemma CountedLaunch(w: World, u: UserId, tr: TaskRun, wr: Write, n: nat)
    requires Accounted(w, u, 0) && n < 2 && n == Counter(FailuresOf(w.tasks[User(u)]))
    requires CounterText(FailuresOf(tr)) && Counter(FailuresOf(tr)) == n + 1
    requires FailedHostList(tr) == FailedHostList(w.tasks[User(u)])
    ensures var t := TallyOf(w, u).(launchFailures := TallyOf(w, u).launchFailures + 1);
      var kept := Accepted(w, User(u), wr) && wr.Direct?;
      LaunchCounted(w, u, Outcome(Note(Save(w, User(u), tr, wr), u, if kept then t else t.(lostCounts := t.lostCounts + 1)), tr, NoError))
  {
    hide Save, QuietBut, Accepted;
    var t := TallyOf(w, u).(launchFailures := TallyOf(w, u).launchFailures + 1);
    var kept := Accepted(w, User(u), wr) && wr.Direct?;
    SaveQuietBut(w, u, tr, wr, if kept then t else t.(lostCounts := t.lostCounts + 1));
  }

  lemma LaunchFailedCounts(w: World, u: UserId, tr: TaskRun, c: Calls)
    requires Steady(w, u, tr) && Accounted(w, u, 0)
    ensures LaunchCounted(w, u, LaunchFailed(w, u, tr, c))
  {
    hide ParseInt64, Itoa, LaunchCounted, Save, TallyOf, Note, Accepted;
    CounterSteps(FailuresOf(tr));
    FinalLaunchCounts(w, u, tr);
    var n := Counter(FailuresOf(tr));
    if n != 2 {
      var tr' := Annotate(tr, CloudFailures, Itoa(n + 1));
      assert FailuresOf(tr') == Itoa(n + 1);
      CountedLaunch(w, u, tr', c.write, n);
    }
  }

  lemma PollInstanceQuiet(w: World, u: UserId, tr: TaskRun, d: PlatformConfig, c: Calls)
    requires Steady(w, u, tr) && d.DynamicResolver?
    ensures var o := PollInstance(w, u, tr, d, c); Quiet(w, o.world) && Steady(o.world, u, o.tr)
  {
    QuietSelf(w);
    hide Abandon, AssignInstance, Quiet, Steady;
    AbandonQuiet(w, u, tr, c);
    if c.address.Address? {
      AssignInstanceQuiet(w, u, tr, d, c.address.text, c);
    }
  }

  lemma AwaitCapacityQuiet(w: World, u: UserId, tr: TaskRun, d: PlatformConfig, c: Calls)
    requires Steady(w, u, tr) && d.DynamicResolver?
    ensures var o := AwaitCapacity(w, u, tr, d, c); Quiet(w, o.world) && Steady(o.world, u, o.tr)
  {
    QuietSelf(w);
    hide Save, Quiet;
    SaveQuiet(w, u, SetLabel(tr, WaitingForPlatform, PlatformLabel(d.platform)), c.write);
  }

  /** A launch attempt: quiet if an instance comes back, counted if not. */
  lemma LaunchForTaskCounts(w: World, u: UserId, tr: TaskRun, d: PlatformConfig, c: Calls)
    requires Steady(w, u, tr) && d.DynamicResolver? && Accounted(w, u, 0)
    ensures var o := LaunchForTask(w, u, tr, d, c);
      || (Quiet(w, o.world) && Steady(o.world, u, o.tr))
      || LaunchCounted(w, u, o)
  {
    hide LaunchFailed, RecordInstance, Itoa, LaunchCounted, Quiet, Accounted;
    var tr1 := Annotate(DropLabel(tr, WaitingForPlatform), AllocationStartTime, Itoa(w.clock));
    assert Steady(w, u, tr1);
    if Launches(d, c) {
      RecordInstanceQuiet(w, u, tr1, d, c.launch.id, c);
    } else {
      LaunchFailedCounts(w, u, tr1, c);
    }
    hide Steady;
  }

  /** Allocation by the dynamic strategy: quiet, or exactly one failed launch. */
  lemma DynamicAllocateCounts(w: World, u: UserId, tr: TaskRun, d: PlatformConfig, c: Calls)
    requires Steady(w, u, tr) && d.DynamicResolver? && Accounted(w, u, 0)
    ensures var o := DynamicAllocate(w, u, tr, d, c);
      || (Quiet(w, o.world) && Steady(o.world, u, o.tr))
      || LaunchCounted(w, u, o)
  {
    QuietSelf(w);
    hide Abandon, PollInstance, AwaitCapacity, LaunchForTask, Counted, TimedOut, Quiet, Steady, LaunchCounted, Accounted;
    AbandonQuiet(w, u, tr, c);
    PollInstanceQuiet(w, u, tr, d, c);
    AwaitCapacityQuiet(w, u, tr, d, c);
    LaunchForTaskCounts(w, u, tr, d, c);
  }

  lemma AllocateCounts(w: World, u: UserId, tr: TaskRun, pc: PlatformConfig, c: Calls)
    requires Steady(w, u, tr) && Accounted(w, u, 0)
    ensures var o := Allocate(w, u, tr, pc, c);
      || (Quiet(w, o.world) && Steady(o.world, u, o.tr))
      || LaunchCounted(w, u, o)
  {
    hide Quiet, LaunchCounted, Accounted, LocalAllocate, DynamicAllocate, PoolAllocate, HostPoolAllocate;
    match pc
    case Local => LocalAllocateQuiet(w, u, tr, c);
    case DynamicResolver(_, _, _, _, _, _, _, _, _, _) => DynamicAllocateCounts(w, u, tr, pc, c);
    case DynamicHostPool(_, _, _, _, _, _, _, _, _) => PoolAllocateQuiet(w, u, tr, pc, c);
    case HostPool(hosts, platform) => HostPoolAllocateQuiet(w, u, tr, hosts, platform, c);
  }

  // ---- over a reconcile --------------------------------------------------------------------------------------

  lemma OpenIsAccounted(w: World, u: UserId)
    requires CountsOk(w) && User(u) in w.tasks && !Closed(w, u)
    ensures Accounted(w, u, 0)
  {
    assert Counts(w, u);
  }

  /** Quiet work keeps the accounts, because a closed task stays closed. */
  lemma QuietCounts(cfg: Settings, w: World, w': World)
    requires CountsOk(w) && CountsKept(w, w') && Follows(cfg, w, w')
    ensures CountsOk(w')
  {
    forall u | User(u) in w'.tasks ensures Counts(w', u) {
      assert Counts(w, u) && SameCounts(TallyOf(w, u), TallyOf(w', u));
      assert Closed(w, u) ==> Closed(w', u);
    }
    forall u ensures Bounded(TallyOf(w', u)) {
      assert SameCounts(TallyOf(w, u), TallyOf(w', u)) && Bounded(TallyOf(w, u));
    }
  }

  lemma QuietButCounts(cfg: Settings, w: World, w': World, u: UserId)
    requires CountsOk(w) && QuietBut(w, w', u) && Follows(cfg, w, w')
    requires Accounted(w', u, if Closed(w', u) then 1 else 0)
    ensures CountsOk(w')
  {
    forall v | User(v) in w'.tasks ensures Counts(w', v) {
      if v != u {
        assert Counts(w, v) && SameCounts(TallyOf(w, v), TallyOf(w', v));
        assert Closed(w, v) ==> Closed(w', v);
      }
    }
    forall v ensures Bounded(TallyOf(w', v)) {
      if v != u {
        assert SameCounts(TallyOf(w, v), TallyOf(w', v)) && Bounded(TallyOf(w, v));
      }
    }
  }

  lemma SecretClosesOrFails(w: World, u: UserId, tr: TaskRun, wr: Write, created: bool)
    ensures var o := CreateErrorSecret(w, User(u), tr, u, wr, created); o.error == NoError ==> u in o.world.secrets
  {
  }

  lemma QuietButTrans(w: World, w1: World, w2: World, u: UserId)
    requires QuietBut(w, w1, u) && Quiet(w1, w2)
    ensures QuietBut(w, w2, u)
  {
    assert SameCounts(TallyOf(w1, u), TallyOf(w2, u));
    forall v | v != u ensures SameCounts(TallyOf(w, v), TallyOf(w2, v)) {
      assert SameCounts(TallyOf(w, v), TallyOf(w1, v)) && SameCounts(TallyOf(w1, v), TallyOf(w2, v));
    }
  }

  lemma LostSecret(w: World, w1: World, u: UserId)
    requires QuietBut(w, w1, u) && Accounted(w1, u, 1)
    ensures var t := TallyOf(w1, u); var w2 := Note(w1, u, t.(lostSecrets := t.lostSecrets + 1));
      QuietBut(w, w2, u) && Accounted(w2, u, 0)
  {
    var t := TallyOf(w1, u);
    var w2 := Note(w1, u, t.(lostSecrets := t.lostSecrets + 1));
    forall v | v != u ensures TallyOf(w2, v) == TallyOf(w1, v) {}
  }

  lemma AccountedQuiet(w: World, w': World, u: UserId)
    requires Quiet(w, w') && Accounted(w, u, 1)
    ensures Accounted(w', u, 1) && TallyOf(w', u).launchFailures == TallyOf(w, u).launchFailures
  {
    assert SameCounts(TallyOf(w, u), TallyOf(w', u));
  }

  lemma ReportAfterLaunch(w: World, u: UserId, o: Outcome, c: Calls)
    requires LaunchCounted(w, u, o) && o.error != NoError
    ensures var r := ReportFailure(w, o, u, c);
      QuietBut(w, r.world, u) && Accounted(r.world, u, if Closed(r.world, u) then 1 else 0)
  {
    hide QuietBut, Quiet, CreateErrorSecret, Accounted, Note;
    ErrorSecretQuiet(o.world, u, o.tr, c.errorWrite, c.errorCreate);
    SecretClosesOrFails(o.world, u, o.tr, c.errorWrite, c.errorCreate);
    var r := CreateErrorSecret(o.world, User(u), o.tr, u, c.errorWrite, c.errorCreate);
    QuietButTrans(w, o.world, r.world, u);
    AccountedQuiet(o.world, r.world, u);
    LostSecret(w, r.world, u);
    Slack(ReportFailure(w, o, u, c).world, u);
  }

  lemma Slack(w: World, u: UserId)
    ensures Accounted(w, u, 0) ==> Accounted(w, u, 1)
  {
  }

  lemma ReportQuiet(w: World, u: UserId, o: Outcome, c: Calls)
    requires Quiet(w, o.world) && Steady(o.world, u, o.tr)
    ensures Quiet(w, ReportFailure(w, o, u, c).world)
  {
    ErrorSecretQuiet(o.world, u, o.tr, c.errorWrite, c.errorCreate);
    var r := CreateErrorSecret(o.world, User(u), o.tr, u, c.errorWrite, c.errorCreate);
    hide CreateErrorSecret;
    assert SameCounts(TallyOf(w, u), TallyOf(o.world, u)) && SameCounts(TallyOf(o.world, u), TallyOf(r.world, u));
    hide Quiet;
    QuietTrans(w, o.world, r.world);
  }

  /** Either nothing about the counters changes, or `u`'s accounts are balanced. */
  ghost predicate Balanced(w: World, w': World, u: UserId) {
    Quiet(w, w') || (QuietBut(w, w', u) && Accounted(w', u, if Closed(w', u) then 1 else 0))
  }

  lemma HostAllocationCounts(cfg: Settings, w: World, u: UserId, tr: TaskRun, c: Calls)
    requires Steady(w, u, tr) && CountsOk(w) && !Finished(w.tasks[User(u)])
    ensures var o := HostAllocation(cfg, w, u, tr, c);
      || (Quiet(w, o.world) && Steady(o.world, u, o.tr))
      || LaunchCounted(w, u, o)
  {
    QuietSelf(w);
    hide Quiet, LaunchCounted, Accounted, Allocate, CreateErrorSecret, CountsOk;
    ErrorSecretQuiet(w, u, tr, c.earlyWrite, c.earlyCreate);
    if u !in w.secrets && tr.platform in cfg {
      OpenIsAccounted(w, u);
      AllocateCounts(w, u, tr, cfg[tr.platform], c);
    }
  }

  lemma ReconcileUserCounts(cfg: Settings, w: World, u: UserId, c: Calls)
    requires User(u) in w.tasks && CountsOk(w)
    ensures Balanced(w, ReconcileUser(cfg, w, u, c).world, u)
  {
    QuietSelf(w);
    hide Quiet, QuietBut, HostAssigned, HostAllocation, ReportFailure, CreateErrorSecret, Validation.ValidPlatformFormat, CountsOk;
    HostAssignedQuiet(cfg, w, u, c);
    var tr := w.tasks[User(u)];
    if HostOf(tr) == "" && !Finished(tr) {
      var tr1 := if Get(tr.labels, TargetPlatform) == "" then SetLabel(tr, TargetPlatform, PlatformLabel(tr.platform)) else tr;
      ErrorSecretQuiet(w, u, tr, c.errorWrite, c.errorCreate);
      HostAllocationCounts(cfg, w, u, tr1, c);
      var o := HostAllocation(cfg, w, u, tr1, c);
      if Quiet(w, o.world) && Steady(o.world, u, o.tr) {
        ReportQuiet(w, u, o, c);
      } else if o.error != NoError {
        ReportAfterLaunch(w, u, o, c);
      }
    }
  }

  // ---- over the other handlers ---------------------------------------------------------------------------------

  lemma NoteQuiet(w: World, u: UserId, t: Tally)
    requires SameCounts(TallyOf(w, u), t)
    ensures Quiet(w, Note(w, u, t))
  {
  }

  lemma ProvisionSucceededQuiet(w: World, id: TaskId, tr: TaskRun, c: Calls)
    requires id.Provision?
    ensures Quiet(w, ProvisionSucceeded(w, id, tr, c))
  {
    QuietSelf(w);
    hide Quiet, Save, CreateErrorSecret;
    OtherSaveQuiet(w, id, tr, c.rewrite);
    var u := OwnerOf(tr);
    if User(u) in w.tasks {
      ErrorSecretQuiet(w, u, w.tasks[User(u)], c.errorWrite, c.errorCreate);
      var o := CreateErrorSecret(w, User(u), w.tasks[User(u)], u, c.errorWrite, c.errorCreate);
      OtherSaveQuiet(o.world, id, tr, c.rewrite);
      QuietTrans(w, o.world, Save(o.world, id, tr, c.rewrite));
    }
  }

  lemma RecordFailureCounts(w: World, u: UserId, host: string, wr: Write)
    requires User(u) in w.tasks
    ensures CountsKept(w, RecordFailure(w, u, host, wr))
  {
    hide WithFailure, Save, CountsKept;
    var user := w.tasks[User(u)];
    var user' := DropLabel(Annotate(user, FailedHosts, WithFailure(FailedHostList(user), host)), AssignedHost);
    var t := TallyOf(w, u).(provisionFailures := TallyOf(w, u).provisionFailures + 1);
    SaveCounts(w, u, user', wr);
    var w1 := Save(w, User(u), user', wr);
    NoteQuiet(w1, u, t);
    CountsKeptTrans(w, w1, Note(w1, u, t));
  }

  lemma SaveCounts(w: World, u: UserId, tr: TaskRun, wr: Write)
    requires User(u) in w.tasks && FailuresOf(tr) == FailuresOf(w.tasks[User(u)])
    ensures CountsKept(w, Save(w, User(u), tr, wr)) && Save(w, User(u), tr, wr).tallies == w.tallies
  {
    if Accepted(w, User(u), wr) {
      SavedForm(w.tasks[User(u)], tr, wr);
      hide StoredForm;
    }
  }

  lemma MarkCounts(w: World, w1: World, u: UserId, id: TaskId, tr: TaskRun, wr: Write)
    requires id.Provision? && CountsKept(w, w1)
    ensures CountsKept(w, Save(w1, id, tr, wr))
    ensures var t := TallyOf(w1, u); CountsKept(w, Note(w1, u, t.(lostMarks := t.lostMarks + 1)))
  {
    var t := TallyOf(w1, u).(lostMarks := TallyOf(w1, u).lostMarks + 1);
    hide CountsKept, Save, Note;
    OtherSaveQuiet(w1, id, tr, wr);
    NoteQuiet(w1, u, t);
    CountsKeptTrans(w, w1, Save(w1, id, tr, wr));
    CountsKeptTrans(w, w1, Note(w1, u, t));
  }

  lemma ProvisionFailedCounts(w: World, id: TaskId, tr: TaskRun, c: Calls)
    requires id.Provision?
    ensures CountsKept(w, ProvisionFailed(w, id, tr, c))
  {
    QuietSelf(w);
    hide CountsKept, Save, RecordFailure, Note;
    OtherSaveQuiet(w, id, tr, c.rewrite);
    var u := OwnerOf(tr);
    if User(u) in w.tasks {
      RecordFailureCounts(w, u, HostOf(tr), c.write);
      MarkCounts(w, RecordFailure(w, u, HostOf(tr), c.write), u, id, tr, c.rewrite);
    }
  }

  lemma ReconcileProvisionCounts(w: World, id: TaskId, c: Calls)
    requires id.Provision? && id in w.tasks
    ensures CountsKept(w, ReconcileProvision(w, id, c))
  {
    assert CountsKept(w, w) && CountsKept(w, w.(tasks := w.tasks - {id}));
    hide CountsKept, ProvisionSucceeded, ProvisionFailed;
    var tr' := Annotate(w.tasks[id], ProvisionTaskProcessed, "true");
    ProvisionSucceededQuiet(w, id, tr', c);
    ProvisionFailedCounts(w, id, tr', c);
  }

  lemma EditQuiet(w: World, id: TaskId, e: Edit)
    requires id in w.tasks
    ensures Quiet(w, Put(w, id, ApplyEdit(w.tasks[id], e)))
  {
    hide ApplyEdit, FailuresOf;
    EditKeepsControllerState(w.tasks[id], e);
    assert FailuresOf(ApplyEdit(w.tasks[id], e)) == FailuresOf(w.tasks[id]);
  }

  // ---- over runs ---------------------------------------------------------------------------------------------------

  lemma ArriveCounts(w: World, u: UserId, tr: TaskRun)
    requires CountsOk(w) && u !in w.seen && Untouched(tr) && SeenOk(w)
    ensures CountsOk(Arrive(w, u, tr))
  {
    var w' := Arrive(w, u, tr);
    forall v | User(v) in w'.tasks ensures Counts(w', v) {
      if v == u {
        assert TallyOf(w', u) == Tally(0, 0, 0, 0, 0);
      } else {
        assert Counts(w, v);
      }
    }
    forall v ensures Bounded(TallyOf(w', v)) {
      assert Bounded(TallyOf(w, v));
    }
  }

  lemma DropCounts(w: World, id: TaskId)
    requires CountsOk(w)
    ensures CountsOk(Drop(w, id))
  {
    var w' := Drop(w, id);
    forall v | User(v) in w'.tasks ensures Counts(w', v) {
      assert Counts(w, v);
    }
    forall v ensures Bounded(TallyOf(w', v)) {
      assert Bounded(TallyOf(w, v));
    }
  }

  lemma UserStepCounts(cfg: Settings, w: World, u: UserId, c: Calls)
    requires User(u) in w.tasks && CountsOk(w) && Follows(cfg, w, ReconcileUser(cfg, w, u, c).world)
    ensures CountsOk(ReconcileUser(cfg, w, u, c).world)
  {
    hide CountsKept, ListsKept, QuietBut, ReconcileUser, Follows, CountsOk, Accounted;
    ReconcileUserCounts(cfg, w, u, c);
    var w' := ReconcileUser(cfg, w, u, c).world;
    if Quiet(w, w') {
      QuietCounts(cfg, w, w');
    } else {
      QuietButCounts(cfg, w, w', u);
    }
  }

  /** The steps of the surroundings other than the arrival or removal of a task. */
  predicate Ambient(e: Event) {
    e.TaskEdited? || e.SecretProvided? || e.InstanceLost? || e.HostUpdateStarted? || e.Ticked?
  }

  lemma AmbientQuiet(cfg: Settings, w: World, e: Event)
    requires Ambient(e) && Admissible(cfg, w, e)
    ensures Quiet(w, Step(cfg, w, e))
  {
    hide ApplyEdit, ReconcileUser, ReconcileProvision, ReconcileClean, StaticName, FreshId, Untouched, HostUpdateRun;
    if e.TaskEdited? {
      EditQuiet(w, e.id, e.edit);
    }
  }

  lemma ControllerCounts(cfg: Settings, w: World, e: Event)
    requires Admissible(cfg, w, e) && CountsOk(w) && (e.UserReconciled? || e.ProvisionReconciled? || e.CleanReconciled?)
    requires Follows(cfg, w, Step(cfg, w, e))
    ensures CountsOk(Step(cfg, w, e))
  {
    hide Follows, FreshId, ReconcileUser, ReconcileProvision, ReconcileClean, Untouched, StaticName, CountsOk, Quiet;
    match e
    case UserReconciled(u, c) => UserStepCounts(cfg, w, u, c);
    case ProvisionReconciled(id, c) => ReconcileProvisionCounts(w, id, c); QuietCounts(cfg, w, Step(cfg, w, e));
    case CleanReconciled(id, c) => CleanQuiet(w, id, c); QuietCounts(cfg, w, Step(cfg, w, e));
  }

  lemma StepCounts(cfg: Settings, w: World, e: Event)
    requires WellFormed(cfg) && Good(cfg, w) && Admissible(cfg, w, e) && CountsOk(w)
    ensures CountsOk(Step(cfg, w, e))
  {
    GoodParts(cfg, w);
    hide Good, Follows, WellFormed, Untouched, StaticName, CountsOk, SeenOk, FreshId, ReconcileUser, ReconcileProvision, ReconcileClean, Quiet;
    StepKeeps(cfg, w, e);
    match e {
      case UserCreated(u, tr) => ArriveCounts(w, u, tr);
      case TaskRemoved(id) => DropCounts(w, id);
      case _ =>
        hide Step, Admissible;
        if Ambient(e) {
          AmbientQuiet(cfg, w, e);
          QuietCounts(cfg, w, Step(cfg, w, e));
        } else {
          ControllerCounts(cfg, w, e);
        }
    }
  }

  lemma CleanQuiet(w: World, id: TaskId, c: Calls)
    requires id.Clean? && id in w.tasks
    ensures Quiet(w, ReconcileClean(w, id, c))
  {
  }

  lemma InitialCounts(w: World)
    requires Initial(w)
    ensures CountsOk(w)
  {
  }

  lemma {:induction false} RunCounts(cfg: Settings, ws: seq<World>, k: nat)
    requires Run(cfg, ws) && k < |ws|
    ensures CountsOk(ws[k])
  {
    assert Initial(ws[0]);
    hide *;
    if k == 0 {
      InitialCounts(ws[0]);
    } else {
      RunCounts(cfg, ws, k - 1);
      RunIsGood(cfg, ws, k - 1);
      var e := NextStep(cfg, ws, k - 1);
      StepCounts(cfg, ws[k - 1], e);
    }
  }

  /** In its whole life a user task suffers at most three failed launches, and one more for each
      failure count that was not stored and for each error secret that could not be created. */
  lemma LaunchFailuresBounded(cfg: Settings, ws: seq<World>, k: nat, u: UserId)
    requires Run(cfg, ws) && k < |ws|
    ensures var t := TallyOf(ws[k], u); t.launchFailures <= 3 + t.lostCounts + t.lostSecrets
  {
    hide Run;
    RunCounts(cfg, ws, k);
    assert Bounded(TallyOf(ws[k], u));
  }
}
