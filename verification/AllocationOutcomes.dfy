/** What an allocation must do: when it succeeds, gives up, launches or waits, for each strategy and for the handler of
    user tasks around them. */
module AllocationOutcomes {
  import opened Text
  import opened TaskRuns
  import opened Platforms
  import opened Cluster
  import opened HostPools
  import opened DynamicHosts
  import opened DynamicPools
  import opened PoolCounting
  import opened Reconcile
  import opened Handlers
  import opened Shutdowns
  import opened Outcomes
  import opened LaunchRetries

  // ---- provisioning ------------------------------------------------------------------------------

  /** Provisioning cannot start: the credentials are missing and no error secret can be made, or the create call fails. */
  predicate CannotProvision(w: World, u: UserId, address: string, c: Calls) {
    if !c.sshSecretFound then u !in w.secrets && !c.earlyCreate
    else Provision(u, address) !in w.tasks && !c.provisionCreate
  }

  /** For a held task: a provision task for its host, or an error secret if there are no credentials. */
  lemma ProvisioningIff(w: World, u: UserId, tr: TaskRun, address: string, platform: string, c: Calls)
    requires User(u) in w.tasks && Held(tr)
    ensures var o := LaunchProvisioning(w, u, tr, address, platform, c); var id := Provision(u, address);
      && (o.error != NoError <==> CannotProvision(w, u, address, c))
      && (o.error == NoError && !c.sshSecretFound ==> u in o.world.secrets)
      && (o.error == NoError && c.sshSecretFound ==> id in o.world.tasks)
      && (o.error == NoError && c.sshSecretFound && id !in w.tasks ==>
            var p := o.world.tasks[id];
            KindOf(p) == "provision" && OwnerOf(p) == u && HostOf(p) == HostOf(tr) && !p.done && !Processed(p))
  {
  }

  // ---- HostPool and Local ---------------------------------------------------------------------------

  lemma AssignHostSucceeds(w: World, u: UserId, tr: TaskRun, host: Host, platform: string, c: Calls)
    requires User(u) in w.tasks
    ensures AssignHost(w, u, tr, host, platform, c).error == NoError <==>
      Accepted(w, User(u), c.write) && !CannotProvision(w, u, host.address, c)
  {
    hide Save, LaunchProvisioning;
    var tr1 := Given(tr, host.name);
    if Accepted(w, User(u), c.write) {
      SavedView(w, u, tr1, c.write);
      ProvisioningIff(Save(w, User(u), tr1, c.write), u, tr1, host.address, platform, c);
    }
  }

  /** With a usable host a pool allocation succeeds as soon as its calls do: by assigning a host with the most free slots,
      or by waiting if there is none. */
  lemma HostPoolSucceeds(w: World, u: UserId, tr: TaskRun, hosts: map<string, Host>, platform: string, c: Calls)
    requires User(u) in w.tasks && WaitingOf(tr) == WaitingOf(w.tasks[User(u)])
    requires !c.listFails && exists k :: k in hosts && Candidate(hosts, platform, Split(FailedHostList(tr), ','), k)
    requires Accepted(w, User(u), c.write) && c.sshSecretFound && c.provisionCreate
    ensures var o := HostPoolAllocate(w, u, tr, hosts, platform, c); var failed := Split(FailedHostList(tr), ',');
      && o.error == NoError
      && (if NoneFree(w, hosts, platform, failed) then Waits(o.world, u, platform)
          else exists k :: Best(w, hosts, platform, failed, k) && Has(o.world, u, hosts[k]))
  {
    HostPoolOutcome(w, u, tr, hosts, platform, c);
    hide AssignHost, NoneFree, Split, Chosen, Best, Has, Waits, Save;
    var failed := Split(FailedHostList(tr), ',');
    if !NoneFree(w, hosts, platform, failed) {
      var k := Chosen(w, hosts, platform, failed, c.pick);
      ChosenIsThere(w, hosts, platform, failed, k);
      AssignHostSucceeds(w, u, tr, hosts[k], platform, c);
    }
  }

  /** The label of the platform is stored with the host. */
  lemma HostPoolTarget(w: World, u: UserId, tr: TaskRun, hosts: map<string, Host>, platform: string, c: Calls)
    requires User(u) in w.tasks && !NoneFree(w, hosts, platform, Split(FailedHostList(tr), ','))
    ensures var o := HostPoolAllocate(w, u, tr, hosts, platform, c);
      o.error == NoError ==> User(u) in o.world.tasks && Get(o.world.tasks[User(u)].labels, TargetPlatform) == Get(tr.labels, TargetPlatform)
  {
    hide AssignHost, Split, Chosen, NoneFree, Get;
    var failed := Split(FailedHostList(tr), ',');
    var k := Chosen(w, hosts, platform, failed, c.pick);
    ChosenIsThere(w, hosts, platform, failed, k);
    AssignHostTarget(w, u, tr, hosts[k], platform, c);
  }

  /** What makes a pool allocation fail at once: no hosts, no list of the assigned tasks, no host of the platform; and a
      write that is refused. */
  lemma HostPoolErrors(w: World, u: UserId, tr: TaskRun, hosts: map<string, Host>, platform: string, c: Calls)
    requires User(u) in w.tasks
    ensures var o := HostPoolAllocate(w, u, tr, hosts, platform, c);
      && (hosts == map[] || c.listFails || (forall k :: k in hosts ==> hosts[k].platform != platform) ==> o == Outcome(w, tr, OtherError))
      && (!Accepted(w, User(u), c.write) && WaitingOf(tr) != PlatformLabel(platform) ==> o.error != NoError && o.world == w)
  {
    hide Split, NoneFree, Chosen, PlatformLabel;
    var failed := Split(FailedHostList(tr), ',');
    if !Accepted(w, User(u), c.write) {
      NotSaved(w, User(u), SetLabel(tr, WaitingForPlatform, PlatformLabel(platform)), c.write);
      if !NoneFree(w, hosts, platform, failed) {
        AssignHostOutcome(w, u, tr, hosts[Chosen(w, hosts, platform, failed, c.pick)], platform, c);
      }
    }
    hide AssignHost;
  }

  lemma LocalErrors(w: World, u: UserId, tr: TaskRun, c: Calls)
    requires User(u) in w.tasks
    ensures var o := LocalAllocate(w, u, tr, c);
      && (!c.write.Direct? ==> o.error != NoError && o.world == w)
      && (c.write.Direct? && u !in w.secrets && !c.earlyCreate ==> o.error == OtherError)
  {
    hide StoredForm;
  }

  /** The local strategy: the task is on "localhost", held, and its secret is there. */
  lemma LocalOutcome(w: World, u: UserId, tr: TaskRun, c: Calls)
    requires User(u) in w.tasks && c.write.Direct? && (u in w.secrets || c.earlyCreate)
    ensures var o := LocalAllocate(w, u, tr, c);
      && o.error == NoError && u in o.world.secrets
      && User(u) in o.world.tasks && HostOf(o.world.tasks[User(u)]) == "localhost" && Held(o.world.tasks[User(u)])
  {
    SavedView(w, u, AddFinalizer(SetLabel(tr, AssignedHost, "localhost")), Direct);
    hide StoredForm;
  }

  // ---- DynamicResolver: an instance is recorded ---------------------------------------------------------

  /** The instance is given up: it took too long, its address cannot be had, it is in a failed state, or provisioning
      cannot start on it. */
  predicate GivesUp(w: World, u: UserId, tr: TaskRun, d: PlatformConfig, c: Calls)
    requires d.DynamicResolver?
  {
    || TimedOut(tr, d.timeout, w.clock)
    || c.address.AddressError?
    || (c.address.text == "" && c.state.StateFailed?)
    || (c.address.text != "" && Accepted(w, User(u), c.write) && CannotProvision(w, u, c.address.text, c))
  }

  lemma AssignInstanceOutcome(w: World, u: UserId, tr: TaskRun, d: PlatformConfig, address: string, c: Calls)
    requires User(u) in w.tasks && d.DynamicResolver? && Held(tr) && WaitingOf(tr) == "" && InstanceOf(tr) !in w.stopped
    ensures var o := AssignInstance(w, u, tr, d, address, c); var i := InstanceOf(tr);
      var fails := CannotProvision(w, u, address, c);
      && (i in o.world.stopped <==> Accepted(w, User(u), c.write) && fails)
      && (o.error == NoError <==> Accepted(w, User(u), c.write) && !fails)
      && (o.error == NoError ==> Has(o.world, u, Host(i, address, "", d.platform, "", 0))
                                 && (c.write.Direct? ==> Get(o.world.tasks[User(u)].annotations, CloudAddress) == address))
      && (Accepted(w, User(u), c.write) && fails && Accepted(w, User(u), c.rewrite) ==>
            User(u) in o.world.tasks && HostOf(o.world.tasks[User(u)]) == ""
            && InstanceOf(o.world.tasks[User(u)]) == (if c.terminate then "" else i))
  {
    hide Save, LaunchProvisioning, Abandon;
    var tr1 := Annotate(SetLabel(tr, AssignedHost, InstanceOf(tr)), CloudAddress, address);
    if Accepted(w, User(u), c.write) {
      SavedView(w, u, tr1, c.write);
      SavedTarget(w, u, tr1, c.write);
      var w1 := Save(w, User(u), tr1, c.write);
      ProvisioningIff(w1, u, tr1, address, d.platform, c);
      ProvisioningOutcome(w1, u, tr1, address, d.platform, c);
      LaunchProvisioningStops(w1, u, tr1, address, d.platform, c);
      var o := LaunchProvisioning(w1, u, tr1, address, d.platform, c);
      AbandonOutcome(o.world, u, o.tr, c);
    } else {
      NotSaved(w, User(u), tr1, c.write);
    }
  }

  /** A recorded instance is given up exactly in the four cases. Giving up is reported as an error, except for a failed
      state, and leaves no host and no instance, unless its termination was refused. Otherwise a task whose instance has an
      address gets it as its host, and one whose instance has none yet is left as it is. */
  lemma GivesUpIff(w: World, u: UserId, tr: TaskRun, d: PlatformConfig, c: Calls)
    requires User(u) in w.tasks && d.DynamicResolver? && Held(tr) && WaitingOf(tr) == ""
    requires FailedHostList(tr) == "" && InstanceOf(tr) != "" && InstanceOf(tr) !in w.stopped
    ensures var o := DynamicAllocate(w, u, tr, d, c); var i := InstanceOf(tr); var up := GivesUp(w, u, tr, d, c);
      && (i in o.world.stopped <==> up)
      && (up ==> o.error != NoError || (c.address == Address("") && c.state.StateFailed?))
      && (up && Accepted(w, User(u), c.rewrite) ==>
            User(u) in o.world.tasks && HostOf(o.world.tasks[User(u)]) == ""
            && InstanceOf(o.world.tasks[User(u)]) == (if c.terminate then "" else i))
      && (!up && c.address.text != "" && Accepted(w, User(u), c.write) ==>
            && o.error == NoError && Has(o.world, u, Host(i, c.address.text, "", d.platform, "", 0))
            && (c.write.Direct? ==> Get(o.world.tasks[User(u)].annotations, CloudAddress) == c.address.text))
      && (!up && c.address.text == "" ==> o == Outcome(w, tr, NoError))
  {
    hide Abandon, AssignInstance, Has, TimedOut, CannotProvision;
    AbandonOutcome(w, u, tr, c);
    if c.address.Address? {
      AssignInstanceOutcome(w, u, tr, d, c.address.text, c);
    }
  }

  /** An instance launched at `time` that has no address after the timeout is terminated and taken from the task, which is
      an error. */
  lemma TimeoutEnforced(w: World, u: UserId, tr: TaskRun, d: PlatformConfig, c: Calls, time: int)
    requires User(u) in w.tasks && d.DynamicResolver? && Held(tr) && WaitingOf(tr) == ""
    requires FailedHostList(tr) == "" && InstanceOf(tr) != "" && InstanceOf(tr) !in w.stopped
    requires Get(tr.annotations, AllocationStartTime) == Itoa(time) && MIN_INT64 <= time <= MAX_INT64
    ensures var o := DynamicAllocate(w, u, tr, d, c); var i := InstanceOf(tr);
      && (time + d.timeout < w.clock ==>
            && o.error != NoError && i in o.world.stopped
            && (Accepted(w, User(u), c.rewrite) ==>
                  User(u) in o.world.tasks && HostOf(o.world.tasks[User(u)]) == ""
                  && InstanceOf(o.world.tasks[User(u)]) == (if c.terminate then "" else i)))
      && (time + d.timeout >= w.clock && c.address == Address("") && !c.state.StateFailed? ==> o == Outcome(w, tr, NoError))
  {
    ParseItoa(time);
    ItoaNotEmpty(time);
    hide ParseInt64, Itoa, Abandon;
    assert TimedOut(tr, d.timeout, w.clock) <==> time + d.timeout < w.clock;
    hide TimedOut;
    AbandonOutcome(w, u, tr, c);
    GivesUpIff(w, u, tr, d, c);
  }

  // ---- DynamicResolver: no instance yet ----------------------------------------------------------------------

  lemma AwaitCapacityOutcome(w: World, u: UserId, tr: TaskRun, d: PlatformConfig, c: Calls)
    requires User(u) in w.tasks && d.DynamicResolver? && WaitingOf(tr) == WaitingOf(w.tasks[User(u)])
    ensures var o := AwaitCapacity(w, u, tr, d, c);
      && o.error == NoError && o.world == w.(tasks := o.world.tasks)
      && (WaitingOf(tr) == PlatformLabel(d.platform) || Accepted(w, User(u), c.write) ==> Waits(o.world, u, d.platform))
  {
    hide Save, PlatformLabel;
    var tr' := SetLabel(tr, WaitingForPlatform, PlatformLabel(d.platform));
    if Accepted(w, User(u), c.write) {
      SavedView(w, u, tr', c.write);
    } else {
      NotSaved(w, User(u), tr', c.write);
    }
  }

  /** The first two failed launches are counted and no error, so that they are tried again; the third is an error. */
  lemma LaunchFailedOutcome(w: World, u: UserId, tr: TaskRun, c: Calls)
    requires User(u) in w.tasks && CounterText(FailuresOf(tr))
    ensures var o := LaunchFailed(w, u, tr, c); var n := Counter(FailuresOf(tr));
      && (o.error == NoError <==> n < 2)
      && (n < 2 && c.write.Direct? ==>
            User(u) in o.world.tasks && CounterText(FailuresOf(o.world.tasks[User(u)])) && Counter(FailuresOf(o.world.tasks[User(u)])) == n + 1)
      && o.world.fleet == w.fleet && o.world.secrets == w.secrets
  {
    hide ParseInt64, Itoa, Save, Note, TallyOf;
    CounterSteps(FailuresOf(tr));
    var n := Counter(FailuresOf(tr));
    if n < 2 {
      var tr' := Annotate(tr, CloudFailures, Itoa(n + 1));
      assert FailuresOf(tr') == Itoa(n + 1);
      SavedCounter(w, u, tr', c.write);
      NoteFrame(Save(w, User(u), tr', c.write), u);
    } else {
      NoteFrame(w, u);
    }
  }

  lemma SavedCounter(w: World, u: UserId, tr: TaskRun, wr: Write)
    requires User(u) in w.tasks
    ensures var w' := Save(w, User(u), tr, wr);
      && w'.fleet == w.fleet && w'.secrets == w.secrets
      && (wr.Direct? ==> User(u) in w'.tasks && FailuresOf(w'.tasks[User(u)]) == FailuresOf(tr))
  {
    if Accepted(w, User(u), wr) {
      SavedForm(w.tasks[User(u)], tr, wr);
      hide StoredForm;
    }
  }

  lemma NoteFrame(w: World, u: UserId)
    ensures forall t :: var w' := Note(w, u, t); w'.tasks == w.tasks && w'.fleet == w.fleet && w'.secrets == w.secrets
  {
  }

  /** The instance was launched now, for this task and platform. */
  predicate JustStarted(w: World, i: string, pc: PlatformConfig, u: UserId, now: int)
    requires Cloud(pc)
  {
    && i in w.fleet && w.fleet[i].owner == u && w.fleet[i].platform == pc.platform && w.fleet[i].provider == pc.provider
    && w.fleet[i].start == now
  }

  lemma NewIsJustStarted(pc: PlatformConfig, u: UserId, c: Calls, now: int)
    requires Cloud(pc)
    ensures var m := NewMachine(pc, u, c, now); m.owner == u && m.platform == pc.platform && m.provider == pc.provider && m.start == now
  {
    hide MarkFor;
  }

  /** Without an instance: below the limit one is launched and recorded, or terminated if that cannot be stored; at the
      limit the task waits; if the instances cannot be counted nothing is launched. */
  lemma NoInstanceOutcome(w: World, u: UserId, tr: TaskRun, d: PlatformConfig, c: Calls)
    requires User(u) in w.tasks && d.DynamicResolver? && FailedHostList(tr) == "" && InstanceOf(tr) == ""
    requires WaitingOf(tr) == WaitingOf(w.tasks[User(u)])
    ensures var o := DynamicAllocate(w, u, tr, d, c); var full := |Counted(w, d)| >= d.maxInstances;
      && (c.countFails ==> o == Outcome(w, tr, OtherError))
      && (!c.countFails && full ==>
            && o.error == NoError && o.world.fleet == w.fleet
            && (WaitingOf(tr) == PlatformLabel(d.platform) || Accepted(w, User(u), c.write) ==> Waits(o.world, u, d.platform)))
      && (!c.countFails && !full && Launches(d, c) ==>
            && JustStarted(o.world, c.launch.id, d, u, w.clock)
            && (if Accepted(w, User(u), c.write) then o.error == NoError && Records(o.world, u, c.launch.id, w.clock)
                else o.error != NoError && c.launch.id in o.world.stopped))
  {
    hide AwaitCapacity, LaunchForTask, Counted, Waits, Records, CanName;
    AwaitCapacityOutcome(w, u, tr, d, c);
    NewIsJustStarted(d, u, c, w.clock);
    if Launches(d, c) {
      LaunchOutcome(w, u, tr, d, c);
    }
  }

  /** A task whose instance could not be provisioned ends in an error: it is not given another one. */
  lemma FailedInstanceEnds(w: World, u: UserId, tr: TaskRun, d: PlatformConfig, c: Calls)
    requires d.DynamicResolver? && FailedHostList(tr) != ""
    ensures DynamicAllocate(w, u, tr, d, c) == Outcome(w, tr, OtherError)
  {
  }

  // ---- DynamicHostPool ---------------------------------------------------------------------------------------

  /** No host of the pool can be had: there is none, all have failed for the task, or all are full and the task waits. */
  ghost predicate NoHostLeft(w: World, u: UserId, tr: TaskRun, p: PlatformConfig, c: Calls)
    requires p.DynamicHostPool?
  {
    var hosts := PoolHosts(w, p, c);
    hosts == map[] ||
    (!c.listFails && NoneFree(Sweep(w, p, c), hosts, p.platform, Split(FailedHostList(tr), ','))
     && (WaitingOf(tr) == PlatformLabel(p.platform) || Accepted(w, User(u), c.write) || AllFailed(w, tr, p, c)))
  }

  ghost predicate AllFailed(w: World, tr: TaskRun, p: PlatformConfig, c: Calls)
    requires p.DynamicHostPool?
  {
    forall k :: k in PoolHosts(w, p, c) ==> k in Split(FailedHostList(tr), ',')
  }

  lemma HostsMatch(w: World, p: PlatformConfig, c: Calls)
    requires p.DynamicHostPool?
    ensures forall k :: k in PoolHosts(w, p, c) ==> Matching(PoolHosts(w, p, c), p.platform, k)
  {
    hide Listed, Expired;
  }

  /** What allocating from the hosts at hand gives when none is left. */
  lemma NoneLeft(w: World, u: UserId, tr: TaskRun, p: PlatformConfig, c: Calls)
    requires p.DynamicHostPool? && PlatformLabel(p.platform) != "" && NoHostLeft(w, u, tr, p, c) && PoolHosts(w, p, c) != map[]
    ensures var w1 := Sweep(w, p, c); var o := HostPoolAllocate(w1, u, tr, PoolHosts(w, p, c), p.platform, c);
      && o.error == (if AllFailed(w, tr, p, c) then AllHostsFailed else NoError)
      && (o.error == NoError ==> WaitingOf(o.tr) != "")
      && o.world == w1.(tasks := o.world.tasks)
  {
    HostsMatch(w, p, c);
    SweepFrame(w, p, c);
    hide PoolHosts, Sweep, Split, AssignHost, NoneFree, StoredForm, PlatformLabel, Retired;
    var some :| some in PoolHosts(w, p, c);
  }

  /** A pool without a host left launches an instance exactly if it is below its limit; at its limit the task goes on
      waiting, or ends with the error for failed hosts. */
  lemma PoolGrowsIff(w: World, u: UserId, tr: TaskRun, p: PlatformConfig, c: Calls)
    requires p.DynamicHostPool? && PlatformLabel(p.platform) != "" && NoHostLeft(w, u, tr, p, c)
    requires !c.instancesFail && !c.countFails && !c.randomFails && Launches(p, c) && c.launch.id !in w.fleet
    ensures var o := PoolAllocate(w, u, tr, p, c); var i := c.launch.id;
      var room := |Counted(Sweep(w, p, c), p)| - |Old(w, p, c)| < p.maxInstances;
      && (room ==> && o.error == NoError && i in o.world.live
                   && o.world.fleet == w.fleet[i := NewMachine(p, u, c, w.clock)] && JustStarted(o.world, i, p, u, w.clock))
      && (!room ==> o.world.fleet == w.fleet
                    && o.error == (if PoolHosts(w, p, c) != map[] && AllFailed(w, tr, p, c) then AllHostsFailed else NoError))
  {
    hide HostPoolAllocate, PoolHosts, Sweep, Counted, Old, Undercounts, CanName, NewMachine, AllFailed, NoHostLeft, PlatformLabel;
    SweepFrame(w, p, c);
    NewIsJustStarted(p, u, c, w.clock);
    hide Retired;
    if PoolHosts(w, p, c) != map[] {
      NoneLeft(w, u, tr, p, c);
      var o := HostPoolAllocate(Sweep(w, p, c), u, tr, PoolHosts(w, p, c), p.platform, c);
      SameCount(Sweep(w, p, c), o.world, p);
    }
  }

  lemma SameCount(w: World, w': World, p: PlatformConfig)
    requires p.DynamicHostPool? && w'.live == w.live && w'.fleet == w.fleet
    ensures Counted(w', p) == Counted(w, p)
  {
  }

  /** A pool that has a usable host with a free slot assigns it and launches nothing. */
  lemma PoolAssignsFree(w: World, u: UserId, tr: TaskRun, p: PlatformConfig, c: Calls)
    requires p.DynamicHostPool? && User(u) in w.tasks && WaitingOf(tr) == WaitingOf(w.tasks[User(u)])
    requires !c.instancesFail && !c.listFails && Accepted(w, User(u), c.write) && c.sshSecretFound && c.provisionCreate
    requires !NoneFree(Sweep(w, p, c), PoolHosts(w, p, c), p.platform, Split(FailedHostList(tr), ','))
    ensures var o := PoolAllocate(w, u, tr, p, c); var hosts := PoolHosts(w, p, c);
      && o.error == NoError && o.world.fleet == w.fleet
      && exists k :: Best(Sweep(w, p, c), hosts, p.platform, Split(FailedHostList(tr), ','), k) && Has(o.world, u, hosts[k])
  {
    hide PoolHosts, Sweep, Split, Retired, Scale, Save, Has, AssignHost, AssignedTo;
    SweepFrame(w, p, c);
    var w1, hosts, failed := Sweep(w, p, c), PoolHosts(w, p, c), Split(FailedHostList(tr), ',');
    var k := Chosen(w1, hosts, p.platform, failed, c.pick);
    hide Chosen;
    AssignHostSucceeds(w1, u, tr, hosts[k], p.platform, c);
    AssignHostOutcome(w1, u, tr, hosts[k], p.platform, c);
    AssignHostStops(w1, u, tr, hosts[k], p.platform, c);
    AssignHostFrame(w1, u, tr, hosts[k], p.platform, c);
    assert Matching(hosts, p.platform, k) && k !in failed;
  }

  /** An instance list that cannot be had ends the allocation at once; without a host left, so do a count that fails, a
      name that cannot be drawn and a launch that fails. Nothing is launched then. */
  lemma PoolErrors(w: World, u: UserId, tr: TaskRun, p: PlatformConfig, c: Calls)
    requires p.DynamicHostPool? && PlatformLabel(p.platform) != ""
    ensures c.instancesFail ==> PoolAllocate(w, u, tr, p, c) == Outcome(w, tr, OtherError)
    ensures var o := PoolAllocate(w, u, tr, p, c);
      var room := |Counted(Sweep(w, p, c), p)| - |Old(w, p, c)| < p.maxInstances;
      !c.instancesFail && NoHostLeft(w, u, tr, p, c) && (c.countFails || (room && (c.randomFails || !Launches(p, c)))) ==>
        o.error == OtherError && o.world.fleet == w.fleet
  {
    hide HostPoolAllocate, PoolHosts, Sweep, Counted, Old, Undercounts, CanName, NewMachine, AllFailed, NoHostLeft, PlatformLabel;
    SweepFrame(w, p, c);
    hide Retired;
    if PoolHosts(w, p, c) != map[] && NoHostLeft(w, u, tr, p, c) {
      NoneLeft(w, u, tr, p, c);
      var o := HostPoolAllocate(Sweep(w, p, c), u, tr, PoolHosts(w, p, c), p.platform, c);
      SameCount(Sweep(w, p, c), o.world, p);
    }
  }

  /** Every expired instance that a pass lists and finds idle is asked to terminate. */
  lemma RetiredAreStopped(w: World, u: UserId, tr: TaskRun, p: PlatformConfig, c: Calls, i: string)
    requires p.DynamicHostPool? && !c.instancesFail
    requires i in Listed(w, p, c) && Expired(w, i, p.maxAge) && Idle(w, i) && i !in c.idleUnknown
    ensures i in PoolAllocate(w, u, tr, p, c).world.stopped
    ensures forall selected :: i in PoolDeallocate(w, u, p, selected, c).0.stopped
  {
    assert i in Retired(w, p, c);
    hide Retired, Listed, Idle, Expired, HostPoolAllocate, HostPoolDeallocate, PoolHosts, Old, Counted, Undercounts, CanName;
    HostPoolAllocateStops(Sweep(w, p, c), u, tr, PoolHosts(w, p, c), p.platform, c);
    forall selected ensures i in PoolDeallocate(w, u, p, selected, c).0.stopped {
      HostPoolDeallocateStops(Sweep(w, p, c), u, PoolHosts(w, p, c), p.platform, selected, c);
    }
  }
}
