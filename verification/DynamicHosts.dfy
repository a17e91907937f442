/** One cloud instance per TaskRun: pkg/reconciler/taskrun/dynamic.go. */
module DynamicHosts {
  import opened Text
  import opened TaskRuns
  import opened Platforms
  import opened Cluster

  /** TerminateInstance on the recorded instance, then removeInstanceFromTask: the shape of every give-up path. */
  function Abandon(w: World, u: UserId, tr: TaskRun, c: Calls): Outcome {
    var i := InstanceOf(tr);
    var w1 := Stop(w, i, c.terminate && i in c.gone);
    var tr1 := if c.terminate then DropAnnotation(tr, CloudInstanceId) else tr;
    var tr2 := DropAnnotation(DropLabel(tr1, AssignedHost), CloudDynamicPlatform);
    Outcome(Save(w1, User(u), tr2, c.rewrite), tr2, OtherError)
  }

  predicate TimedOut(tr: TaskRun, timeout: int, now: int) {
    var start := Get(tr.annotations, AllocationStartTime);
    start != "" && InstanceOf(tr) != "" && ParseInt64(start).Some? && ParseInt64(start).value + timeout < now
  }

  function DynamicAllocate(w: World, u: UserId, tr: TaskRun, d: PlatformConfig, c: Calls): Outcome
    requires d.DynamicResolver?
  {
    if FailedHostList(tr) != "" then Outcome(w, tr, OtherError)
    else if TimedOut(tr, d.timeout, w.clock) then Abandon(w, u, tr, c)
    else if InstanceOf(tr) != "" then PollInstance(w, u, tr, d, c)
    else if c.countFails then Outcome(w, tr, OtherError)
    else if |Counted(w, d)| >= d.maxInstances then AwaitCapacity(w, u, tr, d, c)
    else LaunchForTask(w, u, tr, d, c)
  }

  /** An instance is recorded: ask for its address, and provision it once there is one. */
  function PollInstance(w: World, u: UserId, tr: TaskRun, d: PlatformConfig, c: Calls): Outcome
    requires d.DynamicResolver?
  {
    if c.address.AddressError? then Abandon(w, u, tr, c)
    else if c.address.text != "" then AssignInstance(w, u, tr, d, c.address.text, c)
    else if c.state.StateFailed? then Abandon(w, u, tr, c).(error := NoError)
    else Outcome(w, tr, NoError)
  }

  function AssignInstance(w: World, u: UserId, tr: TaskRun, d: PlatformConfig, address: string, c: Calls): Outcome
    requires d.DynamicResolver?
  {
    var tr1 := Annotate(SetLabel(tr, AssignedHost, InstanceOf(tr)), CloudAddress, address);
    var w1 := Save(w, User(u), tr1, c.write);
    if !Accepted(w, User(u), c.write) then Outcome(w1, tr1, WriteFault(c.write))
    else
      var o := LaunchProvisioning(w1, u, tr1, address, d.platform, c);
      if o.error == NoError then o else Abandon(o.world, u, o.tr, c)
  }

  function AwaitCapacity(w: World, u: UserId, tr: TaskRun, d: PlatformConfig, c: Calls): Outcome
    requires d.DynamicResolver?
  {
    if WaitingOf(tr) == PlatformLabel(d.platform) then Outcome(w, tr, NoError)
    else
      var tr' := SetLabel(tr, WaitingForPlatform, PlatformLabel(d.platform));
      Outcome(Save(w, User(u), tr', c.write), tr', NoError)
  }

  function LaunchForTask(w: World, u: UserId, tr: TaskRun, d: PlatformConfig, c: Calls): Outcome
    requires d.DynamicResolver?
  {
    var tr1 := Annotate(DropLabel(tr, WaitingForPlatform), AllocationStartTime, Itoa(w.clock));
    if !Launches(d, c) then LaunchFailed(w, u, tr1, c)
    else RecordInstance(w, u, tr1, d, c.launch.id, c)
  }

  /** The third failed launch is final; the first two are counted in an annotation. */
  function LaunchFailed(w: World, u: UserId, tr: TaskRun, c: Calls): Outcome {
    var t := TallyOf(w, u).(launchFailures := TallyOf(w, u).launchFailures + 1);
    var count := if FailuresOf(tr) == "" then Some(0) else ParseInt64(FailuresOf(tr));
    if count.None? || count.value == 2 then Outcome(Note(w, u, t), tr, OtherError)
    else
      var tr' := Annotate(tr, CloudFailures, Itoa(count.value + 1));
      var kept := Accepted(w, User(u), c.write) && c.write.Direct?;
      Outcome(Note(Save(w, User(u), tr', c.write), u, if kept then t else t.(lostCounts := t.lostCounts + 1)), tr', NoError)
  }

  function RecordInstance(w: World, u: UserId, tr: TaskRun, d: PlatformConfig, i: string, c: Calls): Outcome
    requires d.DynamicResolver?
  {
    var w1 := Boot(w, i, NewMachine(d, u, c, w.clock));
    var tr1 := AddFinalizer(SetLabel(Annotate(tr, CloudInstanceId, i), CloudDynamicPlatform, PlatformLabel(d.platform)));
    if Accepted(w1, User(u), c.write) then Outcome(Save(w1, User(u), tr1, c.write), tr1, NoError)
    else Outcome(Stop(w1, i, c.terminate && i in c.gone), tr1, WriteFault(c.write))
  }

  /** DynamicResolver.Deallocate. */
  function DynamicDeallocate(w: World, tr: TaskRun, c: Calls): Outcome {
    var i := InstanceOf(tr);
    var w1 := Stop(w, i, c.terminate && i in c.gone);
    if !c.terminate then Outcome(w1, tr, OtherError)
    else Outcome(w1, DropAnnotation(DropLabel(DropLabel(tr, AssignedHost), CloudDynamicPlatform), CloudInstanceId), NoError)
  }
}
