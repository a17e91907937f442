/** The reconcile handlers: pkg/reconciler/taskrun/taskrun.go. Each takes the world, the
    TaskRun it was called for and the results of its calls, and gives the world it leaves. */
module Reconcile {
  import opened TaskRuns
  import opened Platforms
  import opened Cluster
  import opened HostPools
  import opened DynamicHosts
  import opened DynamicPools
  import Validation

  type Settings = map<string, PlatformConfig>

  ghost function Allocate(w: World, u: UserId, tr: TaskRun, pc: PlatformConfig, c: Calls): Outcome {
    match pc
    case Local => LocalAllocate(w, u, tr, c)
    case DynamicResolver(_, _, _, _, _, _, _, _, _, _) => DynamicAllocate(w, u, tr, pc, c)
    case DynamicHostPool(_, _, _, _, _, _, _, _, _) => PoolAllocate(w, u, tr, pc, c)
    case HostPool(hosts, platform) => HostPoolAllocate(w, u, tr, hosts, platform, c)
  }

  /** The error of a deallocation is only logged, so what matters is the world and the TaskRun. */
  ghost function Deallocate(w: World, u: UserId, tr: TaskRun, pc: PlatformConfig, c: Calls): Outcome {
    match pc
    case Local => Outcome(w, tr, NoError)
    case DynamicResolver(_, _, _, _, _, _, _, _, _, _) => DynamicDeallocate(w, tr, c)
    case DynamicHostPool(_, _, _, _, _, _, _, _, _) =>
      var (w', e) := PoolDeallocate(w, u, pc, HostOf(tr), c); Outcome(w', tr, e)
    case HostPool(hosts, platform) =>
      var (w', e) := HostPoolDeallocate(w, u, hosts, platform, HostOf(tr), c); Outcome(w', tr, e)
  }

  /** handleUserTask. */
  ghost function ReconcileUser(cfg: Settings, w: World, u: UserId, c: Calls): Outcome
    requires User(u) in w.tasks
  {
    var tr := w.tasks[User(u)];
    if HostOf(tr) != "" || (Finished(tr) && Held(tr)) then HostAssigned(cfg, w, u, tr, c)
    else if Finished(tr) then Outcome(w, tr, NoError)
    else if !Validation.ValidPlatformFormat(tr.platform) then
      CreateErrorSecret(w, User(u), tr, u, c.errorWrite, c.errorCreate).(error := NoError)
    else
      var tr1 := if Get(tr.labels, TargetPlatform) == "" then SetLabel(tr, TargetPlatform, PlatformLabel(tr.platform)) else tr;
      var o := HostAllocation(cfg, w, u, tr1, c);
      if o.error == NoError || o.error == Conflict then o else ReportFailure(w, o, u, c)
  }

  /** A failed allocation ends in an error secret, if one can be created. */
  function ReportFailure(before: World, o: Outcome, u: UserId, c: Calls): Outcome {
    var r := CreateErrorSecret(o.world, User(u), o.tr, u, c.errorWrite, c.errorCreate);
    var t := TallyOf(r.world, u);
    if r.error != NoError && t.launchFailures > TallyOf(before, u).launchFailures then
      Outcome(Note(r.world, u, t.(lostSecrets := t.lostSecrets + 1)), r.tr, o.error)
    else
      Outcome(r.world, r.tr, o.error)
  }

  /** handleHostAllocation. */
  ghost function HostAllocation(cfg: Settings, w: World, u: UserId, tr: TaskRun, c: Calls): Outcome {
    if c.secretReadFails then Outcome(w, tr, OtherError)
    else if u in w.secrets then Outcome(w, tr, NoError)
    else if c.configFails || tr.platform !in cfg then
      CreateErrorSecret(w, User(u), tr, u, c.earlyWrite, c.earlyCreate)
    else Allocate(w, u, tr, cfg[tr.platform], c)
  }

  /** handleHostAssigned: only a finished TaskRun gives its host back. */
  ghost function HostAssigned(cfg: Settings, w: World, u: UserId, tr: TaskRun, c: Calls): Outcome {
    if !Finished(tr) then Outcome(w, tr, NoError)
    else if c.configFails || tr.platform !in cfg then Outcome(w, tr, OtherError)
    else
      var o := Deallocate(w, u, tr, cfg[tr.platform], c);
      var tr' := DropLabel(RemoveFinalizer(o.tr), AssignedHost);
      var w' := Save(o.world, User(u), tr', c.write);
      if !Accepted(o.world, User(u), c.write) then Outcome(w', tr', WriteFault(c.write))
      else Outcome(Release(w', u, tr.platform, c), tr', if c.secretReadFails then OtherError else NoError)
  }

  /** The secret goes, and the oldest waiting task of the platform is marked for another try. */
  ghost function Release(w: World, u: UserId, platform: string, c: Calls): World {
    if c.secretReadFails then w
    else
      var w1 := if c.secretDelete then w.(secrets := w.secrets - {u}) else w;
      Wake(w1, platform, c)
  }

  predicate WaitsFor(tr: TaskRun, platform: string) {
    WaitingForPlatform in tr.labels && tr.labels[WaitingForPlatform] == PlatformLabel(platform)
  }

  predicate OldestWaiting(w: World, platform: string, id: TaskId) {
    && id in w.tasks
    && WaitsFor(w.tasks[id], platform)
    && forall other :: other in w.tasks && WaitsFor(w.tasks[other], platform) ==> w.tasks[id].created <= w.tasks[other].created
  }

  ghost predicate SomeoneWaits(w: World, platform: string) {
    exists id :: id in w.tasks && WaitsFor(w.tasks[id], platform)
  }

  lemma {:induction false} OldestAmong(w: World, ids: set<TaskId>, seed: TaskId) returns (oldest: TaskId)
    requires seed in ids && ids <= w.tasks.Keys
    ensures oldest in ids && forall id :: id in ids ==> w.tasks[oldest].created <= w.tasks[id].created
    decreases |ids|
  {
    var rest := ids - {seed};
    if rest == {} {
      assert ids == {seed};
      oldest := seed;
    } else {
      var other :| other in rest;
      var o := OldestAmong(w, ids - {other}, seed);
      oldest := if w.tasks[o].created <= w.tasks[other].created then o else other;
    }
  }

  lemma OldestExists(w: World, platform: string)
    requires SomeoneWaits(w, platform)
    ensures exists id :: OldestWaiting(w, platform, id)
  {
    var seed :| seed in w.tasks && WaitsFor(w.tasks[seed], platform);
    var waiting := set id | id in w.tasks && WaitsFor(w.tasks[id], platform);
    var oldest := OldestAmong(w, waiting, seed);
    assert OldestWaiting(w, platform, oldest);
  }

  /** The waiting task that is woken: an oldest one, and `wake` tells which if there are several. */
  ghost function Woken(w: World, platform: string, wake: TaskId): (id: TaskId)
    requires SomeoneWaits(w, platform)
    ensures OldestWaiting(w, platform, id)
  {
    if OldestWaiting(w, platform, wake) then wake
    else
      OldestExists(w, platform);
      var id :| OldestWaiting(w, platform, id); id
  }

  /** handleWaitingTasks. */
  ghost function Wake(w: World, platform: string, c: Calls): World {
    if !c.waitListFails && c.wakeWrite.Direct? && SomeoneWaits(w, platform)
    then
      var id := Woken(w, platform, c.wake);
      Save(w, id, SetLabel(w.tasks[id], FinishedWaiting, "true"), Direct)
    else w
  }

  /** Either nothing happens or some TaskRun is labelled. */
  lemma WakeIs(w: World, platform: string, c: Calls) returns (id: TaskId)
    ensures || Wake(w, platform, c) == w
            || (id in w.tasks && Wake(w, platform, c) == Save(w, id, SetLabel(w.tasks[id], FinishedWaiting, "true"), Direct))
  {
    hide WaitsFor, Save;
    if SomeoneWaits(w, platform) {
      id := Woken(w, platform, c.wake);
    } else {
      id := c.wake;
    }
  }

  function OwnerOf(tr: TaskRun): UserId {
    UserId(Get(tr.labels, UserTaskNamespace), Get(tr.labels, UserTaskName))
  }

  /** handleProvisionTask. */
  function ReconcileProvision(w: World, id: TaskId, c: Calls): World
    requires id in w.tasks
  {
    var tr := w.tasks[id];
    if tr.deleting || !tr.done then w
    else if Processed(tr) then
      if (tr.succeeded || c.retentionOver) && c.delete then w.(tasks := w.tasks - {id}) else w
    else
      var tr' := Annotate(tr, ProvisionTaskProcessed, "true");
      if tr.succeeded then ProvisionSucceeded(w, id, tr', c) else ProvisionFailed(w, id, tr', c)
  }

  function ProvisionSucceeded(w: World, id: TaskId, tr: TaskRun, c: Calls): World {
    var u := OwnerOf(tr);
    if c.secretReadFails then w
    else if u in w.secrets then Save(w, id, tr, c.rewrite)
    else if User(u) !in w.tasks then Save(w, id, tr, c.rewrite)
    else if c.userReadFails then w
    else
      var o := CreateErrorSecret(w, User(u), w.tasks[User(u)], u, c.errorWrite, c.errorCreate);
      if o.error != NoError then o.world else Save(o.world, id, tr, c.rewrite)
  }

  /** The failed host is added to the user task's list and its assignment withdrawn. */
  function ProvisionFailed(w: World, id: TaskId, tr: TaskRun, c: Calls): World {
    var u := OwnerOf(tr);
    if HostOf(tr) == "" || c.userReadFails || User(u) !in w.tasks then Save(w, id, tr, c.rewrite)
    else if !Accepted(w, User(u), c.write) then w
    else
      var w1 := RecordFailure(w, u, HostOf(tr), c.write);
      var t := TallyOf(w1, u);
      if Accepted(w1, id, c.rewrite) then Save(w1, id, tr, c.rewrite)
      else Note(w1, u, t.(lostMarks := t.lostMarks + 1))
  }

  function RecordFailure(w: World, u: UserId, host: string, wr: Write): World
    requires User(u) in w.tasks
  {
    var user := w.tasks[User(u)];
    var user' := DropLabel(Annotate(user, FailedHosts, WithFailure(FailedHostList(user), host)), AssignedHost);
    var t := TallyOf(w, u);
    Note(Save(w, User(u), user', wr), u, t.(provisionFailures := t.provisionFailures + 1))
  }

  /** handleCleanTask. */
  function ReconcileClean(w: World, id: TaskId, c: Calls): World
    requires id in w.tasks
  {
    var tr := w.tasks[id];
    if tr.deleting || !tr.done then w
    else if (tr.succeeded || c.retentionOver) && c.delete then w.(tasks := w.tasks - {id}) else w
  }
}
