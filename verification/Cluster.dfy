/** The world the controller acts on: TaskRuns, secrets and cloud instances, with the
    primitive effects a reconcile can have and the outcome of every call it makes. */
module Cluster {
  import opened Text
  import opened TaskRuns
  import opened Platforms
  import opened InstanceTags

  datatype UserId = UserId(ns: string, name: string)

  /** TaskRun names. A provision or cleanup task is named after its user task and the host address. */
  datatype TaskId =
    | User(user: UserId)
    | Provision(user: UserId, address: string)
    | Clean(user: UserId, address: string)
    | HostUpdate(number: nat)

  /** An instance. `mark` is what it is found by: on AWS its instance tag, on IBM its name. */
  datatype Machine = Machine(platform: string, provider: string, scope: seq<string>, mark: string, owner: UserId, start: int)

  /** What has happened to one user task so far. */
  datatype Tally = Tally(launchFailures: nat, lostCounts: nat, lostSecrets: nat,
                         provisionFailures: nat, lostMarks: nat)

  datatype World = World(
    tasks: map<TaskId, TaskRun>,
    secrets: set<UserId>,             // user tasks whose multi-platform-ssh secret exists
    fleet: map<string, Machine>,      // every instance ever launched
    live: set<string>,                // the instances the provider still counts
    stopped: set<string>,             // the ids TerminateInstance has been called on
    clock: int,
    seen: set<UserId>,                // user task names ever used
    tallies: map<UserId, Tally>,
    undercounted: set<string>)        // pools that launched in a pass that undercounts

  // ---- results of calls ---------------------------------------------------------------

  datatype Write =
    | Direct                 // the first update was accepted
    | Merged(edit: Edit)     // somebody else wrote `edit` first; a retry merged and was accepted
    | WriteConflict          // every retry met another conflict
    | WriteError             // some other failure

  datatype Address = AddressError | Address(text: string)
  datatype VmState = StateError | StateOk | StateFailed
  datatype Launch = LaunchError | Launched(id: string, hash: Hash)

  datatype Calls = Calls(
    secretReadFails: bool,            // reading the user task's secret fails with something other than "not found"
    configFails: bool,
    write: Write,                     // the main update of the TaskRun
    rewrite: Write,                   // a second update, to take something back
    errorWrite: Write,                // the update that adds the finalizer before an error secret
    errorCreate: bool,                // creating the error secret succeeds
    earlyWrite: Write,                // the same two for an error secret created inside allocation
    earlyCreate: bool,
    sshSecretFound: bool,
    provisionCreate: bool,
    listFails: bool,                  // listing assigned TaskRuns
    pick: string,                     // the host a walk over the host map settles on
    terminate: bool,                  // TerminateInstance reports success
    address: Address,
    state: VmState,
    countFails: bool,
    launch: Launch,
    instancesFail: bool,              // ListInstances
    reachable: set<string>,           // the instances ListInstances reports
    idleUnknown: set<string>,         // instances whose idle check fails
    gone: set<string>,                // stopped instances the provider stops counting at once
    randomFails: bool,
    cleanListFails: bool,
    cleanCreate: bool,
    secretDelete: bool,
    waitListFails: bool,
    wake: TaskId,                     // the waiting task that is found to be the oldest
    wakeWrite: Write,
    userReadFails: bool,
    retentionOver: bool,
    delete: bool)

  datatype Error = NoError | Conflict | AllHostsFailed | OtherError

  /** What a handler leaves behind: the world, the in-memory TaskRun and the returned error. */
  datatype Outcome = Outcome(world: World, tr: TaskRun, error: Error)

  // ---- primitive effects ----------------------------------------------------------------

  function TallyOf(w: World, u: UserId): Tally {
    if u in w.tallies then w.tallies[u] else Tally(0, 0, 0, 0, 0)
  }

  function Note(w: World, u: UserId, t: Tally): World {
    w.(tallies := w.tallies[u := t])
  }

  /** UpdateTaskRunWithRetry is accepted, directly or after a merge. */
  predicate Accepted(w: World, id: TaskId, wr: Write) {
    id in w.tasks && (wr.Direct? || wr.Merged?)
  }

  /** What the API server holds afterwards. An update never writes the status or the deletion mark. */
  function StoredForm(stored: TaskRun, tr: TaskRun, wr: Write): TaskRun {
    if wr.Merged? then Merge(ApplyEdit(stored, wr.edit), tr)
    else tr.(platform := stored.platform, created := stored.created,
             done := stored.done, succeeded := stored.succeeded, deleting := stored.deleting)
  }

  function Save(w: World, id: TaskId, tr: TaskRun, wr: Write): World {
    if Accepted(w, id, wr) then w.(tasks := w.tasks[id := StoredForm(w.tasks[id], tr, wr)]) else w
  }

  lemma NotSaved(w: World, id: TaskId, tr: TaskRun, wr: Write)
    requires !Accepted(w, id, wr)
    ensures Save(w, id, tr, wr) == w
  {
  }

  function WriteFault(wr: Write): Error {
    if wr.WriteConflict? then Conflict else OtherError
  }

  /** TerminateInstance is called on `i`; `gone` says the provider stops counting it at once. */
  function Stop(w: World, i: string, gone: bool): World {
    w.(stopped := w.stopped + {i}, live := if gone then w.live - {i} else w.live)
  }

  function Boot(w: World, i: string, m: Machine): World {
    w.(fleet := w.fleet[i := m], live := w.live + {i})
  }

  predicate Cloud(pc: PlatformConfig) {
    pc.DynamicResolver? || pc.DynamicHostPool?
  }

  /** createInstanceName refuses a tag that does not match its pattern, so that nothing can be launched. */
  predicate CanName(pc: PlatformConfig)
    requires Cloud(pc)
  {
    pc.provider == "aws" || TagPattern(pc.instanceTag)
  }

  /** LaunchInstance succeeds. */
  predicate Launches(pc: PlatformConfig, c: Calls)
    requires Cloud(pc)
  {
    c.launch.Launched? && CanName(pc)
  }

  /** The mark a new instance of a platform gets. */
  function MarkFor(pc: PlatformConfig, hash: Hash): string
    requires Cloud(pc)
  {
    if pc.provider == "aws" then pc.instanceTag else Named(pc.instanceTag, hash)
  }

  function NewMachine(pc: PlatformConfig, u: UserId, c: Calls, now: int): Machine
    requires Cloud(pc)
  {
    Machine(pc.platform, pc.provider, pc.scope, MarkFor(pc, if c.launch.Launched? then c.launch.hash else HashFrom("")), u, now)
  }

  /** AWS filters by the instance tag; on IBM every instance whose name starts with the tag is taken. */
  predicate FindsMark(pc: PlatformConfig, mark: string)
    requires Cloud(pc)
  {
    if pc.provider == "aws" then mark == pc.instanceTag else HasPrefix(mark, pc.instanceTag)
  }

  predicate Finds(pc: PlatformConfig, m: Machine)
    requires Cloud(pc)
  {
    m.provider == pc.provider && m.scope == pc.scope && FindsMark(pc, m.mark)
  }

  /** What CountInstances counts. */
  function Counted(w: World, pc: PlatformConfig): set<string>
    requires Cloud(pc)
  {
    set i | i in w.live && i in w.fleet && Finds(pc, w.fleet[i])
  }

  /** The user tasks labelled with a host: what HostPool.Allocate counts. */
  function AssignedTo(w: World, host: string): set<TaskId> {
    set id | id in w.tasks && AssignedHost in w.tasks[id].labels && KindOf(w.tasks[id]) == "" && HostOf(w.tasks[id]) == host
  }

  /** No TaskRun of any kind names the host: isHostIdle. */
  predicate Idle(w: World, host: string) {
    forall id :: id in w.tasks && AssignedHost in w.tasks[id].labels ==> w.tasks[id].labels[AssignedHost] != host
  }

  // ---- shared helpers of the handlers -----------------------------------------------------

  /** createErrorSecret. */
  function CreateErrorSecret(w: World, id: TaskId, tr: TaskRun, u: UserId, wr: Write, created: bool): Outcome {
    var tr' := AddFinalizer(tr);
    if !Held(tr) && !(id in w.tasks && wr.Direct?) then
      Outcome(w, tr', WriteFault(wr))
    else
      var w' := if Held(tr) then w else Save(w, id, tr', Direct);
      if u in w'.secrets then Outcome(w', tr', NoError)
      else if !created then Outcome(w', tr', OtherError)
      else Outcome(w'.(secrets := w'.secrets + {u}), tr', NoError)
  }

  function ProvisionRun(u: UserId, host: string, platform: string): TaskRun {
    TaskRun(map[TaskType := "provision", TargetPlatform := PlatformLabel(platform),
                UserTaskNamespace := u.ns, UserTaskName := u.name, AssignedHost := host],
            map[], [], "", 0, false, false, false)
  }

  /** launchProvisioningTask. */
  function LaunchProvisioning(w: World, u: UserId, tr: TaskRun, address: string, platform: string, c: Calls): Outcome {
    if !c.sshSecretFound then
      CreateErrorSecret(w, User(u), tr, u, c.earlyWrite, c.earlyCreate)
    else if Provision(u, address) in w.tasks then Outcome(w, tr, NoError)
    else if !c.provisionCreate then Outcome(w, tr, OtherError)
    else Outcome(w.(tasks := w.tasks[Provision(u, address) := ProvisionRun(u, HostOf(tr), platform)]), tr, NoError)
  }
}
