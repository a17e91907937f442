/** What every reconcile keeps true of the world, and what it never undoes. */
module Safety {
  import opened Collections
  import opened Text
  import opened TaskRuns
  import opened Platforms
  import opened InstanceTags
  import opened Cluster
  import opened HostPools
  import opened DynamicPools
  import opened Reconcile

  // ---- configurations ------------------------------------------------------------------

  predicate Dynamic(cfg: Settings, p: string) { p in cfg && cfg[p].DynamicResolver? }
  predicate Pooled(cfg: Settings, p: string) { p in cfg && cfg[p].DynamicHostPool? }
  predicate Static(cfg: Settings, p: string) { p in cfg && cfg[p].HostPool? }

  /** A platform finds its own instances, if it can have any. */
  ghost predicate Visible(pc: PlatformConfig)
    requires Cloud(pc)
  {
    CanName(pc) ==> forall hash: Hash :: FindsMark(pc, MarkFor(pc, hash))
  }

  /** A platform does not find the instances of another one. */
  ghost predicate Apart(pc: PlatformConfig, other: PlatformConfig)
    requires Cloud(pc) && Cloud(other)
  {
    || pc.provider != other.provider
    || pc.scope != other.scope
    || !CanName(other)
    || forall hash: Hash :: !FindsMark(pc, MarkFor(other, hash))
  }

  /** The pools that find instances of `p`, by their tags, let them get equally old. */
  ghost predicate SameAge(cfg: Settings, p: string)
    requires Pooled(cfg, p)
  {
    forall q :: Pooled(cfg, q) && !Apart(cfg[q], cfg[p]) ==> cfg[q].maxAge == cfg[p].maxAge
  }

  /** The machine was launched for this platform. */
  ghost predicate MachineFor(pc: PlatformConfig, m: Machine)
    requires Cloud(pc)
  {
    CanName(pc) && m.provider == pc.provider && m.scope == pc.scope && exists hash: Hash :: m.mark == MarkFor(pc, hash)
  }

  ghost predicate StaticName(cfg: Settings, h: string) {
    exists p :: Static(cfg, p) && h in cfg[p].hosts
  }

  predicate ProperHost(host: Host, name: string, platform: string) {
    name != "" && ',' !in name && host.name == name && host.platform == platform
  }

  /** Each entry is for its own platform, and hosts are stored under their own non-empty, comma-free names. */
  ghost predicate WellFormed(cfg: Settings) {
    && (forall p :: Dynamic(cfg, p) || Pooled(cfg, p) ==> cfg[p].platform == p)
    && (forall p :: Static(cfg, p) ==> cfg[p].targetPlatform == p)
    && (forall p, h :: Static(cfg, p) && h in cfg[p].hosts ==> ProperHost(cfg[p].hosts[h], h, p))
  }

  /** On AWS a platform always finds its instances; on IBM exactly if its tag is the beginning of the names built from it,
      or none can be built. */
  lemma VisibleIff(pc: PlatformConfig)
    requires Cloud(pc)
    ensures Visible(pc) <==> pc.provider == "aws" || Canonical(pc.instanceTag) || !TagPattern(pc.instanceTag)
  {
    hide Named, Canonical, TagPattern;
    forall hash: Hash ensures HasPrefix(Named(pc.instanceTag, hash), pc.instanceTag) <==> Canonical(pc.instanceTag) {
      NameStartsWithTag(pc.instanceTag, hash);
    }
    assert FindsMark(pc, MarkFor(pc, HashFrom(""))) <==> pc.provider == "aws" || Canonical(pc.instanceTag);
  }

  /** A platform finds none of another's instances if the providers or what confines their lists differ, the AWS tags
      differ or the IBM tags cannot be confused. */
  lemma ApartIff(pc: PlatformConfig, other: PlatformConfig)
    requires Cloud(pc) && Cloud(other)
    ensures Apart(pc, other) <==>
      || pc.provider != other.provider
      || pc.scope != other.scope
      || (other.provider != "aws" && !TagPattern(other.instanceTag))
      || (if pc.provider == "aws" then pc.instanceTag != other.instanceTag else !Confusable(pc.instanceTag, other.instanceTag))
  {
    hide Named, TagPattern;
    if pc.provider == other.provider {
      if pc.provider == "aws" {
        assert FindsMark(pc, MarkFor(other, HashFrom(""))) <==> pc.instanceTag == other.instanceTag;
      } else {
        forall hash: Hash
          ensures FindsMark(pc, MarkFor(other, hash)) <==> HasPrefix(Named(other.instanceTag, hash), pc.instanceTag) {}
      }
    }
  }

  // ---- one user TaskRun -----------------------------------------------------------------

  predicate UserOk(cfg: Settings, tr: TaskRun) {
    && KindOf(tr) == ""
    && (HostOf(tr) != "" ==> Held(tr) && WaitingOf(tr) == "")
    && (if Dynamic(cfg, tr.platform) then
          && (HostOf(tr) != "" ==> HostOf(tr) == InstanceOf(tr))
          && (InstanceOf(tr) != "" && !Finished(tr) ==> Held(tr) && WaitingOf(tr) == "")
        else InstanceOf(tr) == "")
    && (tr.platform !in cfg || cfg[tr.platform].Local? ==> WaitingOf(tr) == "" && (HostOf(tr) == "" || HostOf(tr) == "localhost"))
    && (Static(cfg, tr.platform) && HostOf(tr) != "" ==> HostOf(tr) in cfg[tr.platform].hosts)
  }

  ghost predicate UsersOk(cfg: Settings, w: World) {
    forall u :: User(u) in w.tasks ==> UserOk(cfg, w.tasks[User(u)])
  }

  /** A recorded instance was launched for that very task. */
  ghost predicate Recorded(cfg: Settings, w: World) {
    forall u :: User(u) in w.tasks && InstanceOf(w.tasks[User(u)]) != "" ==>
      var i := InstanceOf(w.tasks[User(u)]);
      i in w.fleet && w.fleet[i].owner == u && w.fleet[i].platform == w.tasks[User(u)].platform
  }

  // ---- instances ----------------------------------------------------------------------------

  ghost predicate FleetOk(cfg: Settings, w: World) {
    && w.live <= w.fleet.Keys
    && forall i :: i in w.fleet ==>
        var p := w.fleet[i].platform;
        && i != "" && i != "localhost" && !StaticName(cfg, i)
        && (Dynamic(cfg, p) || Pooled(cfg, p)) && MachineFor(cfg[p], w.fleet[i])
  }

  /** Every instance launched for a task is recorded on it, under the finalizer, or was asked to terminate.
      `pending` is an instance whose launch has just returned. */
  ghost predicate Owned(cfg: Settings, w: World, pending: string) {
    forall i :: i in w.fleet && i != pending && Dynamic(cfg, w.fleet[i].platform) && i !in w.stopped ==>
      var id := User(w.fleet[i].owner);
      id in w.tasks && InstanceOf(w.tasks[id]) == i && Held(w.tasks[id])
  }

  /** An instance of a pool whose age the pools that find it agree on. */
  ghost predicate PoolMachine(cfg: Settings, w: World, i: string) {
    i in w.fleet && Pooled(cfg, w.fleet[i].platform) && SameAge(cfg, w.fleet[i].platform)
  }

  ghost predicate PoolExpired(cfg: Settings, w: World, i: string) {
    PoolMachine(cfg, w, i) && Expired(w, i, cfg[w.fleet[i].platform].maxAge)
  }

  /** No TaskRun names a pool instance that was shut down; only expired pool instances are. */
  ghost predicate PoolSafe(cfg: Settings, w: World) {
    && (forall id :: id in w.tasks && PoolMachine(cfg, w, HostOf(w.tasks[id])) ==> HostOf(w.tasks[id]) !in w.stopped)
    && (forall i :: i in w.stopped && PoolMachine(cfg, w, i) ==> PoolExpired(cfg, w, i))
  }

  ghost predicate NamesOk(cfg: Settings, w: World) {
    && (forall id :: id in w.tasks ==>
          var h := HostOf(w.tasks[id]);
          h == "" || h == "localhost" || StaticName(cfg, h) || h in w.fleet)
    && (forall u :: User(u) in w.tasks && Pooled(cfg, w.tasks[User(u)].platform) && HostOf(w.tasks[User(u)]) != "" ==>
          HostOf(w.tasks[User(u)]) in w.fleet)
  }

  // ---- capacity ----------------------------------------------------------------------------

  /** The user tasks of platform `p` assigned to host `h`. */
  function AssignedBy(w: World, p: string, h: string): set<TaskId> {
    set id | id in w.tasks && id.User? && w.tasks[id].platform == p && HostOf(w.tasks[id]) == h
  }

  function Slots(pc: PlatformConfig, h: string): int
    requires pc.HostPool? || pc.DynamicHostPool?
  {
    if pc.DynamicHostPool? then pc.concurrency
    else if h in pc.hosts then pc.hosts[h].concurrency else 0
  }

  ghost predicate WithinSlots(cfg: Settings, w: World) {
    forall p, h :: (Static(cfg, p) || Pooled(cfg, p)) && h != "" && AssignedBy(w, p, h) != {} ==>
      |AssignedBy(w, p, h)| <= Slots(cfg[p], h)
  }

  // ---- instance limits -------------------------------------------------------------------------

  function LiveOf(w: World, p: string): set<string> {
    set i | i in w.live && i in w.fleet && w.fleet[i].platform == p
  }

  function YoungOf(w: World, p: string, maxAge: int): set<string> {
    set i | i in LiveOf(w, p) && !Expired(w, i, maxAge)
  }

  ghost predicate WithinLimits(cfg: Settings, w: World) {
    && (forall p :: Dynamic(cfg, p) && Visible(cfg[p]) && LiveOf(w, p) != {} ==> |LiveOf(w, p)| <= cfg[p].maxInstances)
    && (forall p :: Pooled(cfg, p) && Visible(cfg[p]) && p !in w.undercounted && YoungOf(w, p, cfg[p].maxAge) != {} ==>
          |YoungOf(w, p, cfg[p].maxAge)| <= cfg[p].maxInstances)
  }

  // ---- provision failures -------------------------------------------------------------------------

  predicate Pending(w: World, u: UserId, a: string) {
    Provision(u, a) in w.tasks && !Processed(w.tasks[Provision(u, a)])
  }

  function FailedOf(w: World, u: UserId): seq<string>
    requires User(u) in w.tasks
  {
    FailedNames(FailedHostList(w.tasks[User(u)]))
  }

  /** The provision tasks of `u` for hosts that are already listed as failed: those whose mark was lost. */
  function Stale(w: World, u: UserId): set<TaskId>
    requires User(u) in w.tasks
  {
    set id | id in w.tasks && id.Provision? && id.user == u && !Processed(w.tasks[id]) && HostOf(w.tasks[id]) in FailedOf(w, u)
  }

  /** The failed hosts are hosts of the pool, and the task is on none of them. */
  ghost predicate ListOk(w: World, u: UserId, hosts: map<string, Host>)
    requires User(u) in w.tasks
  {
    && (FailedOf(w, u) == [] ==> FailedHostList(w.tasks[User(u)]) == "")
    && (forall h :: h in FailedOf(w, u) ==> h in hosts)
    && (HostOf(w.tasks[User(u)]) != "" ==> HostOf(w.tasks[User(u)]) !in FailedOf(w, u))
  }

  /** A provision task is for the host with the address it is named after. */
  ghost predicate ProvisionsOk(w: World, u: UserId, hosts: map<string, Host>) {
    forall a :: Provision(u, a) in w.tasks ==>
      var h := HostOf(w.tasks[Provision(u, a)]);
      h in hosts && hosts[h].address == a
  }

  /** Each failure is of another host or was recorded again because a mark was lost. */
  predicate Balance(w: World, u: UserId)
    requires User(u) in w.tasks
  {
    TallyOf(w, u).provisionFailures + |Stale(w, u)| <= |Elements(FailedOf(w, u))| + TallyOf(w, u).lostMarks
  }

  ghost predicate LedgerOk(cfg: Settings, w: World, u: UserId)
    requires User(u) in w.tasks
  {
    var p := w.tasks[User(u)].platform;
    Static(cfg, p) ==> ListOk(w, u, cfg[p].hosts) && ProvisionsOk(w, u, cfg[p].hosts) && Balance(w, u)
  }

  /** As long as no mark was lost, there is one failed host for each recorded failure and at most one provision task
      under way, for the host the task is on. */
  ghost predicate MarkedOk(cfg: Settings, w: World, u: UserId)
    requires User(u) in w.tasks
  {
    var tr := w.tasks[User(u)];
    Static(cfg, tr.platform) && TallyOf(w, u).lostMarks == 0 ==>
      && Distinct(FailedOf(w, u))
      && |FailedOf(w, u)| == TallyOf(w, u).provisionFailures
      && (forall a :: Pending(w, u, a) ==>
            var h := HostOf(w.tasks[Provision(u, a)]);
            h !in FailedOf(w, u) && (!Finished(tr) ==> HostOf(tr) == h))
      && (forall a, b :: Pending(w, u, a) && Pending(w, u, b) ==> a == b)
  }

  ghost predicate FailuresOk(cfg: Settings, w: World, u: UserId)
    requires User(u) in w.tasks
  {
    LedgerOk(cfg, w, u) && MarkedOk(cfg, w, u)
  }

  ghost predicate AllFailuresOk(cfg: Settings, w: World) {
    forall u :: User(u) in w.tasks ==> FailuresOk(cfg, w, u)
  }

  /** Names of user tasks are used once, and a provision task belongs to the task it is named after. */
  ghost predicate SeenOk(w: World) {
    && (forall u :: User(u) in w.tasks ==> u in w.seen)
    && (forall u :: u in w.tallies ==> u in w.seen)
    && (forall u, a :: Provision(u, a) in w.tasks ==> u in w.seen && OwnerOf(w.tasks[Provision(u, a)]) == u)
  }

  // ---- the invariant -------------------------------------------------------------------------------

  ghost predicate Sound(cfg: Settings, w: World, pending: string) {
    && SeenOk(w)
    && UsersOk(cfg, w)
    && Recorded(cfg, w)
    && FleetOk(cfg, w)
    && Owned(cfg, w, pending)
    && PoolSafe(cfg, w)
    && NamesOk(cfg, w)
    && WithinSlots(cfg, w)
    && WithinLimits(cfg, w)
  }

  ghost predicate GoodBut(cfg: Settings, w: World, pending: string) {
    Sound(cfg, w, pending) && AllFailuresOk(cfg, w)
  }

  ghost predicate Good(cfg: Settings, w: World) {
    GoodBut(cfg, w, "")
  }

  // ---- what never happens again -----------------------------------------------------------------------

  /** The record of launches and terminations only grows and time does not go back. */
  ghost predicate Later(w: World, w': World) {
    && w.clock <= w'.clock
    && w.stopped <= w'.stopped
    && w.seen <= w'.seen
    && (forall i :: i in w.fleet ==> i in w'.fleet && w'.fleet[i] == w.fleet[i])
    && (forall u :: User(u) in w'.tasks && u in w.seen ==> User(u) in w.tasks)
    && (forall u :: User(u) in w.tasks && User(u) in w'.tasks ==>
          && w'.tasks[User(u)].platform == w.tasks[User(u)].platform
          && (Finished(w.tasks[User(u)]) ==> Finished(w'.tasks[User(u)])))
  }

  /** No user task is newly assigned to a pool instance past its maximum age. */
  ghost predicate Retiring(cfg: Settings, w: World, w': World) {
    forall u :: User(u) in w'.tasks && PoolExpired(cfg, w, HostOf(w'.tasks[User(u)])) ==>
      User(u) in w.tasks && HostOf(w.tasks[User(u)]) == HostOf(w'.tasks[User(u)])
  }

  /** An unfinished task whose secret exists keeps it, gets no new host and no new instance. */
  ghost predicate Sealed(w: World, w': World) {
    forall u :: u in w.secrets && User(u) in w.tasks && User(u) in w'.tasks && !Finished(w'.tasks[User(u)]) ==>
      && u in w'.secrets
      && (HostOf(w'.tasks[User(u)]) == "" || HostOf(w'.tasks[User(u)]) == HostOf(w.tasks[User(u)]))
      && (forall i :: i in w'.fleet && w'.fleet[i].owner == u ==> i in w.fleet)
  }

  ghost predicate Follows(cfg: Settings, w: World, w': World) {
    Later(w, w') && Retiring(cfg, w, w') && Sealed(w, w')
  }

  lemma FollowsSelf(cfg: Settings, w: World)
    ensures Follows(cfg, w, w)
  {
  }

  lemma FollowsTrans(cfg: Settings, w: World, w1: World, w2: World)
    requires Follows(cfg, w, w1) && Follows(cfg, w1, w2)
    requires SeenOk(w) && SeenOk(w1)
    ensures Follows(cfg, w, w2)
  {
    assert Later(w, w2);
    forall u | User(u) in w2.tasks && PoolExpired(cfg, w, HostOf(w2.tasks[User(u)]))
      ensures User(u) in w.tasks && HostOf(w.tasks[User(u)]) == HostOf(w2.tasks[User(u)])
    {
      assert PoolExpired(cfg, w1, HostOf(w2.tasks[User(u)]));
    }
    forall u | u in w.secrets && User(u) in w.tasks && User(u) in w2.tasks && !Finished(w2.tasks[User(u)])
      ensures u in w2.secrets
      ensures HostOf(w2.tasks[User(u)]) == "" || HostOf(w2.tasks[User(u)]) == HostOf(w.tasks[User(u)])
      ensures forall i :: i in w2.fleet && w2.fleet[i].owner == u ==> i in w.fleet
    {
      assert User(u) in w1.tasks;
      assert !Finished(w1.tasks[User(u)]);
    }
  }
}
