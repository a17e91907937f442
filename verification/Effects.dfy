/** The primitive effects of a reconcile keep the invariant, each under the condition
    that the handlers establish before using it. */
module Effects {
  import opened Collections
  import opened TaskRuns
  import opened Cluster
  import opened HostPools
  import opened DynamicPools
  import opened Reconcile
  import opened Safety

  // ---- storing a user TaskRun ------------------------------------------------------------

  function Put(w: World, id: TaskId, tr: TaskRun): World {
    w.(tasks := w.tasks[id := tr])
  }

  /** A host may be given to a task of platform `p`: it belongs to the platform and has a slot left. */
  ghost predicate Assignable(cfg: Settings, w: World, p: string, h: string) {
    && (Static(cfg, p) ==> h in cfg[p].hosts && |AssignedTo(w, h)| < cfg[p].hosts[h].concurrency)
    && (Pooled(cfg, p) ==> h in w.fleet && !PoolExpired(cfg, w, h)
                           && |AssignedTo(w, h)| < cfg[p].concurrency)
  }

  /** What must hold of a new version `tr'` of the task `u` for it to be stored. */
  ghost predicate WriteOk(cfg: Settings, w: World, u: UserId, tr': TaskRun)
    requires User(u) in w.tasks
  {
    var tr := w.tasks[User(u)];
    && UserOk(cfg, tr')
    && tr'.platform == tr.platform
    && (Finished(tr) ==> Finished(tr'))
    && InstanceKept(w, u, tr, tr')
    && (HostOf(tr') != "" && HostOf(tr') != HostOf(tr) ==>
          u !in w.secrets && Assignable(cfg, w, tr.platform, HostOf(tr')))
  }

  /** A recorded instance is only forgotten, or released from the finalizer, after TerminateInstance;
      a newly recorded one was launched for this task. */
  ghost predicate InstanceKept(w: World, u: UserId, tr: TaskRun, tr': TaskRun) {
    && (InstanceOf(tr) != "" && InstanceOf(tr) !in w.stopped ==>
          InstanceOf(tr') == InstanceOf(tr) && (Held(tr) ==> Held(tr')))
    && (InstanceOf(tr') != "" && InstanceOf(tr') != InstanceOf(tr) ==>
          var i := InstanceOf(tr');
          i in w.fleet && w.fleet[i].owner == u && w.fleet[i].platform == tr.platform)
  }

  lemma PutKeepsUsers(cfg: Settings, w: World, u: UserId, tr': TaskRun)
    requires User(u) in w.tasks && WriteOk(cfg, w, u, tr')
    requires UsersOk(cfg, w) && Recorded(cfg, w)
    ensures UsersOk(cfg, Put(w, User(u), tr')) && Recorded(cfg, Put(w, User(u), tr'))
  {
  }

  lemma PutKeepsOwned(cfg: Settings, w: World, u: UserId, tr': TaskRun, pending: string)
    requires User(u) in w.tasks && WriteOk(cfg, w, u, tr') && FleetOk(cfg, w)
    requires Owned(cfg, w, pending)
    ensures Owned(cfg, Put(w, User(u), tr'), pending)
  {
  }

  lemma PutKeepsNames(cfg: Settings, w: World, u: UserId, tr': TaskRun)
    requires User(u) in w.tasks && WriteOk(cfg, w, u, tr') && UsersOk(cfg, w) && Recorded(cfg, w)
    requires NamesOk(cfg, w)
    ensures NamesOk(cfg, Put(w, User(u), tr'))
  {
    var tr := w.tasks[User(u)];
    var h := HostOf(tr');
    assert h == "" || h == "localhost" || StaticName(cfg, h) || h in w.fleet by {
      if Static(cfg, tr.platform) && h != "" {
        assert StaticName(cfg, h);
      }
    }
  }

  lemma StaticNotLaunched(cfg: Settings, w: World, p: string, h: string)
    requires FleetOk(cfg, w) && Static(cfg, p) && h in cfg[p].hosts
    ensures h !in w.fleet
  {
    assert StaticName(cfg, h);
  }

  lemma PutKeepsPool(cfg: Settings, w: World, u: UserId, tr': TaskRun)
    requires User(u) in w.tasks && WriteOk(cfg, w, u, tr') && UsersOk(cfg, w) && Recorded(cfg, w) && FleetOk(cfg, w)
    requires PoolSafe(cfg, w)
    ensures PoolSafe(cfg, Put(w, User(u), tr'))
  {
    var tr := w.tasks[User(u)];
    var h := HostOf(tr');
    if PoolMachine(cfg, w, h) && h != HostOf(tr) {
      if Static(cfg, tr.platform) {
        StaticNotLaunched(cfg, w, tr.platform, h);
      }
      assert h !in w.stopped;
    }
    forall i | i in w.stopped && PoolMachine(cfg, w, i)
      ensures PoolExpired(cfg, Put(w, User(u), tr'), i)
    {
      assert PoolExpired(cfg, w, i);
    }
  }

  lemma PutKeepsLimits(cfg: Settings, w: World, id: TaskId, tr': TaskRun)
    requires WithinLimits(cfg, w)
    ensures WithinLimits(cfg, Put(w, id, tr'))
  {
    var w' := Put(w, id, tr');
    forall p ensures LiveOf(w', p) == LiveOf(w, p) {}
    forall p | Pooled(cfg, p) ensures YoungOf(w', p, cfg[p].maxAge) == YoungOf(w, p, cfg[p].maxAge) {}
  }

  lemma AssignedByCounted(cfg: Settings, w: World, p: string, h: string)
    requires UsersOk(cfg, w) && h != ""
    ensures |AssignedBy(w, p, h)| <= |AssignedTo(w, h)|
  {
    assert AssignedBy(w, p, h) <= AssignedTo(w, h);
    SubsetSize(AssignedBy(w, p, h), AssignedTo(w, h));
  }

  lemma AssignedAfterPut(w: World, u: UserId, tr': TaskRun, p: string, h: string)
    requires User(u) in w.tasks && tr'.platform == w.tasks[User(u)].platform
    ensures var before, after := AssignedBy(w, p, h), AssignedBy(Put(w, User(u), tr'), p, h);
      && |after| <= |before| + 1
      && (p != tr'.platform || h != HostOf(tr') || h == HostOf(w.tasks[User(u)]) ==>
            |after| <= |before| && (after != {} ==> before != {}))
  {
    var before, after := AssignedBy(w, p, h), AssignedBy(Put(w, User(u), tr'), p, h);
    assert after <= before + {User(u)};
    SubsetSize(after, before + {User(u)});
    if p != tr'.platform || h != HostOf(tr') || h == HostOf(w.tasks[User(u)]) {
      assert after <= before;
      SubsetSize(after, before);
    }
  }

  lemma PutKeepsSlots(cfg: Settings, w: World, u: UserId, tr': TaskRun)
    requires User(u) in w.tasks && WriteOk(cfg, w, u, tr') && UsersOk(cfg, w)
    requires WithinSlots(cfg, w)
    ensures WithinSlots(cfg, Put(w, User(u), tr'))
  {
    hide AssignedBy, AssignedTo, UserOk, UsersOk;
    var w' := Put(w, User(u), tr');
    forall p, h | (Static(cfg, p) || Pooled(cfg, p)) && h != "" && AssignedBy(w', p, h) != {}
      ensures |AssignedBy(w', p, h)| <= Slots(cfg[p], h)
    {
      AssignedAfterPut(w, u, tr', p, h);
      AssignedByCounted(cfg, w, p, h);
    }
  }

  /** The failed-hosts list is untouched and a newly given host is not on it. */
  ghost predicate FailuresKept(cfg: Settings, w: World, u: UserId, tr': TaskRun)
    requires User(u) in w.tasks
  {
    var tr := w.tasks[User(u)];
    && FailedHostList(tr') == FailedHostList(tr)
    && (Static(cfg, tr.platform) && HostOf(tr') != "" && HostOf(tr') != HostOf(tr) ==>
          HostOf(tr) == "" && !Finished(tr) && HostOf(tr') !in FailedNames(FailedHostList(tr)))
    && (Static(cfg, tr.platform) && TallyOf(w, u).lostMarks == 0 && HostOf(tr') == "" && HostOf(tr) != "" && !Finished(tr') ==>
          forall a :: !Pending(w, u, a))
  }

  lemma PutKeepsFailures(cfg: Settings, w: World, u: UserId, tr': TaskRun)
    requires User(u) in w.tasks && WriteOk(cfg, w, u, tr') && FailuresKept(cfg, w, u, tr')
    requires AllFailuresOk(cfg, w) && WellFormed(cfg)
    ensures AllFailuresOk(cfg, Put(w, User(u), tr'))
  {
    var w' := Put(w, User(u), tr');
    forall v, a ensures Pending(w', v, a) == Pending(w, v, a) {}
    forall v | User(v) in w'.tasks ensures FailuresOk(cfg, w', v) {
      assert FailuresOk(cfg, w, v);
      hide LedgerOk;
      LedgerFrame(cfg, w, w', v);
      if v == u && HostOf(w.tasks[User(u)]) == "" && !Finished(w.tasks[User(u)]) {
        NothingPending(cfg, w, u);
      }
    }
  }

  /** The provision task was there before, for the same host, and is not un-marked. */
  predicate ProvisionKept(w: World, w': World, id: TaskId)
    requires id in w'.tasks
  {
    id in w.tasks && HostOf(w'.tasks[id]) == HostOf(w.tasks[id]) && (Processed(w.tasks[id]) ==> Processed(w'.tasks[id]))
  }

  /** The provision task is for a host of the pool that has not failed. */
  predicate ProvisionFits(cfg: Settings, w: World, u: UserId, a: string, tr: TaskRun)
    requires User(u) in w.tasks
  {
    var p, h := w.tasks[User(u)].platform, HostOf(tr);
    Static(cfg, p) ==> h in cfg[p].hosts && cfg[p].hosts[h].address == a && h !in FailedOf(w, u)
  }

  /** Frame: the ledger of `u` depends on its list, its host, its tally and its provision tasks. */
  lemma LedgerFrame(cfg: Settings, w: World, w': World, u: UserId)
    requires User(u) in w.tasks && User(u) in w'.tasks && LedgerOk(cfg, w, u)
    requires w'.tasks[User(u)].platform == w.tasks[User(u)].platform
    requires FailedHostList(w'.tasks[User(u)]) == FailedHostList(w.tasks[User(u)])
    requires var h := HostOf(w'.tasks[User(u)]);
      Static(cfg, w.tasks[User(u)].platform) ==> h == "" || h == HostOf(w.tasks[User(u)]) || h !in FailedOf(w, u)
    requires TallyOf(w', u).provisionFailures == TallyOf(w, u).provisionFailures && TallyOf(w', u).lostMarks == TallyOf(w, u).lostMarks
    requires forall a :: Provision(u, a) in w'.tasks ==>
      ProvisionKept(w, w', Provision(u, a)) || ProvisionFits(cfg, w, u, a, w'.tasks[Provision(u, a)])
    ensures LedgerOk(cfg, w', u)
  {
    var p := w.tasks[User(u)].platform;
    if Static(cfg, p) {
      hide FailedNames;
      assert FailedOf(w', u) == FailedOf(w, u);
      StaleShrinks(cfg, w, w', u);
      hide Stale, FailedOf;
      assert ProvisionsOk(w', u, cfg[p].hosts);
    }
  }

  lemma StaleShrinks(cfg: Settings, w: World, w': World, u: UserId)
    requires User(u) in w.tasks && User(u) in w'.tasks && FailedOf(w', u) == FailedOf(w, u) && Static(cfg, w.tasks[User(u)].platform)
    requires forall a :: Provision(u, a) in w'.tasks ==>
      ProvisionKept(w, w', Provision(u, a)) || ProvisionFits(cfg, w, u, a, w'.tasks[Provision(u, a)])
    ensures |Stale(w', u)| <= |Stale(w, u)|
  {
    hide FailedOf;
    forall id | id in Stale(w', u) ensures id in Stale(w, u) {
      assert id == Provision(u, id.address);
    }
    SubsetSize(Stale(w', u), Stale(w, u));
  }

  /** A static task that is still looking for a host has no provision task under way. */
  lemma NothingPending(cfg: Settings, w: World, u: UserId)
    requires WellFormed(cfg) && User(u) in w.tasks && FailuresOk(cfg, w, u)
    requires HostOf(w.tasks[User(u)]) == "" && !Finished(w.tasks[User(u)])
    ensures Static(cfg, w.tasks[User(u)].platform) && TallyOf(w, u).lostMarks == 0 ==> forall a :: !Pending(w, u, a)
  {
  }

  lemma PutFollows(cfg: Settings, w: World, u: UserId, tr': TaskRun)
    requires User(u) in w.tasks && WriteOk(cfg, w, u, tr') && UsersOk(cfg, w) && Recorded(cfg, w) && FleetOk(cfg, w)
    ensures Follows(cfg, w, Put(w, User(u), tr'))
  {
    var w' := Put(w, User(u), tr');
    var tr := w.tasks[User(u)];
    var h := HostOf(tr');
    if PoolExpired(cfg, w, h) && h != HostOf(tr) {
      if Static(cfg, tr.platform) {
        StaticNotLaunched(cfg, w, tr.platform, h);
      }
    }
  }

  /** Everything but the failed-hosts bookkeeping survives a write. */
  lemma PutKeepsSound(cfg: Settings, w: World, u: UserId, tr': TaskRun, pending: string)
    requires WellFormed(cfg) && Sound(cfg, w, pending)
    requires User(u) in w.tasks && WriteOk(cfg, w, u, tr')
    ensures Sound(cfg, Put(w, User(u), tr'), pending) && Follows(cfg, w, Put(w, User(u), tr'))
  {
    hide UsersOk, Recorded, Owned, PoolSafe, NamesOk, WithinSlots, WithinLimits, Follows, WriteOk;
    PutKeepsUsers(cfg, w, u, tr');
    PutKeepsOwned(cfg, w, u, tr', pending);
    PutKeepsNames(cfg, w, u, tr');
    PutKeepsPool(cfg, w, u, tr');
    PutKeepsLimits(cfg, w, User(u), tr');
    PutKeepsSlots(cfg, w, u, tr');
    PutFollows(cfg, w, u, tr');
  }

  lemma PutKeeps(cfg: Settings, w: World, u: UserId, tr': TaskRun, pending: string)
    requires WellFormed(cfg) && GoodBut(cfg, w, pending)
    requires User(u) in w.tasks && WriteOk(cfg, w, u, tr') && FailuresKept(cfg, w, u, tr')
    ensures GoodBut(cfg, Put(w, User(u), tr'), pending) && Follows(cfg, w, Put(w, User(u), tr'))
  {
    hide Sound, AllFailuresOk, Follows, WriteOk, FailuresKept;
    PutKeepsSound(cfg, w, u, tr', pending);
    PutKeepsFailures(cfg, w, u, tr');
  }

  // ---- TerminateInstance -------------------------------------------------------------------

  /** TerminateInstance on all of `ids`, of which the provider forgets `gone` at once. */
  function StopAll(w: World, ids: set<string>, gone: set<string>): World {
    w.(stopped := w.stopped + ids, live := w.live - gone)
  }

  lemma StopIsStopAll(w: World, i: string, gone: bool)
    ensures Stop(w, i, gone) == StopAll(w, {i}, if gone then {i} else {})
  {
  }

  /** A pool instance may be shut down once it has expired and no TaskRun names it. */
  ghost predicate Stoppable(cfg: Settings, w: World, i: string) {
    PoolMachine(cfg, w, i) ==> PoolExpired(cfg, w, i) && forall id :: id in w.tasks ==> HostOf(w.tasks[id]) != i
  }

  lemma ShrinkKeepsLimits(cfg: Settings, w: World, w': World)
    requires WithinLimits(cfg, w)
    requires w'.fleet == w.fleet && w'.live <= w.live && w'.clock >= w.clock && w'.undercounted == w.undercounted
    ensures WithinLimits(cfg, w')
  {
    forall p ensures |LiveOf(w', p)| <= |LiveOf(w, p)| {
      assert LiveOf(w', p) <= LiveOf(w, p);
      SubsetSize(LiveOf(w', p), LiveOf(w, p));
    }
    forall p, a ensures |YoungOf(w', p, a)| <= |YoungOf(w, p, a)| {
      assert YoungOf(w', p, a) <= YoungOf(w, p, a);
      SubsetSize(YoungOf(w', p, a), YoungOf(w, p, a));
    }
  }

  lemma StopKeepsPool(cfg: Settings, w: World, ids: set<string>, gone: set<string>)
    requires PoolSafe(cfg, w)
    requires forall i :: i in ids ==> Stoppable(cfg, w, i)
    ensures PoolSafe(cfg, StopAll(w, ids, gone))
  {
    var w' := StopAll(w, ids, gone);
    forall i | i in w'.stopped && PoolMachine(cfg, w', i) ensures PoolExpired(cfg, w', i) {
      assert PoolMachine(cfg, w, i);
      assert i in ids ==> Stoppable(cfg, w, i);
      assert PoolExpired(cfg, w, i);
    }
    forall id | id in w'.tasks && PoolMachine(cfg, w', HostOf(w'.tasks[id])) ensures HostOf(w'.tasks[id]) !in w'.stopped {
      var h := HostOf(w.tasks[id]);
      assert PoolMachine(cfg, w, h);
      assert h in ids ==> Stoppable(cfg, w, h);
    }
  }

  /** Frame: slots and failures depend on the tasks, the names ever used and the tallies only. */
  lemma SameTasksKeep(cfg: Settings, w: World, w': World)
    requires w'.tasks == w.tasks && w'.seen == w.seen && w'.tallies == w.tallies
    requires WithinSlots(cfg, w) && AllFailuresOk(cfg, w) && SeenOk(w)
    ensures WithinSlots(cfg, w') && AllFailuresOk(cfg, w') && SeenOk(w')
  {
    forall p, h ensures AssignedBy(w', p, h) == AssignedBy(w, p, h) {}
    forall u, a ensures Pending(w', u, a) == Pending(w, u, a) {}
    forall u | User(u) in w'.tasks ensures FailuresOk(cfg, w', u) {
      assert FailuresOk(cfg, w, u);
      hide LedgerOk;
      LedgerFrame(cfg, w, w', u);
    }
  }

  lemma StopKeepsRecords(cfg: Settings, w: World, ids: set<string>, gone: set<string>, pending: string)
    requires UsersOk(cfg, w) && Recorded(cfg, w) && FleetOk(cfg, w) && Owned(cfg, w, pending) && NamesOk(cfg, w)
    ensures var w' := StopAll(w, ids, gone);
      UsersOk(cfg, w') && Recorded(cfg, w') && FleetOk(cfg, w') && Owned(cfg, w', pending) && NamesOk(cfg, w')
      && (pending in ids ==> Owned(cfg, w', ""))
  {
  }

  lemma StopFollows(cfg: Settings, w: World, ids: set<string>, gone: set<string>)
    ensures Follows(cfg, w, StopAll(w, ids, gone))
  {
  }

  lemma StopKeeps(cfg: Settings, w: World, ids: set<string>, gone: set<string>, pending: string)
    requires GoodBut(cfg, w, pending)
    requires forall i :: i in ids ==> Stoppable(cfg, w, i)
    ensures GoodBut(cfg, StopAll(w, ids, gone), pending) && Follows(cfg, w, StopAll(w, ids, gone))
    ensures pending in ids ==> Good(cfg, StopAll(w, ids, gone))
  {
    hide SeenOk, UsersOk, Recorded, FleetOk, Owned, PoolSafe, NamesOk, WithinSlots, WithinLimits, AllFailuresOk, Follows;
    var w' := StopAll(w, ids, gone);
    StopKeepsRecords(cfg, w, ids, gone, pending);
    StopKeepsPool(cfg, w, ids, gone);
    ShrinkKeepsLimits(cfg, w, w');
    SameTasksKeep(cfg, w, w');
    StopFollows(cfg, w, ids, gone);
  }

  // ---- LaunchInstance ----------------------------------------------------------------------

  /** The provider's ids are new, and are not names of static hosts. */
  ghost predicate FreshId(cfg: Settings, w: World, i: string) {
    i !in w.fleet && i !in w.stopped && i != "" && i != "localhost" && !StaticName(cfg, i)
  }

  function Launching(w: World, i: string, m: Machine, undercounted: set<string>): World {
    Boot(w, i, m).(undercounted := undercounted)
  }

  ghost predicate BootOk(cfg: Settings, w: World, i: string, m: Machine, undercounted: set<string>) {
    && FreshId(cfg, w, i)
    && (Dynamic(cfg, m.platform) || Pooled(cfg, m.platform)) && MachineFor(cfg[m.platform], m)
    && m.owner !in w.secrets
    && w.undercounted <= undercounted
    && (Dynamic(cfg, m.platform) && Visible(cfg[m.platform]) ==> |LiveOf(w, m.platform)| < cfg[m.platform].maxInstances)
    && (Pooled(cfg, m.platform) && Visible(cfg[m.platform]) && m.platform !in undercounted ==>
          |YoungOf(w, m.platform, cfg[m.platform].maxAge)| < cfg[m.platform].maxInstances)
  }

  lemma CountsAfterBoot(w: World, i: string, m: Machine, undercounted: set<string>, p: string, maxAge: int)
    ensures var w' := Launching(w, i, m, undercounted);
      && |LiveOf(w', p)| <= |LiveOf(w, p)| + 1 && |YoungOf(w', p, maxAge)| <= |YoungOf(w, p, maxAge)| + 1
      && (p != m.platform && i !in w.fleet ==> LiveOf(w', p) == LiveOf(w, p) && YoungOf(w', p, maxAge) == YoungOf(w, p, maxAge))
  {
    var w' := Launching(w, i, m, undercounted);
    assert LiveOf(w', p) <= LiveOf(w, p) + {i};
    SubsetSize(LiveOf(w', p), LiveOf(w, p) + {i});
    assert YoungOf(w', p, maxAge) <= YoungOf(w, p, maxAge) + {i};
    SubsetSize(YoungOf(w', p, maxAge), YoungOf(w, p, maxAge) + {i});
  }

  lemma BootKeepsLimits(cfg: Settings, w: World, i: string, m: Machine, undercounted: set<string>)
    requires WithinLimits(cfg, w) && BootOk(cfg, w, i, m, undercounted)
    ensures WithinLimits(cfg, Launching(w, i, m, undercounted))
  {
    hide LiveOf, YoungOf;
    var w' := Launching(w, i, m, undercounted);
    forall p | Dynamic(cfg, p) && Visible(cfg[p]) && LiveOf(w', p) != {} ensures |LiveOf(w', p)| <= cfg[p].maxInstances {
      CountsAfterBoot(w, i, m, undercounted, p, 0);
    }
    forall p | Pooled(cfg, p) && Visible(cfg[p]) && p !in undercounted && YoungOf(w', p, cfg[p].maxAge) != {}
      ensures |YoungOf(w', p, cfg[p].maxAge)| <= cfg[p].maxInstances
    {
      CountsAfterBoot(w, i, m, undercounted, p, cfg[p].maxAge);
    }
  }

  lemma BootKeepsPool(cfg: Settings, w: World, i: string, m: Machine, undercounted: set<string>)
    requires PoolSafe(cfg, w) && NamesOk(cfg, w) && FleetOk(cfg, w) && BootOk(cfg, w, i, m, undercounted)
    ensures PoolSafe(cfg, Launching(w, i, m, undercounted)) && NamesOk(cfg, Launching(w, i, m, undercounted))
    ensures FleetOk(cfg, Launching(w, i, m, undercounted))
  {
    var w' := Launching(w, i, m, undercounted);
    forall j | j in w'.stopped && PoolMachine(cfg, w', j) ensures PoolExpired(cfg, w', j) {
      assert PoolMachine(cfg, w, j) && PoolExpired(cfg, w, j);
    }
    forall id | id in w'.tasks && PoolMachine(cfg, w', HostOf(w'.tasks[id])) ensures HostOf(w'.tasks[id]) !in w'.stopped {
      assert PoolMachine(cfg, w, HostOf(w.tasks[id]));
    }
  }

  lemma BootFollows(cfg: Settings, w: World, i: string, m: Machine, undercounted: set<string>)
    requires NamesOk(cfg, w) && BootOk(cfg, w, i, m, undercounted)
    ensures Follows(cfg, w, Launching(w, i, m, undercounted))
  {
  }

  lemma BootKeeps(cfg: Settings, w: World, i: string, m: Machine, undercounted: set<string>)
    requires Good(cfg, w) && BootOk(cfg, w, i, m, undercounted)
    ensures GoodBut(cfg, Launching(w, i, m, undercounted), i) && Follows(cfg, w, Launching(w, i, m, undercounted))
    ensures Pooled(cfg, m.platform) ==> Good(cfg, Launching(w, i, m, undercounted))
  {
    var w' := Launching(w, i, m, undercounted);
    BootKeepsLimits(cfg, w, i, m, undercounted);
    BootKeepsPool(cfg, w, i, m, undercounted);
    BootFollows(cfg, w, i, m, undercounted);
    SameTasksKeep(cfg, w, w');
    assert Owned(cfg, w', i);
    hide WithinSlots, AllFailuresOk, WithinLimits, PoolSafe, NamesOk, FleetOk, Follows;
  }

  // ---- other TaskRuns ------------------------------------------------------------------------

  /** Storing a TaskRun that is not a user task. */
  ghost predicate OtherOk(cfg: Settings, w: World, id: TaskId, tr': TaskRun) {
    && !id.User?
    && (if id in w.tasks then HostOf(tr') == HostOf(w.tasks[id])
        else HostOf(tr') == "" || StaticName(cfg, HostOf(tr')) || (exists u :: User(u) in w.tasks && HostOf(w.tasks[User(u)]) == HostOf(tr')))
    && (id.Provision? ==>
          && OwnerOf(tr') == id.user && id.user in w.seen
          && (id in w.tasks && Processed(w.tasks[id]) ==> Processed(tr'))
          && (id !in w.tasks && User(id.user) in w.tasks && Static(cfg, w.tasks[User(id.user)].platform) ==>
                && HostOf(tr') == HostOf(w.tasks[User(id.user)]) && ProvisionFits(cfg, w, id.user, id.address, tr')
                && (TallyOf(w, id.user).lostMarks == 0 ==> forall a :: !Pending(w, id.user, a))))
  }

  lemma OtherKeepsFailures(cfg: Settings, w: World, id: TaskId, tr': TaskRun)
    requires AllFailuresOk(cfg, w) && OtherOk(cfg, w, id, tr')
    ensures AllFailuresOk(cfg, Put(w, id, tr'))
  {
    var w' := Put(w, id, tr');
    hide FailedNames, LedgerOk, StaticName;
    forall u, a ensures Pending(w', u, a) ==> Pending(w, u, a) || (id == Provision(u, a) && id !in w.tasks) {}
    forall u | User(u) in w'.tasks ensures FailuresOk(cfg, w', u) {
      assert FailuresOk(cfg, w, u);
      hide LedgerOk;
      LedgerFrame(cfg, w, w', u);
    }
  }

  lemma OtherKeepsRecords(cfg: Settings, w: World, id: TaskId, tr': TaskRun)
    requires SeenOk(w) && UsersOk(cfg, w) && Recorded(cfg, w) && FleetOk(cfg, w) && Owned(cfg, w, "") && OtherOk(cfg, w, id, tr')
    ensures var w' := Put(w, id, tr');
      SeenOk(w') && UsersOk(cfg, w') && Recorded(cfg, w') && FleetOk(cfg, w') && Owned(cfg, w', "")
  {
  }

  lemma OtherFollows(cfg: Settings, w: World, id: TaskId, tr': TaskRun)
    requires !id.User?
    ensures Follows(cfg, w, Put(w, id, tr'))
  {
  }

  lemma OtherKeeps(cfg: Settings, w: World, id: TaskId, tr': TaskRun)
    requires Good(cfg, w) && OtherOk(cfg, w, id, tr')
    ensures Good(cfg, Put(w, id, tr')) && Follows(cfg, w, Put(w, id, tr'))
  {
    hide SeenOk, UsersOk, Recorded, FleetOk, Owned, PoolSafe, NamesOk, WithinSlots, WithinLimits, AllFailuresOk, Follows;
    OtherKeepsRecords(cfg, w, id, tr');
    OtherKeepsFailures(cfg, w, id, tr');
    PutKeepsLimits(cfg, w, id, tr');
    OtherKeepsPool(cfg, w, id, tr');
    OtherKeepsSlots(cfg, w, id, tr');
    OtherFollows(cfg, w, id, tr');
  }

  lemma OtherKeepsSlots(cfg: Settings, w: World, id: TaskId, tr': TaskRun)
    requires WithinSlots(cfg, w) && !id.User?
    ensures WithinSlots(cfg, Put(w, id, tr'))
  {
    forall p, h ensures AssignedBy(Put(w, id, tr'), p, h) == AssignedBy(w, p, h) {}
  }

  lemma OtherKeepsPool(cfg: Settings, w: World, id: TaskId, tr': TaskRun)
    requires PoolSafe(cfg, w) && NamesOk(cfg, w) && FleetOk(cfg, w) && OtherOk(cfg, w, id, tr')
    ensures PoolSafe(cfg, Put(w, id, tr')) && NamesOk(cfg, Put(w, id, tr'))
  {
    var w' := Put(w, id, tr');
    forall i | i in w'.stopped && PoolMachine(cfg, w', i) ensures PoolExpired(cfg, w', i) {
      assert PoolMachine(cfg, w, i) && PoolExpired(cfg, w, i);
    }
  }

  // ---- removing TaskRuns, secrets, time ----------------------------------------------------------

  function Drop(w: World, id: TaskId): World {
    w.(tasks := w.tasks - {id})
  }

  /** A user task can only go once nothing holds it. */
  ghost predicate DropOk(w: World, id: TaskId) {
    id.User? && id in w.tasks ==> !Held(w.tasks[id])
  }

  lemma DropKeepsRecords(cfg: Settings, w: World, id: TaskId)
    requires SeenOk(w) && UsersOk(cfg, w) && Recorded(cfg, w) && FleetOk(cfg, w) && Owned(cfg, w, "") && NamesOk(cfg, w) && DropOk(w, id)
    ensures var w' := Drop(w, id);
      SeenOk(w') && UsersOk(cfg, w') && Recorded(cfg, w') && FleetOk(cfg, w') && Owned(cfg, w', "") && NamesOk(cfg, w')
  {
  }

  lemma DropFollows(cfg: Settings, w: World, id: TaskId)
    ensures Follows(cfg, w, Drop(w, id))
  {
  }

  lemma DropKeeps(cfg: Settings, w: World, id: TaskId)
    requires Good(cfg, w) && DropOk(w, id)
    ensures Good(cfg, Drop(w, id)) && Follows(cfg, w, Drop(w, id))
  {
    hide SeenOk, UsersOk, Recorded, FleetOk, Owned, PoolSafe, NamesOk, WithinSlots, WithinLimits, AllFailuresOk, Follows;
    DropKeepsRecords(cfg, w, id);
    DropKeepsSlots(cfg, w, id);
    DropKeepsFailures(cfg, w, id);
    DropKeepsPool(cfg, w, id);
    ShrinkKeepsLimits(cfg, w, Drop(w, id));
    DropFollows(cfg, w, id);
  }

  lemma DropKeepsPool(cfg: Settings, w: World, id: TaskId)
    requires PoolSafe(cfg, w)
    ensures PoolSafe(cfg, Drop(w, id))
  {
    var w' := Drop(w, id);
    forall i | i in w'.stopped && PoolMachine(cfg, w', i) ensures PoolExpired(cfg, w', i) {
      assert PoolMachine(cfg, w, i) && PoolExpired(cfg, w, i);
    }
  }

  lemma DropKeepsSlots(cfg: Settings, w: World, id: TaskId)
    requires WithinSlots(cfg, w)
    ensures WithinSlots(cfg, Drop(w, id))
  {
    var w' := Drop(w, id);
    forall p, h ensures |AssignedBy(w', p, h)| <= |AssignedBy(w, p, h)| && (AssignedBy(w', p, h) != {} ==> AssignedBy(w, p, h) != {}) {
      assert AssignedBy(w', p, h) <= AssignedBy(w, p, h);
      SubsetSize(AssignedBy(w', p, h), AssignedBy(w, p, h));
    }
  }

  lemma DropKeepsFailures(cfg: Settings, w: World, id: TaskId)
    requires AllFailuresOk(cfg, w)
    ensures AllFailuresOk(cfg, Drop(w, id))
  {
    var w' := Drop(w, id);
    forall u, a ensures Pending(w', u, a) ==> Pending(w, u, a) {}
    forall u | User(u) in w'.tasks ensures FailuresOk(cfg, w', u) {
      assert FailuresOk(cfg, w, u);
      hide LedgerOk;
      LedgerFrame(cfg, w, w', u);
    }
  }

  lemma SecretAddedKeeps(cfg: Settings, w: World, u: UserId, pending: string)
    requires GoodBut(cfg, w, pending)
    ensures GoodBut(cfg, w.(secrets := w.secrets + {u}), pending) && Follows(cfg, w, w.(secrets := w.secrets + {u}))
  {
    SecretsKeep(cfg, w, w.secrets + {u}, pending);
  }

  lemma SecretDroppedKeeps(cfg: Settings, w: World, u: UserId)
    requires Good(cfg, w) && (User(u) in w.tasks ==> Finished(w.tasks[User(u)]))
    ensures Good(cfg, w.(secrets := w.secrets - {u})) && Follows(cfg, w, w.(secrets := w.secrets - {u}))
  {
    SecretsKeep(cfg, w, w.secrets - {u}, "");
  }

  /** Frame: nothing but the secrets and the clock changes, and the clock goes forward. */
  lemma SameRecordsKeep(cfg: Settings, w: World, w': World, pending: string)
    requires w' == w.(secrets := w'.secrets, clock := w'.clock) && w.clock <= w'.clock
    requires UsersOk(cfg, w) && Recorded(cfg, w) && FleetOk(cfg, w) && Owned(cfg, w, pending) && PoolSafe(cfg, w) && NamesOk(cfg, w)
    ensures UsersOk(cfg, w') && Recorded(cfg, w') && FleetOk(cfg, w') && Owned(cfg, w', pending) && PoolSafe(cfg, w') && NamesOk(cfg, w')
  {
    forall i | i in w'.stopped && PoolMachine(cfg, w', i) ensures PoolExpired(cfg, w', i) {
      assert PoolMachine(cfg, w, i) && PoolExpired(cfg, w, i);
    }
  }

  lemma SecretsKeep(cfg: Settings, w: World, secrets: set<UserId>, pending: string)
    requires GoodBut(cfg, w, pending)
    ensures GoodBut(cfg, w.(secrets := secrets), pending)
  {
    hide SeenOk, UsersOk, Recorded, FleetOk, Owned, PoolSafe, NamesOk, WithinSlots, WithinLimits, AllFailuresOk, Follows;
    var w' := w.(secrets := secrets);
    SameRecordsKeep(cfg, w, w', pending);
    SameTasksKeep(cfg, w, w');
    ShrinkKeepsLimits(cfg, w, w');
  }

  lemma TickKeeps(cfg: Settings, w: World, t: nat)
    requires Good(cfg, w)
    ensures Good(cfg, w.(clock := w.clock + t)) && Follows(cfg, w, w.(clock := w.clock + t))
  {
    var w' := w.(clock := w.clock + t);
    assert Follows(cfg, w, w');
    hide SeenOk, UsersOk, Recorded, FleetOk, Owned, PoolSafe, NamesOk, WithinSlots, WithinLimits, AllFailuresOk, Follows;
    SameRecordsKeep(cfg, w, w', "");
    SameTasksKeep(cfg, w, w');
    ShrinkKeepsLimits(cfg, w, w');
  }

  // ---- tallies -----------------------------------------------------------------------------

  lemma NoteKeepsSound(cfg: Settings, w: World, u: UserId, t: Tally, pending: string)
    requires Sound(cfg, w, pending) && u in w.seen
    ensures Sound(cfg, Note(w, u, t), pending) && Follows(cfg, w, Note(w, u, t))
  {
    var w' := Note(w, u, t);
    assert SeenOk(w') && Follows(cfg, w, w');
    hide SeenOk, UsersOk, Recorded, FleetOk, Owned, PoolSafe, NamesOk, WithinSlots, WithinLimits, Follows;
    TalliesKeepRecords(cfg, w, w', pending);
    ShrinkKeepsLimits(cfg, w, w');
    TalliesKeepSlots(cfg, w, w');
  }

  lemma TalliesKeepRecords(cfg: Settings, w: World, w': World, pending: string)
    requires w' == w.(tallies := w'.tallies)
    requires UsersOk(cfg, w) && Recorded(cfg, w) && FleetOk(cfg, w) && Owned(cfg, w, pending) && PoolSafe(cfg, w) && NamesOk(cfg, w)
    ensures UsersOk(cfg, w') && Recorded(cfg, w') && FleetOk(cfg, w') && Owned(cfg, w', pending) && PoolSafe(cfg, w') && NamesOk(cfg, w')
  {
    forall i | i in w'.stopped && PoolMachine(cfg, w', i) ensures PoolExpired(cfg, w', i) {
      assert PoolMachine(cfg, w, i) && PoolExpired(cfg, w, i);
    }
  }

  lemma TalliesKeepSlots(cfg: Settings, w: World, w': World)
    requires w' == w.(tallies := w'.tallies) && WithinSlots(cfg, w)
    ensures WithinSlots(cfg, w')
  {
    forall p, h ensures AssignedBy(w', p, h) == AssignedBy(w, p, h) {}
  }

  lemma NoteKeeps(cfg: Settings, w: World, u: UserId, t: Tally, pending: string)
    requires GoodBut(cfg, w, pending) && u in w.seen
    requires t.provisionFailures == TallyOf(w, u).provisionFailures && t.lostMarks == TallyOf(w, u).lostMarks
    ensures GoodBut(cfg, Note(w, u, t), pending) && Follows(cfg, w, Note(w, u, t))
  {
    hide Sound, Follows;
    NoteKeepsSound(cfg, w, u, t, pending);
    NoteKeepsFailures(cfg, w, u, t);
  }

  lemma NoteKeepsFailures(cfg: Settings, w: World, u: UserId, t: Tally)
    requires AllFailuresOk(cfg, w)
    requires t.provisionFailures == TallyOf(w, u).provisionFailures && t.lostMarks == TallyOf(w, u).lostMarks
    ensures AllFailuresOk(cfg, Note(w, u, t))
  {
    hide FailedNames, LedgerOk;
    var w' := Note(w, u, t);
    forall v, a ensures Pending(w', v, a) == Pending(w, v, a) {}
    forall v | User(v) in w'.tasks ensures FailuresOk(cfg, w', v) {
      assert FailuresOk(cfg, w, v);
      hide LedgerOk;
      LedgerFrame(cfg, w, w', v);
    }
  }

  // ---- a new user task -------------------------------------------------------------------------

  /** A TaskRun as a user creates it: none of the controller's own keys and not its finalizer. */
  predicate Untouched(tr: TaskRun) {
    && (forall k :: k in tr.labels ==> k.Other?)
    && (forall k :: k in tr.annotations ==> k.Other?)
    && !Held(tr)
  }

  function Arrive(w: World, u: UserId, tr: TaskRun): World {
    w.(tasks := w.tasks[User(u) := tr], seen := w.seen + {u})
  }

  lemma ArriveKeepsUsers(cfg: Settings, w: World, u: UserId, tr: TaskRun)
    requires u !in w.seen && Untouched(tr) && SeenOk(w) && UsersOk(cfg, w) && Recorded(cfg, w)
    ensures var w' := Arrive(w, u, tr); SeenOk(w') && UsersOk(cfg, w') && Recorded(cfg, w')
  {
  }

  lemma ArriveKeepsFleet(cfg: Settings, w: World, u: UserId, tr: TaskRun)
    requires User(u) !in w.tasks && Untouched(tr) && FleetOk(cfg, w) && Owned(cfg, w, "") && NamesOk(cfg, w)
    ensures var w' := Arrive(w, u, tr); FleetOk(cfg, w') && Owned(cfg, w', "") && NamesOk(cfg, w')
  {
    assert HostOf(tr) == "";
  }

  lemma ArriveKeepsPool(cfg: Settings, w: World, u: UserId, tr: TaskRun)
    requires Untouched(tr) && PoolSafe(cfg, w) && FleetOk(cfg, w)
    ensures PoolSafe(cfg, Arrive(w, u, tr))
  {
    var w' := Arrive(w, u, tr);
    forall i | i in w'.stopped && PoolMachine(cfg, w', i) ensures PoolExpired(cfg, w', i) {
      assert PoolMachine(cfg, w, i) && PoolExpired(cfg, w, i);
    }
  }

  lemma ArriveKeepsSlots(cfg: Settings, w: World, u: UserId, tr: TaskRun)
    requires Untouched(tr) && User(u) !in w.tasks && WithinSlots(cfg, w)
    ensures WithinSlots(cfg, Arrive(w, u, tr))
  {
    forall p, h | h != "" ensures AssignedBy(Arrive(w, u, tr), p, h) == AssignedBy(w, p, h) {}
  }

  lemma ArriveKeepsFailures(cfg: Settings, w: World, u: UserId, tr: TaskRun)
    requires Untouched(tr) && u !in w.seen && SeenOk(w) && AllFailuresOk(cfg, w)
    ensures AllFailuresOk(cfg, Arrive(w, u, tr))
  {
    var w' := Arrive(w, u, tr);
    forall v, a ensures Pending(w', v, a) == Pending(w, v, a) {}
    forall v | User(v) in w'.tasks ensures FailuresOk(cfg, w', v) {
      if v == u {
        assert FailedNames("") == [];
        assert FailedOf(w', u) == [];
        assert TallyOf(w', u) == Tally(0, 0, 0, 0, 0);
        assert Stale(w', u) == {};
      } else {
        assert FailuresOk(cfg, w, v);
        hide LedgerOk;
        LedgerFrame(cfg, w, w', v);
      }
    }
  }

  lemma ArriveFollows(cfg: Settings, w: World, u: UserId, tr: TaskRun)
    requires Untouched(tr) && u !in w.seen && SeenOk(w) && FleetOk(cfg, w)
    ensures Follows(cfg, w, Arrive(w, u, tr))
  {
  }

  lemma ArriveKeeps(cfg: Settings, w: World, u: UserId, tr: TaskRun)
    requires Good(cfg, w) && u !in w.seen && Untouched(tr)
    ensures Good(cfg, Arrive(w, u, tr)) && Follows(cfg, w, Arrive(w, u, tr))
  {
    assert User(u) !in w.tasks;
    hide SeenOk, UsersOk, Recorded, FleetOk, Owned, PoolSafe, NamesOk, WithinSlots, WithinLimits, AllFailuresOk, Follows;
    ArriveKeepsUsers(cfg, w, u, tr);
    ArriveKeepsFleet(cfg, w, u, tr);
    ArriveKeepsPool(cfg, w, u, tr);
    ArriveKeepsSlots(cfg, w, u, tr);
    ArriveKeepsFailures(cfg, w, u, tr);
    ShrinkKeepsLimits(cfg, w, Arrive(w, u, tr));
    ArriveFollows(cfg, w, u, tr);
  }
}
