/** What holds in every run of the controller, whatever fails and whoever else writes. */
module Theorems {
  import opened TaskRuns
  import opened Platforms
  import opened Cluster
  import opened HostPools
  import opened DynamicPools
  import opened Reconcile
  import opened Safety
  import opened Handlers
  import opened Machine
  import opened Shutdowns
  import opened HostSelection

  // ---- one instance per task ------------------------------------------------------------------

  /** No launched instance is lost: it is recorded on its TaskRun, which the finalizer holds, or the provider was
      asked to terminate it. */
  lemma NoInstanceLost(cfg: Settings, ws: seq<World>, k: nat, i: string)
    requires Run(cfg, ws) && k < |ws| && i in ws[k].fleet && Dynamic(cfg, ws[k].fleet[i].platform)
    ensures var id := User(ws[k].fleet[i].owner);
      i in ws[k].stopped || (id in ws[k].tasks && InstanceOf(ws[k].tasks[id]) == i && Held(ws[k].tasks[id]))
  {
    hide Run, UsersOk, SeenOk, Recorded, PoolSafe, NamesOk, WithinSlots, WithinLimits, AllFailuresOk;
    RunIsGood(cfg, ws, k);
    assert i != "";
  }

  /** A task never owns two instances that were not asked to terminate. */
  lemma OneInstancePerTask(cfg: Settings, ws: seq<World>, k: nat, i: string, j: string)
    requires Run(cfg, ws) && k < |ws| && i in ws[k].fleet && j in ws[k].fleet && i != j
    requires Dynamic(cfg, ws[k].fleet[i].platform) && Dynamic(cfg, ws[k].fleet[j].platform)
    requires ws[k].fleet[i].owner == ws[k].fleet[j].owner
    ensures i in ws[k].stopped || j in ws[k].stopped
  {
    hide Run;
    NoInstanceLost(cfg, ws, k, i);
    NoInstanceLost(cfg, ws, k, j);
  }

  // ---- pools never shut down a host in use ------------------------------------------------------

  /** No TaskRun names a pool instance that was asked to terminate, and such an instance is past its age. */
  lemma NoStoppedHostInUse(cfg: Settings, ws: seq<World>, k: nat, i: string)
    requires Run(cfg, ws) && k < |ws| && PoolMachine(cfg, ws[k], i) && i in ws[k].stopped
    ensures PoolExpired(cfg, ws[k], i)
    ensures forall id :: id in ws[k].tasks ==> HostOf(ws[k].tasks[id]) != i
  {
    hide Run, UsersOk, SeenOk, Recorded, FleetOk, Owned, NamesOk, WithinSlots, WithinLimits, AllFailuresOk;
    RunIsGood(cfg, ws, k);
  }

  /** When a pool asks for the termination of an instance, no TaskRun names it. */
  lemma ShutDownOnlyUnused(cfg: Settings, ws: seq<World>, k: nat, i: string)
    requires Run(cfg, ws) && k + 1 < |ws| && PoolMachine(cfg, ws[k], i)
    requires i !in ws[k].stopped && i in ws[k + 1].stopped
    ensures PoolExpired(cfg, ws[k], i)
    ensures forall id :: id in ws[k].tasks ==> HostOf(ws[k].tasks[id]) != i
  {
    hide Run, Good, Step, Admissible, WellFormed;
    RunIsGood(cfg, ws, k);
    var e := NextStep(cfg, ws, k);
    StepStops(cfg, ws[k], e, i);
  }

  /** Once an instance was asked to terminate, it is never given to a task again. */
  lemma StoppedStaysUnused(cfg: Settings, ws: seq<World>, j: nat, k: nat, i: string)
    requires Run(cfg, ws) && j <= k < |ws| && PoolMachine(cfg, ws[j], i) && i in ws[j].stopped
    ensures forall id :: id in ws[k].tasks ==> HostOf(ws[k].tasks[id]) != i
  {
    RunFollows(cfg, ws, j, k);
    assert PoolMachine(cfg, ws[k], i) && i in ws[k].stopped;
    hide Run, Follows;
    NoStoppedHostInUse(cfg, ws, k, i);
  }

  /** The user tasks on an instance past its maximum age only become fewer. */
  lemma ExpiredHostDrains(cfg: Settings, ws: seq<World>, j: nat, k: nat, h: string)
    requires Run(cfg, ws) && j <= k < |ws| && PoolExpired(cfg, ws[j], h)
    ensures UsersOn(ws[k], h) <= UsersOn(ws[j], h)
  {
    RunFollows(cfg, ws, j, k);
    hide Run, Later, Sealed;
    forall id | id in UsersOn(ws[k], h) ensures id in UsersOn(ws[j], h) {
      assert User(id.user) == id;
    }
  }

  function UsersOn(w: World, h: string): set<TaskId> {
    set id | id in w.tasks && id.User? && HostOf(w.tasks[id]) == h
  }

  // ---- capacity ---------------------------------------------------------------------------------------

  /** No host is given to more user tasks of its pool than its concurrency. */
  lemma HostWithinConcurrency(cfg: Settings, ws: seq<World>, k: nat, p: string, h: string)
    requires Run(cfg, ws) && k < |ws| && (Static(cfg, p) || Pooled(cfg, p)) && h != ""
    ensures AssignedBy(ws[k], p, h) == {} || |AssignedBy(ws[k], p, h)| <= Slots(cfg[p], h)
  {
    hide Run, UsersOk, SeenOk, Recorded, FleetOk, Owned, NamesOk, PoolSafe, WithinLimits, AllFailuresOk, AssignedBy, Slots;
    RunIsGood(cfg, ws, k);
  }

  /** The user tasks of `p` assigned to a host among `hosts`. */
  function AssignedAmong(w: World, p: string, hosts: set<string>): set<TaskId> {
    set id | id in w.tasks && id.User? && w.tasks[id].platform == p && HostOf(w.tasks[id]) in hosts
  }

  lemma OneMoreHost(w: World, p: string, hosts: set<string>, h: string)
    requires h in hosts
    ensures |AssignedAmong(w, p, hosts)| <= |AssignedAmong(w, p, hosts - {h})| + |AssignedBy(w, p, h)|
  {
    assert AssignedAmong(w, p, hosts) == AssignedAmong(w, p, hosts - {h}) + AssignedBy(w, p, h);
    hide AssignedAmong, AssignedBy;
  }

  lemma {:induction false} AmongWithinCapacity(w: World, p: string, hosts: map<string, Host>)
    requires forall h :: h in hosts ==> 0 <= hosts[h].concurrency
    requires forall h :: h in hosts ==> |AssignedBy(w, p, h)| <= hosts[h].concurrency
    ensures |AssignedAmong(w, p, hosts.Keys)| <= Capacity(hosts)
    decreases |hosts|
  {
    if hosts == map[] {
      assert AssignedAmong(w, p, hosts.Keys) == {};
    } else {
      var h :| h in hosts;
      AmongWithinCapacity(w, p, hosts - {h});
      CapacityWithout(hosts, h);
      OneMoreHost(w, p, hosts.Keys, h);
      assert (hosts - {h}).Keys == hosts.Keys - {h};
      hide *;
    }
  }

  /** The user tasks of a static pool never exceed its capacity. */
  lemma StaticPoolWithinCapacity(cfg: Settings, ws: seq<World>, k: nat, p: string)
    requires Run(cfg, ws) && k < |ws| && Static(cfg, p)
    requires forall h :: h in cfg[p].hosts ==> 0 <= cfg[p].hosts[h].concurrency
    ensures |set id | id in ws[k].tasks && id.User? && ws[k].tasks[id].platform == p && HostOf(ws[k].tasks[id]) != ""| <=
            Capacity(cfg[p].hosts)
  {
    var w, hosts := ws[k], cfg[p].hosts;
    forall h | h in hosts ensures |AssignedBy(w, p, h)| <= hosts[h].concurrency && h != "" {
      assert ProperHost(hosts[h], h, p);
      HostWithinConcurrency(cfg, ws, k, p, h);
    }
    hide Run;
    RunIsGood(cfg, ws, k);
    AmongWithinCapacity(w, p, hosts);
    OnOwnHosts(cfg, w, p);
  }

  lemma OnOwnHosts(cfg: Settings, w: World, p: string)
    requires Good(cfg, w) && Static(cfg, p) && "" !in cfg[p].hosts
    ensures (set id | id in w.tasks && id.User? && w.tasks[id].platform == p && HostOf(w.tasks[id]) != "") ==
            AssignedAmong(w, p, cfg[p].hosts.Keys)
  {
    GoodParts(cfg, w);
    hide Good, Recorded, FleetOk, SeenOk, AllFailuresOk;
    forall id | id in w.tasks && id.User? ensures UserOk(cfg, w.tasks[id]) {
      assert User(id.user) == id;
    }
  }

  // ---- instance limits ------------------------------------------------------------------------------------

  /** The per-task strategy never has more live instances than its limit, if it finds the instances it launches. */
  lemma DynamicWithinLimit(cfg: Settings, ws: seq<World>, k: nat, p: string)
    requires Run(cfg, ws) && k < |ws| && Dynamic(cfg, p) && Visible(cfg[p])
    ensures LiveOf(ws[k], p) == {} || |LiveOf(ws[k], p)| <= cfg[p].maxInstances
  {
    hide Run, UsersOk, SeenOk, Recorded, FleetOk, Owned, NamesOk, PoolSafe, WithinSlots, AllFailuresOk, LiveOf;
    RunIsGood(cfg, ws, k);
  }

  /** Nor has a pool more unexpired ones, if it finds the instances it launches and none of its launches came in a pass
      that forgot more stopped instances than it overlooked expired ones. */
  lemma PoolWithinLimit(cfg: Settings, ws: seq<World>, k: nat, p: string)
    requires Run(cfg, ws) && k < |ws| && Pooled(cfg, p) && Visible(cfg[p]) && p !in ws[k].undercounted
    ensures var young := YoungOf(ws[k], p, cfg[p].maxAge); young == {} || |young| <= cfg[p].maxInstances
  {
    hide Run, UsersOk, SeenOk, Recorded, FleetOk, Owned, NamesOk, PoolSafe, WithinSlots, AllFailuresOk, YoungOf;
    RunIsGood(cfg, ws, k);
  }

  // ---- user tasks ---------------------------------------------------------------------------------------------

  /** A user task with a host carries the finalizer and is not waiting. */
  lemma AssignedIsHeld(cfg: Settings, ws: seq<World>, k: nat, u: UserId)
    requires Run(cfg, ws) && k < |ws| && User(u) in ws[k].tasks && HostOf(ws[k].tasks[User(u)]) != ""
    ensures Held(ws[k].tasks[User(u)]) && WaitingOf(ws[k].tasks[User(u)]) == ""
  {
    hide Run;
    RunIsGood(cfg, ws, k);
    GoodParts(cfg, ws[k]);
    hide Good;
    assert UserOk(cfg, ws[k].tasks[User(u)]);
  }

  /** Once the secret of a task exists, nothing is launched for it and it gets no new host before it is finished. */
  lemma SecretIsFinal(cfg: Settings, ws: seq<World>, j: nat, k: nat, u: UserId)
    requires Run(cfg, ws) && j <= k < |ws| && u in ws[j].secrets && User(u) in ws[j].tasks
    requires User(u) in ws[k].tasks && !Finished(ws[k].tasks[User(u)])
    ensures u in ws[k].secrets
    ensures HostOf(ws[k].tasks[User(u)]) == "" || HostOf(ws[k].tasks[User(u)]) == HostOf(ws[j].tasks[User(u)])
    ensures forall i :: i in ws[k].fleet && ws[k].fleet[i].owner == u ==> i in ws[j].fleet
  {
    RunFollows(cfg, ws, j, k);
    hide Run, Later, Retiring;
  }

  // ---- convergence ----------------------------------------------------------------------------------------------

  lemma ReleaseFrees(w: World, u: UserId, platform: string, c: Calls)
    requires User(u) in w.tasks
    ensures var w' := Release(w, u, platform, c);
      && User(u) in w'.tasks && HostOf(w'.tasks[User(u)]) == HostOf(w.tasks[User(u)])
      && Held(w'.tasks[User(u)]) == Held(w.tasks[User(u)]) && Finished(w'.tasks[User(u)]) == Finished(w.tasks[User(u)])
      && InstanceOf(w'.tasks[User(u)]) == InstanceOf(w.tasks[User(u)])
  {
    hide Wake, StoredForm;
    var w1 := if c.secretDelete then w.(secrets := w.secrets - {u}) else w;
    var id := WakeIs(w1, platform, c);
    if id in w1.tasks {
      SavedForm(w1.tasks[id], SetLabel(w1.tasks[id], FinishedWaiting, "true"), Direct);
    }
  }

  /** One reconcile of a finished task that reports no error, from any state and whatever became of the deallocation,
      leaves it without a host and without the finalizer; another reconcile changes nothing. */
  lemma FinishedTaskConverges(cfg: Settings, w: World, u: UserId, c: Calls, again: Calls)
    requires User(u) in w.tasks && Finished(w.tasks[User(u)])
    requires ReconcileUser(cfg, w, u, c).error == NoError
    ensures var w' := ReconcileUser(cfg, w, u, c).world;
      && User(u) in w'.tasks && HostOf(w'.tasks[User(u)]) == "" && !Held(w'.tasks[User(u)]) && Finished(w'.tasks[User(u)])
      && ReconcileUser(cfg, w', u, again) == Outcome(w', w'.tasks[User(u)], NoError)
  {
    var tr := w.tasks[User(u)];
    if HostOf(tr) != "" || Held(tr) {
      AssignedConverges(cfg, w, u, c);
    }
    hide HostAssigned, HostAllocation, Validation.ValidPlatformFormat, CreateErrorSecret;
  }

  lemma AssignedConverges(cfg: Settings, w: World, u: UserId, c: Calls)
    requires User(u) in w.tasks && Finished(w.tasks[User(u)])
    requires HostAssigned(cfg, w, u, w.tasks[User(u)], c).error == NoError
    ensures var w' := HostAssigned(cfg, w, u, w.tasks[User(u)], c).world;
      User(u) in w'.tasks && HostOf(w'.tasks[User(u)]) == "" && !Held(w'.tasks[User(u)]) && Finished(w'.tasks[User(u)])
  {
    hide Deallocate, Release, StoredForm;
    var tr := w.tasks[User(u)];
    var o := Deallocate(w, u, tr, cfg[tr.platform], c);
    DeallocateFinished(cfg, w, u, c);
    var tr' := DropLabel(RemoveFinalizer(o.tr), AssignedHost);
    SavedForm(o.world.tasks[User(u)], tr', c.write);
    ReleaseFrees(Save(o.world, User(u), tr', c.write), u, tr.platform, c);
  }

  lemma DeallocateFinished(cfg: Settings, w: World, u: UserId, c: Calls)
    requires User(u) in w.tasks && w.tasks[User(u)].platform in cfg
    ensures var w' := Deallocate(w, u, w.tasks[User(u)], cfg[w.tasks[User(u)].platform], c).world;
      User(u) in w'.tasks && w'.tasks[User(u)] == w.tasks[User(u)]
  {
    hide Retired, PoolHosts, CleanExists, Old, Idle;
  }
}
