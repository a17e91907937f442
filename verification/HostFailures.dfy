/** How often provisioning can fail for one user task of a static pool: hostpool.go:42-105 and
    taskrun.go:287-315. */
module HostFailures {
  import opened Collections
  import opened Text
  import opened TaskRuns
  import opened Platforms
  import opened Cluster
  import opened HostPools
  import opened Reconcile
  import opened Safety
  import opened Effects
  import opened Handlers
  import opened Machine
  import opened LaunchRetries

  // ---- the list of failed hosts only grows --------------------------------------------------------

  /** The list of `u` is unchanged, or one pending provision task's host was added to it. */
  ghost predicate ListGrows(w: World, w': World, u: UserId) {
    User(u) in w.tasks && User(u) in w'.tasks ==>
      && TallyOf(w, u).lostMarks <= TallyOf(w', u).lostMarks
      && (|| FailedHostList(w'.tasks[User(u)]) == FailedHostList(w.tasks[User(u)])
          || exists a :: Pending(w, u, a) &&
               FailedHostList(w'.tasks[User(u)]) == WithFailure(FailedHostList(w.tasks[User(u)]), HostOf(w.tasks[Provision(u, a)])))
  }

  lemma RecordFailureLists(w: World, u: UserId, v: UserId, host: string, wr: Write)
    requires User(u) in w.tasks && Accepted(w, User(u), wr)
    ensures var w' := RecordFailure(w, u, host, wr);
      User(v) in w.tasks ==>
        && User(v) in w'.tasks
        && FailedHostList(w'.tasks[User(v)]) ==
             if u == v then WithFailure(FailedHostList(w.tasks[User(v)]), host) else FailedHostList(w.tasks[User(v)])
  {
    hide WithFailure;
    var user := w.tasks[User(u)];
    var user' := DropLabel(Annotate(user, FailedHosts, WithFailure(FailedHostList(user), host)), AssignedHost);
    SavedForm(user, user', wr);
    hide StoredForm;
  }

  lemma ProvisionFailedLists(w: World, id: TaskId, c: Calls, v: UserId)
    requires id.Provision? && id in w.tasks && User(v) in w.tasks && OwnerOf(w.tasks[id]) == id.user && !Processed(w.tasks[id])
    ensures var w' := ProvisionFailed(w, id, Annotate(w.tasks[id], ProvisionTaskProcessed, "true"), c);
      && User(v) in w'.tasks
      && (|| FailedHostList(w'.tasks[User(v)]) == FailedHostList(w.tasks[User(v)])
          || (v == id.user && FailedHostList(w'.tasks[User(v)]) == WithFailure(FailedHostList(w.tasks[User(v)]), HostOf(w.tasks[id]))))
  {
    hide RecordFailure, StoredForm, WithFailure;
    var u := id.user;
    if User(u) in w.tasks && Accepted(w, User(u), c.write) {
      RecordFailureLists(w, u, v, HostOf(w.tasks[id]), c.write);
    }
  }

  lemma ProvisionLists(w: World, id: TaskId, c: Calls, v: UserId)
    requires id.Provision? && id in w.tasks && SeenOk(w)
    ensures ListGrows(w, ReconcileProvision(w, id, c), v)
  {
    assert Provision(id.user, id.address) == id;
    var tr' := Annotate(w.tasks[id], ProvisionTaskProcessed, "true");
    hide ProvisionFailed, ProvisionSucceeded, CountsKept, ListsKept, SeenOk, WithFailure;
    ReconcileProvisionCounts(w, id, c);
    LostMarksGrow(w, ReconcileProvision(w, id, c), v);
    ProvisionSucceededQuiet(w, id, tr', c);
    SameList(w, ProvisionSucceeded(w, id, tr', c), v);
    if User(v) in w.tasks && !Processed(w.tasks[id]) {
      ProvisionFailedLists(w, id, c, v);
      assert Pending(w, id.user, id.address);
    }
  }

  lemma LostMarksGrow(w: World, w': World, u: UserId)
    requires CountsKept(w, w')
    ensures TallyOf(w, u).lostMarks <= TallyOf(w', u).lostMarks
  {
    assert SameCounts(TallyOf(w, u), TallyOf(w', u));
  }

  lemma SameList(w: World, w': World, u: UserId)
    requires ListsKept(w, w')
    ensures User(u) in w.tasks && User(u) in w'.tasks ==> FailedHostList(w'.tasks[User(u)]) == FailedHostList(w.tasks[User(u)])
  {
  }

  lemma QuietListGrows(w: World, w': World, u: UserId)
    requires Quiet(w, w')
    ensures ListGrows(w, w', u)
  {
    hide CountsKept, ListsKept, WithFailure;
    LostMarksGrow(w, w', u);
    SameList(w, w', u);
  }

  lemma UserLists(cfg: Settings, w: World, u: UserId, c: Calls, v: UserId)
    requires User(u) in w.tasks && CountsOk(w)
    ensures ListGrows(w, ReconcileUser(cfg, w, u, c).world, v)
  {
    hide Quiet, QuietBut, CountsOk, ReconcileUser, ListGrows, Accounted;
    ReconcileUserCounts(cfg, w, u, c);
    var w' := ReconcileUser(cfg, w, u, c).world;
    if Quiet(w, w') {
      QuietListGrows(w, w', v);
    } else {
      QuietButListGrows(w, w', u, v);
    }
  }

  lemma QuietButListGrows(w: World, w': World, u: UserId, v: UserId)
    requires QuietBut(w, w', u)
    ensures ListGrows(w, w', v)
  {
    hide ListsKept, WithFailure;
    SameList(w, w', v);
    assert v != u ==> SameCounts(TallyOf(w, v), TallyOf(w', v));
  }

  lemma StepLists(cfg: Settings, w: World, e: Event, u: UserId)
    requires Good(cfg, w) && Admissible(cfg, w, e) && CountsOk(w)
    ensures ListGrows(w, Step(cfg, w, e), u)
  {
    GoodParts(cfg, w);
    hide Good, CountsOk, ReconcileUser, ReconcileProvision, ReconcileClean, Untouched, StaticName, FreshId, WithFailure, Quiet;
    match e {
      case UserReconciled(v, c) => UserLists(cfg, w, v, c, u);
      case ProvisionReconciled(id, c) => ProvisionLists(w, id, c, u);
      case CleanReconciled(id, c) => CleanQuiet(w, id, c); QuietListGrows(w, Step(cfg, w, e), u);
      case UserCreated(v, tr) => assert User(v) !in w.tasks;
      case TaskRemoved(id) =>
      case _ =>
        assert Ambient(e);
        AmbientQuiet(cfg, w, e);
        QuietListGrows(w, Step(cfg, w, e), u);
    }
  }

  // ---- over runs --------------------------------------------------------------------------------------

  /** A user task of a static pool. */
  predicate OnStatic(cfg: Settings, w: World, u: UserId) {
    User(u) in w.tasks && Static(cfg, w.tasks[User(u)].platform)
  }

  lemma NamesGrow(cfg: Settings, w: World, w': World, u: UserId, h: string)
    requires WellFormed(cfg) && OnStatic(cfg, w, u) && LedgerOk(cfg, w, u) && ListGrows(w, w', u)
    requires User(u) in w'.tasks && h in FailedOf(w, u)
    ensures h in FailedOf(w', u)
  {
    if FailedHostList(w'.tasks[User(u)]) != FailedHostList(w.tasks[User(u)]) {
      var a :| Pending(w, u, a) &&
        FailedHostList(w'.tasks[User(u)]) == WithFailure(FailedHostList(w.tasks[User(u)]), HostOf(w.tasks[Provision(u, a)]));
      var host := HostOf(w.tasks[Provision(u, a)]);
      var p := w.tasks[User(u)].platform;
      assert host in cfg[p].hosts && ProperHost(cfg[p].hosts[host], host, p);
      AppendFailure(FailedHostList(w.tasks[User(u)]), host);
    }
  }

  lemma StillThere(cfg: Settings, w: World, w': World, w'': World, u: UserId)
    requires Follows(cfg, w, w') && Follows(cfg, w', w'') && SeenOk(w) && User(u) in w.tasks && User(u) in w''.tasks
    ensures User(u) in w'.tasks && w''.tasks[User(u)].platform == w'.tasks[User(u)].platform
  {
  }

  lemma RunListGrows(cfg: Settings, ws: seq<World>, k: nat, u: UserId)
    requires Run(cfg, ws) && k + 1 < |ws|
    ensures ListGrows(ws[k], ws[k + 1], u)
  {
    hide *;
    RunIsGood(cfg, ws, k);
    RunCounts(cfg, ws, k);
    var e := NextStep(cfg, ws, k);
    StepLists(cfg, ws[k], e, u);
  }

  lemma RunStillThere(cfg: Settings, ws: seq<World>, j: nat, k: nat, u: UserId)
    requires Run(cfg, ws) && j <= k && k + 1 < |ws| && User(u) in ws[j].tasks && User(u) in ws[k + 1].tasks
    ensures User(u) in ws[k].tasks && ws[k + 1].tasks[User(u)].platform == ws[k].tasks[User(u)].platform
  {
    hide Run, Good, Follows;
    RunIsGood(cfg, ws, j);
    RunFollows(cfg, ws, j, k);
    RunFollows(cfg, ws, k, k + 1);
    GoodParts(cfg, ws[j]);
    StillThere(cfg, ws[j], ws[k], ws[k + 1], u);
  }

  lemma LedgerOfGood(cfg: Settings, w: World, u: UserId)
    requires Good(cfg, w) && User(u) in w.tasks
    ensures LedgerOk(cfg, w, u) && MarkedOk(cfg, w, u)
  {
    hide UsersOk, Recorded, FleetOk, Owned, PoolSafe, NamesOk, WithinSlots, WithinLimits, SeenOk, LedgerOk, MarkedOk;
    assert FailuresOk(cfg, w, u);
  }

  lemma LastNamesGrow(cfg: Settings, ws: seq<World>, k: nat, u: UserId, h: string)
    requires Run(cfg, ws) && k + 1 < |ws| && OnStatic(cfg, ws[k], u) && User(u) in ws[k + 1].tasks
    requires h in FailedOf(ws[k], u)
    ensures h in FailedOf(ws[k + 1], u)
  {
    assert WellFormed(cfg);
    hide Run, Good, WellFormed, FailedOf, LedgerOk, MarkedOk, ListGrows;
    RunListGrows(cfg, ws, k, u);
    RunIsGood(cfg, ws, k);
    LedgerOfGood(cfg, ws[k], u);
    NamesGrow(cfg, ws[k], ws[k + 1], u, h);
  }

  /** A name never leaves the list of failed hosts. */
  lemma {:induction false} RunNamesGrow(cfg: Settings, ws: seq<World>, j: nat, k: nat, u: UserId, h: string)
    requires Run(cfg, ws) && j <= k < |ws| && User(u) in ws[j].tasks && OnStatic(cfg, ws[k], u)
    requires h in FailedOf(ws[j], u)
    ensures h in FailedOf(ws[k], u)
    decreases k - j
  {
    hide Run, FailedOf;
    if j < k {
      RunStillThere(cfg, ws, j, k - 1, u);
      RunNamesGrow(cfg, ws, j, k - 1, u, h);
      LastNamesGrow(cfg, ws, k - 1, u, h);
    }
  }

  /** A host that failed for a task is never given to it again. */
  lemma FailedHostNotReused(cfg: Settings, ws: seq<World>, j: nat, k: nat, u: UserId, h: string)
    requires Run(cfg, ws) && j <= k < |ws| && User(u) in ws[j].tasks && OnStatic(cfg, ws[k], u)
    requires h in FailedOf(ws[j], u)
    ensures HostOf(ws[k].tasks[User(u)]) != h
  {
    assert WellFormed(cfg);
    hide Run, Good, WellFormed, FailedOf, MarkedOk, Balance, ProvisionsOk;
    RunNamesGrow(cfg, ws, j, k, u, h);
    RunIsGood(cfg, ws, k);
    LedgerOfGood(cfg, ws[k], u);
    var p := ws[k].tasks[User(u)].platform;
    assert h in cfg[p].hosts;
    HostIsNamed(cfg, p, h);
  }

  lemma HostIsNamed(cfg: Settings, p: string, h: string)
    requires WellFormed(cfg) && Static(cfg, p) && h in cfg[p].hosts
    ensures h != "" && Matching(cfg[p].hosts, cfg[p].targetPlatform, h)
  {
    assert ProperHost(cfg[p].hosts[h], h, p);
  }

  /** The hosts of the pool that have not failed for the task. */
  function Remaining(cfg: Settings, w: World, u: UserId): set<string>
    requires OnStatic(cfg, w, u)
  {
    set h | h in cfg[w.tasks[User(u)].platform].hosts && h !in FailedOf(w, u)
  }

  lemma KeysWithout(hosts: map<string, Host>, names: set<string>)
    requires names <= hosts.Keys
    ensures |hosts.Keys - names| + |names| == |hosts|
  {
    assert hosts.Keys == (hosts.Keys - names) + names;
  }

  lemma RemainingAndFailed(cfg: Settings, w: World, u: UserId)
    requires OnStatic(cfg, w, u) && ListOk(w, u, cfg[w.tasks[User(u)].platform].hosts)
    ensures |Remaining(cfg, w, u)| + |Elements(FailedOf(w, u))| == |cfg[w.tasks[User(u)].platform].hosts|
  {
    hide FailedOf;
    var hosts := cfg[w.tasks[User(u)].platform].hosts;
    assert Remaining(cfg, w, u) == hosts.Keys - Elements(FailedOf(w, u));
    KeysWithout(hosts, Elements(FailedOf(w, u)));
  }

  /** Every provision failure costs the task one host of its pool, unless it was recorded before and the mark was lost. */
  lemma RemainingCount(cfg: Settings, w: World, u: UserId)
    requires Good(cfg, w) && OnStatic(cfg, w, u)
    ensures var n, t := |cfg[w.tasks[User(u)].platform].hosts|, TallyOf(w, u);
      && |Remaining(cfg, w, u)| + t.provisionFailures <= n + t.lostMarks
      && (t.lostMarks == 0 ==> |Remaining(cfg, w, u)| + t.provisionFailures == n)
  {
    hide Good, FailedOf, Remaining, Elements, Stale, Distinct, ProvisionsOk;
    LedgerOfGood(cfg, w, u);
    RemainingAndFailed(cfg, w, u);
    if TallyOf(w, u).lostMarks == 0 {
      DistinctSize(FailedOf(w, u));
    }
  }

  /** A static pool with n hosts: at most n provision failures for one task, and one more for each mark that was lost. */
  lemma ProvisionFailuresBounded(cfg: Settings, ws: seq<World>, k: nat, u: UserId)
    requires Run(cfg, ws) && k < |ws| && OnStatic(cfg, ws[k], u)
    ensures var n, t := |cfg[ws[k].tasks[User(u)].platform].hosts|, TallyOf(ws[k], u);
      && t.provisionFailures <= n + t.lostMarks
      && |Remaining(cfg, ws[k], u)| + t.provisionFailures <= n + t.lostMarks
      && (t.lostMarks == 0 ==> |Remaining(cfg, ws[k], u)| + t.provisionFailures == n)
  {
    hide Run, Good, Remaining;
    RunIsGood(cfg, ws, k);
    RemainingCount(cfg, ws[k], u);
  }

  lemma AssignErrors(w: World, u: UserId, tr: TaskRun, hosts: map<string, Host>, platform: string, c: Calls)
    requires hosts != map[] && !c.listFails && exists k :: k in hosts && Matching(hosts, platform, k)
    ensures var o := HostPoolAllocate(w, u, tr, hosts, platform, c);
      var all := forall k :: Matching(hosts, platform, k) ==> k in Split(FailedHostList(tr), ',');
      && (o.error == AllHostsFailed <==> all)
      && (all ==> o == Outcome(w, tr, AllHostsFailed))
  {
    hide AssignHost, NoneFree, Split, Chosen, Save;
    var failed := Split(FailedHostList(tr), ',');
    if !NoneFree(w, hosts, platform, failed) {
      AssignHostFrame(w, u, tr, hosts[Chosen(w, hosts, platform, failed, c.pick)], platform, c);
    }
  }

  lemma SplitOrNames(text: string, h: string)
    requires h != "" && (FailedNames(text) == [] ==> text == "")
    ensures h in Split(text, ',') <==> h in FailedNames(text)
  {
  }

  /** Once the pool is used up, and only then, allocation ends with the error for failed hosts and changes nothing;
      if no mark was lost that is after as many failures as there are hosts. */
  lemma ExhaustedPool(cfg: Settings, w: World, u: UserId, tr: TaskRun, c: Calls)
    requires WellFormed(cfg) && Good(cfg, w) && OnStatic(cfg, w, u) && !c.listFails
    requires FailedHostList(tr) == FailedHostList(w.tasks[User(u)])
    requires cfg[w.tasks[User(u)].platform].hosts != map[]
    ensures var pool := cfg[w.tasks[User(u)].platform];
      var o := HostPoolAllocate(w, u, tr, pool.hosts, pool.targetPlatform, c);
      && (o.error == AllHostsFailed <==> Remaining(cfg, w, u) == {})
      && (o.error == AllHostsFailed ==> o == Outcome(w, tr, AllHostsFailed))
      && (TallyOf(w, u).lostMarks == 0 ==> (o.error == AllHostsFailed <==> TallyOf(w, u).provisionFailures == |pool.hosts|))
  {
    hide Good, WellFormed, HostPoolAllocate, FailedNames, Split, Stale, MarkedOk, ProvisionsOk;
    var p := w.tasks[User(u)].platform;
    var hosts := cfg[p].hosts;
    RemainingCount(cfg, w, u);
    LedgerOfGood(cfg, w, u);
    forall h | h in hosts
      ensures Matching(hosts, cfg[p].targetPlatform, h)
      ensures h in Split(FailedHostList(tr), ',') <==> h !in Remaining(cfg, w, u)
    {
      HostIsNamed(cfg, p, h);
      SplitOrNames(FailedHostList(tr), h);
    }
    var some :| some in hosts;
    assert Matching(hosts, cfg[p].targetPlatform, some);
    AssignErrors(w, u, tr, hosts, cfg[p].targetPlatform, c);
    assert |Remaining(cfg, w, u)| == 0 <==> Remaining(cfg, w, u) == {};
  }
}
