/** Every handler keeps the invariant: the allocation strategies, the release of a host and
    the bookkeeping around them are chains of the primitive effects. */
module Handlers {
  import opened Collections
  import opened Text
  import opened TaskRuns
  import opened Platforms
  import opened Cluster
  import opened HostPools
  import opened DynamicHosts
  import opened DynamicPools
  import opened PoolCounting
  import opened Reconcile
  import opened Safety
  import opened Effects

  // ---- the TaskRun in memory -----------------------------------------------------------------

  predicate SameMarks(a: TaskRun, b: TaskRun) {
    HostOf(a) == HostOf(b) && WaitingOf(a) == WaitingOf(b) && InstanceOf(a) == InstanceOf(b) && Held(a) == Held(b)
  }

  /** The parts of a TaskRun the invariant speaks of. */
  predicate SameView(a: TaskRun, b: TaskRun) {
    SameMarks(a, b) && KindOf(a) == KindOf(b) && FailedHostList(a) == FailedHostList(b) && a.platform == b.platform
  }

  /** The TaskRun in memory may be written, now or after further calls fail. */
  ghost predicate MemOk(cfg: Settings, w: World, u: UserId, tr: TaskRun) {
    && User(u) in w.tasks
    && UserOk(cfg, tr)
    && tr.platform == w.tasks[User(u)].platform
    && (Finished(tr) ==> Finished(w.tasks[User(u)]))
    && InstanceKept(w, u, w.tasks[User(u)], tr)
    && (HostOf(tr) != "" && HostOf(tr) != HostOf(w.tasks[User(u)]) ==>
          u !in w.secrets && Assignable(cfg, w, tr.platform, HostOf(tr)))
    && FailuresKept(cfg, w, u, tr)
  }

  lemma SavedForm(stored: TaskRun, tr: TaskRun, wr: Write)
    requires wr.Direct? || wr.Merged?
    ensures var s := StoredForm(stored, tr, wr);
      && HostOf(s) == HostOf(tr) && WaitingOf(s) == WaitingOf(tr) && InstanceOf(s) == InstanceOf(tr) && KindOf(s) == KindOf(tr)
      && Held(s) == Held(tr) && FailedHostList(s) == FailedHostList(tr) && Processed(s) == Processed(tr) && OwnerOf(s) == OwnerOf(tr)
      && s.platform == stored.platform && (Finished(stored) ==> Finished(s))
      && (wr.Direct? ==> FailuresOf(s) == FailuresOf(tr) && Finished(s) == Finished(stored))
      && (wr.Merged? ==> FailuresOf(s) == FailuresOf(stored))
  {
    if wr.Merged? {
      EditKeepsControllerState(stored, wr.edit);
      MergeTakesManagedState(ApplyEdit(stored, wr.edit), tr);
      hide Merge, ApplyEdit, Get;
    }
  }

  lemma SavedWriteOk(cfg: Settings, w: World, u: UserId, tr: TaskRun, s: TaskRun)
    requires MemOk(cfg, w, u, tr)
    requires SameView(s, tr) && (Finished(w.tasks[User(u)]) ==> Finished(s))
    ensures WriteOk(cfg, w, u, s) && FailuresKept(cfg, w, u, s)
  {
  }

  lemma SaveKeeps(cfg: Settings, w: World, u: UserId, tr: TaskRun, wr: Write, pending: string)
    requires WellFormed(cfg) && GoodBut(cfg, w, pending) && MemOk(cfg, w, u, tr)
    ensures var w' := Save(w, User(u), tr, wr);
      && GoodBut(cfg, w', pending) && Follows(cfg, w, w')
      && (Accepted(w, User(u), wr) ==> SameView(w'.tasks[User(u)], tr))
  {
    assert tr.platform == w.tasks[User(u)].platform;
    hide StoredForm, GoodBut, Follows, WriteOk, FailuresKept, MemOk, WellFormed, SameView, Save;
    if Accepted(w, User(u), wr) {
      var s := StoredForm(w.tasks[User(u)], tr, wr);
      StoredView(w, u, tr, wr);
      SavedWriteOk(cfg, w, u, tr, s);
      PutKeeps(cfg, w, u, s, pending);
    } else {
      NotSaved(w, User(u), tr, wr);
      FollowsSelf(cfg, w);
    }
  }

  lemma StoredView(w: World, u: UserId, tr: TaskRun, wr: Write)
    requires Accepted(w, User(u), wr) && tr.platform == w.tasks[User(u)].platform
    ensures var s := StoredForm(w.tasks[User(u)], tr, wr);
      && Save(w, User(u), tr, wr) == Put(w, User(u), s) && Put(w, User(u), s).tasks[User(u)] == s
      && SameView(s, tr) && (Finished(w.tasks[User(u)]) ==> Finished(s))
  {
    SavedForm(w.tasks[User(u)], tr, wr);
    hide StoredForm;
  }

  lemma Chain(cfg: Settings, w: World, w1: World, w2: World, p: string, p1: string)
    requires GoodBut(cfg, w, p) && GoodBut(cfg, w1, p1)
    requires Follows(cfg, w, w1) && Follows(cfg, w1, w2)
    ensures Follows(cfg, w, w2)
  {
    hide Follows, UsersOk, Recorded, FleetOk, Owned, PoolSafe, NamesOk, WithinSlots, WithinLimits, AllFailuresOk, SeenOk;
    FollowsTrans(cfg, w, w1, w2);
  }

  // ---- error secrets ---------------------------------------------------------------------------

  /** The result of a step: the invariant holds, nothing is undone, and the TaskRun in memory may still be written. */
  ghost predicate Fine(cfg: Settings, w: World, u: UserId, o: Outcome) {
    Good(cfg, o.world) && Follows(cfg, w, o.world) && MemOk(cfg, o.world, u, o.tr)
  }

  lemma MemAfterSave(cfg: Settings, w: World, w': World, u: UserId, tr: TaskRun)
    requires MemOk(cfg, w, u, tr) && User(u) in w'.tasks && SameView(w'.tasks[User(u)], tr)
    requires Follows(cfg, w, w')
    ensures MemOk(cfg, w', u, tr)
  {
  }

  /** Adding secrets or stopping instances does not make a TaskRun unwritable. */
  lemma MemAfterSecret(cfg: Settings, w: World, u: UserId, v: UserId, tr: TaskRun)
    requires MemOk(cfg, w, u, tr) && HostOf(tr) == HostOf(w.tasks[User(u)])
    ensures MemOk(cfg, w.(secrets := w.secrets + {v}), u, tr)
  {
    forall a ensures Pending(w.(secrets := w.secrets + {v}), u, a) == Pending(w, u, a) {}
  }

  lemma MemHeld(cfg: Settings, w: World, u: UserId, tr: TaskRun)
    requires MemOk(cfg, w, u, tr)
    ensures MemOk(cfg, w, u, AddFinalizer(tr))
  {
  }

  lemma UnheldHasNoHost(cfg: Settings, w: World, u: UserId, tr: TaskRun)
    requires MemOk(cfg, w, u, tr)
    ensures !Held(tr) ==> HostOf(tr) == ""
  {
  }

  /** The finalizer is written before the error secret if the TaskRun does not carry it yet. */
  lemma FinalizerWritten(cfg: Settings, w: World, u: UserId, tr: TaskRun)
    requires WellFormed(cfg) && Good(cfg, w) && MemOk(cfg, w, u, tr) && !Held(tr)
    ensures var tr', w' := AddFinalizer(tr), Save(w, User(u), AddFinalizer(tr), Direct);
      && Good(cfg, w') && Follows(cfg, w, w') && MemOk(cfg, w', u, tr') && HostOf(tr') == "" && HostOf(w'.tasks[User(u)]) == ""
  {
    hide GoodBut, Follows, UserOk, InstanceKept, FailuresKept, StoredForm;
    var tr' := AddFinalizer(tr);
    MemHeld(cfg, w, u, tr);
    UnheldHasNoHost(cfg, w, u, tr);
    SaveKeeps(cfg, w, u, tr', Direct, "");
    MemAfterSave(cfg, w, Save(w, User(u), tr', Direct), u, tr');
  }

  lemma ErrorSecretKeeps(cfg: Settings, w: World, u: UserId, tr: TaskRun, wr: Write, created: bool)
    requires WellFormed(cfg) && Good(cfg, w) && MemOk(cfg, w, u, tr)
    ensures var o := CreateErrorSecret(w, User(u), tr, u, wr, created);
      Good(cfg, o.world) && Follows(cfg, w, o.world)
      && (HostOf(tr) == HostOf(w.tasks[User(u)]) ==> MemOk(cfg, o.world, u, o.tr))
  {
    hide GoodBut, Follows, UserOk, InstanceKept, FailuresKept, Save;
    var tr' := AddFinalizer(tr);
    FollowsSelf(cfg, w);
    MemHeld(cfg, w, u, tr);
    var w' := if Held(tr) then w else Save(w, User(u), tr', Direct);
    if !Held(tr) {
      FinalizerWritten(cfg, w, u, tr);
    }
    SecretAddedKeeps(cfg, w', u, "");
    Chain(cfg, w, w', w'.(secrets := w'.secrets + {u}), "", "");
    if HostOf(tr) == HostOf(w.tasks[User(u)]) {
      assert HostOf(tr') == HostOf(w'.tasks[User(u)]);
      MemAfterSecret(cfg, w', u, u, tr');
    }
    hide MemOk, Good;
  }

  // ---- launching a provision task ------------------------------------------------------------------

  /** The host just given to a task has no provision task yet and has not failed for it. */
  ghost predicate Unprovisioned(cfg: Settings, w: World, u: UserId)
    requires User(u) in w.tasks
  {
    var user := w.tasks[User(u)];
    Static(cfg, user.platform) ==>
      && HostOf(user) !in FailedOf(w, u)
      && (TallyOf(w, u).lostMarks == 0 ==> forall a :: !Pending(w, u, a))
  }

  /** The address belongs to the host of a static task. */
  predicate AddressFits(cfg: Settings, tr: TaskRun, address: string) {
    Static(cfg, tr.platform) ==> HostOf(tr) in cfg[tr.platform].hosts && cfg[tr.platform].hosts[HostOf(tr)].address == address
  }

  lemma ProvisionAdded(cfg: Settings, w: World, u: UserId, tr: TaskRun, address: string, platform: string)
    requires Good(cfg, w) && MemOk(cfg, w, u, tr) && Unprovisioned(cfg, w, u) && AddressFits(cfg, tr, address)
    requires HostOf(tr) != "" && HostOf(tr) == HostOf(w.tasks[User(u)]) && Provision(u, address) !in w.tasks
    ensures var w' := Put(w, Provision(u, address), ProvisionRun(u, HostOf(tr), platform));
      && Good(cfg, w') && Follows(cfg, w, w') && MemOk(cfg, w', u, tr) && HostOf(w'.tasks[User(u)]) == HostOf(tr)
  {
    var p := ProvisionRun(u, HostOf(tr), platform);
    assert OwnerOf(p) == u && HostOf(p) == HostOf(tr);
    assert User(u) in w.tasks && HostOf(w.tasks[User(u)]) == HostOf(p);
    assert OtherOk(cfg, w, Provision(u, address), p);
    OtherKeeps(cfg, w, Provision(u, address), p);
    MemAfterOther(cfg, w, Provision(u, address), p, u, tr);
    hide *;
  }

  lemma MemAfterOther(cfg: Settings, w: World, id: TaskId, other: TaskRun, u: UserId, tr: TaskRun)
    requires MemOk(cfg, w, u, tr) && !id.User? && HostOf(tr) == HostOf(w.tasks[User(u)])
    ensures MemOk(cfg, Put(w, id, other), u, tr)
  {
  }

  lemma LaunchProvisioningKeeps(cfg: Settings, w: World, u: UserId, tr: TaskRun, address: string, platform: string, c: Calls)
    requires WellFormed(cfg) && Good(cfg, w) && MemOk(cfg, w, u, tr) && Unprovisioned(cfg, w, u) && AddressFits(cfg, tr, address)
    requires HostOf(tr) != "" && HostOf(tr) == HostOf(w.tasks[User(u)])
    ensures var o := LaunchProvisioning(w, u, tr, address, platform, c);
      && Fine(cfg, w, u, o) && o.tr == tr && HostOf(o.world.tasks[User(u)]) == HostOf(tr)
      && (o.error != NoError ==> o.world == w)
  {
    FollowsSelf(cfg, w);
    assert Held(tr);
    hide GoodBut, Follows, UserOk, InstanceKept, FailuresKept, Unprovisioned, ProvisionRun;
    ErrorSecretKeeps(cfg, w, u, tr, c.earlyWrite, c.earlyCreate);
    if c.sshSecretFound && Provision(u, address) !in w.tasks {
      ProvisionAdded(cfg, w, u, tr, address, platform);
    }
    hide MemOk, Good;
  }

  // ---- HostPool ---------------------------------------------------------------------------------------

  /** Allocation starts from a task that is unfinished, unassigned and has no secret. */
  ghost predicate Ready(cfg: Settings, w: World, u: UserId, tr: TaskRun) {
    && User(u) in w.tasks && SameView(w.tasks[User(u)], tr)
    && HostOf(tr) == "" && !Finished(w.tasks[User(u)]) && !Finished(tr)
    && UserOk(cfg, tr) && u !in w.secrets
  }

  lemma ReadyMem(cfg: Settings, w: World, u: UserId, tr: TaskRun)
    requires Ready(cfg, w, u, tr)
    ensures MemOk(cfg, w, u, tr)
  {
  }

  lemma AwaitHostKeeps(cfg: Settings, w: World, u: UserId, tr: TaskRun, platform: string, c: Calls)
    requires WellFormed(cfg) && Good(cfg, w) && Ready(cfg, w, u, tr) && (Static(cfg, tr.platform) || Pooled(cfg, tr.platform))
    ensures Fine(cfg, w, u, AwaitHost(w, u, tr, platform, c))
  {
    var tr' := SetLabel(tr, WaitingForPlatform, PlatformLabel(platform));
    ReadyMem(cfg, w, u, tr);
    assert MemOk(cfg, w, u, tr');
    FollowsSelf(cfg, w);
    hide GoodBut, Follows, UserOk, InstanceKept, FailuresKept, StoredForm;
    SaveKeeps(cfg, w, u, tr', c.write, "");
    if Accepted(w, User(u), c.write) {
      MemAfterSave(cfg, w, Save(w, User(u), tr', c.write), u, tr');
    }
    hide MemOk, Good;
  }

  function Given(tr: TaskRun, h: string): TaskRun {
    AddFinalizer(DropLabel(SetLabel(tr, AssignedHost, h), WaitingForPlatform))
  }

  function TakenBack(tr: TaskRun): TaskRun {
    RemoveFinalizer(DropLabel(tr, AssignedHost))
  }

  /** `h` may be given to the task. */
  ghost predicate Offer(cfg: Settings, w: World, u: UserId, tr: TaskRun, h: string) {
    && h != "" && (Static(cfg, tr.platform) || Pooled(cfg, tr.platform))
    && Assignable(cfg, w, tr.platform, h)
    && (Static(cfg, tr.platform) ==> h !in FailedNames(FailedHostList(tr)))
  }

  lemma GivenMem(cfg: Settings, w: World, u: UserId, tr: TaskRun, h: string)
    requires Ready(cfg, w, u, tr) && Offer(cfg, w, u, tr, h)
    ensures MemOk(cfg, w, u, Given(tr, h)) && HostOf(Given(tr, h)) == h && WaitingOf(Given(tr, h)) == ""
  {
  }

  lemma TakenBackMem(cfg: Settings, w: World, u: UserId, tr: TaskRun)
    requires MemOk(cfg, w, u, tr) && Unprovisioned(cfg, w, u) && !Dynamic(cfg, tr.platform) && SameView(w.tasks[User(u)], tr)
    ensures MemOk(cfg, w, u, TakenBack(tr))
  {
  }

  lemma GivenUnprovisioned(cfg: Settings, w: World, u: UserId, tr: TaskRun, h: string, s: TaskRun)
    requires WellFormed(cfg) && AllFailuresOk(cfg, w) && Ready(cfg, w, u, tr) && Offer(cfg, w, u, tr, h)
    requires SameView(s, Given(tr, h)) && HostOf(s) == h
    ensures Unprovisioned(cfg, Put(w, User(u), s), u)
  {
    assert FailuresOk(cfg, w, u);
    NothingPending(cfg, w, u);
    hide FailuresOk, AllFailuresOk, WellFormed, UserOk, Assignable, FailedNames;
    var w1 := Put(w, User(u), s);
    forall a ensures Pending(w1, u, a) == Pending(w, u, a) {}
    assert FailedHostList(Given(tr, h)) == FailedHostList(tr);
  }

  lemma AssignHostKeeps(cfg: Settings, w: World, u: UserId, tr: TaskRun, host: Host, platform: string, c: Calls)
    requires WellFormed(cfg) && Good(cfg, w) && Ready(cfg, w, u, tr) && Offer(cfg, w, u, tr, host.name)
    requires AddressFits(cfg, Given(tr, host.name), host.address)
    ensures Fine(cfg, w, u, AssignHost(w, u, tr, host, platform, c))
  {
    assert AllFailuresOk(cfg, w);
    hide GoodBut, Follows, UserOk, InstanceKept, FailuresKept, StoredForm, Assignable, Unprovisioned, AllFailuresOk, WellFormed;
    var tr1 := Given(tr, host.name);
    GivenMem(cfg, w, u, tr, host.name);
    SaveKeeps(cfg, w, u, tr1, c.write, "");
    var w1 := Save(w, User(u), tr1, c.write);
    if Accepted(w, User(u), c.write) {
      GivenUnprovisioned(cfg, w, u, tr, host.name, w1.tasks[User(u)]);
      hide Save;
      MemAfterSave(cfg, w, w1, u, tr1);
      LaunchProvisioningKeeps(cfg, w1, u, tr1, host.address, platform, c);
      var o := LaunchProvisioning(w1, u, tr1, host.address, platform, c);
      hide LaunchProvisioning, Given, TakenBack;
      Chain(cfg, w, w1, o.world, "", "");
      if o.error != NoError {
        ProvisioningUndone(cfg, w, w1, u, tr1, c);
      }
    }
    hide MemOk, Good;
  }

  lemma ProvisioningUndone(cfg: Settings, w: World, w1: World, u: UserId, tr1: TaskRun, c: Calls)
    requires WellFormed(cfg) && Good(cfg, w) && Good(cfg, w1) && Follows(cfg, w, w1) && MemOk(cfg, w1, u, tr1)
    requires Unprovisioned(cfg, w1, u) && !Dynamic(cfg, tr1.platform) && SameView(w1.tasks[User(u)], tr1)
    ensures var tr2 := TakenBack(tr1); Fine(cfg, w, u, Outcome(Save(w1, User(u), tr2, c.rewrite), tr2, OtherError))
  {
    hide GoodBut, Follows, UserOk, InstanceKept, FailuresKept, StoredForm, Unprovisioned;
    var tr2 := TakenBack(tr1);
    TakenBackMem(cfg, w1, u, tr1);
    SaveKeeps(cfg, w1, u, tr2, c.rewrite, "");
    var w2 := Save(w1, User(u), tr2, c.rewrite);
    Chain(cfg, w, w1, w2, "", "");
    if Accepted(w1, User(u), c.rewrite) {
      MemAfterSave(cfg, w1, w2, u, tr2);
    }
    hide MemOk, Good;
  }

  /** The chosen host of a pool may be given to the task. */
  lemma ChosenIsOffer(cfg: Settings, w: World, u: UserId, tr: TaskRun, hosts: map<string, Host>, pick: string)
    requires WellFormed(cfg) && (Static(cfg, tr.platform) || Pooled(cfg, tr.platform))
    requires HostsOf(cfg, w, tr.platform, hosts)
    requires !NoneFree(w, hosts, tr.platform, Split(FailedHostList(tr), ','))
    ensures var h := Chosen(w, hosts, tr.platform, Split(FailedHostList(tr), ','), pick);
      h in hosts && hosts[h].name == h && Offer(cfg, w, u, tr, h) && AddressFits(cfg, Given(tr, h), hosts[h].address)
  {
    var h := Chosen(w, hosts, tr.platform, Split(FailedHostList(tr), ','), pick);
    var failed := Split(FailedHostList(tr), ',');
    assert Best(w, hosts, tr.platform, failed, h) && h !in failed;
    hide Chosen, Split;
    if Static(cfg, tr.platform) {
      assert hosts == cfg[tr.platform].hosts;
      assert h in cfg[tr.platform].hosts && cfg[tr.platform].hosts[h].name == h;
      assert h !in FailedNames(FailedHostList(tr));
    }
  }

  /** The hosts a pool works with: its configured ones, or its unexpired instances. */
  ghost predicate HostsOf(cfg: Settings, w: World, p: string, hosts: map<string, Host>) {
    && (Static(cfg, p) ==> hosts == cfg[p].hosts)
    && (Pooled(cfg, p) ==> forall i :: i in hosts ==>
          && i != "" && hosts[i].name == i && hosts[i].concurrency == cfg[p].concurrency
          && i in w.fleet && !PoolExpired(cfg, w, i))
  }

  lemma ChosenKeeps(cfg: Settings, w: World, u: UserId, tr: TaskRun, hosts: map<string, Host>, c: Calls)
    requires WellFormed(cfg) && Good(cfg, w) && Ready(cfg, w, u, tr)
    requires (Static(cfg, tr.platform) || Pooled(cfg, tr.platform)) && HostsOf(cfg, w, tr.platform, hosts)
    requires !NoneFree(w, hosts, tr.platform, Split(FailedHostList(tr), ','))
    ensures var h := Chosen(w, hosts, tr.platform, Split(FailedHostList(tr), ','), c.pick);
      Fine(cfg, w, u, AssignHost(w, u, tr, hosts[h], tr.platform, c))
  {
    ChosenIsOffer(cfg, w, u, tr, hosts, c.pick);
    hide Good, Ready, Offer, Chosen, HostsOf, Fine, AssignHost, WellFormed, NoneFree, Split, AddressFits, Given;
    AssignHostKeeps(cfg, w, u, tr, hosts[Chosen(w, hosts, tr.platform, Split(FailedHostList(tr), ','), c.pick)], tr.platform, c);
  }

  lemma HostPoolAllocateKeeps(cfg: Settings, w: World, u: UserId, tr: TaskRun, hosts: map<string, Host>, c: Calls)
    requires WellFormed(cfg) && Good(cfg, w) && Ready(cfg, w, u, tr)
    requires (Static(cfg, tr.platform) || Pooled(cfg, tr.platform)) && HostsOf(cfg, w, tr.platform, hosts)
    ensures Fine(cfg, w, u, HostPoolAllocate(w, u, tr, hosts, tr.platform, c))
  {
    hide Good, Ready, WellFormed, HostsOf, AssignHost, AwaitHost, NoneFree, Split, MemOk, Follows, Chosen;
    ReadyMem(cfg, w, u, tr);
    FollowsSelf(cfg, w);
    if NoneFree(w, hosts, tr.platform, Split(FailedHostList(tr), ',')) {
      AwaitHostKeeps(cfg, w, u, tr, tr.platform, c);
    } else {
      ChosenKeeps(cfg, w, u, tr, hosts, c);
    }
  }

  /** Where no host was given, only the TaskRun's waiting label can have changed. */
  lemma HostPoolAllocateFrame(w: World, u: UserId, tr: TaskRun, hosts: map<string, Host>, platform: string, c: Calls)
    ensures var o := HostPoolAllocate(w, u, tr, hosts, platform, c);
      o.error == AllHostsFailed || WaitingOf(o.tr) != "" ==> o.world == w.(tasks := o.world.tasks)
  {
    hide AssignHost, NoneFree, Split, Chosen, StoredForm;
    var failed := Split(FailedHostList(tr), ',');
    if !NoneFree(w, hosts, platform, failed) {
      AssignHostFrame(w, u, tr, hosts[Chosen(w, hosts, platform, failed, c.pick)], platform, c);
    }
  }

  lemma AssignHostFrame(w: World, u: UserId, tr: TaskRun, host: Host, platform: string, c: Calls)
    ensures var o := AssignHost(w, u, tr, host, platform, c); o.error != AllHostsFailed && WaitingOf(o.tr) == ""
  {
  }

  // ---- Local -----------------------------------------------------------------------------------------

  lemma LocalMem(cfg: Settings, w: World, u: UserId, tr: TaskRun)
    requires Ready(cfg, w, u, tr) && tr.platform in cfg && cfg[tr.platform].Local?
    ensures MemOk(cfg, w, u, AddFinalizer(SetLabel(tr, AssignedHost, "localhost")))
    ensures HostOf(AddFinalizer(SetLabel(tr, AssignedHost, "localhost"))) == "localhost"
  {
  }

  lemma LocalAllocateKeeps(cfg: Settings, w: World, u: UserId, tr: TaskRun, c: Calls)
    requires WellFormed(cfg) && Good(cfg, w) && Ready(cfg, w, u, tr) && tr.platform in cfg && cfg[tr.platform].Local?
    ensures Fine(cfg, w, u, LocalAllocate(w, u, tr, c))
  {
    hide GoodBut, Follows, UserOk, InstanceKept, FailuresKept, StoredForm, WellFormed;
    var tr1 := AddFinalizer(SetLabel(tr, AssignedHost, "localhost"));
    LocalMem(cfg, w, u, tr);
    FollowsSelf(cfg, w);
    if c.write.Direct? {
      SaveKeeps(cfg, w, u, tr1, Direct, "");
      var w1 := Save(w, User(u), tr1, Direct);
      MemAfterSave(cfg, w, w1, u, tr1);
      MemAfterSecret(cfg, w1, u, u, tr1);
      SecretAddedKeeps(cfg, w1, u, "");
      Chain(cfg, w, w1, w1.(secrets := w1.secrets + {u}), "", "");
    }
    hide MemOk, Good, Ready;
  }

  // ---- DynamicResolver ---------------------------------------------------------------------------------

  lemma StopOwn(cfg: Settings, w: World, u: UserId, i: string, gone: bool)
    requires Good(cfg, w)
    requires i == "" || (i in w.fleet && Dynamic(cfg, w.fleet[i].platform))
    ensures Good(cfg, Stop(w, i, gone)) && Follows(cfg, w, Stop(w, i, gone))
  {
    assert Stoppable(cfg, w, i);
    StopIsStopAll(w, i, gone);
    hide GoodBut, Follows, Stoppable;
    StopKeeps(cfg, w, {i}, if gone then {i} else {}, "");
  }

  lemma OwnInstance(cfg: Settings, w: World, u: UserId, tr: TaskRun)
    requires Good(cfg, w) && MemOk(cfg, w, u, tr) && Dynamic(cfg, tr.platform)
    ensures InstanceOf(tr) == "" || (InstanceOf(tr) in w.fleet && Dynamic(cfg, w.fleet[InstanceOf(tr)].platform))
  {
  }

  lemma AbandonedMem(cfg: Settings, w: World, u: UserId, tr: TaskRun, terminated: bool, gone: bool)
    requires MemOk(cfg, w, u, tr) && Dynamic(cfg, tr.platform)
    ensures var tr1 := if terminated then DropAnnotation(tr, CloudInstanceId) else tr;
      var tr2 := DropAnnotation(DropLabel(tr1, AssignedHost), CloudDynamicPlatform);
      MemOk(cfg, Stop(w, InstanceOf(tr), gone), u, tr2)
  {
    var tr1 := if terminated then DropAnnotation(tr, CloudInstanceId) else tr;
    var tr2 := DropAnnotation(DropLabel(tr1, AssignedHost), CloudDynamicPlatform);
    assert HostOf(tr2) == "" && WaitingOf(tr2) == WaitingOf(tr) && KindOf(tr2) == KindOf(tr);
    assert InstanceOf(tr2) == if terminated then "" else InstanceOf(tr);
  }

  lemma AbandonKeeps(cfg: Settings, w: World, u: UserId, tr: TaskRun, c: Calls)
    requires WellFormed(cfg) && Good(cfg, w) && MemOk(cfg, w, u, tr) && Dynamic(cfg, tr.platform)
    ensures Fine(cfg, w, u, Abandon(w, u, tr, c))
  {
    hide GoodBut, Follows, UserOk, InstanceKept, FailuresKept, StoredForm, WellFormed;
    var i, gone := InstanceOf(tr), c.terminate && InstanceOf(tr) in c.gone;
    OwnInstance(cfg, w, u, tr);
    StopOwn(cfg, w, u, i, gone);
    AbandonedMem(cfg, w, u, tr, c.terminate, gone);
    var w1 := Stop(w, i, gone);
    var tr1 := if c.terminate then DropAnnotation(tr, CloudInstanceId) else tr;
    var tr2 := DropAnnotation(DropLabel(tr1, AssignedHost), CloudDynamicPlatform);
    SaveKeeps(cfg, w1, u, tr2, c.rewrite, "");
    var w2 := Save(w1, User(u), tr2, c.rewrite);
    Chain(cfg, w, w1, w2, "", "");
    if Accepted(w1, User(u), c.rewrite) {
      MemAfterSave(cfg, w1, w2, u, tr2);
    }
    hide MemOk, Good;
  }

  lemma InstanceMem(cfg: Settings, w: World, u: UserId, tr: TaskRun, address: string)
    requires Ready(cfg, w, u, tr) && Dynamic(cfg, tr.platform) && InstanceOf(tr) != ""
    ensures var tr1 := Annotate(SetLabel(tr, AssignedHost, InstanceOf(tr)), CloudAddress, address);
      MemOk(cfg, w, u, tr1) && HostOf(tr1) == InstanceOf(tr)
  {
  }

  lemma AssignInstanceKeeps(cfg: Settings, w: World, u: UserId, tr: TaskRun, d: PlatformConfig, address: string, c: Calls)
    requires WellFormed(cfg) && Good(cfg, w) && Ready(cfg, w, u, tr) && Dynamic(cfg, tr.platform) && d == cfg[tr.platform]
    requires InstanceOf(tr) != ""
    ensures Fine(cfg, w, u, AssignInstance(w, u, tr, d, address, c))
  {
    hide GoodBut, Follows, UserOk, InstanceKept, FailuresKept, StoredForm, WellFormed;
    var tr1 := Annotate(SetLabel(tr, AssignedHost, InstanceOf(tr)), CloudAddress, address);
    InstanceMem(cfg, w, u, tr, address);
    SaveKeeps(cfg, w, u, tr1, c.write, "");
    var w1 := Save(w, User(u), tr1, c.write);
    if Accepted(w, User(u), c.write) {
      MemAfterSave(cfg, w, w1, u, tr1);
      assert Unprovisioned(cfg, w1, u);
      hide Unprovisioned, Save;
      LaunchProvisioningKeeps(cfg, w1, u, tr1, address, d.platform, c);
      var o := LaunchProvisioning(w1, u, tr1, address, d.platform, c);
      hide LaunchProvisioning;
      Chain(cfg, w, w1, o.world, "", "");
      if o.error != NoError {
        AbandonKeeps(cfg, o.world, u, o.tr, c);
        Chain(cfg, w, o.world, Abandon(o.world, u, o.tr, c).world, "", "");
      }
      hide Abandon;
    }
    hide MemOk, Good;
  }

  lemma PollInstanceKeeps(cfg: Settings, w: World, u: UserId, tr: TaskRun, d: PlatformConfig, c: Calls)
    requires WellFormed(cfg) && Good(cfg, w) && Ready(cfg, w, u, tr) && Dynamic(cfg, tr.platform) && d == cfg[tr.platform]
    requires InstanceOf(tr) != ""
    ensures Fine(cfg, w, u, PollInstance(w, u, tr, d, c))
  {
    hide Good, Ready, WellFormed, MemOk, Follows, Abandon, AssignInstance;
    ReadyMem(cfg, w, u, tr);
    FollowsSelf(cfg, w);
    AbandonKeeps(cfg, w, u, tr, c);
    if c.address.Address? {
      AssignInstanceKeeps(cfg, w, u, tr, d, c.address.text, c);
    }
  }

  lemma AwaitCapacityKeeps(cfg: Settings, w: World, u: UserId, tr: TaskRun, d: PlatformConfig, c: Calls)
    requires WellFormed(cfg) && Good(cfg, w) && Ready(cfg, w, u, tr) && Dynamic(cfg, tr.platform) && d == cfg[tr.platform]
    requires InstanceOf(tr) == ""
    ensures Fine(cfg, w, u, AwaitCapacity(w, u, tr, d, c))
  {
    var tr' := SetLabel(tr, WaitingForPlatform, PlatformLabel(d.platform));
    ReadyMem(cfg, w, u, tr);
    assert MemOk(cfg, w, u, tr');
    FollowsSelf(cfg, w);
    hide GoodBut, Follows, UserOk, InstanceKept, FailuresKept, StoredForm, WellFormed;
    SaveKeeps(cfg, w, u, tr', c.write, "");
    if Accepted(w, User(u), c.write) {
      MemAfterSave(cfg, w, Save(w, User(u), tr', c.write), u, tr');
    }
    hide MemOk, Good;
  }

  /** The TaskRun just before a launch: no host, no instance, not waiting. */
  ghost predicate Launchable(cfg: Settings, w: World, u: UserId, tr: TaskRun) {
    && MemOk(cfg, w, u, tr) && Dynamic(cfg, tr.platform)
    && HostOf(tr) == "" && InstanceOf(tr) == "" && WaitingOf(tr) == ""
    && HostOf(w.tasks[User(u)]) == "" && InstanceOf(w.tasks[User(u)]) == ""
    && u !in w.secrets
  }

  lemma BeforeLaunch(cfg: Settings, w: World, u: UserId, tr: TaskRun)
    requires Ready(cfg, w, u, tr) && Dynamic(cfg, tr.platform) && InstanceOf(tr) == ""
    ensures Launchable(cfg, w, u, Annotate(DropLabel(tr, WaitingForPlatform), AllocationStartTime, Itoa(w.clock)))
  {
    hide Itoa;
  }

  lemma CountedMem(cfg: Settings, w: World, u: UserId, tr: TaskRun, n: string)
    requires MemOk(cfg, w, u, tr)
    ensures MemOk(cfg, w, u, Annotate(tr, CloudFailures, n))
  {
  }

  lemma NoteMem(cfg: Settings, w: World, u: UserId, tr: TaskRun, t: Tally)
    requires MemOk(cfg, w, u, tr) && HostOf(tr) == HostOf(w.tasks[User(u)])
    ensures MemOk(cfg, Note(w, u, t), u, tr)
  {
  }

  lemma Noted(cfg: Settings, w: World, w1: World, u: UserId, tr: TaskRun, t: Tally)
    requires Good(cfg, w) && Good(cfg, w1) && Follows(cfg, w, w1) && MemOk(cfg, w1, u, tr)
    requires HostOf(tr) == HostOf(w1.tasks[User(u)])
    requires t.provisionFailures == TallyOf(w1, u).provisionFailures && t.lostMarks == TallyOf(w1, u).lostMarks
    ensures Good(cfg, Note(w1, u, t)) && Follows(cfg, w, Note(w1, u, t)) && MemOk(cfg, Note(w1, u, t), u, tr)
  {
    assert u in w1.seen;
    hide GoodBut, Follows, MemOk;
    NoteKeeps(cfg, w1, u, t, "");
    NoteMem(cfg, w1, u, tr, t);
    Chain(cfg, w, w1, Note(w1, u, t), "", "");
  }

  lemma FailureCounted(cfg: Settings, w: World, u: UserId, tr: TaskRun, n: string, wr: Write)
    requires WellFormed(cfg) && Good(cfg, w) && Launchable(cfg, w, u, tr)
    ensures var tr' := Annotate(tr, CloudFailures, n);
      var w1 := Save(w, User(u), tr', wr);
      Good(cfg, w1) && Follows(cfg, w, w1) && MemOk(cfg, w1, u, tr') && HostOf(w1.tasks[User(u)]) == HostOf(tr')
      && w1.tallies == w.tallies
  {
    hide GoodBut, Follows, UserOk, InstanceKept, FailuresKept, StoredForm, WellFormed;
    var tr' := Annotate(tr, CloudFailures, n);
    CountedMem(cfg, w, u, tr, n);
    SaveKeeps(cfg, w, u, tr', wr, "");
    if Accepted(w, User(u), wr) {
      MemAfterSave(cfg, w, Save(w, User(u), tr', wr), u, tr');
    }
  }

  lemma LaunchFailedKeeps(cfg: Settings, w: World, u: UserId, tr: TaskRun, c: Calls)
    requires WellFormed(cfg) && Good(cfg, w) && Launchable(cfg, w, u, tr)
    ensures Fine(cfg, w, u, LaunchFailed(w, u, tr, c))
  {
    hide Good, Follows, MemOk, WellFormed, ParseInt64, Itoa, Save, SameView, Get;
    FollowsSelf(cfg, w);
    var count := if FailuresOf(tr) == "" then Some(0) else ParseInt64(FailuresOf(tr));
    var t := TallyOf(w, u).(launchFailures := TallyOf(w, u).launchFailures + 1);
    if count.None? || count.value == 2 {
      Noted(cfg, w, w, u, tr, t);
    } else {
      var n := Itoa(count.value + 1);
      FailureCounted(cfg, w, u, tr, n, c.write);
      var w1 := Save(w, User(u), Annotate(tr, CloudFailures, n), c.write);
      hide Annotate;
      Noted(cfg, w, w1, u, Annotate(tr, CloudFailures, n), t);
      Noted(cfg, w, w1, u, Annotate(tr, CloudFailures, n), t.(lostCounts := t.lostCounts + 1));
    }
  }

  lemma PendingRecorded(cfg: Settings, w: World, u: UserId, i: string)
    requires GoodBut(cfg, w, i) && User(u) in w.tasks && i in w.fleet && w.fleet[i].owner == u
    requires InstanceOf(w.tasks[User(u)]) == i && Held(w.tasks[User(u)])
    ensures Good(cfg, w)
  {
    hide UsersOk, Recorded, FleetOk, PoolSafe, NamesOk, WithinSlots, WithinLimits, AllFailuresOk, SeenOk;
  }

  /** A platform finds the instances launched for it, if it finds its marks. */
  lemma LiveIsCounted(cfg: Settings, w: World, p: string)
    requires FleetOk(cfg, w) && (Dynamic(cfg, p) || Pooled(cfg, p)) && Visible(cfg[p])
    ensures LiveOf(w, p) <= Counted(w, cfg[p])
  {
    forall i | i in LiveOf(w, p) ensures i in Counted(w, cfg[p]) {
      assert MachineFor(cfg[p], w.fleet[i]);
    }
  }

  lemma BootForTask(cfg: Settings, w: World, u: UserId, tr: TaskRun, i: string, c: Calls)
    requires WellFormed(cfg) && Good(cfg, w) && Launchable(cfg, w, u, tr) && FreshId(cfg, w, i)
    requires var d := cfg[tr.platform]; |Counted(w, d)| < d.maxInstances && CanName(d)
    ensures var d := cfg[tr.platform];
      var w1 := Boot(w, i, NewMachine(d, u, c, w.clock));
      && GoodBut(cfg, w1, i) && Follows(cfg, w, w1) && MemOk(cfg, w1, u, Marked(tr, i, d.platform)) && d.platform == tr.platform
  {
    var d := cfg[tr.platform];
    var m := NewMachine(d, u, c, w.clock);
    assert d.platform == tr.platform;
    GoodParts(cfg, w);
    if Visible(d) {
      LiveIsCounted(cfg, w, d.platform);
      SubsetSize(LiveOf(w, d.platform), Counted(w, d));
    }
    assert BootOk(cfg, w, i, m, w.undercounted);
    BootKeeps(cfg, w, i, m, w.undercounted);
    assert Launching(w, i, m, w.undercounted) == Boot(w, i, m);
    LaunchedMem(cfg, w, u, tr, i, m);
    hide *;
  }

  function Marked(tr: TaskRun, i: string, platform: string): TaskRun {
    AddFinalizer(SetLabel(Annotate(tr, CloudInstanceId, i), CloudDynamicPlatform, PlatformLabel(platform)))
  }

  lemma MarkedView(tr: TaskRun, i: string, platform: string)
    ensures var tr1 := Marked(tr, i, platform);
      && HostOf(tr1) == HostOf(tr) && WaitingOf(tr1) == WaitingOf(tr) && KindOf(tr1) == KindOf(tr)
      && FailedHostList(tr1) == FailedHostList(tr) && InstanceOf(tr1) == i && Held(tr1)
      && tr1.platform == tr.platform && Finished(tr1) == Finished(tr)
  {
  }

  lemma LaunchedMem(cfg: Settings, w: World, u: UserId, tr: TaskRun, i: string, m: Machine)
    requires Launchable(cfg, w, u, tr) && i != "" && m.owner == u && m.platform == tr.platform
    ensures MemOk(cfg, Boot(w, i, m), u, Marked(tr, i, m.platform))
  {
    MarkedView(tr, i, m.platform);
    hide Marked;
  }

  lemma InstanceSaved(cfg: Settings, w1: World, u: UserId, tr1: TaskRun, i: string, wr: Write)
    requires WellFormed(cfg) && GoodBut(cfg, w1, i) && MemOk(cfg, w1, u, tr1) && InstanceOf(tr1) == i && Held(tr1)
    requires i in w1.fleet && w1.fleet[i].owner == u && Accepted(w1, User(u), wr)
    ensures var w2 := Save(w1, User(u), tr1, wr); Good(cfg, w2) && Follows(cfg, w1, w2) && MemOk(cfg, w2, u, tr1)
  {
    hide GoodBut, Follows, UserOk, InstanceKept, FailuresKept, StoredForm, WellFormed;
    SaveKeeps(cfg, w1, u, tr1, wr, i);
    var w2 := Save(w1, User(u), tr1, wr);
    PendingRecorded(cfg, w2, u, i);
    MemAfterSave(cfg, w1, w2, u, tr1);
  }

  lemma InstanceStopped(cfg: Settings, w1: World, u: UserId, tr1: TaskRun, i: string, gone: bool)
    requires GoodBut(cfg, w1, i) && MemOk(cfg, w1, u, tr1) && HostOf(tr1) == HostOf(w1.tasks[User(u)])
    requires i in w1.fleet && Dynamic(cfg, w1.fleet[i].platform)
    ensures var w2 := Stop(w1, i, gone); Good(cfg, w2) && Follows(cfg, w1, w2) && MemOk(cfg, w2, u, tr1)
  {
    assert Stoppable(cfg, w1, i);
    StopIsStopAll(w1, i, gone);
    hide GoodBut, Follows, Stoppable;
    StopKeeps(cfg, w1, {i}, if gone then {i} else {}, i);
    StopMem(cfg, w1, u, tr1, i, gone);
  }

  lemma RecordInstanceKeeps(cfg: Settings, w: World, u: UserId, tr: TaskRun, d: PlatformConfig, i: string, c: Calls)
    requires WellFormed(cfg) && Good(cfg, w) && Launchable(cfg, w, u, tr) && FreshId(cfg, w, i) && d == cfg[tr.platform]
    requires |Counted(w, d)| < d.maxInstances && CanName(d)
    ensures Fine(cfg, w, u, RecordInstance(w, u, tr, d, i, c))
  {
    BootForTask(cfg, w, u, tr, i, c);
    MarkedView(tr, i, d.platform);
    var w1 := Boot(w, i, NewMachine(d, u, c, w.clock));
    var tr1 := Marked(tr, i, d.platform);
    hide Good, GoodBut, Follows, MemOk, WellFormed, Counted, Save;
    if Accepted(w1, User(u), c.write) {
      InstanceSaved(cfg, w1, u, tr1, i, c.write);
      ChainFrom(cfg, w, w1, Save(w1, User(u), tr1, c.write), i);
    } else {
      InstanceStopped(cfg, w1, u, tr1, i, c.terminate && i in c.gone);
      ChainFrom(cfg, w, w1, Stop(w1, i, c.terminate && i in c.gone), i);
    }
  }

  lemma ChainFrom(cfg: Settings, w: World, w1: World, w2: World, p1: string)
    requires Good(cfg, w) && GoodBut(cfg, w1, p1) && Follows(cfg, w, w1) && Follows(cfg, w1, w2)
    ensures Follows(cfg, w, w2)
  {
    hide GoodBut, Follows;
    Chain(cfg, w, w1, w2, "", p1);
  }

  lemma StopMem(cfg: Settings, w: World, u: UserId, tr: TaskRun, i: string, gone: bool)
    requires MemOk(cfg, w, u, tr) && HostOf(tr) == HostOf(w.tasks[User(u)])
    ensures MemOk(cfg, Stop(w, i, gone), u, tr)
  {
  }

  lemma DynamicAllocateKeeps(cfg: Settings, w: World, u: UserId, tr: TaskRun, c: Calls)
    requires WellFormed(cfg) && Good(cfg, w) && Ready(cfg, w, u, tr) && Dynamic(cfg, tr.platform)
    requires c.launch.Launched? ==> FreshId(cfg, w, c.launch.id)
    ensures Fine(cfg, w, u, DynamicAllocate(w, u, tr, cfg[tr.platform], c))
  {
    hide Good, Ready, WellFormed, MemOk, Follows, Abandon, PollInstance, AwaitCapacity, LaunchFailed, RecordInstance, TimedOut, Counted;
    var d := cfg[tr.platform];
    ReadyMem(cfg, w, u, tr);
    FollowsSelf(cfg, w);
    AbandonKeeps(cfg, w, u, tr, c);
    if InstanceOf(tr) != "" {
      PollInstanceKeeps(cfg, w, u, tr, d, c);
    } else {
      AwaitCapacityKeeps(cfg, w, u, tr, d, c);
      BeforeLaunch(cfg, w, u, tr);
      var tr1 := Annotate(DropLabel(tr, WaitingForPlatform), AllocationStartTime, Itoa(w.clock));
      if !Launches(d, c) {
        LaunchFailedKeeps(cfg, w, u, tr1, c);
      } else if |Counted(w, d)| < d.maxInstances {
        RecordInstanceKeeps(cfg, w, u, tr1, d, c.launch.id, c);
      }
    }
  }

  // ---- DynamicHostPool ------------------------------------------------------------------------------------

  /** What a pool lists is launched, and expires for the pool when it does for its own. */
  lemma FoundAge(cfg: Settings, w: World, p: string, i: string)
    requires FleetOk(cfg, w) && Pooled(cfg, p) && i in Counted(w, cfg[p])
    ensures i in w.fleet && i != ""
    ensures PoolMachine(cfg, w, i) ==> (PoolExpired(cfg, w, i) <==> Expired(w, i, cfg[p].maxAge))
  {
    var q := w.fleet[i].platform;
    assert MachineFor(cfg[q], w.fleet[i]);
    assert !Apart(cfg[p], cfg[q]);
  }

  lemma RetiredStoppable(cfg: Settings, w: World, p: string, c: Calls, i: string)
    requires FleetOk(cfg, w) && Pooled(cfg, p) && i in Retired(w, cfg[p], c)
    ensures Stoppable(cfg, w, i) && i in w.fleet
  {
    FoundAge(cfg, w, p, i);
    forall id | id in w.tasks ensures HostOf(w.tasks[id]) != i {}
  }

  lemma SweepKeeps(cfg: Settings, w: World, p: string, c: Calls)
    requires WellFormed(cfg) && Good(cfg, w) && Pooled(cfg, p)
    ensures Good(cfg, Sweep(w, cfg[p], c)) && Follows(cfg, w, Sweep(w, cfg[p], c))
  {
    var ids := Retired(w, cfg[p], c);
    forall i | i in ids ensures Stoppable(cfg, w, i) {
      RetiredStoppable(cfg, w, p, c, i);
    }
    hide GoodBut, Follows, Stoppable, Retired;
    StopKeeps(cfg, w, ids, ids * c.gone, "");
    assert Sweep(w, cfg[p], c) == StopAll(w, ids, ids * c.gone);
  }

  lemma PoolHostsOf(cfg: Settings, w: World, p: string, c: Calls)
    requires WellFormed(cfg) && FleetOk(cfg, w) && Pooled(cfg, p)
    ensures HostsOf(cfg, Sweep(w, cfg[p], c), p, PoolHosts(w, cfg[p], c))
  {
    var hosts := PoolHosts(w, cfg[p], c);
    forall i | i in hosts
      ensures i != "" && hosts[i].name == i && hosts[i].concurrency == cfg[p].concurrency
      ensures i in w.fleet && !PoolExpired(cfg, w, i)
    {
      FoundAge(cfg, w, p, i);
    }
    hide Retired;
  }

  lemma SweepReady(cfg: Settings, w: World, p: PlatformConfig, c: Calls, u: UserId, tr: TaskRun)
    requires p.DynamicHostPool? && Ready(cfg, w, u, tr)
    ensures Ready(cfg, Sweep(w, p, c), u, tr)
  {
    hide Retired, UserOk;
  }

  lemma BootMem(cfg: Settings, w: World, i: string, m: Machine, undercounted: set<string>, u: UserId, tr: TaskRun)
    requires MemOk(cfg, w, u, tr) && HostOf(tr) == "" && i !in w.fleet
    ensures MemOk(cfg, Launching(w, i, m, undercounted), u, DropLabel(tr, WaitingForPlatform))
  {
    var tr' := DropLabel(tr, WaitingForPlatform);
    assert HostOf(tr') == "" && WaitingOf(tr') == "" && InstanceOf(tr') == InstanceOf(tr) && Held(tr') == Held(tr);
    forall a ensures Pending(Launching(w, i, m, undercounted), u, a) == Pending(w, u, a) {}
  }

  /** Unless the pass undercounts, a launch is only tried below the limit. */
  lemma RoomInPool(cfg: Settings, w: World, w1: World, p: string, c: Calls)
    requires FleetOk(cfg, w) && Pooled(cfg, p) && Visible(cfg[p])
    requires w1 == Sweep(w, cfg[p], c).(tasks := w1.tasks) && !Undercounts(w, cfg[p], c)
    requires |Counted(w1, cfg[p])| - |Old(w, cfg[p], c)| < cfg[p].maxInstances
    ensures |YoungOf(w1, p, cfg[p].maxAge)| < cfg[p].maxInstances
  {
    hide Counted, Old, Retired, Forgotten, Unlisted, WellFormed, FleetOk, Sweep, YoungOf, Young;
    CountedInPass(w, w1, cfg[p], c);
    YoungIsCounted(cfg, w, w1, p, c);
    SubsetSize(YoungOf(w1, p, cfg[p].maxAge), Young(w, cfg[p]));
  }

  lemma YoungIsCounted(cfg: Settings, w: World, w1: World, p: string, c: Calls)
    requires FleetOk(cfg, w) && Pooled(cfg, p) && Visible(cfg[p])
    requires w1 == Sweep(w, cfg[p], c).(tasks := w1.tasks)
    ensures YoungOf(w1, p, cfg[p].maxAge) <= Young(w, cfg[p])
  {
    hide Retired, WellFormed, FleetOk;
    LiveIsCounted(cfg, w, p);
  }

  lemma ScaleKeeps(cfg: Settings, w: World, w1: World, u: UserId, tr: TaskRun, p: string, earlier: Error, c: Calls)
    requires WellFormed(cfg) && Good(cfg, w) && Good(cfg, w1) && Follows(cfg, w, w1) && MemOk(cfg, w1, u, tr)
    requires Pooled(cfg, p) && tr.platform == p && HostOf(tr) == "" && u !in w1.secrets
    requires w1 == Sweep(w, cfg[p], c).(tasks := w1.tasks)
    requires c.launch.Launched? ==> FreshId(cfg, w, c.launch.id)
    ensures Fine(cfg, w, u, Scale(w, w1, u, tr, cfg[p], earlier, c))
  {
    hide GoodBut, Follows, MemOk, BootOk, Counted, Old, Retired, FreshId, Sweep, WellFormed, FleetOk;
    GoodParts(cfg, w);
    OwnPlatform(cfg, p);
    UnwaitMem(cfg, w1, u, tr);
    if Launches(cfg[p], c) && !c.countFails && |Counted(w1, cfg[p])| - |Old(w, cfg[p], c)| < cfg[p].maxInstances {
      var i, m := c.launch.id, NewMachine(cfg[p], u, c, w1.clock);
      var undercounted := if Undercounts(w, cfg[p], c) then w1.undercounted + {p} else w1.undercounted;
      ScaleBoot(cfg, w, w1, u, p, c);
      BootKeeps(cfg, w1, i, m, undercounted);
      BootMem(cfg, w1, i, m, undercounted, u, tr);
      ChainFrom(cfg, w, w1, Launching(w1, i, m, undercounted), "");
    }
    hide Good;
  }

  lemma GoodParts(cfg: Settings, w: World)
    requires Good(cfg, w)
    ensures FleetOk(cfg, w) && SeenOk(w) && AllFailuresOk(cfg, w) && UsersOk(cfg, w) && Recorded(cfg, w)
  {
    hide FleetOk, SeenOk, AllFailuresOk, UsersOk, Recorded, Owned, PoolSafe, NamesOk, WithinSlots, WithinLimits;
  }

  lemma OwnPlatform(cfg: Settings, p: string)
    requires WellFormed(cfg) && Pooled(cfg, p)
    ensures cfg[p].DynamicHostPool? && cfg[p].platform == p
  {
  }

  lemma UnwaitMem(cfg: Settings, w: World, u: UserId, tr: TaskRun)
    requires MemOk(cfg, w, u, tr) && HostOf(tr) == ""
    ensures MemOk(cfg, w, u, DropLabel(tr, WaitingForPlatform))
  {
  }

  lemma RetiredLaunched(w: World, p: PlatformConfig, c: Calls)
    requires p.DynamicHostPool?
    ensures Retired(w, p, c) <= w.fleet.Keys
  {
    hide Idle;
  }

  lemma ScaleBoot(cfg: Settings, w: World, w1: World, u: UserId, p: string, c: Calls)
    requires WellFormed(cfg) && FleetOk(cfg, w) && Pooled(cfg, p) && u !in w1.secrets
    requires w1 == Sweep(w, cfg[p], c).(tasks := w1.tasks)
    requires Launches(cfg[p], c) && FreshId(cfg, w, c.launch.id)
    requires |Counted(w1, cfg[p])| - |Old(w, cfg[p], c)| < cfg[p].maxInstances
    ensures BootOk(cfg, w1, c.launch.id, NewMachine(cfg[p], u, c, w1.clock),
                   if Undercounts(w, cfg[p], c) then w1.undercounted + {p} else w1.undercounted)
    ensures cfg[p].platform == p && c.launch.id !in w1.fleet
  {
    hide YoungOf, Counted, Old, Retired, FleetOk, LiveOf, StaticName;
    RetiredLaunched(w, cfg[p], c);
    if Visible(cfg[p]) && !Undercounts(w, cfg[p], c) {
      RoomInPool(cfg, w, w1, p, c);
    }
  }

  lemma PoolAllocateKeeps(cfg: Settings, w: World, u: UserId, tr: TaskRun, c: Calls)
    requires WellFormed(cfg) && Good(cfg, w) && Ready(cfg, w, u, tr) && Pooled(cfg, tr.platform)
    requires c.launch.Launched? ==> FreshId(cfg, w, c.launch.id)
    ensures Fine(cfg, w, u, PoolAllocate(w, u, tr, cfg[tr.platform], c))
  {
    var pc := cfg[tr.platform];
    var w1 := Sweep(w, pc, c);
    assert FleetOk(cfg, w) && pc.platform == tr.platform;
    hide GoodBut, Follows, MemOk, HostPoolAllocate, Scale, PoolHosts, HostsOf, UserOk, WellFormed, FleetOk, FreshId;
    ReadyMem(cfg, w, u, tr);
    FollowsSelf(cfg, w);
    SweepKeeps(cfg, w, tr.platform, c);
    SweepReady(cfg, w, pc, c, u, tr);
    hide Sweep;
    var hosts := PoolHosts(w, pc, c);
    if hosts == map[] {
      ReadyMem(cfg, w1, u, tr);
      ScaleKeeps(cfg, w, w1, u, tr, tr.platform, NoError, c);
    } else {
      PoolHostsOf(cfg, w, tr.platform, c);
      HostPoolAllocateKeeps(cfg, w1, u, tr, hosts, c);
      HostPoolAllocateFrame(w1, u, tr, hosts, tr.platform, c);
      var o := HostPoolAllocate(w1, u, tr, hosts, tr.platform, c);
      ChainFrom(cfg, w, w1, o.world, "");
      if (o.error == NoError || o.error == AllHostsFailed) && !(o.error == NoError && WaitingOf(o.tr) == "") {
        NotGiven(cfg, w1, u, tr, hosts, c);
        ScaleKeeps(cfg, w, o.world, u, o.tr, tr.platform, o.error, c);
      }
    }
    hide Good, Ready;
  }

  lemma NotGiven(cfg: Settings, w: World, u: UserId, tr: TaskRun, hosts: map<string, Host>, c: Calls)
    requires HostOf(tr) == ""
    ensures var o := HostPoolAllocate(w, u, tr, hosts, tr.platform, c);
      o.error == AllHostsFailed || WaitingOf(o.tr) != "" ==> HostOf(o.tr) == "" && o.tr.platform == tr.platform
  {
    hide AssignHost, NoneFree, Split, Chosen, Save;
    var failed := Split(FailedHostList(tr), ',');
    if !NoneFree(w, hosts, tr.platform, failed) {
      AssignHostFrame(w, u, tr, hosts[Chosen(w, hosts, tr.platform, failed, c.pick)], tr.platform, c);
    }
  }

  // ---- giving a host back ---------------------------------------------------------------------------------

  lemma CleanAdded(cfg: Settings, w: World, u: UserId, address: string, platform: string)
    requires Good(cfg, w)
    ensures var w' := Put(w, Clean(u, address), CleanRun(u, platform));
      Clean(u, address) !in w.tasks ==> Good(cfg, w') && Follows(cfg, w, w')
  {
    if Clean(u, address) !in w.tasks {
      assert HostOf(CleanRun(u, platform)) == "";
      assert OtherOk(cfg, w, Clean(u, address), CleanRun(u, platform));
      hide GoodBut, Follows, OtherOk;
      OtherKeeps(cfg, w, Clean(u, address), CleanRun(u, platform));
    }
  }

  /** What a deallocation leaves: the invariant, and the stored user task untouched. */
  ghost predicate Freed(cfg: Settings, w: World, u: UserId, w': World) {
    && Good(cfg, w') && Follows(cfg, w, w')
    && User(u) in w.tasks && User(u) in w'.tasks && w'.tasks[User(u)] == w.tasks[User(u)]
    && w'.secrets == w.secrets
  }

  lemma HostPoolDeallocateKeeps(cfg: Settings, w: World, u: UserId, hosts: map<string, Host>, platform: string, selected: string, c: Calls)
    requires Good(cfg, w) && User(u) in w.tasks
    ensures Freed(cfg, w, u, HostPoolDeallocate(w, u, hosts, platform, selected, c).0)
  {
    hide Good, Follows, CleanExists, CleanRun;
    FollowsSelf(cfg, w);
    if selected in hosts {
      CleanAdded(cfg, w, u, hosts[selected].address, platform);
    }
  }

  lemma SweepFrees(cfg: Settings, w: World, u: UserId, p: string, c: Calls)
    requires WellFormed(cfg) && Good(cfg, w) && Pooled(cfg, p) && User(u) in w.tasks
    ensures Freed(cfg, w, u, Sweep(w, cfg[p], c))
  {
    hide Good, Follows, Retired, WellFormed;
    SweepKeeps(cfg, w, p, c);
  }

  /** A deallocation never shuts down the host that the finished task is still labelled with:
      the label goes only afterwards, so the host is not idle yet. */
  lemma PoolDeallocateStops(w: World, u: UserId, p: PlatformConfig, selected: string, c: Calls)
    requires p.DynamicHostPool? && User(u) in w.tasks && HostOf(w.tasks[User(u)]) == selected && selected != ""
    ensures PoolDeallocate(w, u, p, selected, c).0.stopped <= w.stopped + Retired(w, p, c)
    ensures selected !in Retired(w, p, c)
    ensures selected !in w.stopped ==> selected !in PoolDeallocate(w, u, p, selected, c).0.stopped
  {
    hide PoolHosts, CleanExists, Old, Idle;
    NamedIsBusy(w, User(u));
    assert selected !in Retired(w, p, c);
    hide Retired;
    var (w2, e) := HostPoolDeallocate(Sweep(w, p, c), u, PoolHosts(w, p, c), p.platform, selected, c);
    assert w2.tasks[User(u)] == w.tasks[User(u)];
    NamedIsBusy(w2, User(u));
  }

  lemma NamedIsBusy(w: World, id: TaskId)
    requires id in w.tasks && HostOf(w.tasks[id]) != ""
    ensures !Idle(w, HostOf(w.tasks[id]))
  {
    assert AssignedHost in w.tasks[id].labels;
  }

  lemma PoolDeallocateKeeps(cfg: Settings, w: World, u: UserId, p: string, c: Calls)
    requires WellFormed(cfg) && Good(cfg, w) && Pooled(cfg, p) && User(u) in w.tasks
    ensures Freed(cfg, w, u, PoolDeallocate(w, u, cfg[p], HostOf(w.tasks[User(u)]), c).0)
  {
    hide GoodBut, Follows, Retired, WellFormed, Sweep, PoolHosts, HostPoolDeallocate, Idle, Old;
    var selected := HostOf(w.tasks[User(u)]);
    FollowsSelf(cfg, w);
    SweepFrees(cfg, w, u, p, c);
    var w1 := Sweep(w, cfg[p], c);
    HostPoolDeallocateKeeps(cfg, w1, u, PoolHosts(w, cfg[p], c), cfg[p].platform, selected, c);
    var (w2, e) := HostPoolDeallocate(w1, u, PoolHosts(w, cfg[p], c), cfg[p].platform, selected, c);
    ChainFrom(cfg, w, w1, w2, "");
    if selected != "" {
      NamedIsBusy(w2, User(u));
    } else {
      StopOwn(cfg, w2, u, "", c.terminate && selected in c.gone);
      ChainFrom(cfg, w, w2, Stop(w2, "", c.terminate && selected in c.gone), "");
    }
    hide Good;
  }

  lemma DeallocateKeeps(cfg: Settings, w: World, u: UserId, tr: TaskRun, c: Calls)
    requires WellFormed(cfg) && Good(cfg, w) && User(u) in w.tasks && tr == w.tasks[User(u)] && tr.platform in cfg
    ensures var o := Deallocate(w, u, tr, cfg[tr.platform], c);
      && Freed(cfg, w, u, o.world) && o.tr.platform == tr.platform && Finished(o.tr) == Finished(tr)
      && KindOf(o.tr) == KindOf(tr) && WaitingOf(o.tr) == WaitingOf(tr) && FailedHostList(o.tr) == FailedHostList(tr)
      && (InstanceOf(o.tr) == InstanceOf(tr) || InstanceOf(o.tr) == "")
      && (Dynamic(cfg, tr.platform) ==> InstanceOf(tr) in o.world.stopped)
  {
    hide GoodBut, Follows, WellFormed, DynamicDeallocate;
    var pc := cfg[tr.platform];
    match pc
    case Local =>
      FollowsSelf(cfg, w);
    case DynamicResolver(_, _, _, _, _, _, _, _, _, _) =>
      DynamicDeallocateKeeps(cfg, w, u, tr, c);
    case DynamicHostPool(_, _, _, _, _, _, _, _, _) =>
      hide Good, Follows, PoolDeallocate;
      PoolDeallocateKeeps(cfg, w, u, tr.platform, c);
    case HostPool(hosts, platform) =>
      hide Good, Follows, HostPoolDeallocate;
      HostPoolDeallocateKeeps(cfg, w, u, hosts, platform, HostOf(tr), c);
  }

  lemma DynamicDeallocateView(w: World, tr: TaskRun, c: Calls)
    ensures var o := DynamicDeallocate(w, tr, c);
      && o.world == Stop(w, InstanceOf(tr), c.terminate && InstanceOf(tr) in c.gone)
      && o.tr.platform == tr.platform && Finished(o.tr) == Finished(tr)
      && KindOf(o.tr) == KindOf(tr) && WaitingOf(o.tr) == WaitingOf(tr) && FailedHostList(o.tr) == FailedHostList(tr)
      && (InstanceOf(o.tr) == InstanceOf(tr) || InstanceOf(o.tr) == "")
  {
    hide Stop;
  }

  lemma RecordedIsDynamic(cfg: Settings, w: World, u: UserId)
    requires Recorded(cfg, w) && User(u) in w.tasks && Dynamic(cfg, w.tasks[User(u)].platform)
    ensures var i := InstanceOf(w.tasks[User(u)]); i == "" || (i in w.fleet && Dynamic(cfg, w.fleet[i].platform))
  {
  }

  lemma DynamicDeallocateKeeps(cfg: Settings, w: World, u: UserId, tr: TaskRun, c: Calls)
    requires Good(cfg, w) && User(u) in w.tasks && tr == w.tasks[User(u)] && Dynamic(cfg, tr.platform)
    ensures var o := DynamicDeallocate(w, tr, c);
      && Freed(cfg, w, u, o.world) && o.tr.platform == tr.platform && Finished(o.tr) == Finished(tr)
      && KindOf(o.tr) == KindOf(tr) && WaitingOf(o.tr) == WaitingOf(tr) && FailedHostList(o.tr) == FailedHostList(tr)
      && (InstanceOf(o.tr) == InstanceOf(tr) || InstanceOf(o.tr) == "")
      && InstanceOf(tr) in o.world.stopped
  {
    hide Good, Follows, UsersOk, Recorded, FleetOk, SeenOk, AllFailuresOk, DynamicDeallocate, InstanceOf, WaitingOf, KindOf, FailedHostList;
    GoodParts(cfg, w);
    RecordedIsDynamic(cfg, w, u);
    DynamicDeallocateView(w, tr, c);
    StopOwn(cfg, w, u, InstanceOf(tr), c.terminate && InstanceOf(tr) in c.gone);
  }

  // ---- the release of a finished task -----------------------------------------------------------------------

  lemma ReleasedMem(cfg: Settings, w: World, u: UserId, tr: TaskRun)
    requires UsersOk(cfg, w) && User(u) in w.tasks
    requires var s := w.tasks[User(u)];
      && Finished(s) && tr.platform == s.platform && Finished(tr)
      && KindOf(tr) == KindOf(s) && WaitingOf(tr) == WaitingOf(s) && FailedHostList(tr) == FailedHostList(s)
      && (InstanceOf(tr) == InstanceOf(s) || InstanceOf(tr) == "")
      && (Dynamic(cfg, s.platform) ==> InstanceOf(s) in w.stopped)
    ensures MemOk(cfg, w, u, DropLabel(RemoveFinalizer(tr), AssignedHost))
  {
    var tr' := DropLabel(RemoveFinalizer(tr), AssignedHost);
    assert UserOk(cfg, w.tasks[User(u)]);
    assert HostOf(tr') == "" && KindOf(tr') == KindOf(tr) && WaitingOf(tr') == WaitingOf(tr) && InstanceOf(tr') == InstanceOf(tr);
  }

  lemma WakeKeeps(cfg: Settings, w: World, id: TaskId)
    requires WellFormed(cfg) && Good(cfg, w) && id in w.tasks
    ensures var w' := Save(w, id, SetLabel(w.tasks[id], FinishedWaiting, "true"), Direct); Good(cfg, w') && Follows(cfg, w, w')
  {
    hide GoodBut, Follows, WellFormed, UsersOk, Recorded, FleetOk, AllFailuresOk, SeenOk;
    GoodParts(cfg, w);
    var tr := SetLabel(w.tasks[id], FinishedWaiting, "true");
    assert Save(w, id, tr, Direct) == Put(w, id, tr);
    if id.User? {
      StoredMem(cfg, w, id.user);
      SavedWriteOk(cfg, w, id.user, w.tasks[id], tr);
      PutKeeps(cfg, w, id.user, tr, "");
    } else {
      EditedOther(cfg, w, id, tr);
      OtherKeeps(cfg, w, id, tr);
    }
    hide Good;
  }

  lemma ReleaseKeeps(cfg: Settings, w: World, u: UserId, platform: string, c: Calls)
    requires WellFormed(cfg) && Good(cfg, w) && (User(u) in w.tasks ==> Finished(w.tasks[User(u)]))
    ensures Good(cfg, Release(w, u, platform, c)) && Follows(cfg, w, Release(w, u, platform, c))
  {
    hide Good, Follows, WellFormed, Save, Wake;
    FollowsSelf(cfg, w);
    SecretDroppedKeeps(cfg, w, u);
    var w1 := if c.secretDelete then w.(secrets := w.secrets - {u}) else w;
    var id := WakeIs(w1, platform, c);
    if id in w1.tasks {
      WakeKeeps(cfg, w1, id);
      ChainGood(cfg, w, w1, Save(w1, id, SetLabel(w1.tasks[id], FinishedWaiting, "true"), Direct));
    }
  }

  lemma ChainGood(cfg: Settings, w: World, w1: World, w2: World)
    requires Good(cfg, w) && Good(cfg, w1) && Follows(cfg, w, w1) && Follows(cfg, w1, w2)
    ensures Follows(cfg, w, w2)
  {
    hide GoodBut, Follows;
    Chain(cfg, w, w1, w2, "", "");
  }

  lemma FinishedSaved(w: World, u: UserId, tr: TaskRun, wr: Write)
    requires Accepted(w, User(u), wr) && Finished(w.tasks[User(u)])
    ensures User(u) in Save(w, User(u), tr, wr).tasks && Finished(Save(w, User(u), tr, wr).tasks[User(u)])
  {
    SavedForm(w.tasks[User(u)], tr, wr);
    hide StoredForm;
  }

  lemma HostAssignedKeeps(cfg: Settings, w: World, u: UserId, c: Calls)
    requires WellFormed(cfg) && Good(cfg, w) && User(u) in w.tasks
    ensures var o := HostAssigned(cfg, w, u, w.tasks[User(u)], c); Good(cfg, o.world) && Follows(cfg, w, o.world)
  {
    hide GoodBut, Follows, WellFormed, Save, Release, Deallocate, MemOk, UsersOk, Dynamic;
    FollowsSelf(cfg, w);
    var tr := w.tasks[User(u)];
    if Finished(tr) && tr.platform in cfg {
      DeallocateKeeps(cfg, w, u, tr, c);
      var o := Deallocate(w, u, tr, cfg[tr.platform], c);
      var tr' := DropLabel(RemoveFinalizer(o.tr), AssignedHost);
      GoodParts(cfg, o.world);
      ReleasedMem(cfg, o.world, u, o.tr);
      hide DropLabel, RemoveFinalizer;
      SaveKeeps(cfg, o.world, u, tr', c.write, "");
      var w' := Save(o.world, User(u), tr', c.write);
      ChainGood(cfg, w, o.world, w');
      if Accepted(o.world, User(u), c.write) {
        FinishedSaved(o.world, u, tr', c.write);
        ReleaseKeeps(cfg, w', u, tr.platform, c);
        ChainGood(cfg, w, w', Release(w', u, tr.platform, c));
      }
    }
    hide Good;
  }

  // ---- handleUserTask ------------------------------------------------------------------------------------------

  lemma AllocateKeeps(cfg: Settings, w: World, u: UserId, tr: TaskRun, c: Calls)
    requires WellFormed(cfg) && Good(cfg, w) && Ready(cfg, w, u, tr) && tr.platform in cfg
    requires c.launch.Launched? ==> FreshId(cfg, w, c.launch.id)
    ensures Fine(cfg, w, u, Allocate(w, u, tr, cfg[tr.platform], c))
  {
    match cfg[tr.platform]
    case Local =>
      hide Good, Ready, Fine, LocalAllocate;
      LocalAllocateKeeps(cfg, w, u, tr, c);
    case DynamicResolver(_, _, _, _, _, _, _, _, _, _) =>
      hide Good, Ready, Fine, DynamicAllocate;
      DynamicAllocateKeeps(cfg, w, u, tr, c);
    case DynamicHostPool(_, _, _, _, _, _, _, _, _) =>
      hide Good, Ready, Fine, PoolAllocate;
      PoolAllocateKeeps(cfg, w, u, tr, c);
    case HostPool(hosts, platform) =>
      assert platform == tr.platform && HostsOf(cfg, w, tr.platform, hosts);
      hide Good, Ready, Fine, HostPoolAllocate, HostsOf;
      HostPoolAllocateKeeps(cfg, w, u, tr, hosts, c);
  }

  lemma HostAllocationKeeps(cfg: Settings, w: World, u: UserId, tr: TaskRun, c: Calls)
    requires WellFormed(cfg) && Good(cfg, w) && MemOk(cfg, w, u, tr) && HostOf(tr) == HostOf(w.tasks[User(u)])
    requires u !in w.secrets ==> Ready(cfg, w, u, tr)
    requires c.launch.Launched? ==> FreshId(cfg, w, c.launch.id)
    ensures Fine(cfg, w, u, HostAllocation(cfg, w, u, tr, c))
  {
    hide Good, MemOk, Ready, Allocate, CreateErrorSecret, Follows, FreshId, WellFormed;
    FollowsSelf(cfg, w);
    if u !in w.secrets && tr.platform in cfg {
      AllocateKeeps(cfg, w, u, tr, c);
    }
    ErrorSecretKeeps(cfg, w, u, tr, c.earlyWrite, c.earlyCreate);
  }

  lemma ReportFailureKeeps(cfg: Settings, w: World, u: UserId, o: Outcome, c: Calls)
    requires WellFormed(cfg) && Good(cfg, w) && Fine(cfg, w, u, o)
    ensures var r := ReportFailure(w, o, u, c); Good(cfg, r.world) && Follows(cfg, w, r.world)
  {
    hide GoodBut, Follows, WellFormed, CreateErrorSecret, MemOk;
    ErrorSecretKeeps(cfg, o.world, u, o.tr, c.errorWrite, c.errorCreate);
    var r := CreateErrorSecret(o.world, User(u), o.tr, u, c.errorWrite, c.errorCreate);
    ChainGood(cfg, w, o.world, r.world);
    var t := TallyOf(r.world, u);
    MemKnown(cfg, o.world, u, o.tr);
    StillKnown(cfg, o.world, r.world, u);
    NoteKeeps(cfg, r.world, u, t.(lostSecrets := t.lostSecrets + 1), "");
    ChainGood(cfg, w, r.world, Note(r.world, u, t.(lostSecrets := t.lostSecrets + 1)));
    hide Good;
  }

  lemma MemKnown(cfg: Settings, w: World, u: UserId, tr: TaskRun)
    requires Good(cfg, w) && MemOk(cfg, w, u, tr)
    ensures u in w.seen
  {
  }

  lemma StillKnown(cfg: Settings, w: World, w': World, u: UserId)
    requires Follows(cfg, w, w') && u in w.seen
    ensures u in w'.seen
  {
  }

  lemma LabelledReady(cfg: Settings, w: World, u: UserId)
    requires Good(cfg, w) && User(u) in w.tasks && HostOf(w.tasks[User(u)]) == "" && !Finished(w.tasks[User(u)])
    ensures var tr := w.tasks[User(u)];
      var tr1 := if Get(tr.labels, TargetPlatform) == "" then SetLabel(tr, TargetPlatform, PlatformLabel(tr.platform)) else tr;
      && MemOk(cfg, w, u, tr) && MemOk(cfg, w, u, tr1) && (u !in w.secrets ==> Ready(cfg, w, u, tr1))
      && HostOf(tr1) == "" && tr1.platform == tr.platform
  {
    hide Good, UsersOk, Recorded, FleetOk, SeenOk, AllFailuresOk, PlatformLabel, Assignable, InstanceKept, FailuresKept, FailedHostList, InstanceOf;
    GoodParts(cfg, w);
    var tr := w.tasks[User(u)];
    var tr1 := if Get(tr.labels, TargetPlatform) == "" then SetLabel(tr, TargetPlatform, PlatformLabel(tr.platform)) else tr;
    StoredMem(cfg, w, u);
    LabelledView(tr);
    MemOfView(cfg, w, u, tr, tr1);
  }

  lemma LabelledView(tr: TaskRun)
    ensures var tr1 := if Get(tr.labels, TargetPlatform) == "" then SetLabel(tr, TargetPlatform, PlatformLabel(tr.platform)) else tr;
      SameView(tr, tr1) && Finished(tr1) == Finished(tr)
  {
    hide PlatformLabel;
  }

  lemma MemOfView(cfg: Settings, w: World, u: UserId, tr: TaskRun, tr1: TaskRun)
    requires MemOk(cfg, w, u, tr) && SameView(tr, tr1) && Finished(tr1) == Finished(tr)
    ensures MemOk(cfg, w, u, tr1)
  {
  }

  lemma ReconcileUserKeeps(cfg: Settings, w: World, u: UserId, c: Calls)
    requires WellFormed(cfg) && Good(cfg, w) && User(u) in w.tasks
    requires c.launch.Launched? ==> FreshId(cfg, w, c.launch.id)
    ensures var o := ReconcileUser(cfg, w, u, c); Good(cfg, o.world) && Follows(cfg, w, o.world)
  {
    hide Good, Follows, WellFormed, CreateErrorSecret, MemOk, HostAssigned, HostAllocation, ReportFailure, Ready, FreshId, Validation.ValidPlatformFormat;
    FollowsSelf(cfg, w);
    HostAssignedKeeps(cfg, w, u, c);
    var tr := w.tasks[User(u)];
    if HostOf(tr) == "" && !Finished(tr) {
      LabelledReady(cfg, w, u);
      var tr1 := if Get(tr.labels, TargetPlatform) == "" then SetLabel(tr, TargetPlatform, PlatformLabel(tr.platform)) else tr;
      ErrorSecretKeeps(cfg, w, u, tr, c.errorWrite, c.errorCreate);
      HostAllocationKeeps(cfg, w, u, tr1, c);
      ReportFailureKeeps(cfg, w, u, HostAllocation(cfg, w, u, tr1, c), c);
    }
  }

  // ---- handleProvisionTask ---------------------------------------------------------------------------------------

  /** Adding a host to the comma-joined list adds exactly that name. */
  lemma AppendFailure(text: string, host: string)
    requires host != "" && ',' !in host
    ensures FailedNames(WithFailure(text, host)) == FailedNames(text) + [host]
  {
    var names := FailedNames(text) + [host];
    assert names[0] != "";
    SplitJoin(names, ',');
    hide Split, Join;
  }

  function MarkedProcessed(tr: TaskRun): TaskRun {
    Annotate(tr, ProvisionTaskProcessed, "true")
  }

  lemma MarkOk(cfg: Settings, w: World, id: TaskId, wr: Write)
    requires SeenOk(w) && id.Provision? && id in w.tasks && Accepted(w, id, wr)
    ensures var s := StoredForm(w.tasks[id], MarkedProcessed(w.tasks[id]), wr);
      OtherOk(cfg, w, id, s) && Processed(s) && OwnerOf(s) == id.user && HostOf(s) == HostOf(w.tasks[id])
      && Save(w, id, MarkedProcessed(w.tasks[id]), wr) == Put(w, id, s)
  {
    var tr := w.tasks[id];
    SavedForm(tr, MarkedProcessed(tr), wr);
    assert Provision(id.user, id.address) == id;
    hide StoredForm;
  }

  lemma MarkKeeps(cfg: Settings, w: World, id: TaskId, wr: Write)
    requires Good(cfg, w) && id.Provision? && id in w.tasks
    ensures var w' := Save(w, id, MarkedProcessed(w.tasks[id]), wr); Good(cfg, w') && Follows(cfg, w, w')
  {
    hide GoodBut, Follows, StoredForm, OtherOk, MarkedProcessed;
    FollowsSelf(cfg, w);
    if Accepted(w, id, wr) {
      GoodParts(cfg, w);
      MarkOk(cfg, w, id, wr);
      OtherKeeps(cfg, w, id, StoredForm(w.tasks[id], MarkedProcessed(w.tasks[id]), wr));
    }
  }

  function Withdrawn(user: TaskRun, host: string): TaskRun {
    DropLabel(Annotate(user, FailedHosts, WithFailure(FailedHostList(user), host)), AssignedHost)
  }

  lemma WithdrawnForm(cfg: Settings, w: World, u: UserId, host: string, wr: Write)
    requires UsersOk(cfg, w) && User(u) in w.tasks && Accepted(w, User(u), wr)
    ensures var s := StoredForm(w.tasks[User(u)], Withdrawn(w.tasks[User(u)], host), wr);
      && WriteOk(cfg, w, u, s) && HostOf(s) == ""
      && FailedHostList(s) == WithFailure(FailedHostList(w.tasks[User(u)]), host)
      && s.platform == w.tasks[User(u)].platform && (Finished(w.tasks[User(u)]) ==> Finished(s))
  {
    var user := w.tasks[User(u)];
    WithdrawnView(user, host);
    SavedForm(user, Withdrawn(user, host), wr);
    hide StoredForm, Withdrawn, WithFailure;
  }

  lemma WithdrawnView(user: TaskRun, host: string)
    ensures var tr := Withdrawn(user, host);
      && HostOf(tr) == "" && WaitingOf(tr) == WaitingOf(user) && InstanceOf(tr) == InstanceOf(user) && KindOf(tr) == KindOf(user)
      && Held(tr) == Held(user) && FailedHostList(tr) == WithFailure(FailedHostList(user), host)
      && tr.platform == user.platform && Finished(tr) == Finished(user)
  {
    hide WithFailure;
  }

  /** In `w'` one more failure of `u` is recorded, for the host of the provision task named after `a`; that task is
      marked, or the mark is lost. */
  ghost predicate OneMoreListed(w: World, w': World, u: UserId, a: string, lost: nat)
    requires User(u) in w.tasks && User(u) in w'.tasks && Pending(w, u, a)
  {
    var tr, tr' := w.tasks[User(u)], w'.tasks[User(u)];
    && lost <= 1
    && HostOf(tr') == "" && tr'.platform == tr.platform
    && FailedHostList(tr') == WithFailure(FailedHostList(tr), HostOf(w.tasks[Provision(u, a)]))
    && TallyOf(w', u).provisionFailures == TallyOf(w, u).provisionFailures + 1
    && TallyOf(w', u).lostMarks == TallyOf(w, u).lostMarks + lost
    && (forall b :: Provision(u, b) in w'.tasks ==> ProvisionKept(w, w', Provision(u, b)))
    && (lost == 0 ==> !Pending(w', u, a))
  }

  lemma ElementsAppend(names: seq<string>, h: string)
    ensures Elements(names + [h]) == Elements(names) + {h}
    ensures |Elements(names + [h])| == |Elements(names)| + if h in names then 0 else 1
  {
    assert Elements(names + [h]) == Elements(names) + {h};
    if h in names {
      assert Elements(names) + {h} == Elements(names);
    }
  }

  /** The stale provision tasks after one more failure of `h`: no other provision task is for the same host. */
  lemma StaleAfter(cfg: Settings, w: World, w': World, u: UserId, a: string, lost: nat)
    requires User(u) in w.tasks && User(u) in w'.tasks && Pending(w, u, a) && OneMoreListed(w, w', u, a, lost)
    requires Static(cfg, w.tasks[User(u)].platform) && ProvisionsOk(w, u, cfg[w.tasks[User(u)].platform].hosts)
    requires FailedOf(w', u) == FailedOf(w, u) + [HostOf(w.tasks[Provision(u, a)])]
    ensures var h := HostOf(w.tasks[Provision(u, a)]);
      |Stale(w', u)| + (if h in FailedOf(w, u) then 1 else 0) <= |Stale(w, u)| + lost
  {
    hide FailedOf, FailedHostList, WithFailure;
    var id := Provision(u, a);
    var h := HostOf(w.tasks[id]);
    forall other | other in Stale(w', u) && other != id ensures other in Stale(w, u) {
      assert other == Provision(u, other.address);
      assert ProvisionKept(w, w', other);
    }
    var rest := Stale(w, u) - {id};
    assert Stale(w', u) <= if lost == 0 then rest else rest + {id};
    SubsetSize(Stale(w', u), if lost == 0 then rest else rest + {id});
    assert h in FailedOf(w, u) ==> id in Stale(w, u);
    SubsetSize(rest, Stale(w, u));
  }

  lemma ListAfter(cfg: Settings, w: World, w': World, u: UserId, a: string, lost: nat)
    requires WellFormed(cfg) && User(u) in w.tasks && User(u) in w'.tasks && Pending(w, u, a) && OneMoreListed(w, w', u, a, lost)
    requires var p := w.tasks[User(u)].platform;
      Static(cfg, p) && ListOk(w, u, cfg[p].hosts) && ProvisionsOk(w, u, cfg[p].hosts)
    ensures FailedOf(w', u) == FailedOf(w, u) + [HostOf(w.tasks[Provision(u, a)])]
    ensures ListOk(w', u, cfg[w.tasks[User(u)].platform].hosts)
  {
    var p, h := w.tasks[User(u)].platform, HostOf(w.tasks[Provision(u, a)]);
    assert h in cfg[p].hosts && ProperHost(cfg[p].hosts[h], h, p);
    AppendFailure(FailedHostList(w.tasks[User(u)]), h);
    assert FailedOf(w', u) == FailedOf(w, u) + [h];
    hide FailedOf, WithFailure, WellFormed, FailedNames;
  }

  lemma ProvisionsAfter(w: World, w': World, u: UserId, a: string, lost: nat, hosts: map<string, Host>)
    requires User(u) in w.tasks && User(u) in w'.tasks && Pending(w, u, a) && OneMoreListed(w, w', u, a, lost)
    requires ProvisionsOk(w, u, hosts)
    ensures ProvisionsOk(w', u, hosts)
  {
    hide WithFailure, FailedHostList;
    forall b | Provision(u, b) in w'.tasks
      ensures HostOf(w'.tasks[Provision(u, b)]) in hosts && hosts[HostOf(w'.tasks[Provision(u, b)])].address == b
    {
      assert ProvisionKept(w, w', Provision(u, b));
    }
  }

  /** The bookkeeping of a recorded failure. */
  lemma LedgerAfter(cfg: Settings, w: World, w': World, u: UserId, a: string, lost: nat)
    requires WellFormed(cfg) && User(u) in w.tasks && User(u) in w'.tasks && LedgerOk(cfg, w, u)
    requires Pending(w, u, a) && OneMoreListed(w, w', u, a, lost)
    ensures LedgerOk(cfg, w', u)
  {
    var p := w.tasks[User(u)].platform;
    hide ListOk, ProvisionsOk, FailedOf, Stale, Elements, WellFormed, ProvisionKept, FailedHostList, WithFailure, Pending;
    if Static(cfg, p) {
      ListAfter(cfg, w, w', u, a, lost);
      ProvisionsAfter(w, w', u, a, lost, cfg[p].hosts);
      StaleAfter(cfg, w, w', u, a, lost);
      ElementsAppend(FailedOf(w, u), HostOf(w.tasks[Provision(u, a)]));
    }
  }

  lemma FailureListed(cfg: Settings, w: World, w': World, u: UserId, a: string, lost: nat)
    requires WellFormed(cfg) && User(u) in w.tasks && User(u) in w'.tasks && FailuresOk(cfg, w, u)
    requires Pending(w, u, a) && OneMoreListed(w, w', u, a, lost)
    ensures FailuresOk(cfg, w', u)
  {
    hide LedgerOk, WellFormed, OneMoreListed, MarkedOk;
    LedgerAfter(cfg, w, w', u, a, lost);
    MarkedAfter(cfg, w, w', u, a, lost);
  }

  lemma MarkedAfter(cfg: Settings, w: World, w': World, u: UserId, a: string, lost: nat)
    requires WellFormed(cfg) && User(u) in w.tasks && User(u) in w'.tasks && LedgerOk(cfg, w, u) && MarkedOk(cfg, w, u)
    requires Pending(w, u, a) && OneMoreListed(w, w', u, a, lost)
    ensures MarkedOk(cfg, w', u)
  {
    var p := w.tasks[User(u)].platform;
    if Static(cfg, p) && TallyOf(w', u).lostMarks == 0 {
      var h := HostOf(w.tasks[Provision(u, a)]);
      assert h in cfg[p].hosts && ProperHost(cfg[p].hosts[h], h, p);
      AppendFailure(FailedHostList(w.tasks[User(u)]), h);
      hide FailedNames, WithFailure, Get, LedgerOk, WellFormed;
      forall b ensures !Pending(w', u, b) {
        assert Provision(u, b) in w'.tasks ==> ProvisionKept(w, w', Provision(u, b));
        assert Pending(w', u, b) ==> Pending(w, u, b) && Pending(w, u, a);
      }
    }
  }

  lemma OthersFailuresKept(cfg: Settings, w: World, w': World, u: UserId)
    requires AllFailuresOk(cfg, w)
    requires forall v :: v != u && User(v) in w'.tasks ==>
      User(v) in w.tasks && w'.tasks[User(v)] == w.tasks[User(v)] && TallyOf(w', v) == TallyOf(w, v)
    requires forall v, a :: v != u && Provision(v, a) in w'.tasks ==> Provision(v, a) in w.tasks && w'.tasks[Provision(v, a)] == w.tasks[Provision(v, a)]
    requires User(u) in w'.tasks ==> FailuresOk(cfg, w', u)
    ensures AllFailuresOk(cfg, w')
  {
    forall v, a | v != u ensures Pending(w', v, a) ==> Pending(w, v, a) && w'.tasks[Provision(v, a)] == w.tasks[Provision(v, a)] {}
    forall v | User(v) in w'.tasks ensures FailuresOk(cfg, w', v) {
      if v != u {
        assert FailuresOk(cfg, w, v);
        hide LedgerOk;
        LedgerFrame(cfg, w, w', v);
      }
    }
  }

  /** A failed provision task: the user task loses the host, the list grows, and the provision task is marked
      or the mark is lost. */
  lemma RecordFailureKeeps(cfg: Settings, w: World, u: UserId, a: string, wr: Write, mark: Write)
    requires WellFormed(cfg) && Good(cfg, w) && Pending(w, u, a) && User(u) in w.tasks && Accepted(w, User(u), wr)
    ensures var h := HostOf(w.tasks[Provision(u, a)]);
      var w1 := RecordFailure(w, u, h, wr);
      && w1.tasks[Provision(u, a)] == w.tasks[Provision(u, a)]
      && (Accepted(w1, Provision(u, a), mark) ==>
            var w2 := Save(w1, Provision(u, a), MarkedProcessed(w.tasks[Provision(u, a)]), mark);
            Good(cfg, w2) && Follows(cfg, w, w2))
      && (var t := TallyOf(w1, u); var w3 := Note(w1, u, t.(lostMarks := t.lostMarks + 1));
            Good(cfg, w3) && Follows(cfg, w, w3))
  {
    hide Good, Sound, Follows, WellFormed, RecordFailure, Pending, Save;
    Recording(cfg, w, u, a, wr);
    var w1 := RecordFailure(w, u, HostOf(w.tasks[Provision(u, a)]), wr);
    if Accepted(w1, Provision(u, a), mark) {
      MarkedFailure(cfg, w, w1, u, a, mark);
    }
    LostMark(cfg, w, w1, u, a);
  }

  lemma Recording(cfg: Settings, w: World, u: UserId, a: string, wr: Write)
    requires WellFormed(cfg) && Good(cfg, w) && Pending(w, u, a) && User(u) in w.tasks && Accepted(w, User(u), wr)
    ensures var w1 := RecordFailure(w, u, HostOf(w.tasks[Provision(u, a)]), wr);
      && Sound(cfg, w1, "") && Follows(cfg, w, w1) && OneMoreFailure(cfg, w, w1, u, a)
      && Provision(u, a) in w1.tasks && w1.tasks[Provision(u, a)] == w.tasks[Provision(u, a)]
  {
    var id := Provision(u, a);
    var h := HostOf(w.tasks[id]);
    hide StoredForm, Withdrawn, WithFailure, UsersOk, Recorded, FleetOk, SeenOk, AllFailuresOk, Follows, WriteOk, WellFormed;
    GoodParts(cfg, w);
    hide Sound;
    var s := StoredForm(w.tasks[User(u)], Withdrawn(w.tasks[User(u)], h), wr);
    WithdrawnForm(cfg, w, u, h, wr);
    var t := TallyOf(w, u).(provisionFailures := TallyOf(w, u).provisionFailures + 1);
    assert RecordFailure(w, u, h, wr) == Note(Put(w, User(u), s), u, t) by {
      WithdrawnIs(w, u, h, wr);
    }
    RecordedSound(cfg, w, u, s, t);
    hide GoodBut;
  }

  lemma WithdrawnIs(w: World, u: UserId, h: string, wr: Write)
    requires User(u) in w.tasks && Accepted(w, User(u), wr)
    ensures var s := StoredForm(w.tasks[User(u)], Withdrawn(w.tasks[User(u)], h), wr);
      RecordFailure(w, u, h, wr) == Note(Put(w, User(u), s), u, TallyOf(w, u).(provisionFailures := TallyOf(w, u).provisionFailures + 1))
  {
    hide StoredForm, WithFailure;
  }

  lemma RecordedSound(cfg: Settings, w: World, u: UserId, s: TaskRun, t: Tally)
    requires WellFormed(cfg) && Sound(cfg, w, "") && User(u) in w.tasks && WriteOk(cfg, w, u, s)
    ensures var w1 := Note(Put(w, User(u), s), u, t); Sound(cfg, w1, "") && Follows(cfg, w, w1)
  {
    var w0 := Put(w, User(u), s);
    assert u in w.seen && SeenOk(w) && SeenOk(w0);
    hide Sound, Follows, WriteOk, WellFormed, SeenOk;
    PutKeepsSound(cfg, w, u, s, "");
    NoteKeepsSound(cfg, w0, u, t, "");
    FollowsTrans(cfg, w, w0, Note(w0, u, t));
  }

  /** `w1` is `w` with one more failure recorded on `u`. */
  ghost predicate OneMoreFailure(cfg: Settings, w: World, w1: World, u: UserId, a: string) {
    && Pending(w, u, a) && User(u) in w.tasks && User(u) in w1.tasks
    && w1 == w.(tasks := w.tasks[User(u) := w1.tasks[User(u)]], tallies := w.tallies[u := TallyOf(w1, u)])
    && TallyOf(w1, u) == TallyOf(w, u).(provisionFailures := TallyOf(w, u).provisionFailures + 1)
    && HostOf(w1.tasks[User(u)]) == "" && w1.tasks[User(u)].platform == w.tasks[User(u)].platform
    && FailedHostList(w1.tasks[User(u)]) == WithFailure(FailedHostList(w.tasks[User(u)]), HostOf(w.tasks[Provision(u, a)]))
  }

  lemma MarkedFailure(cfg: Settings, w: World, w1: World, u: UserId, a: string, mark: Write)
    requires WellFormed(cfg) && Good(cfg, w) && OneMoreFailure(cfg, w, w1, u, a)
    requires Sound(cfg, w1, "") && Follows(cfg, w, w1) && Accepted(w1, Provision(u, a), mark)
    ensures var w2 := Save(w1, Provision(u, a), MarkedProcessed(w.tasks[Provision(u, a)]), mark);
      Good(cfg, w2) && Follows(cfg, w, w2)
  {
    var id := Provision(u, a);
    GoodParts(cfg, w);
    SoundSeen(cfg, w1);
    MarkOk(cfg, w1, id, mark);
    var p := StoredForm(w1.tasks[id], MarkedProcessed(w1.tasks[id]), mark);
    var w2 := Put(w1, id, p);
    hide Sound, Follows, StoredForm, MarkedProcessed, SeenOk, WellFormed, OtherOk;
    OtherKeepsSound(cfg, w1, id, p);
    FollowsTrans(cfg, w, w1, w2);
    MarkedListed(cfg, w, w1, u, a, p);
    hide GoodBut;
    FromParts(cfg, w2);
  }

  lemma MarkedListed(cfg: Settings, w: World, w1: World, u: UserId, a: string, p: TaskRun)
    requires WellFormed(cfg) && AllFailuresOk(cfg, w) && OneMoreFailure(cfg, w, w1, u, a)
    requires Processed(p) && HostOf(p) == HostOf(w.tasks[Provision(u, a)])
    ensures AllFailuresOk(cfg, Put(w1, Provision(u, a), p))
  {
    var w2 := Put(w1, Provision(u, a), p);
    assert FailuresOk(cfg, w, u);
    assert TallyOf(w2, u) == TallyOf(w1, u);
    hide WithFailure, FailuresOk, AllFailuresOk, WellFormed;
    assert OneMoreListed(w, w2, u, a, 0);
    hide OneMoreListed, Get;
    FailureListed(cfg, w, w2, u, a, 0);
    OthersFailuresKept(cfg, w, w2, u);
  }

  lemma LostMark(cfg: Settings, w: World, w1: World, u: UserId, a: string)
    requires WellFormed(cfg) && Good(cfg, w) && OneMoreFailure(cfg, w, w1, u, a)
    requires Sound(cfg, w1, "") && Follows(cfg, w, w1)
    ensures var t := TallyOf(w1, u); var w3 := Note(w1, u, t.(lostMarks := t.lostMarks + 1));
      Good(cfg, w3) && Follows(cfg, w, w3)
  {
    var t := TallyOf(w1, u).(lostMarks := TallyOf(w1, u).lostMarks + 1);
    var w3 := Note(w1, u, t);
    hide Sound, Follows, WellFormed, GoodBut, OneMoreFailure;
    GoodParts(cfg, w);
    SoundSeen(cfg, w1);
    LostMarkListed(cfg, w, w1, u, a);
    hide SeenOk, AllFailuresOk, UsersOk, Recorded, FleetOk;
    NoteKeepsSound(cfg, w1, u, t, "");
    FollowsTrans(cfg, w, w1, w3);
    FromParts(cfg, w3);
  }

  lemma LostMarkListed(cfg: Settings, w: World, w1: World, u: UserId, a: string)
    requires WellFormed(cfg) && AllFailuresOk(cfg, w) && OneMoreFailure(cfg, w, w1, u, a) && SeenOk(w1)
    ensures var t := TallyOf(w1, u); AllFailuresOk(cfg, Note(w1, u, t.(lostMarks := t.lostMarks + 1))) && u in w1.seen
  {
    var t := TallyOf(w1, u).(lostMarks := TallyOf(w1, u).lostMarks + 1);
    var w3 := Note(w1, u, t);
    assert FailuresOk(cfg, w, u);
    hide WithFailure, FailuresOk, AllFailuresOk, WellFormed;
    assert OneMoreListed(w, w3, u, a, 1);
    hide OneMoreListed, Get;
    FailureListed(cfg, w, w3, u, a, 1);
    OthersFailuresKept(cfg, w, w3, u);
  }

  lemma SoundSeen(cfg: Settings, w: World)
    requires Sound(cfg, w, "")
    ensures SeenOk(w)
  {
  }

  lemma FromParts(cfg: Settings, w: World)
    requires Sound(cfg, w, "") && AllFailuresOk(cfg, w)
    ensures Good(cfg, w)
  {
    hide Sound, AllFailuresOk;
  }

  lemma OtherKeepsSound(cfg: Settings, w: World, id: TaskId, tr': TaskRun)
    requires Sound(cfg, w, "") && OtherOk(cfg, w, id, tr')
    ensures Sound(cfg, Put(w, id, tr'), "") && Follows(cfg, w, Put(w, id, tr'))
  {
    assert !id.User?;
    hide SeenOk, UsersOk, Recorded, FleetOk, Owned, PoolSafe, NamesOk, WithinSlots, WithinLimits, Follows, OtherOk;
    OtherKeepsRecords(cfg, w, id, tr');
    PutKeepsLimits(cfg, w, id, tr');
    OtherKeepsPool(cfg, w, id, tr');
    OtherKeepsSlots(cfg, w, id, tr');
    OtherFollows(cfg, w, id, tr');
  }

  lemma StoredMem(cfg: Settings, w: World, u: UserId)
    requires UsersOk(cfg, w) && User(u) in w.tasks
    ensures MemOk(cfg, w, u, w.tasks[User(u)])
  {
    assert UserOk(cfg, w.tasks[User(u)]);
  }

  lemma ErrorSecretOthers(w: World, u: UserId, tr: TaskRun, wr: Write, created: bool, id: TaskId)
    requires id in w.tasks && id != User(u)
    ensures var o := CreateErrorSecret(w, User(u), tr, u, wr, created); id in o.world.tasks && o.world.tasks[id] == w.tasks[id]
  {
  }

  lemma ProvisionSucceededKeeps(cfg: Settings, w: World, id: TaskId, c: Calls)
    requires WellFormed(cfg) && Good(cfg, w) && id.Provision? && id in w.tasks
    ensures var w' := ProvisionSucceeded(w, id, MarkedProcessed(w.tasks[id]), c); Good(cfg, w') && Follows(cfg, w, w')
  {
    hide GoodBut, Follows, WellFormed, CreateErrorSecret, MarkedProcessed, Save, MemOk, UsersOk, Recorded, FleetOk, SeenOk, AllFailuresOk;
    FollowsSelf(cfg, w);
    MarkKeeps(cfg, w, id, c.rewrite);
    var u := OwnerOf(MarkedProcessed(w.tasks[id]));
    if User(u) in w.tasks {
      GoodParts(cfg, w);
      StoredMem(cfg, w, u);
      ErrorSecretKeeps(cfg, w, u, w.tasks[User(u)], c.errorWrite, c.errorCreate);
      ErrorSecretOthers(w, u, w.tasks[User(u)], c.errorWrite, c.errorCreate, id);
      var o := CreateErrorSecret(w, User(u), w.tasks[User(u)], u, c.errorWrite, c.errorCreate);
      MarkKeeps(cfg, o.world, id, c.rewrite);
      ChainGood(cfg, w, o.world, Save(o.world, id, MarkedProcessed(w.tasks[id]), c.rewrite));
    }
    hide Good;
  }

  lemma MarkedSame(w: World, id: TaskId)
    requires SeenOk(w) && id.Provision? && id in w.tasks
    ensures OwnerOf(MarkedProcessed(w.tasks[id])) == id.user && HostOf(MarkedProcessed(w.tasks[id])) == HostOf(w.tasks[id])
  {
    assert Provision(id.user, id.address) == id;
  }

  lemma ProvisionFailedKeeps(cfg: Settings, w: World, id: TaskId, c: Calls)
    requires WellFormed(cfg) && Good(cfg, w) && id.Provision? && id in w.tasks && !Processed(w.tasks[id])
    ensures var w' := ProvisionFailed(w, id, MarkedProcessed(w.tasks[id]), c); Good(cfg, w') && Follows(cfg, w, w')
  {
    hide GoodBut, Follows, WellFormed, RecordFailure, MarkedProcessed, Save, UsersOk, Recorded, FleetOk, AllFailuresOk;
    FollowsSelf(cfg, w);
    GoodParts(cfg, w);
    MarkedSame(w, id);
    MarkKeeps(cfg, w, id, c.rewrite);
    var u := id.user;
    assert Pending(w, u, id.address);
    hide SeenOk;
    if User(u) in w.tasks && Accepted(w, User(u), c.write) {
      RecordFailureKeeps(cfg, w, u, id.address, c.write, c.rewrite);
    }
    hide Good;
  }

  lemma ReconcileProvisionKeeps(cfg: Settings, w: World, id: TaskId, c: Calls)
    requires WellFormed(cfg) && Good(cfg, w) && id.Provision? && id in w.tasks
    ensures var w' := ReconcileProvision(w, id, c); Good(cfg, w') && Follows(cfg, w, w')
  {
    hide Good, Follows, WellFormed, ProvisionFailed, ProvisionSucceeded;
    FollowsSelf(cfg, w);
    DropKeeps(cfg, w, id);
    ProvisionSucceededKeeps(cfg, w, id, c);
    if !Processed(w.tasks[id]) {
      ProvisionFailedKeeps(cfg, w, id, c);
    }
  }

  lemma ReconcileCleanKeeps(cfg: Settings, w: World, id: TaskId, c: Calls)
    requires Good(cfg, w) && id.Clean? && id in w.tasks
    ensures var w' := ReconcileClean(w, id, c); Good(cfg, w') && Follows(cfg, w, w')
  {
    hide Good, Follows;
    FollowsSelf(cfg, w);
    DropKeeps(cfg, w, id);
  }

  // ---- the environment ------------------------------------------------------------------------------------------------

  lemma EditKeeps(cfg: Settings, w: World, id: TaskId, e: Edit)
    requires WellFormed(cfg) && Good(cfg, w) && id in w.tasks
    ensures var w' := Put(w, id, ApplyEdit(w.tasks[id], e)); Good(cfg, w') && Follows(cfg, w, w')
  {
    hide GoodBut, Follows, WellFormed, ApplyEdit, UsersOk, Recorded, FleetOk, AllFailuresOk, SeenOk;
    GoodParts(cfg, w);
    EditKeepsControllerState(w.tasks[id], e);
    var tr := ApplyEdit(w.tasks[id], e);
    if id.User? {
      StoredMem(cfg, w, id.user);
      SavedWriteOk(cfg, w, id.user, w.tasks[id], tr);
      PutKeeps(cfg, w, id.user, tr, "");
    } else {
      EditedOther(cfg, w, id, tr);
      OtherKeeps(cfg, w, id, tr);
    }
    hide Good;
  }

  lemma EditedOther(cfg: Settings, w: World, id: TaskId, tr: TaskRun)
    requires SeenOk(w) && id in w.tasks && !id.User?
    requires HostOf(tr) == HostOf(w.tasks[id]) && OwnerOf(tr) == OwnerOf(w.tasks[id]) && Processed(tr) == Processed(w.tasks[id])
    ensures OtherOk(cfg, w, id, tr)
  {
    assert id.Provision? ==> Provision(id.user, id.address) == id;
  }

  function HostUpdateRun(host: string): TaskRun {
    TaskRun(map[TaskType := "update", AssignedHost := host], map[], [], "", 0, false, false, false)
  }

  lemma HostUpdateKeeps(cfg: Settings, w: World, n: nat, host: string)
    requires Good(cfg, w) && StaticName(cfg, host) && HostUpdate(n) !in w.tasks
    ensures var w' := Put(w, HostUpdate(n), HostUpdateRun(host)); Good(cfg, w') && Follows(cfg, w, w')
  {
    assert HostOf(HostUpdateRun(host)) == host;
    assert OtherOk(cfg, w, HostUpdate(n), HostUpdateRun(host));
    hide GoodBut, Follows, OtherOk;
    OtherKeeps(cfg, w, HostUpdate(n), HostUpdateRun(host));
  }
}
