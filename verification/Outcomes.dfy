/** What one allocation leaves on the TaskRun it was made for. */
module Outcomes {
  import opened Text
  import opened TaskRuns
  import opened Platforms
  import opened Cluster
  import opened HostPools
  import opened DynamicHosts
  import opened Reconcile
  import opened Handlers

  /** The task waits for the platform. */
  predicate Waits(w: World, u: UserId, platform: string) {
    User(u) in w.tasks && WaitingOf(w.tasks[User(u)]) == PlatformLabel(platform)
  }

  /** The task has the host, under the finalizer, and a provision task for it or an error secret is there. */
  predicate Has(w: World, u: UserId, host: Host) {
    && User(u) in w.tasks && HostOf(w.tasks[User(u)]) == host.name
    && Held(w.tasks[User(u)]) && WaitingOf(w.tasks[User(u)]) == ""
    && (Provision(u, host.address) in w.tasks || u in w.secrets)
  }

  lemma SavedView(w: World, u: UserId, tr: TaskRun, wr: Write)
    requires Accepted(w, User(u), wr)
    ensures var s := Save(w, User(u), tr, wr);
      && User(u) in s.tasks && SameMarks(s.tasks[User(u)], tr)
      && s == w.(tasks := s.tasks) && s.tasks.Keys == w.tasks.Keys
      && (forall id :: id in w.tasks && id != User(u) ==> s.tasks[id] == w.tasks[id])
  {
    SavedForm(w.tasks[User(u)], tr, wr);
    hide StoredForm;
  }

  lemma AwaitHostOutcome(w: World, u: UserId, tr: TaskRun, platform: string, c: Calls)
    requires User(u) in w.tasks && WaitingOf(tr) == WaitingOf(w.tasks[User(u)])
    ensures var o := AwaitHost(w, u, tr, platform, c);
      && (o.error == NoError ==> Waits(o.world, u, platform))
      && (o.error != NoError ==> o.world == w)
  {
    hide Save, PlatformLabel;
    var tr' := SetLabel(tr, WaitingForPlatform, PlatformLabel(platform));
    if Accepted(w, User(u), c.write) {
      SavedView(w, u, tr', c.write);
    } else {
      NotSaved(w, User(u), tr', c.write);
    }
  }

  lemma ProvisioningOutcome(w: World, u: UserId, tr: TaskRun, address: string, platform: string, c: Calls)
    requires User(u) in w.tasks && Held(tr)
    ensures var o := LaunchProvisioning(w, u, tr, address, platform, c);
      && o.tr == tr && User(u) in o.world.tasks && o.world.tasks[User(u)] == w.tasks[User(u)]
      && (o.error == NoError ==> Provision(u, address) in o.world.tasks || u in o.world.secrets)
      && (o.error != NoError ==> o.world == w)
  {
    hide ProvisionRun;
  }

  lemma AssignHostOutcome(w: World, u: UserId, tr: TaskRun, host: Host, platform: string, c: Calls)
    requires User(u) in w.tasks
    ensures var o := AssignHost(w, u, tr, host, platform, c);
      && (o.error == NoError ==> Has(o.world, u, host))
      && (o.error != NoError && Accepted(w, User(u), c.write) && Accepted(w, User(u), c.rewrite) ==>
            User(u) in o.world.tasks && HostOf(o.world.tasks[User(u)]) == "" && !Held(o.world.tasks[User(u)]))
      && (!Accepted(w, User(u), c.write) ==> o.error != NoError && o.world == w)
  {
    hide Save, LaunchProvisioning;
    var tr1 := Given(tr, host.name);
    assert HostOf(tr1) == host.name && Held(tr1) && WaitingOf(tr1) == "";
    if Accepted(w, User(u), c.write) {
      SavedView(w, u, tr1, c.write);
      var w1 := Save(w, User(u), tr1, c.write);
      ProvisioningOutcome(w1, u, tr1, host.address, platform, c);
      var o := LaunchProvisioning(w1, u, tr1, host.address, platform, c);
      if o.error != NoError && Accepted(w, User(u), c.rewrite) {
        SavedView(o.world, u, TakenBack(o.tr), c.rewrite);
      }
    } else {
      NotSaved(w, User(u), tr1, c.write);
    }
  }

  /** The label of the platform is stored with the assignment. */
  lemma AssignHostTarget(w: World, u: UserId, tr: TaskRun, host: Host, platform: string, c: Calls)
    requires User(u) in w.tasks
    ensures var o := AssignHost(w, u, tr, host, platform, c);
      o.error == NoError ==> User(u) in o.world.tasks && Get(o.world.tasks[User(u)].labels, TargetPlatform) == Get(tr.labels, TargetPlatform)
  {
    hide Save, LaunchProvisioning, Held;
    var tr1 := Given(tr, host.name);
    GivenTarget(tr, host.name);
    if Accepted(w, User(u), c.write) {
      SavedView(w, u, tr1, c.write);
      SavedTarget(w, u, tr1, c.write);
      ProvisioningOutcome(Save(w, User(u), tr1, c.write), u, tr1, host.address, platform, c);
    }
    hide Given, Get;
  }

  lemma GivenTarget(tr: TaskRun, h: string)
    ensures Held(Given(tr, h)) && Get(Given(tr, h).labels, TargetPlatform) == Get(tr.labels, TargetPlatform)
  {
  }

  lemma SavedTarget(w: World, u: UserId, tr: TaskRun, wr: Write)
    requires Accepted(w, User(u), wr)
    ensures var s := Save(w, User(u), tr, wr).tasks[User(u)];
      && Get(s.labels, TargetPlatform) == Get(tr.labels, TargetPlatform)
      && (wr.Direct? ==> s.labels == tr.labels && s.annotations == tr.annotations)
  {
    if wr.Merged? {
      var latest := ApplyEdit(w.tasks[User(u)], wr.edit);
      MergeParts(latest, tr);
      MergedGet(latest.labels, tr.labels, MANAGED_LABELS, TargetPlatform);
      hide Merge, ApplyEdit, MergedMap;
    }
  }

  /** A pool allocation without an error ends with the task waiting, when no usable host has a free slot, or on the
      usable host with the most free slots, with its provisioning on the way. */
  lemma HostPoolOutcome(w: World, u: UserId, tr: TaskRun, hosts: map<string, Host>, platform: string, c: Calls)
    requires User(u) in w.tasks && WaitingOf(tr) == WaitingOf(w.tasks[User(u)])
    ensures var o := HostPoolAllocate(w, u, tr, hosts, platform, c);
      var failed := Split(FailedHostList(tr), ',');
      o.error == NoError ==>
        if NoneFree(w, hosts, platform, failed) then Waits(o.world, u, platform)
        else exists k :: Best(w, hosts, platform, failed, k) && Has(o.world, u, hosts[k])
  {
    hide AssignHost, AwaitHost, NoneFree, Split, Chosen, Best, Has, Waits;
    var failed := Split(FailedHostList(tr), ',');
    AwaitHostOutcome(w, u, tr, platform, c);
    if !NoneFree(w, hosts, platform, failed) {
      var k := Chosen(w, hosts, platform, failed, c.pick);
      ChosenIsThere(w, hosts, platform, failed, k);
      AssignHostOutcome(w, u, tr, hosts[k], platform, c);
    }
  }

  lemma ChosenIsThere(w: World, hosts: map<string, Host>, platform: string, failed: seq<string>, k: string)
    requires Best(w, hosts, platform, failed, k)
    ensures k in hosts
  {
  }

  // ---- an instance per task ---------------------------------------------------------------------------

  /** A launched instance is recorded with the time, or stopped if it cannot be recorded. */
  lemma LaunchOutcome(w: World, u: UserId, tr: TaskRun, d: PlatformConfig, c: Calls)
    requires User(u) in w.tasks && d.DynamicResolver? && Launches(d, c)
    ensures var o := LaunchForTask(w, u, tr, d, c); var i := c.launch.id;
      && i in o.world.fleet && o.world.fleet[i] == NewMachine(d, u, c, w.clock)
      && (if Accepted(w, User(u), c.write)
          then o.error == NoError && Records(o.world, u, i, w.clock)
               && (c.write.Direct? ==> Get(o.world.tasks[User(u)].labels, CloudDynamicPlatform) == PlatformLabel(d.platform))
          else o.error != NoError && i in o.world.stopped && o.world.tasks == w.tasks)
  {
    hide Save, Itoa, CanName, NewMachine, PlatformLabel, Records, AddFinalizer;
    var i := c.launch.id;
    var w1 := Boot(w, i, NewMachine(d, u, c, w.clock));
    var tr0 := Annotate(DropLabel(tr, WaitingForPlatform), AllocationStartTime, Itoa(w.clock));
    if Accepted(w, User(u), c.write) {
      LaunchStored(w1, u, tr0, i, d.platform, Itoa(w.clock), c.write);
      RecordsIs(w1, u, tr0, i, d.platform, w.clock, c.write);
    }
  }

  lemma LaunchStored(w: World, u: UserId, tr: TaskRun, i: string, platform: string, start: string, wr: Write)
    requires Accepted(w, User(u), wr) && Get(tr.annotations, AllocationStartTime) == start && WaitingOf(tr) == ""
    ensures var s := Save(w, User(u), Marked(tr, i, platform), wr);
      && s == w.(tasks := s.tasks) && User(u) in s.tasks && InstanceOf(s.tasks[User(u)]) == i
      && Held(s.tasks[User(u)]) && WaitingOf(s.tasks[User(u)]) == "" && Get(s.tasks[User(u)].annotations, AllocationStartTime) == start
      && (wr.Direct? ==> Get(s.tasks[User(u)].labels, CloudDynamicPlatform) == PlatformLabel(platform))
  {
    hide Save, PlatformLabel;
    var tr1 := Marked(tr, i, platform);
    assert Get(tr1.annotations, AllocationStartTime) == start && InstanceOf(tr1) == i && Held(tr1) && WaitingOf(tr1) == "";
    assert Get(tr1.labels, CloudDynamicPlatform) == PlatformLabel(platform);
    SavedView(w, u, tr1, wr);
    SavedStart(w, u, tr1, wr);
    SavedTarget(w, u, tr1, wr);
  }

  lemma RecordsIs(w: World, u: UserId, tr: TaskRun, i: string, platform: string, time: int, wr: Write)
    requires Accepted(w, User(u), wr) && Get(tr.annotations, AllocationStartTime) == Itoa(time) && WaitingOf(tr) == ""
    ensures Records(Save(w, User(u), Marked(tr, i, platform), wr), u, i, time)
  {
    hide Save, Itoa;
    LaunchStored(w, u, tr, i, platform, Itoa(time), wr);
  }

  lemma SavedStart(w: World, u: UserId, tr: TaskRun, wr: Write)
    requires Accepted(w, User(u), wr)
    ensures Get(Save(w, User(u), tr, wr).tasks[User(u)].annotations, AllocationStartTime) == Get(tr.annotations, AllocationStartTime)
  {
    if wr.Merged? {
      var latest := ApplyEdit(w.tasks[User(u)], wr.edit);
      MergeParts(latest, tr);
      MergedGet(latest.annotations, tr.annotations, MANAGED_ANNOTATIONS, AllocationStartTime);
      hide Merge, ApplyEdit, MergedMap;
    }
  }

  predicate Records(w: World, u: UserId, i: string, time: int) {
    && User(u) in w.tasks && InstanceOf(w.tasks[User(u)]) == i
    && Held(w.tasks[User(u)]) && WaitingOf(w.tasks[User(u)]) == ""
    && Get(w.tasks[User(u)].annotations, AllocationStartTime) == Itoa(time)
  }

  /** The recorded time is read back: the instance is given up exactly when the timeout has passed since its launch. */
  lemma TimeoutFromLaunch(w: World, u: UserId, i: string, time: int, timeout: int, now: int)
    requires Records(w, u, i, time) && i != "" && MIN_INT64 <= time <= MAX_INT64
    ensures TimedOut(w.tasks[User(u)], timeout, now) <==> time + timeout < now
  {
    ParseItoa(time);
    ItoaNotEmpty(time);
    hide ParseInt64, Itoa;
  }

  lemma ItoaNotEmpty(n: int)
    ensures Itoa(n) != ""
  {
  }

  /** Giving up asks for termination, and without an error the stored TaskRun has no host; the instance is forgotten
      only if the provider accepted. */
  lemma AbandonOutcome(w: World, u: UserId, tr: TaskRun, c: Calls)
    requires User(u) in w.tasks
    ensures var o := Abandon(w, u, tr, c);
      && InstanceOf(tr) in o.world.stopped && o.error == OtherError
      && (Accepted(w, User(u), c.rewrite) ==>
            && User(u) in o.world.tasks && HostOf(o.world.tasks[User(u)]) == ""
            && InstanceOf(o.world.tasks[User(u)]) == (if c.terminate then "" else InstanceOf(tr)))
  {
    hide Save;
    var i := InstanceOf(tr);
    var w1 := Stop(w, i, c.terminate && i in c.gone);
    var tr1 := if c.terminate then DropAnnotation(tr, CloudInstanceId) else tr;
    var tr2 := DropAnnotation(DropLabel(tr1, AssignedHost), CloudDynamicPlatform);
    if Accepted(w, User(u), c.rewrite) {
      SavedView(w1, u, tr2, c.rewrite);
    } else {
      NotSaved(w1, User(u), tr2, c.rewrite);
    }
  }

  // ---- provision tasks ----------------------------------------------------------------------------------

  lemma MarkStored(w: World, id: TaskId, tr: TaskRun, wr: Write)
    requires id in w.tasks
    ensures var w' := Save(w, id, tr, wr);
      && id in w'.tasks && (forall other :: other != id ==> (other in w'.tasks <==> other in w.tasks))
      && (forall other :: other != id && other in w.tasks ==> w'.tasks[other] == w.tasks[other])
      && w'.secrets == w.secrets
      && (!Accepted(w, id, wr) ==> w' == w)
  {
    hide StoredForm;
  }

  lemma SecretOutcome(w: World, u: UserId, wr: Write, created: bool, id: TaskId)
    requires User(u) in w.tasks && id in w.tasks && id != User(u)
    ensures var o := CreateErrorSecret(w, User(u), w.tasks[User(u)], u, wr, created);
      id in o.world.tasks && o.world.tasks[id] == w.tasks[id] && (o.error == NoError ==> u in o.world.secrets)
  {
    hide StoredForm;
  }

  /** A successful provision task is marked as processed only when its user task has a secret or is gone: the user
      task never waits for credentials that will not come. */
  lemma ProvisionSucceededOutcome(w: World, id: TaskId, c: Calls)
    requires id.Provision? && id in w.tasks && !Processed(w.tasks[id])
    ensures var tr := MarkedProcessed(w.tasks[id]); var w' := ProvisionSucceeded(w, id, tr, c);
      id in w'.tasks && (Processed(w'.tasks[id]) ==> OwnerOf(tr) in w'.secrets || User(OwnerOf(tr)) !in w'.tasks)
  {
    hide Save, CreateErrorSecret;
    var tr := MarkedProcessed(w.tasks[id]);
    var u := OwnerOf(tr);
    MarkStored(w, id, tr, c.rewrite);
    if User(u) in w.tasks {
      SecretOutcome(w, u, c.errorWrite, c.errorCreate, id);
      var o := CreateErrorSecret(w, User(u), w.tasks[User(u)], u, c.errorWrite, c.errorCreate);
      MarkStored(o.world, id, tr, c.rewrite);
    }
  }

  /** The user task has lost the host and has it on its list. */
  predicate HostWithdrawn(w: World, w': World, u: UserId, host: string)
    requires User(u) in w.tasks
  {
    && User(u) in w'.tasks && HostOf(w'.tasks[User(u)]) == ""
    && FailedHostList(w'.tasks[User(u)]) == WithFailure(FailedHostList(w.tasks[User(u)]), host)
  }

  lemma RecordedOutcome(w: World, u: UserId, host: string, wr: Write, id: TaskId)
    requires Accepted(w, User(u), wr) && id in w.tasks && id != User(u)
    ensures var w1 := RecordFailure(w, u, host, wr);
      HostWithdrawn(w, w1, u, host) && id in w1.tasks && w1.tasks[id] == w.tasks[id]
  {
    hide WithFailure;
    var user := w.tasks[User(u)];
    var user' := DropLabel(Annotate(user, FailedHosts, WithFailure(FailedHostList(user), host)), AssignedHost);
    SavedForm(user, user', wr);
    hide StoredForm;
  }

  /** Adding a failure always changes the list. */
  lemma ListChanges(text: string, host: string)
    requires host != "" && ',' !in host
    ensures WithFailure(text, host) != text
  {
    AppendFailure(text, host);
    hide FailedNames, WithFailure;
    assert |FailedNames(text) + [host]| != |FailedNames(text)|;
  }

  lemma MarkedIsProcessed(w: World, id: TaskId, wr: Write)
    requires Accepted(w, id, wr)
    ensures Processed(Save(w, id, MarkedProcessed(w.tasks[id]), wr).tasks[id])
  {
    SavedForm(w.tasks[id], MarkedProcessed(w.tasks[id]), wr);
    hide StoredForm;
  }

  /** Where a failed provision task is marked as processed, its host was withdrawn from the user task exactly if the user
      task could be read (host names have no comma); if it could not, the mark is stored all the same and the user task keeps
      the host. */
  lemma ProvisionFailedOutcome(w: World, id: TaskId, c: Calls)
    requires id.Provision? && id in w.tasks && !Processed(w.tasks[id]) && HostOf(w.tasks[id]) != ""
    requires User(OwnerOf(MarkedProcessed(w.tasks[id]))) in w.tasks
    ensures var tr := MarkedProcessed(w.tasks[id]); var u := OwnerOf(tr); var w' := ProvisionFailed(w, id, tr, c);
      && id in w'.tasks && User(u) in w'.tasks
      && (Processed(w'.tasks[id]) && !c.userReadFails ==> HostWithdrawn(w, w', u, HostOf(tr)))
      && (Processed(w'.tasks[id]) && ',' !in HostOf(tr) ==> (HostWithdrawn(w, w', u, HostOf(tr)) <==> !c.userReadFails))
      && (c.userReadFails ==> w'.tasks[User(u)] == w.tasks[User(u)])
      && (c.userReadFails && Accepted(w, id, c.rewrite) ==> Processed(w'.tasks[id]))
  {
    hide Save, RecordFailure, WithFailure;
    var tr := MarkedProcessed(w.tasks[id]);
    var u := OwnerOf(tr);
    MarkStored(w, id, tr, c.rewrite);
    if ',' !in HostOf(w.tasks[id]) {
      ListChanges(FailedHostList(w.tasks[User(u)]), HostOf(w.tasks[id]));
    }
    if Accepted(w, id, c.rewrite) {
      MarkedIsProcessed(w, id, c.rewrite);
    }
    if Accepted(w, User(u), c.write) {
      RecordedOutcome(w, u, HostOf(tr), c.write, id);
      MarkStored(RecordFailure(w, u, HostOf(tr), c.write), id, tr, c.rewrite);
    }
  }

  lemma MarkIsStored(w: World, id: TaskId, wr: Write)
    requires id in w.tasks
    ensures var w' := Save(w, id, MarkedProcessed(w.tasks[id]), wr); Accepted(w, id, wr) ==> id in w'.tasks && Processed(w'.tasks[id])
  {
    hide Save;
    if Accepted(w, id, wr) {
      MarkStored(w, id, MarkedProcessed(w.tasks[id]), wr);
      MarkedIsProcessed(w, id, wr);
    }
  }

  /** A provision task that is done and not yet dealt with. */
  predicate Concluded(w: World, id: TaskId, succeeded: bool) {
    id.Provision? && id in w.tasks && w.tasks[id].done && !w.tasks[id].deleting && w.tasks[id].succeeded == succeeded && !Processed(w.tasks[id])
  }

  lemma MarkedOwner(tr: TaskRun)
    ensures OwnerOf(MarkedProcessed(tr)) == OwnerOf(tr) && HostOf(MarkedProcessed(tr)) == HostOf(tr)
    ensures MarkedProcessed(tr) == Annotate(tr, ProvisionTaskProcessed, "true")
  {
  }

  /** A failed provisioning is recorded: if the user task can be read and written, it loses the host, which goes on its
      list, and the provision task is marked; if it cannot be written, nothing changes, so that it is tried again. */
  lemma FailedProvisionRecorded(w: World, id: TaskId, c: Calls)
    requires Concluded(w, id, false)
    ensures var w' := ReconcileProvision(w, id, c); var u, host := OwnerOf(w.tasks[id]), HostOf(w.tasks[id]);
      var known := host != "" && !c.userReadFails && User(u) in w.tasks;
      && (known && Accepted(w, User(u), c.write) ==> HostWithdrawn(w, w', u, host))
      && (known && !Accepted(w, User(u), c.write) ==> w' == w)
      && (Accepted(w, id, c.rewrite) && (known ==> Accepted(w, User(u), c.write)) ==> id in w'.tasks && Processed(w'.tasks[id]))
  {
    hide Save, RecordFailure, WithFailure, MarkedProcessed, Processed;
    var u, host := OwnerOf(w.tasks[id]), HostOf(w.tasks[id]);
    MarkedOwner(w.tasks[id]);
    var tr := MarkedProcessed(w.tasks[id]);
    MarkIsStored(w, id, c.rewrite);
    if User(u) in w.tasks && Accepted(w, User(u), c.write) {
      RecordedOutcome(w, u, host, c.write, id);
      var w1 := RecordFailure(w, u, host, c.write);
      MarkStored(w1, id, tr, c.rewrite);
      MarkIsStored(w1, id, c.rewrite);
    }
  }

  lemma SecretMade(w: World, u: UserId, tr: TaskRun, wr: Write, created: bool)
    requires Held(tr) || (User(u) in w.tasks && wr.Direct?)
    ensures var o := CreateErrorSecret(w, User(u), tr, u, wr, created);
      && (o.error == NoError <==> u in w.secrets || created)
      && (o.error == NoError ==> u in o.world.secrets && Held(o.tr) && (!Held(tr) ==> Held(o.world.tasks[User(u)])))
  {
    if !Held(tr) {
      SavedForm(w.tasks[User(u)], AddFinalizer(tr), Direct);
    }
    hide StoredForm;
  }

  /** A successful provisioning ends with a secret, or with an error secret under the finalizer if there is none, and
      the mark; the mark needs no secret once the user task is gone. What cannot be read is left for another try. */
  lemma SucceededProvisionConcluded(w: World, id: TaskId, c: Calls)
    requires Concluded(w, id, true)
    ensures c.secretReadFails ==> ReconcileProvision(w, id, c) == w
    ensures c.userReadFails && OwnerOf(w.tasks[id]) !in w.secrets && User(OwnerOf(w.tasks[id])) in w.tasks ==> ReconcileProvision(w, id, c) == w
    ensures !c.secretReadFails ==>
      var w' := ReconcileProvision(w, id, c); var u := OwnerOf(w.tasks[id]);
      var settled := u in w.secrets || User(u) !in w.tasks;
      var repaired := !c.userReadFails && c.errorCreate && (User(u) in w.tasks ==> Held(w.tasks[User(u)]) || c.errorWrite.Direct?);
      && (settled || repaired ==> u in w'.secrets || User(u) !in w.tasks)
      && ((settled || repaired) && Accepted(w, id, c.rewrite) ==> id in w'.tasks && Processed(w'.tasks[id]))
      && (settled ==> w'.secrets == w.secrets)
  {
    hide Save, CreateErrorSecret, MarkedProcessed, Processed;
    var u := OwnerOf(w.tasks[id]);
    MarkedOwner(w.tasks[id]);
    var tr := MarkedProcessed(w.tasks[id]);
    MarkStored(w, id, tr, c.rewrite);
    MarkIsStored(w, id, c.rewrite);
    if User(u) in w.tasks {
      SecretOutcome(w, u, c.errorWrite, c.errorCreate, id);
      var o := CreateErrorSecret(w, User(u), w.tasks[User(u)], u, c.errorWrite, c.errorCreate);
      if Held(w.tasks[User(u)]) || c.errorWrite.Direct? {
        SecretMade(w, u, w.tasks[User(u)], c.errorWrite, c.errorCreate);
      }
      MarkStored(o.world, id, tr, c.rewrite);
      MarkIsStored(o.world, id, c.rewrite);
    }
  }

  /** Provision tasks go once they are dealt with, and cleanup tasks once they are done: at once if they succeeded, else
      when their time is over. Nothing else happens to them or to anything else. */
  lemma FinishedTasksGo(w: World, id: TaskId, c: Calls)
    requires id in w.tasks && c.delete
    ensures var tr := w.tasks[id]; var ready := tr.done && !tr.deleting && (tr.succeeded || c.retentionOver);
      && ReconcileClean(w, id, c) == (if ready then w.(tasks := w.tasks - {id}) else w)
      && (Processed(tr) || !tr.done || tr.deleting ==>
            ReconcileProvision(w, id, c) == if ready then w.(tasks := w.tasks - {id}) else w)
  {
    hide ProvisionFailed, ProvisionSucceeded;
  }

  /** A user task on the host "h" whose provision task has failed. */
  function Unprovisioned(u: UserId): World {
    World(map[User(u) := TaskRun(map[AssignedHost := "h"], map[], [PipelineFinalizer], "linux/s390x", 0, false, false, false),
              Provision(u, "a") := ProvisionRun(u, "h", "linux/s390x").(done := true)],
          {}, map[], {}, {}, 0, {u}, map[], {})
  }

  /** One failed read: the provision task counts as processed, and the task stays on the host that nobody provisions. */
  lemma StrandedExample(u: UserId, c: Calls)
    requires c.userReadFails && c.rewrite.Direct?
    ensures var w := Unprovisioned(u); var id := Provision(u, "a"); var w' := ReconcileProvision(w, id, c);
      && id in w'.tasks && Processed(w'.tasks[id])
      && User(u) in w'.tasks && HostOf(w'.tasks[User(u)]) == "h" && u !in w'.secrets
  {
    hide PlatformLabel;
    var w, id := Unprovisioned(u), Provision(u, "a");
    assert OwnerOf(w.tasks[id]) == u && HostOf(w.tasks[id]) == "h" && !Processed(w.tasks[id]);
    MarkedIsProcessed(w, id, c.rewrite);
    hide ProvisionRun;
  }

  // ---- waiting tasks --------------------------------------------------------------------------------------

  /** The wake-up at the end of giving a host back: if a task waits for the platform, an oldest one is marked. */
  lemma ReleaseWakes(w: World, u: UserId, platform: string, c: Calls)
    requires !c.secretReadFails && !c.waitListFails && c.wakeWrite.Direct?
    ensures var w' := Release(w, u, platform, c);
      && (SomeoneWaits(w, platform) ==> exists id :: OldestWaiting(w, platform, id) && Woke(w', platform, id))
      && (!SomeoneWaits(w, platform) ==> w'.tasks == w.tasks)
  {
    hide WaitsFor;
    var w1 := if c.secretDelete then w.(secrets := w.secrets - {u}) else w;
    WakeOutcome(w1, platform, c);
    if SomeoneWaits(w, platform) {
      var id :| OldestWaiting(w1, platform, id) && id in Wake(w1, platform, c).tasks
        && Get(Wake(w1, platform, c).tasks[id].labels, FinishedWaiting) == "true"
        && Wake(w1, platform, c) == w1.(tasks := w1.tasks[id := Wake(w1, platform, c).tasks[id]]);
      assert OldestWaiting(w, platform, id) && Woke(Release(w, u, platform, c), platform, id);
    }
  }

  /** The TaskRun is marked for another try. */
  predicate Woke(w: World, platform: string, id: TaskId) {
    id in w.tasks && Get(w.tasks[id].labels, FinishedWaiting) == "true"
  }

  /** When a host is given back and the calls succeed, exactly one TaskRun is marked if any waits for the platform: one
      that no other is older than. If none waits, nothing changes. */
  lemma WakeOutcome(w: World, platform: string, c: Calls)
    requires !c.waitListFails && c.wakeWrite.Direct?
    ensures var w' := Wake(w, platform, c);
      if SomeoneWaits(w, platform) then
        exists id :: OldestWaiting(w, platform, id) && id in w'.tasks && Get(w'.tasks[id].labels, FinishedWaiting) == "true"
          && w' == w.(tasks := w.tasks[id := w'.tasks[id]])
      else w' == w
  {
    hide WaitsFor;
    if SomeoneWaits(w, platform) {
      var id := Woken(w, platform, c.wake);
      assert OldestWaiting(w, platform, id);
    }
  }
}
