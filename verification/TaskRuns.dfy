/** TaskRuns as the API server stores them: labels, annotations, finalizers and the
    few status fields the controller looks at, with the three-way merge that a
    conflicting update falls back to. */
module TaskRuns {

  /** The label and annotation keys the controller knows by name; everything else is `Other`. */
  datatype Key =
    | AssignedHost
    | TargetPlatform
    | WaitingForPlatform
    | UserTaskName
    | UserTaskNamespace
    | TaskType
    | CloudDynamicPlatform
    | FinishedWaiting
    | FailedHosts
    | CloudInstanceId
    | ProvisionTaskProcessed
    | AllocationStartTime
    | CloudFailures
    | CloudAddress
    | Other(name: string)

  datatype Finalizer = PipelineFinalizer | OtherFinalizer(name: string)

  datatype TaskRun = TaskRun(
    labels: map<Key, string>,
    annotations: map<Key, string>,
    finalizers: seq<Finalizer>,
    platform: string,      // the PLATFORM parameter
    created: int,
    done: bool,            // status.completionTime is set
    succeeded: bool,
    deleting: bool)        // metadata.deletionTimestamp is set

  /** Go's map lookup: a missing key reads as the empty string. */
  function Get(m: map<Key, string>, k: Key): string {
    if k in m then m[k] else ""
  }

  function HostOf(tr: TaskRun): string { Get(tr.labels, AssignedHost) }
  function WaitingOf(tr: TaskRun): string { Get(tr.labels, WaitingForPlatform) }
  function InstanceOf(tr: TaskRun): string { Get(tr.annotations, CloudInstanceId) }
  function KindOf(tr: TaskRun): string { Get(tr.labels, TaskType) }
  function FailuresOf(tr: TaskRun): string { Get(tr.annotations, CloudFailures) }
  function FailedHostList(tr: TaskRun): string { Get(tr.annotations, FailedHosts) }
  function Processed(tr: TaskRun): bool { Get(tr.annotations, ProvisionTaskProcessed) == "true" }
  predicate Held(tr: TaskRun) { PipelineFinalizer in tr.finalizers }
  predicate Finished(tr: TaskRun) { tr.done || tr.deleting }

  function SetLabel(tr: TaskRun, k: Key, v: string): TaskRun { tr.(labels := tr.labels[k := v]) }
  function DropLabel(tr: TaskRun, k: Key): TaskRun { tr.(labels := tr.labels - {k}) }
  function Annotate(tr: TaskRun, k: Key, v: string): TaskRun { tr.(annotations := tr.annotations[k := v]) }
  function DropAnnotation(tr: TaskRun, k: Key): TaskRun { tr.(annotations := tr.annotations - {k}) }

  function Without(fs: seq<Finalizer>, f: Finalizer): (r: seq<Finalizer>)
    ensures f !in r
    ensures forall g :: g != f ==> (g in r <==> g in fs)
  {
    if fs == [] then [] else
      var rest := Without(fs[1..], f);
      assert fs == [fs[0]] + fs[1..];
      if fs[0] == f then rest else [fs[0]] + rest
  }

  function AddFinalizer(tr: TaskRun): TaskRun {
    if Held(tr) then tr else tr.(finalizers := tr.finalizers + [PipelineFinalizer])
  }

  function RemoveFinalizer(tr: TaskRun): (r: TaskRun)
    ensures !Held(r)
  {
    tr.(finalizers := Without(tr.finalizers, PipelineFinalizer))
  }

  // ---- the conflict merge --------------------------------------------------------

  const MANAGED_LABELS: set<Key> :=
    {AssignedHost, UserTaskName, UserTaskNamespace, TargetPlatform, WaitingForPlatform, TaskType}
  const MANAGED_ANNOTATIONS: set<Key> :=
    {FailedHosts, CloudInstanceId, ProvisionTaskProcessed, AllocationStartTime}

  /** The managed keys, presence and value, come from `mutation`; all others from `latest`. */
  function MergedMap(latest: map<Key, string>, mutation: map<Key, string>, keys: set<Key>): map<Key, string> {
    map k | k in latest.Keys + mutation.Keys && (if k in keys then k in mutation else k in latest) ::
      if k in keys then mutation[k] else latest[k]
  }

  lemma MergedGet(latest: map<Key, string>, mutation: map<Key, string>, keys: set<Key>, k: Key)
    ensures Get(MergedMap(latest, mutation, keys), k) == if k in keys then Get(mutation, k) else Get(latest, k)
  {
  }

  function MergedFinalizers(latest: TaskRun, mutated: TaskRun): TaskRun {
    if Held(latest) == Held(mutated) then latest
    else if Held(mutated) then AddFinalizer(latest) else RemoveFinalizer(latest)
  }

  function Merge(latest: TaskRun, mutated: TaskRun): TaskRun {
    MergedFinalizers(
      latest.(annotations := MergedMap(latest.annotations, mutated.annotations, MANAGED_ANNOTATIONS),
              labels := MergedMap(latest.labels, mutated.labels, MANAGED_LABELS)),
      mutated)
  }

  // ---- writes by others ------------------------------------------------------------

  /** What some other writer stores: it decides the `Other` keys, the other finalizers and
      the status, and leaves the controller's own keys and finalizer alone. */
  datatype Edit = Edit(labels: map<Key, string>, annotations: map<Key, string>,
                       finalizers: seq<Finalizer>, done: bool, succeeded: bool, deleting: bool)

  function EditedMap(stored: map<Key, string>, edit: map<Key, string>): map<Key, string> {
    map k | k in stored.Keys + edit.Keys && (if k.Other? then k in edit else k in stored) ::
      if k.Other? then edit[k] else stored[k]
  }

  function ApplyEdit(tr: TaskRun, e: Edit): TaskRun {
    tr.(labels := EditedMap(tr.labels, e.labels),
        annotations := EditedMap(tr.annotations, e.annotations),
        finalizers :=
          if (PipelineFinalizer in e.finalizers) == Held(tr) then e.finalizers else tr.finalizers,
        done := tr.done || e.done,
        succeeded := if tr.done then tr.succeeded else e.succeeded,
        deleting := tr.deleting || e.deleting)
  }

  /** What the controller can tell about a TaskRun is untouched by other writers,
      except that a TaskRun may finish. */
  lemma EditKeepsControllerState(tr: TaskRun, e: Edit)
    ensures var r := ApplyEdit(tr, e);
      && HostOf(r) == HostOf(tr) && WaitingOf(r) == WaitingOf(tr) && InstanceOf(r) == InstanceOf(tr) && KindOf(r) == KindOf(tr)
      && FailuresOf(r) == FailuresOf(tr) && FailedHostList(r) == FailedHostList(tr) && Processed(r) == Processed(tr)
      && Held(r) == Held(tr) && r.platform == tr.platform && r.created == tr.created
      && (Finished(tr) ==> Finished(r))
      && Get(r.labels, UserTaskName) == Get(tr.labels, UserTaskName)
      && Get(r.labels, UserTaskNamespace) == Get(tr.labels, UserTaskNamespace)
  {
  }

  lemma MergeParts(latest: TaskRun, mutated: TaskRun)
    ensures var r := Merge(latest, mutated);
      && r.labels == MergedMap(latest.labels, mutated.labels, MANAGED_LABELS)
      && r.annotations == MergedMap(latest.annotations, mutated.annotations, MANAGED_ANNOTATIONS)
      && Held(r) == Held(mutated)
      && (forall f :: f != PipelineFinalizer ==> (f in r.finalizers <==> f in latest.finalizers))
      && r.platform == latest.platform && r.created == latest.created && r.done == latest.done
      && r.succeeded == latest.succeeded && r.deleting == latest.deleting
  {
    hide MergedMap;
  }

  /** A merged write carries the controller's view of everything it manages;
      the failure counter and the status are the stored ones. */
  lemma MergeTakesManagedState(latest: TaskRun, mutated: TaskRun)
    ensures var r := Merge(latest, mutated);
      && HostOf(r) == HostOf(mutated) && WaitingOf(r) == WaitingOf(mutated) && InstanceOf(r) == InstanceOf(mutated)
      && KindOf(r) == KindOf(mutated) && FailedHostList(r) == FailedHostList(mutated) && Processed(r) == Processed(mutated)
      && Held(r) == Held(mutated)
      && FailuresOf(r) == FailuresOf(latest) && r.platform == latest.platform && r.created == latest.created
      && Finished(r) == Finished(latest)
      && Get(r.labels, UserTaskName) == Get(mutated.labels, UserTaskName)
      && Get(r.labels, UserTaskNamespace) == Get(mutated.labels, UserTaskNamespace)
  {
    MergeParts(latest, mutated);
    hide Merge, MergedMap, Get;
    forall k ensures Get(MergedMap(latest.labels, mutated.labels, MANAGED_LABELS), k) ==
        if k in MANAGED_LABELS then Get(mutated.labels, k) else Get(latest.labels, k) {
      MergedGet(latest.labels, mutated.labels, MANAGED_LABELS, k);
    }
    forall k ensures Get(MergedMap(latest.annotations, mutated.annotations, MANAGED_ANNOTATIONS), k) ==
        if k in MANAGED_ANNOTATIONS then Get(mutated.annotations, k) else Get(latest.annotations, k) {
      MergedGet(latest.annotations, mutated.annotations, MANAGED_ANNOTATIONS, k);
    }
  }
}
