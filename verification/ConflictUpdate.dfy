/** UpdateTaskRunWithRetry: an update that survives conflicting writes (taskrun.go:1088-1172). */
module ConflictUpdate {
  import opened TaskRuns
  import opened Cluster

  // ---- the merge ---------------------------------------------------------------------------

  function KeySet(keys: seq<Key>): set<Key> {
    set k | k in keys
  }

  lemma MergeOneMore(latest: map<Key, string>, mutation: map<Key, string>, keys: set<Key>, k: Key)
    ensures var merged := MergedMap(latest, mutation, keys);
      MergedMap(latest, mutation, keys + {k}) == if k in mutation then merged[k := mutation[k]] else merged - {k}
  {
  }

  /** mergeKeysInMaps, over the keys in any order: whatever the order and repetitions, the result is the merge. */
  method MergeKeys(latest: map<Key, string>, mutation: map<Key, string>, keys: seq<Key>) returns (merged: map<Key, string>)
    ensures merged == MergedMap(latest, mutation, KeySet(keys))
  {
    merged := latest;
    assert latest == MergedMap(latest, mutation, KeySet(keys[..0]));
    hide MergedMap;
    for i := 0 to |keys|
      invariant merged == MergedMap(latest, mutation, KeySet(keys[..i]))
    {
      var k := keys[i];
      MergeOneMore(latest, mutation, KeySet(keys[..i]), k);
      assert KeySet(keys[..i + 1]) == KeySet(keys[..i]) + {k};
      if k in mutation {
        merged := merged[k := mutation[k]];
      } else {
        merged := merged - {k};
      }
    }
    assert keys[..|keys|] == keys;
  }

  const LABELS: seq<Key> := [AssignedHost, UserTaskName, UserTaskNamespace, TargetPlatform, WaitingForPlatform, TaskType]
  const ANNOTATIONS: seq<Key> := [FailedHosts, CloudInstanceId, ProvisionTaskProcessed, AllocationStartTime]

  /** What updateTaskRun sends: the latest version with the controller's part replaced. */
  method MergeTaskRun(latest: TaskRun, mutated: TaskRun) returns (r: TaskRun)
    ensures r == Merge(latest, mutated)
  {
    hide MergedMap;
    var annotations := MergeKeys(latest.annotations, mutated.annotations, ANNOTATIONS);
    assert KeySet(ANNOTATIONS) == MANAGED_ANNOTATIONS;
    var labels := MergeKeys(latest.labels, mutated.labels, LABELS);
    assert KeySet(LABELS) == MANAGED_LABELS;
    r := latest.(annotations := annotations, labels := labels);
    if Held(r) != Held(mutated) {
      r := if !Held(mutated) then RemoveFinalizer(r) else AddFinalizer(r);
    }
  }

  lemma MergedMapTwice(latest: map<Key, string>, mutation: map<Key, string>, keys: set<Key>)
    ensures MergedMap(MergedMap(latest, mutation, keys), mutation, keys) == MergedMap(latest, mutation, keys)
  {
  }

  /** Merging again changes nothing. */
  lemma MergeIdempotent(latest: TaskRun, mutated: TaskRun)
    ensures Merge(Merge(latest, mutated), mutated) == Merge(latest, mutated)
  {
    hide MergedMap;
    MergeParts(latest, mutated);
    MergedMapTwice(latest.labels, mutated.labels, MANAGED_LABELS);
    MergedMapTwice(latest.annotations, mutated.annotations, MANAGED_ANNOTATIONS);
  }

  /** `r` has every managed key and the finalizer as the controller wants them, and everything else as `latest`. */
  ghost predicate MergeOf(r: TaskRun, latest: TaskRun, mutated: TaskRun) {
    && (forall k :: k in MANAGED_LABELS ==> SameEntry(r.labels, mutated.labels, k))
    && (forall k :: k !in MANAGED_LABELS ==> SameEntry(r.labels, latest.labels, k))
    && (forall k :: k in MANAGED_ANNOTATIONS ==> SameEntry(r.annotations, mutated.annotations, k))
    && (forall k :: k !in MANAGED_ANNOTATIONS ==> SameEntry(r.annotations, latest.annotations, k))
    && Held(r) == Held(mutated)
    && Without(r.finalizers, PipelineFinalizer) == Without(latest.finalizers, PipelineFinalizer)
    && r == latest.(labels := r.labels, annotations := r.annotations, finalizers := r.finalizers)
  }

  /** The same presence and the same value. */
  predicate SameEntry(a: map<Key, string>, b: map<Key, string>, k: Key) {
    (k in a <==> k in b) && (k in a && k in b ==> a[k] == b[k])
  }

  lemma {:induction false} WithoutAppended(fs: seq<Finalizer>, f: Finalizer)
    ensures Without(fs + [f], f) == Without(fs, f)
  {
    if fs != [] {
      WithoutAppended(fs[1..], f);
      assert (fs + [f])[1..] == fs[1..] + [f];
    }
  }

  lemma {:induction false} WithoutTwice(fs: seq<Finalizer>, f: Finalizer)
    ensures Without(Without(fs, f), f) == Without(fs, f)
  {
    if fs != [] {
      WithoutTwice(fs[1..], f);
      if fs[0] != f {
        assert ([fs[0]] + Without(fs[1..], f))[1..] == Without(fs[1..], f);
      }
    }
  }

  lemma MergedEntry(latest: map<Key, string>, mutation: map<Key, string>, keys: set<Key>, k: Key)
    ensures SameEntry(MergedMap(latest, mutation, keys), if k in keys then mutation else latest, k)
  {
  }

  lemma MergedFinalizersIs(latest: TaskRun, mutated: TaskRun)
    ensures var r := MergedFinalizers(latest, mutated);
      && Held(r) == Held(mutated)
      && Without(r.finalizers, PipelineFinalizer) == Without(latest.finalizers, PipelineFinalizer)
      && r == latest.(finalizers := r.finalizers)
  {
    WithoutAppended(latest.finalizers, PipelineFinalizer);
    WithoutTwice(latest.finalizers, PipelineFinalizer);
    hide Without;
  }

  lemma MergeIsMergeOf(latest: TaskRun, mutated: TaskRun)
    ensures MergeOf(Merge(latest, mutated), latest, mutated)
  {
    hide MergedMap, Without, SameEntry, MergedFinalizers;
    var labels := MergedMap(latest.labels, mutated.labels, MANAGED_LABELS);
    var annotations := MergedMap(latest.annotations, mutated.annotations, MANAGED_ANNOTATIONS);
    MergedFinalizersIs(latest.(annotations := annotations, labels := labels), mutated);
    forall k ensures SameEntry(labels, if k in MANAGED_LABELS then mutated.labels else latest.labels, k) {
      MergedEntry(latest.labels, mutated.labels, MANAGED_LABELS, k);
    }
    forall k ensures SameEntry(annotations, if k in MANAGED_ANNOTATIONS then mutated.annotations else latest.annotations, k) {
      MergedEntry(latest.annotations, mutated.annotations, MANAGED_ANNOTATIONS, k);
    }
  }

  // ---- writes by others ------------------------------------------------------------------------

  /** The stored TaskRun after others have written `versions`, one after the other. */
  function Latest(tr: TaskRun, versions: seq<TaskRun>): TaskRun {
    if versions == [] then tr else versions[|versions| - 1]
  }

  /** One edit that turns a TaskRun into this version. */
  function AsEdit(tr: TaskRun): Edit {
    Edit(tr.labels, tr.annotations, tr.finalizers, tr.done, tr.succeeded, tr.deleting)
  }

  /** `later` is `tr` as others may leave it who do not touch the controller's keys and finalizer. */
  ghost predicate Edited(tr: TaskRun, later: TaskRun) {
    && (forall k: Key :: !k.Other? ==> SameEntry(tr.labels, later.labels, k) && SameEntry(tr.annotations, later.annotations, k))
    && Held(tr) == Held(later) && tr.platform == later.platform && tr.created == later.created
    && (tr.done ==> later.done && later.succeeded == tr.succeeded)
    && (tr.deleting ==> later.deleting)
  }

  lemma EditedMapIs(stored: map<Key, string>, later: map<Key, string>)
    requires forall k: Key :: !k.Other? ==> SameEntry(stored, later, k)
    ensures EditedMap(stored, later) == later
  {
    assert forall k :: k in later && !k.Other? ==> SameEntry(stored, later, k);
    assert forall k :: k in stored && !k.Other? ==> SameEntry(stored, later, k);
  }

  /** The versions such writers can produce are exactly the results of edits. */
  lemma EditedIffEdit(tr: TaskRun, later: TaskRun)
    ensures Edited(tr, later) <==> exists e :: later == ApplyEdit(tr, e)
    ensures Edited(tr, later) ==> later == ApplyEdit(tr, AsEdit(later))
  {
    if Edited(tr, later) {
      EditedMapIs(tr.labels, later.labels);
      EditedMapIs(tr.annotations, later.annotations);
      assert later == ApplyEdit(tr, AsEdit(later));
    } else if exists e :: later == ApplyEdit(tr, e) {
      var e :| later == ApplyEdit(tr, e);
      EditIsEdited(tr, e);
    }
  }

  lemma EditIsEdited(tr: TaskRun, e: Edit)
    ensures Edited(tr, ApplyEdit(tr, e))
  {
  }

  // ---- the retry loop -----------------------------------------------------------------------------

  /** One turn of the retry loop: what others write before the read, whether the read fails, what others write between
      the read and the update, and whether the update fails for a reason other than a conflict. */
  datatype Try = Try(before: seq<TaskRun>, getFails: bool, during: seq<TaskRun>, updateFails: bool)

  const STEPS: nat := 5

  function Retried(stored: TaskRun, tr: TaskRun, tries: seq<Try>): (TaskRun, Error)
    decreases tries
  {
    if tries == [] then (stored, Conflict)
    else
      var t := tries[0];
      var latest := Latest(stored, t.before);
      if t.getFails then (latest, OtherError)
      else if t.updateFails then (Latest(latest, t.during), OtherError)
      else if t.during == [] then (Merge(latest, tr), NoError)
      else Retried(Latest(latest, t.during), tr, tries[1..])
  }

  /** The stored TaskRun of one object and its resource version. */
  class Server {
    var stored: TaskRun
    var version: nat

    constructor (tr: TaskRun)
      ensures stored == tr
    {
      stored, version := tr, 0;
    }

    method WriteOthers(versions: seq<TaskRun>)
      modifies this
      ensures stored == Latest(old(stored), versions) && version == old(version) + |versions|
    {
      for i := 0 to |versions|
        invariant stored == Latest(old(stored), versions[..i]) && version == old(version) + i
      {
        stored, version := versions[i], version + 1;
      }
      assert versions[..|versions|] == versions;
    }

    /** An update of an object read at `readAt`. */
    method Update(tr: TaskRun, readAt: nat, fails: bool) returns (e: Error)
      modifies this
      ensures e == if fails then OtherError else if readAt != old(version) then Conflict else NoError
      ensures e == NoError ==> stored == StoredForm(old(stored), tr, Direct) && version == old(version) + 1
      ensures e != NoError ==> stored == old(stored) && version == old(version)
    {
      if fails {
        return OtherError;
      }
      if readAt != version {
        return Conflict;
      }
      stored, version := StoredForm(stored, tr, Direct), version + 1;
      return NoError;
    }

    method UpdateTaskRun(tr: TaskRun, t: Try) returns (e: Error)
      modifies this
      ensures e == if t.getFails || t.updateFails then OtherError else if t.during != [] then Conflict else NoError
      ensures stored == if e == NoError then Merge(Latest(old(stored), t.before), tr)
        else if t.getFails then Latest(old(stored), t.before) else Latest(Latest(old(stored), t.before), t.during)
    {
      hide Merge;
      WriteOthers(t.before);
      if t.getFails {
        return OtherError;
      }
      var latest, readAt := stored, version;
      var merged := MergeTaskRun(latest, tr);
      MergeParts(latest, tr);
      WriteOthers(t.during);
      e := Update(merged, readAt, t.updateFails);
    }

    /** The update with its retries; `during` and `fails` tell what happens to the first, plain update.
        The caller has read `tr` at the current version. */
    method UpdateTaskRunWithRetry(tr: TaskRun, during: seq<TaskRun>, fails: bool, tries: seq<Try>) returns (e: Error)
      requires |tries| == STEPS
      modifies this
      ensures fails ==> e == OtherError && stored == Latest(old(stored), during)
      ensures !fails && during == [] ==> e == NoError && stored == StoredForm(old(stored), tr, Direct)
      ensures !fails && during != [] ==> (stored, e) == Retried(Latest(old(stored), during), tr, tries)
    {
      hide Merge, StoredForm;
      var readAt := version;
      WriteOthers(during);
      e := Update(tr, readAt, fails);
      if e != Conflict {
        return;
      }
      ghost var base := stored;
      var n := 0;
      while n < STEPS && e == Conflict
        invariant 0 <= n <= STEPS
        invariant e == Conflict ==> Retried(base, tr, tries) == Retried(stored, tr, tries[n..])
        invariant e != Conflict ==> (stored, e) == Retried(base, tr, tries)
      {
        e := UpdateTaskRun(tr, tries[n]);
        assert tries[n..][1..] == tries[n + 1..];
        n := n + 1;
      }
    }
  }

  // ---- what a retried update leaves --------------------------------------------------------------------

  /** Everything others write during these tries, in order. */
  function WrittenDuring(tries: seq<Try>): seq<TaskRun> {
    if tries == [] then []
    else tries[0].before + tries[0].during + WrittenDuring(tries[1..])
  }

  /** The try ends in a conflict: somebody wrote between its read and its update. */
  predicate Disturbed(t: Try) {
    !t.getFails && !t.updateFails && t.during != []
  }

  /** The number of tries up to the first that does not end in a conflict. */
  function Conflicts(tries: seq<Try>): (n: nat)
    ensures n <= |tries| && (forall i :: 0 <= i < n ==> Disturbed(tries[i])) && (n < |tries| ==> !Disturbed(tries[n]))
  {
    if tries == [] || !Disturbed(tries[0]) then 0 else 1 + Conflicts(tries[1..])
  }

  /** What others have written before the last try reads: `earlier`, all of the tries that ended in a conflict, and
      what comes before the read. */
  function SeenByLast(earlier: seq<TaskRun>, tries: seq<Try>): seq<TaskRun>
    requires Conflicts(tries) < |tries|
  {
    var n := Conflicts(tries);
    earlier + WrittenDuring(tries[..n]) + tries[n].before
  }

  lemma LatestTwice(tr: TaskRun, a: seq<TaskRun>, b: seq<TaskRun>)
    ensures Latest(Latest(tr, a), b) == Latest(tr, a + b)
  {
  }

  /** Whatever others write: the first try that nobody disturbs stores the controller's managed keys and finalizer, and
      everything else from the last of all writes before it; a try that fails leaves the last of all writes so far; and
      if every try is disturbed, that is a conflict and the last write of all stays. */
  lemma {:induction false} RetryStores(stored: TaskRun, earlier: seq<TaskRun>, tr: TaskRun, tries: seq<Try>)
    ensures var (r, e) := Retried(Latest(stored, earlier), tr, tries); var n := Conflicts(tries);
      if n == |tries| then e == Conflict && r == Latest(stored, earlier + WrittenDuring(tries))
      else
        var seen := SeenByLast(earlier, tries);
        if tries[n].getFails then e == OtherError && r == Latest(stored, seen)
        else if tries[n].updateFails then e == OtherError && r == Latest(stored, seen + tries[n].during)
        else e == NoError && r == Merge(Latest(stored, seen), tr) && MergeOf(r, Latest(stored, seen), tr)
    decreases tries
  {
    hide MergeOf, Merge, Latest;
    if tries == [] {
      assert earlier + [] == earlier;
    } else {
      var t := tries[0];
      LatestTwice(stored, earlier, t.before);
      LatestTwice(stored, earlier + t.before, t.during);
      if Disturbed(t) {
        RetryStores(stored, earlier + t.before + t.during, tr, tries[1..]);
        WrittenFirst(earlier, tries);
      } else {
        assert earlier + WrittenDuring(tries[..0]) + t.before == earlier + t.before;
        MergeIsMergeOf(Latest(stored, earlier + t.before), tr);
      }
    }
  }

  lemma WrittenFirst(earlier: seq<TaskRun>, tries: seq<Try>)
    requires tries != [] && Disturbed(tries[0])
    ensures var t := tries[0]; var first := earlier + t.before + t.during; var n := Conflicts(tries);
      && n == 1 + Conflicts(tries[1..])
      && first + WrittenDuring(tries[1..]) == earlier + WrittenDuring(tries)
      && (n < |tries| ==> SeenByLast(first, tries[1..]) == SeenByLast(earlier, tries) && tries[1..][n - 1] == tries[n])
  {
    hide WrittenDuring, Conflicts;
    var t := tries[0];
    ConflictsStep(tries);
    var n := Conflicts(tries);
    WrittenStep(tries, |tries|);
    assert tries[..|tries|] == tries && tries[1..][..|tries| - 1] == tries[1..];
    Regroup(earlier, t.before, t.during, WrittenDuring(tries[1..]));
    if n < |tries| {
      WrittenStep(tries, n);
      Regroup(earlier, t.before, t.during, WrittenDuring(tries[1..][..n - 1]));
    }
  }

  lemma ConflictsStep(tries: seq<Try>)
    requires tries != [] && Disturbed(tries[0])
    ensures Conflicts(tries) == 1 + Conflicts(tries[1..])
  {
  }

  lemma WrittenStep(tries: seq<Try>, n: nat)
    requires 0 < n <= |tries|
    ensures WrittenDuring(tries[..n]) == tries[0].before + tries[0].during + WrittenDuring(tries[1..][..n - 1])
  {
    assert tries[..n][1..] == tries[1..][..n - 1] && tries[..n][0] == tries[0];
  }

  lemma Regroup(a: seq<TaskRun>, b: seq<TaskRun>, c: seq<TaskRun>, d: seq<TaskRun>)
    ensures a + b + c + d == a + (b + c + d)
  {
  }

  /** The result of a write as the rest of the model sees it. */
  function SeenAs(latest: TaskRun, e: Error): Write {
    if e == NoError then Merged(AsEdit(latest)) else if e == Conflict then WriteConflict else WriteError
  }

  /** The version that an accepted try merges into, or that a refused update leaves. */
  function LeftByOthers(stored: TaskRun, during: seq<TaskRun>, tries: seq<Try>): TaskRun {
    var n := Conflicts(tries);
    Latest(stored, if n == |tries| then during + WrittenDuring(tries)
                   else if tries[n].updateFails && !tries[n].getFails then SeenByLast(during, tries) + tries[n].during
                   else SeenByLast(during, tries))
  }

  /** If the others leave the controller's keys alone, a retried update is one of the outcomes of a write: accepted in
      merged form, or refused with the TaskRun as others left it. */
  lemma RetryRefinesWrite(stored: TaskRun, tr: TaskRun, during: seq<TaskRun>, tries: seq<Try>)
    requires forall v :: v in during + WrittenDuring(tries) ==> Edited(stored, v)
    ensures var (r, e) := Retried(Latest(stored, during), tr, tries);
      var latest := LeftByOthers(stored, during, tries); var wr := SeenAs(latest, e);
      && (e == NoError ==> r == StoredForm(stored, tr, wr) && wr.Merged?)
      && (e != NoError ==> r == ApplyEdit(stored, AsEdit(latest)) && WriteFault(wr) == e)
  {
    hide Merge, MergeOf, Edited, ApplyEdit, LeftByOthers, WrittenDuring, Retried, Latest;
    RetryLeaves(stored, during, tr, tries);
    LeftIsWritten(stored, during, tries);
    var latest := LeftByOthers(stored, during, tries);
    NotEdited(stored);
    EditedIffEdit(stored, latest);
  }

  lemma RetryLeaves(stored: TaskRun, during: seq<TaskRun>, tr: TaskRun, tries: seq<Try>)
    ensures var (r, e) := Retried(Latest(stored, during), tr, tries); var latest := LeftByOthers(stored, during, tries);
      r == (if e == NoError then Merge(latest, tr) else latest) && e in {NoError, Conflict, OtherError}
  {
    hide Merge, MergeOf, Latest, WrittenDuring, Retried, Conflicts, SeenByLast;
    RetryStores(stored, during, tr, tries);
  }

  lemma LeftIsWritten(stored: TaskRun, during: seq<TaskRun>, tries: seq<Try>)
    ensures var latest := LeftByOthers(stored, during, tries); latest == stored || latest in during + WrittenDuring(tries)
  {
    var n := Conflicts(tries);
    if n < |tries| {
      WrittenPrefix(tries, n);
      hide WrittenDuring, Conflicts;
      var begun := WrittenDuring(tries[..n]) + tries[n].before;
      LatestWithin(stored, during, begun, WrittenDuring(tries));
      LatestWithin(stored, during, begun + tries[n].during, WrittenDuring(tries));
      assert SeenByLast(during, tries) == during + begun;
      assert SeenByLast(during, tries) + tries[n].during == during + (begun + tries[n].during);
    } else {
      LatestWithin(stored, during, WrittenDuring(tries), WrittenDuring(tries));
    }
  }

  lemma LatestWithin(stored: TaskRun, a: seq<TaskRun>, b: seq<TaskRun>, c: seq<TaskRun>)
    requires b <= c
    ensures Latest(stored, a + b) == stored || Latest(stored, a + b) in a + c
  {
    if a + b != [] {
      assert (a + b)[|a + b| - 1] == (a + c)[|a + b| - 1];
    }
  }

  lemma {:induction false} WrittenPrefix(tries: seq<Try>, n: nat)
    requires n < |tries|
    ensures WrittenDuring(tries[..n]) + tries[n].before + tries[n].during <= WrittenDuring(tries)
  {
    if n > 0 {
      WrittenPrefix(tries[1..], n - 1);
      WrittenStep(tries, n);
      var first := tries[0].before + tries[0].during;
      assert WrittenDuring(tries) == first + WrittenDuring(tries[1..]);
      hide WrittenDuring;
      PrefixAfter(first, WrittenDuring(tries[1..][..n - 1]) + tries[n].before + tries[n].during, WrittenDuring(tries[1..]));
      assert first + WrittenDuring(tries[1..][..n - 1]) + tries[n].before + tries[n].during ==
             first + (WrittenDuring(tries[1..][..n - 1]) + tries[n].before + tries[n].during);
    }
  }

  lemma PrefixAfter(a: seq<TaskRun>, b: seq<TaskRun>, c: seq<TaskRun>)
    requires b <= c
    ensures a + b <= a + c
  {
  }

  lemma NotEdited(tr: TaskRun)
    ensures Edited(tr, tr)
  {
  }
}
