/** Allocation from a fixed set of hosts: pkg/reconciler/taskrun/hostpool.go. */
module HostPools {
  import opened Text
  import opened TaskRuns
  import opened Platforms
  import opened Cluster

  // ---- choosing a host ----------------------------------------------------------------

  predicate Matching(hosts: map<string, Host>, platform: string, k: string) {
    k in hosts && hosts[k].platform == platform
  }

  predicate Candidate(hosts: map<string, Host>, platform: string, failed: seq<string>, k: string) {
    Matching(hosts, platform, k) && k !in failed
  }

  function Free(w: World, hosts: map<string, Host>, k: string): int
    requires k in hosts
  {
    hosts[k].concurrency - |AssignedTo(w, k)|
  }

  /** `k` has a free slot and no other candidate has more. */
  ghost predicate Best(w: World, hosts: map<string, Host>, platform: string, failed: seq<string>, k: string) {
    && Candidate(hosts, platform, failed, k)
    && Free(w, hosts, k) > 0
    && forall j :: Candidate(hosts, platform, failed, j) ==> Free(w, hosts, j) <= Free(w, hosts, k)
  }

  ghost predicate NoneFree(w: World, hosts: map<string, Host>, platform: string, failed: seq<string>) {
    forall k :: Candidate(hosts, platform, failed, k) ==> Free(w, hosts, k) <= 0
  }

  lemma {:induction false} BestAmong(w: World, hosts: map<string, Host>, ks: set<string>, seed: string) returns (k: string)
    requires seed in ks && ks <= hosts.Keys
    ensures k in ks
    ensures forall j :: j in ks ==> Free(w, hosts, j) <= Free(w, hosts, k)
    decreases |ks|
  {
    var rest := ks - {seed};
    if rest == {} {
      assert ks == {seed};
      k := seed;
    } else {
      var other :| other in rest;
      var k' := BestAmong(w, hosts, ks - {other}, seed);
      k := if Free(w, hosts, other) <= Free(w, hosts, k') then k' else other;
    }
  }

  lemma BestExists(w: World, hosts: map<string, Host>, platform: string, failed: seq<string>)
    requires !NoneFree(w, hosts, platform, failed)
    ensures exists k :: Best(w, hosts, platform, failed, k)
  {
    var ks := set k | k in hosts && Candidate(hosts, platform, failed, k);
    var seed :| Candidate(hosts, platform, failed, seed) && Free(w, hosts, seed) > 0;
    var k := BestAmong(w, hosts, ks, seed);
    assert Best(w, hosts, platform, failed, k);
  }

  /** The host a walk over the map settles on: the order of the walk decides between
      equally free hosts, which `pick` stands for. */
  ghost function Chosen(w: World, hosts: map<string, Host>, platform: string, failed: seq<string>, pick: string): (k: string)
    requires !NoneFree(w, hosts, platform, failed)
    ensures Best(w, hosts, platform, failed, k)
  {
    if Best(w, hosts, platform, failed, pick) then pick
    else
      BestExists(w, hosts, platform, failed);
      var k :| Best(w, hosts, platform, failed, k); k
  }

  // ---- HostPool.Allocate -----------------------------------------------------------------

  ghost function HostPoolAllocate(w: World, u: UserId, tr: TaskRun, hosts: map<string, Host>, platform: string, c: Calls): Outcome {
    var failed := Split(FailedHostList(tr), ',');
    if hosts == map[] || c.listFails then Outcome(w, tr, OtherError)
    else if forall k :: k in hosts ==> !Matching(hosts, platform, k) then Outcome(w, tr, OtherError)
    else if forall k :: Matching(hosts, platform, k) ==> k in failed then Outcome(w, tr, AllHostsFailed)
    else if NoneFree(w, hosts, platform, failed) then AwaitHost(w, u, tr, platform, c)
    else AssignHost(w, u, tr, hosts[Chosen(w, hosts, platform, failed, c.pick)], platform, c)
  }

  function AwaitHost(w: World, u: UserId, tr: TaskRun, platform: string, c: Calls): Outcome {
    if WaitingOf(tr) == PlatformLabel(platform) then Outcome(w, tr, NoError)
    else
      var tr' := SetLabel(tr, WaitingForPlatform, PlatformLabel(platform));
      Outcome(Save(w, User(u), tr', c.write), tr', if Accepted(w, User(u), c.write) then NoError else WriteFault(c.write))
  }

  function AssignHost(w: World, u: UserId, tr: TaskRun, host: Host, platform: string, c: Calls): Outcome {
    var tr1 := AddFinalizer(DropLabel(SetLabel(tr, AssignedHost, host.name), WaitingForPlatform));
    var w1 := Save(w, User(u), tr1, c.write);
    if !Accepted(w, User(u), c.write) then Outcome(w1, tr1, WriteFault(c.write))
    else
      var o := LaunchProvisioning(w1, u, tr1, host.address, platform, c);
      if o.error == NoError then o
      else
        var tr2 := RemoveFinalizer(DropLabel(o.tr, AssignedHost));
        Outcome(Save(o.world, User(u), tr2, c.rewrite), tr2, OtherError)
  }

  // ---- HostPool.Deallocate ----------------------------------------------------------------

  function CleanRun(u: UserId, platform: string): TaskRun {
    TaskRun(map[TaskType := "clean", UserTaskName := u.name, UserTaskNamespace := u.ns,
                TargetPlatform := PlatformLabel(platform)],
            map[], [], "", 0, false, false, false)
  }

  /** A cleanup task of this user task and platform is already there. */
  ghost predicate CleanExists(w: World, u: UserId, platform: string) {
    exists id :: id in w.tasks && CleanRun(u, platform).labels.Items <= w.tasks[id].labels.Items
  }

  ghost function HostPoolDeallocate(w: World, u: UserId, hosts: map<string, Host>, platform: string, selected: string, c: Calls): (World, Error) {
    if selected !in hosts || (!c.cleanListFails && CleanExists(w, u, platform)) then (w, NoError)
    else
      var id := Clean(u, hosts[selected].address);
      if id in w.tasks || !c.cleanCreate then (w, OtherError)
      else (w.(tasks := w.tasks[id := CleanRun(u, platform)]), NoError)
  }

  // ---- Local ---------------------------------------------------------------------------------

  /** Local.Allocate: the update is a plain one, so a conflict is returned as it is. */
  function LocalAllocate(w: World, u: UserId, tr: TaskRun, c: Calls): Outcome {
    var tr1 := AddFinalizer(SetLabel(tr, AssignedHost, "localhost"));
    if !(User(u) in w.tasks && c.write.Direct?) then
      Outcome(w, tr1, if c.write.Merged? then Conflict else WriteFault(c.write))
    else
      var w1 := Save(w, User(u), tr1, Direct);
      if u in w1.secrets then Outcome(w1, tr1, NoError)
      else if !c.earlyCreate then Outcome(w1, tr1, OtherError)
      else Outcome(w1.(secrets := w1.secrets + {u}), tr1, NoError)
  }

  // ---- the failed-hosts list ------------------------------------------------------------------

  /** The list a TaskRun's failed-hosts annotation stands for when a failure is added to it. */
  function FailedNames(text: string): seq<string> {
    var failed := Split(text, ',');
    if failed[0] == "" then [] else failed
  }

  function WithFailure(text: string, host: string): string {
    Join(FailedNames(text) + [host], ',')
  }
}
