/** The loops that look at the cluster without changing it. Lists from the API server and Go maps are
    walked in an arbitrary order. */
module HostSelection {
  import opened Text
  import opened TaskRuns
  import opened Platforms
  import opened Cluster
  import opened HostPools
  import opened Reconcile

  function CountOf(count: map<string, int>, h: string): int {
    if h in count then count[h] else 0
  }

  /** Of `ids`, the user tasks labelled with host `h`. */
  function OnHost(w: World, ids: set<TaskId>, h: string): set<TaskId>
    requires ids <= w.tasks.Keys
  {
    set id | id in ids && KindOf(w.tasks[id]) == "" && HostOf(w.tasks[id]) == h
  }

  lemma OneMoreOnHost(w: World, ids: set<TaskId>, id: TaskId, h: string)
    requires ids <= w.tasks.Keys && id in w.tasks && id !in ids
    ensures |OnHost(w, ids + {id}, h)| == |OnHost(w, ids, h)| +
      if KindOf(w.tasks[id]) == "" && HostOf(w.tasks[id]) == h then 1 else 0
  {
    if KindOf(w.tasks[id]) == "" && HostOf(w.tasks[id]) == h {
      assert OnHost(w, ids + {id}, h) == OnHost(w, ids, h) + {id};
    } else {
      assert OnHost(w, ids + {id}, h) == OnHost(w, ids, h);
    }
  }

  lemma OnHostEnds(w: World, h: string)
    ensures |OnHost(w, {}, h)| == 0
    ensures OnHost(w, Labelled(w), h) == AssignedTo(w, h)
  {
    assert OnHost(w, {}, h) == {};
  }

  /** The TaskRuns that carry an assigned-host label. */
  function Labelled(w: World): (ids: set<TaskId>)
    ensures ids <= w.tasks.Keys
  {
    set id | id in w.tasks && AssignedHost in w.tasks[id].labels
  }

  /** The counting loop of HostPool.Allocate. */
  method CountAssigned(w: World) returns (count: map<string, int>)
    ensures forall h :: CountOf(count, h) == |AssignedTo(w, h)|
  {
    hide OnHost, Labelled, AssignedTo, HostOf, KindOf;
    count := map[];
    var todo, seen := Labelled(w), {};
    forall h ensures CountOf(count, h) == |OnHost(w, seen, h)| {
      OnHostEnds(w, h);
    }
    while todo != {}
      invariant seen + todo == Labelled(w) && seen !! todo
      invariant forall h :: CountOf(count, h) == |OnHost(w, seen, h)|
      decreases |todo|
    {
      var id :| id in todo;
      var tr := w.tasks[id];
      forall h ensures |OnHost(w, seen + {id}, h)| == |OnHost(w, seen, h)| + if KindOf(tr) == "" && HostOf(tr) == h then 1 else 0 {
        OneMoreOnHost(w, seen, id, h);
      }
      if KindOf(tr) == "" {
        count := count[HostOf(tr) := CountOf(count, HostOf(tr)) + 1];
      }
      todo, seen := todo - {id}, seen + {id};
    }
    assert seen == Labelled(w);
    forall h ensures AssignedTo(w, h) == OnHost(w, seen, h) {
      OnHostEnds(w, h);
    }
  }

  /** The selection loop: the first host with the most free slots among those that match the platform and have not
      failed, and the two flags that tell apart why there is none. */
  method SelectHost(w: World, hosts: map<string, Host>, platform: string, failed: seq<string>)
    returns (selected: Option<string>, found: bool, allFailed: bool)
    ensures found <==> exists k :: Matching(hosts, platform, k)
    ensures allFailed <==> forall k :: Matching(hosts, platform, k) ==> k in failed
    ensures selected.Some? ==> Best(w, hosts, platform, failed, selected.value)
    ensures selected.None? <==> NoneFree(w, hosts, platform, failed)
  {
    var count := CountAssigned(w);
    hide AssignedTo;
    selected, found, allFailed := None, false, true;
    var freeSpots := 0;
    var todo := hosts.Keys;
    while todo != {}
      invariant todo <= hosts.Keys
      invariant found <==> exists k :: Matching(hosts, platform, k) && k !in todo
      invariant allFailed <==> forall k :: Matching(hosts, platform, k) && k !in todo ==> k in failed
      invariant selected.Some? ==> Candidate(hosts, platform, failed, selected.value) && freeSpots == Free(w, hosts, selected.value)
      invariant selected.None? <==> freeSpots == 0
      invariant freeSpots >= 0
      invariant forall k :: Candidate(hosts, platform, failed, k) && k !in todo ==> Free(w, hosts, k) <= freeSpots
      decreases |todo|
    {
      var k :| k in todo;
      todo := todo - {k};
      if hosts[k].platform == platform {
        assert Matching(hosts, platform, k);
        found := true;
        if k !in failed {
          allFailed := false;
          var free := hosts[k].concurrency - CountOf(count, k);
          if free > freeSpots {
            selected, freeSpots := Some(k), free;
          }
        }
      }
    }
  }

  /** The loop of handleWaitingTasks. */
  method OldestTask(w: World, platform: string) returns (oldest: Option<TaskId>)
    ensures oldest.None? <==> forall id :: id in w.tasks ==> !WaitsFor(w.tasks[id], platform)
    ensures oldest.Some? ==> OldestWaiting(w, platform, oldest.value)
  {
    oldest := None;
    var todo := set id | id in w.tasks && WaitsFor(w.tasks[id], platform);
    while todo != {}
      invariant todo <= w.tasks.Keys
      invariant forall id :: id in todo ==> WaitsFor(w.tasks[id], platform)
      invariant oldest.None? ==> forall id :: id in w.tasks && WaitsFor(w.tasks[id], platform) ==> id in todo
      invariant oldest.Some? ==> oldest.value in w.tasks && WaitsFor(w.tasks[oldest.value], platform)
      invariant oldest.Some? ==> forall id :: id in w.tasks && WaitsFor(w.tasks[id], platform) && id !in todo ==>
        w.tasks[oldest.value].created <= w.tasks[id].created
      decreases |todo|
    {
      var id :| id in todo;
      todo := todo - {id};
      if oldest.None? || w.tasks[oldest.value].created > w.tasks[id].created {
        oldest := Some(id);
      }
    }
  }

  /** The capacity that getPlatformConfig registers for a static pool. */
  ghost function Capacity(hosts: map<string, Host>): int {
    if hosts == map[] then 0 else var h :| h in hosts; hosts[h].concurrency + Capacity(hosts - {h})
  }

  /** The order in which the hosts are added up does not matter. */
  lemma {:induction false} CapacityWithout(hosts: map<string, Host>, h: string)
    requires h in hosts
    ensures Capacity(hosts) == hosts[h].concurrency + Capacity(hosts - {h})
    decreases |hosts|
  {
    var first :| first in hosts && Capacity(hosts) == hosts[first].concurrency + Capacity(hosts - {first});
    if first != h {
      CapacityWithout(hosts - {first}, h);
      CapacityWithout(hosts - {h}, first);
      assert hosts - {first} - {h} == hosts - {h} - {first};
    }
  }

  method PlatformCapacity(hosts: map<string, Host>) returns (total: int)
    ensures total == Capacity(hosts)
  {
    total := 0;
    var rest := hosts;
    while rest != map[]
      invariant total + Capacity(rest) == Capacity(hosts)
      decreases |rest|
    {
      var h :| h in rest;
      CapacityWithout(rest, h);
      total := total + rest[h].concurrency;
      rest := rest - {h};
    }
  }
}
