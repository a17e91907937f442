/** An auto-scaling pool of shared instances with a maximum age: pkg/reconciler/taskrun/dynamicpool.go. */
module DynamicPools {
  import opened TaskRuns
  import opened Platforms
  import opened Cluster
  import opened HostPools

  predicate Expired(w: World, i: string, maxAge: int) {
    i in w.fleet && w.fleet[i].start + maxAge < w.clock
  }

  function Listed(w: World, p: PlatformConfig, c: Calls): set<string>
    requires p.DynamicHostPool?
  {
    c.reachable * Counted(w, p)
  }

  function Old(w: World, p: PlatformConfig, c: Calls): set<string>
    requires p.DynamicHostPool?
  {
    set i | i in Listed(w, p, c) && Expired(w, i, p.maxAge)
  }

  /** The pool's usable hosts. A host is addressed by its instance id. */
  function PoolHosts(w: World, p: PlatformConfig, c: Calls): map<string, Host>
    requires p.DynamicHostPool?
  {
    map i | i in Listed(w, p, c) && !Expired(w, i, p.maxAge) ::
      Host(i, i, "", p.platform, p.sshSecret, p.concurrency)
  }

  /** The expired instances found idle, which the pass shuts down. */
  function Retired(w: World, p: PlatformConfig, c: Calls): set<string>
    requires p.DynamicHostPool?
  {
    set i | i in Old(w, p, c) && i !in c.idleUnknown && Idle(w, i)
  }

  /** Expired instances that ListInstances does not report, because they cannot be reached. */
  function Unlisted(w: World, p: PlatformConfig, c: Calls): set<string>
    requires p.DynamicHostPool?
  {
    set i | i in Counted(w, p) && Expired(w, i, p.maxAge) && i !in c.reachable
  }

  /** Instances stopped in the pass that CountInstances no longer counts. */
  function Forgotten(w: World, p: PlatformConfig, c: Calls): set<string>
    requires p.DynamicHostPool?
  {
    Retired(w, p, c) * c.gone
  }

  /** The pass subtracts more instances that are no longer counted than it overlooks expired ones. */
  predicate Undercounts(w: World, p: PlatformConfig, c: Calls)
    requires p.DynamicHostPool?
  {
    |Forgotten(w, p, c)| > |Unlisted(w, p, c)|
  }

  function Sweep(w: World, p: PlatformConfig, c: Calls): World
    requires p.DynamicHostPool?
  {
    w.(stopped := w.stopped + Retired(w, p, c), live := w.live - Retired(w, p, c) * c.gone)
  }

  /** DynamicHostPool.Allocate. */
  ghost function PoolAllocate(w: World, u: UserId, tr: TaskRun, p: PlatformConfig, c: Calls): Outcome
    requires p.DynamicHostPool?
  {
    if c.instancesFail then Outcome(w, tr, OtherError)
    else
      var hosts := PoolHosts(w, p, c);
      var w1 := Sweep(w, p, c);
      if hosts == map[] then Scale(w, w1, u, tr, p, NoError, c)
      else
        var o := HostPoolAllocate(w1, u, tr, hosts, p.platform, c);
        if o.error != NoError && o.error != AllHostsFailed then o
        else if o.error == NoError && WaitingOf(o.tr) == "" then o
        else Scale(w, o.world, u, o.tr, p, o.error, c)
  }

  /** Launch another instance unless the pool is full. `w` is the world at the start of the pass,
      `w1` the world now. */
  function Scale(w: World, w1: World, u: UserId, tr: TaskRun, p: PlatformConfig, earlier: Error, c: Calls): Outcome
    requires p.DynamicHostPool?
  {
    if c.countFails then Outcome(w1, tr, OtherError)
    else if |Counted(w1, p)| - |Old(w, p, c)| >= p.maxInstances then Outcome(w1, tr, earlier)
    else if c.randomFails then Outcome(w1, tr, OtherError)
    else
      var tr' := DropLabel(tr, WaitingForPlatform);
      if !Launches(p, c) then Outcome(w1, tr', OtherError)
      else
        var w2 := Boot(w1, c.launch.id, NewMachine(p, u, c, w1.clock));
        Outcome(if Undercounts(w, p, c) then w2.(undercounted := w2.undercounted + {p.platform}) else w2, tr', NoError)
  }

  /** DynamicHostPool.Deallocate. */
  ghost function PoolDeallocate(w: World, u: UserId, p: PlatformConfig, selected: string, c: Calls): (World, Error)
    requires p.DynamicHostPool?
  {
    if c.instancesFail then (w, OtherError)
    else
      var hosts := PoolHosts(w, p, c);
      var (w1, e) := HostPoolDeallocate(Sweep(w, p, c), u, hosts, p.platform, selected, c);
      if e != NoError then (w1, e)
      else if |Old(w, p, c)| == 0 || selected in hosts then (w1, NoError)
      else if selected in c.idleUnknown then (w1, OtherError)
      else if !Idle(w1, selected) then (w1, NoError)
      else (Stop(w1, selected, c.terminate && selected in c.gone), if c.terminate then NoError else OtherError)
  }
}
