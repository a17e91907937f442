/** Two pools that find the same instance and disagree on its age: one shuts it down, the other gives it a task. */
module TagConfusion {
  import opened Text
  import opened TaskRuns
  import opened Platforms
  import opened Cluster
  import opened HostPools
  import opened DynamicPools
  import opened PoolCounting
  import opened Reconcile
  import opened Safety
  import opened InstanceTags
  import opened Machine
  import opened Effects
  import opened Scenarios
  import opened Outcomes
  import Shutdowns

  // ---- a pool gives its only usable host to a new task ----------------------------------------------

  lemma AssignSucceeds(w: World, u: UserId, tr: TaskRun, host: Host, platform: string, c: Calls)
    requires User(u) in w.tasks && c.write.Direct? && c.sshSecretFound && c.provisionCreate
    ensures var o := AssignHost(w, u, tr, host, platform, c); o.error == NoError && WaitingOf(o.tr) == ""
  {
    hide StoredForm, ProvisionRun;
  }

  lemma OnlyHostIsBest(w: World, hosts: map<string, Host>, platform: string, i: string, pick: string)
    requires hosts.Keys == {i} && i != "" && hosts[i].platform == platform && hosts[i].concurrency >= 1
    requires forall id :: id in w.tasks ==> HostOf(w.tasks[id]) != i
    ensures !NoneFree(w, hosts, platform, [""]) && Chosen(w, hosts, platform, [""], pick) == i
  {
    assert AssignedTo(w, i) == {};
    hide AssignedTo;
    assert Candidate(hosts, platform, [""], i) && Free(w, hosts, i) >= 1;
    assert Best(w, hosts, platform, [""], Chosen(w, hosts, platform, [""], pick));
  }

  lemma PoolAssigns(w: World, u: UserId, tr: TaskRun, pc: PlatformConfig, c: Calls, i: string)
    requires pc.DynamicHostPool? && !c.instancesFail && !c.listFails && c.write.Direct? && c.sshSecretFound && c.provisionCreate
    requires User(u) in w.tasks && FailedHostList(tr) == ""
    requires i != "" && PoolHosts(w, pc, c) == map[i := Host(i, i, "", pc.platform, pc.sshSecret, pc.concurrency)]
    requires pc.concurrency >= 1 && forall id :: id in w.tasks ==> HostOf(w.tasks[id]) != i
    ensures var o := PoolAllocate(w, u, tr, pc, c);
      o.error == NoError && User(u) in o.world.tasks && HostOf(o.world.tasks[User(u)]) == i && w.stopped <= o.world.stopped
      && o.world.fleet == w.fleet
  {
    var hosts, w1 := PoolHosts(w, pc, c), Sweep(w, pc, c);
    SweepFrame(w, pc, c);
    assert Split("", ',') == [""];
    hide PoolHosts, Sweep, AssignHost, Split, Scale, Retired, Chosen, NoneFree;
    OnlyHostIsBest(w1, hosts, pc.platform, i, c.pick);
    assert Matching(hosts, pc.platform, i) && i !in [""];
    AssignSucceeds(w1, u, tr, hosts[i], pc.platform, c);
    Shutdowns.AssignHostStops(w1, u, tr, hosts[i], pc.platform, c);
    AssignHostOutcome(w1, u, tr, hosts[i], pc.platform, c);
  }

  // ---- two pools and one instance ----------------------------------------------------------------------

  /** Both pools find the instance, and `brief` lets it get less old than `lasting`. */
  ghost predicate Disagree(cfg: Settings, brief: string, lasting: string, m: Cluster.Machine) {
    && Pooled(cfg, brief) && Pooled(cfg, lasting) && brief != lasting
    && Finds(cfg[brief], m) && Finds(cfg[lasting], m)
    && 0 <= cfg[brief].maxAge < cfg[lasting].maxAge
    && Usable(cfg, brief) && Usable(cfg, lasting)
  }

  /** The entry is for its own valid platform, has room, and can launch. */
  predicate Usable(cfg: Settings, p: string)
    requires Pooled(cfg, p)
  {
    && cfg[p].platform == p && Validation.ValidPlatformFormat(p) && CanName(cfg[p])
    && cfg[p].maxInstances >= 1 && cfg[p].concurrency >= 1
  }

  /** Only the instance `b` exists, it was started at 0, and no task has a host. */
  ghost predicate Only(w: World, b: string, m: Cluster.Machine) {
    && w.fleet == map[b := m] && w.live == {b} && w.stopped == {} && w.secrets == {} && m.start == 0 && b != ""
    && forall id :: id in w.tasks ==> HostOf(w.tasks[id]) == "" && AssignedHost !in w.tasks[id].labels
  }

  /** A reconcile in which every call succeeds and the new instance would get this hash. */
  function Pass(reachable: set<string>, id: string, hash: Hash): Calls {
    Smooth(reachable, {}, id).(launch := Launched(id, hash))
  }

  /** The first pass for a pool launches `b`. */
  lemma Begins(cfg: Settings, p: string, u: UserId, w: World, b: string, hash: Hash)
    requires Pooled(cfg, p) && Usable(cfg, p) && w == Arrive(EMPTY, u, New(p)) && b != ""
    ensures var w' := ReconcileUser(cfg, w, u, Pass({}, b, hash)).world;
      Only(w', b, NewMachine(cfg[p], u, Pass({}, b, hash), 0)) && w'.tasks == w.tasks && w'.clock == 0
  {
    hide ReconcileUser, PoolAllocate, Counted, PoolHosts, Old, Retired, Sweep, Validation.ValidPlatformFormat, CanName, MarkFor, Labelled, Undercounts;
    var pc, c := cfg[p], Pass({}, b, hash);
    NothingYet(w, pc, c);
    LabelledIsNew(p);
    NewTaskAllocates(cfg, w, u, p, c);
    EmptyPoolLaunches(w, u, Labelled(p), pc, c);
    assert AssignedHost !in New(p).labels;
  }

  lemma NothingYet(w: World, pc: PlatformConfig, c: Calls)
    requires pc.DynamicHostPool? && w.fleet == map[]
    ensures Counted(w, pc) == {} && PoolHosts(w, pc, c) == map[] && Old(w, pc, c) == {} && Sweep(w, pc, c) == w && !Undercounts(w, pc, c)
  {
    assert Counted(w, pc) == {} && Listed(w, pc, c) == {} && PoolHosts(w, pc, c) == map[] && Old(w, pc, c) == {} && Retired(w, pc, c) == {};
    hide Counted, PoolHosts, Old, Retired;
    assert Forgotten(w, pc, c) == {};
  }

  lemma ShutterSees(cfg: Settings, brief: string, w: World, b: string, m: Cluster.Machine, c: Calls)
    requires Pooled(cfg, brief) && Finds(cfg[brief], m) && Only(w, b, m) && cfg[brief].maxAge < w.clock
    requires c.reachable == {b} && c.gone == {} && c.idleUnknown == {}
    ensures var pc := cfg[brief];
      && Retired(w, pc, c) == {b} && Old(w, pc, c) == {b} && PoolHosts(w, pc, c) == map[]
      && Counted(Sweep(w, pc, c), pc) == {b}
  {
    var pc := cfg[brief];
    assert Counted(w, pc) == {b};
    assert Listed(w, pc, c) == {b};
    assert Expired(w, b, pc.maxAge) && Idle(w, b);
    hide Idle, Finds;
    assert Old(w, pc, c) == {b};
    assert Retired(w, pc, c) == {b};
    assert PoolHosts(w, pc, c) == map[];
    SweepFrame(w, pc, c);
    hide Sweep, Old, Retired, PoolHosts, Listed;
    assert Counted(Sweep(w, pc, c), pc) == Counted(w, pc);
  }

  /** The pool for which `b` is too old shuts it down. */
  lemma Shuts(cfg: Settings, brief: string, w: World, b: string, m: Cluster.Machine, v: UserId, id: string, hash: Hash)
    requires Pooled(cfg, brief) && Usable(cfg, brief) && Finds(cfg[brief], m) && Only(w, b, m) && cfg[brief].maxAge < w.clock
    requires User(v) in w.tasks && w.tasks[User(v)] == New(brief) && id != b
    ensures var w' := ReconcileUser(cfg, w, v, Pass({b}, id, hash)).world;
      && b in w'.stopped && b in w'.live && b in w'.fleet && w'.fleet[b] == m
      && w'.tasks == w.tasks && w'.secrets == {} && w'.clock == w.clock
  {
    var pc, c := cfg[brief], Pass({b}, id, hash);
    ShutterSees(cfg, brief, w, b, m, c);
    SweepFrame(w, pc, c);
    hide ReconcileUser, PoolAllocate, Counted, PoolHosts, Old, Retired, Sweep, Validation.ValidPlatformFormat, CanName, NewMachine, Labelled, Undercounts, Finds;
    NewTaskAllocates(cfg, w, v, brief, c);
    EmptyPoolLaunches(w, v, Labelled(brief), pc, c);
  }

  lemma GiverSees(cfg: Settings, lasting: string, w: World, b: string, c: Calls)
    requires Pooled(cfg, lasting) && cfg[lasting].platform == lasting && b in w.fleet && b in w.live
    requires Finds(cfg[lasting], w.fleet[b]) && w.clock <= w.fleet[b].start + cfg[lasting].maxAge && c.reachable == {b}
    ensures var pc := cfg[lasting];
      PoolHosts(w, pc, c) == map[b := Host(b, b, "", pc.platform, pc.sshSecret, pc.concurrency)]
  {
    hide Finds;
    assert Listed(w, cfg[lasting], c) == {b};
    assert !Expired(w, b, cfg[lasting].maxAge);
  }

  /** The pool for which `b` is young enough gives it to a task. */
  lemma Gives(cfg: Settings, lasting: string, w: World, b: string, x: UserId, id: string, hash: Hash)
    requires Pooled(cfg, lasting) && Usable(cfg, lasting) && b in w.fleet && b in w.live && Finds(cfg[lasting], w.fleet[b]) && b != ""
    requires w.clock <= w.fleet[b].start + cfg[lasting].maxAge && w.secrets == {}
    requires User(x) in w.tasks && w.tasks[User(x)] == New(lasting) && forall t :: t in w.tasks ==> HostOf(w.tasks[t]) == ""
    ensures var w' := ReconcileUser(cfg, w, x, Pass({b}, id, hash)).world;
      User(x) in w'.tasks && HostOf(w'.tasks[User(x)]) == b && w.stopped <= w'.stopped && w'.fleet == w.fleet
  {
    var pc, c := cfg[lasting], Pass({b}, id, hash);
    GiverSees(cfg, lasting, w, b, c);
    LabelledIsNew(lasting);
    hide ReconcileUser, PoolAllocate, PoolHosts, Validation.ValidPlatformFormat, CanName, Labelled, Finds;
    NewTaskAllocates(cfg, w, x, lasting, c);
    PoolAssigns(w, x, Labelled(lasting), pc, c, b);
  }

  // ---- the run ----------------------------------------------------------------------------------------------

  lemma PassLeads(cfg: Settings, w: World, u: UserId, reachable: set<string>, id: string, hash: Hash)
    requires User(u) in w.tasks && FreshId(cfg, w, id)
    ensures Leads(cfg, w, ReconcileUser(cfg, w, u, Pass(reachable, id, hash)).world)
  {
    hide ReconcileUser, FreshId, Leads;
    ReconcileLeads(cfg, w, u, Pass(reachable, id, hash));
  }

  /** A task is on the instance `b` of `p`, which a pool has asked to terminate. */
  ghost predicate OnStopped(w: World, p: string, b: string, x: UserId) {
    && b in w.fleet && w.fleet[b].platform == p && b in w.stopped
    && User(x) in w.tasks && HostOf(w.tasks[User(x)]) == b
  }

  /** First half: an instance of `p` exists and is older than `brief` allows, but not than `lasting` does. */
  lemma Aged(cfg: Settings, p: string, hash: Hash, age: nat) returns (ws: seq<World>, b: string, m: Cluster.Machine)
    requires WellFormed(cfg) && Pooled(cfg, p) && Usable(cfg, p)
    ensures Run(cfg, ws) && Only(ws[|ws| - 1], b, m) && ws[|ws| - 1].clock == age
    ensures m.platform == p && m.provider == cfg[p].provider && m.scope == cfg[p].scope && m.mark == MarkFor(cfg[p], hash)
  {
    ws, b, m := LaunchedAlone(cfg, p, hash);
    hide Run, WellFormed, Leads, Usable, MarkFor;
    var w := ws[|ws| - 1];
    TickLeads(cfg, w, age);
    Extend(cfg, ws, w.(clock := w.clock + age));
    ws := ws + [w.(clock := w.clock + age)];
  }

  lemma LaunchedAlone(cfg: Settings, p: string, hash: Hash) returns (ws: seq<World>, b: string, m: Cluster.Machine)
    requires WellFormed(cfg) && Pooled(cfg, p) && Usable(cfg, p)
    ensures Run(cfg, ws) && Only(ws[|ws| - 1], b, m) && ws[|ws| - 1].clock == 0
    ensures m.platform == p && m.provider == cfg[p].provider && m.scope == cfg[p].scope && m.mark == MarkFor(cfg[p], hash)
  {
    var u := UserId("ns", "first");
    var w1 := Arrive(EMPTY, u, New(p));
    EmptyRun(cfg);
    assert cfg[p].platform == p;
    hide Run, WellFormed, Leads, ReconcileUser, Usable, FreshId, MarkFor, Only;
    ArrivalLeads(cfg, EMPTY, u, New(p));
    Extend(cfg, [EMPTY], w1);
    b := UnusedId(cfg, w1, {""});
    Begins(cfg, p, u, w1, b, hash);
    PassLeads(cfg, w1, u, {}, b, hash);
    m := NewMachine(cfg[p], u, Pass({}, b, hash), 0);
    assert m.mark == MarkFor(cfg[p], hash);
    hide Pass;
    var w2 := ReconcileUser(cfg, w1, u, Pass({}, b, hash)).world;
    Extend(cfg, [EMPTY] + [w1], w2);
    ws := [EMPTY] + [w1] + [w2];
  }

  /** Second half: it is shut down and given to a task. */
  lemma ShutAndGiven(cfg: Settings, brief: string, lasting: string, ws: seq<World>, b: string, m: Cluster.Machine, hash: Hash)
    returns (ws': seq<World>, x: UserId)
    requires Run(cfg, ws) && Disagree(cfg, brief, lasting, m)
    requires var w := ws[|ws| - 1]; Only(w, b, m) && cfg[brief].maxAge < w.clock <= cfg[lasting].maxAge
    ensures Run(cfg, ws') && OnStopped(ws'[|ws'| - 1], m.platform, b, x)
  {
    var w := ws[|ws| - 1];
    var v := UnusedUser(w);
    var w1 := Arrive(w, v, New(brief));
    assert Only(w1, b, m);
    hide Run, Leads, ReconcileUser, Usable, FreshId, Finds, Pass;
    ArrivalLeads(cfg, w, v, New(brief));
    Extend(cfg, ws, w1);
    var id := UnusedId(cfg, w1, {b});
    Shuts(cfg, brief, w1, b, m, v, id, hash);
    PassLeads(cfg, w1, v, {b}, id, hash);
    var w2 := ReconcileUser(cfg, w1, v, Pass({b}, id, hash)).world;
    Extend(cfg, ws + [w1], w2);
    ws', x := Given(cfg, lasting, ws + [w1] + [w2], b, hash);
  }

  lemma Given(cfg: Settings, lasting: string, ws: seq<World>, b: string, hash: Hash) returns (ws': seq<World>, x: UserId)
    requires Run(cfg, ws) && Pooled(cfg, lasting) && Usable(cfg, lasting)
    requires var w := ws[|ws| - 1];
      && b in w.fleet && b in w.live && b in w.stopped && Finds(cfg[lasting], w.fleet[b]) && b != ""
      && w.clock <= w.fleet[b].start + cfg[lasting].maxAge && w.secrets == {} && forall t :: t in w.tasks ==> HostOf(w.tasks[t]) == ""
    ensures Run(cfg, ws') && b in ws[|ws| - 1].fleet && OnStopped(ws'[|ws'| - 1], ws[|ws| - 1].fleet[b].platform, b, x)
  {
    var w := ws[|ws| - 1];
    x := UnusedUser(w);
    var w3 := Arrive(w, x, New(lasting));
    LabelledIsNew(lasting);
    hide Run, Leads, ReconcileUser, Usable, FreshId, Finds, Pass;
    ArrivalLeads(cfg, w, x, New(lasting));
    Extend(cfg, ws, w3);
    var id := UnusedId(cfg, w3, {});
    Gives(cfg, lasting, w3, b, x, id, hash);
    PassLeads(cfg, w3, x, {b}, id, hash);
    var w4 := ReconcileUser(cfg, w3, x, Pass({b}, id, hash)).world;
    Extend(cfg, ws + [w3], w4);
    ws' := ws + [w3] + [w4];
  }

  /** Wherever a pool that finds its own instances shares some with a pool that gives them another age, there is a run
      in which a task is on an instance that was asked to terminate. */
  lemma AgesMustAgree(cfg: Settings, p: string) returns (ws: seq<World>, b: string, x: UserId)
    requires WellFormed(cfg) && Pooled(cfg, p) && Visible(cfg[p]) && !SameAge(cfg, p)
    requires forall q :: Pooled(cfg, q) ==> Usable(cfg, q) && cfg[q].maxAge >= 0
    ensures Run(cfg, ws) && OnStopped(ws[|ws| - 1], p, b, x)
  {
    var q :| Pooled(cfg, q) && !Apart(cfg[q], cfg[p]) && cfg[q].maxAge != cfg[p].maxAge;
    var hash: Hash :| FindsMark(cfg[q], MarkFor(cfg[p], hash));
    assert FindsMark(cfg[p], MarkFor(cfg[p], hash));
    hide WellFormed, Visible, SameAge, Apart, Run, Only, FindsMark, MarkFor, Usable;
    var brief, lasting := if cfg[p].maxAge < cfg[q].maxAge then p else q, if cfg[p].maxAge < cfg[q].maxAge then q else p;
    var m: Cluster.Machine;
    ws, b, m := Aged(cfg, p, hash, cfg[lasting].maxAge);
    assert Disagree(cfg, brief, lasting, m);
    ws, x := ShutAndGiven(cfg, brief, lasting, ws, b, m, hash);
  }

  // ---- an example -----------------------------------------------------------------------------------------------

  const SMALL: string := "linux" + ['/'] + "s390x"
  const LARGE: string := "linux-large" + ['/'] + "s390x"
  const SHORT_LIVED := DynamicHostPool("ibmz", "ssh-s390x", SMALL, 1, 600, 1, "prod-s390x", [], map[])
  const LONG_LIVED := DynamicHostPool("ibmz", "ssh-s390x", LARGE, 1, 6000, 1, "prod-s390x-large", [], map[])
  const CONFIG: Settings := map[SMALL := SHORT_LIVED, LARGE := LONG_LIVED]

  lemma PlatformsAreValid()
    ensures Validation.ValidPlatformFormat(SMALL) && Validation.ValidPlatformFormat(LARGE) && SMALL != LARGE
  {
    SplitAt("linux", "s390x", '/');
    SplitAt("linux-large", "s390x", '/');
    SplitOne("linux", '/');
    SplitOne("linux-large", '/');
    SplitOne("s390x", '/');
    hide Split;
    assert Validation.IsDns1035Label("linux") && Validation.IsDns1035Label("linux-large") && Validation.IsDns1035Label("s390x");
    assert Split(SMALL, '/') == ["linux", "s390x"];
    assert Split(LARGE, '/') == ["linux-large", "s390x"];
    assert SMALL[5] != LARGE[5];
  }

  lemma TagsAreNames()
    ensures TagPattern("prod-s390x") && TagPattern("prod-s390x-large") && Canonical("prod-s390x-large")
  {
  }

  lemma AgesDiffer()
    ensures SMALL != LARGE && Pooled(CONFIG, SMALL) && Pooled(CONFIG, LARGE)
    ensures !SameAge(CONFIG, LARGE) && Visible(LONG_LIVED)
  {
    hide Named, Canonical, TagPattern, ValidTag, Validation.ValidPlatformFormat;
    PlatformsAreValid();
    TagsAreNames();
    VisibleIff(LONG_LIVED);
    PrefixTagsConfused(HashFrom(""));
    assert FindsMark(SHORT_LIVED, MarkFor(LONG_LIVED, HashFrom("")));
    assert !Apart(SHORT_LIVED, LONG_LIVED);
    assert CONFIG[SMALL] == SHORT_LIVED && CONFIG[LARGE] == LONG_LIVED;
  }

  /** Two accepted tags of which one starts with the other. */
  lemma ConfusedRun() returns (ws: seq<World>, b: string, x: UserId)
    ensures Run(CONFIG, ws) && OnStopped(ws[|ws| - 1], LARGE, b, x)
  {
    PlatformsAreValid();
    TagsAreNames();
    AgesDiffer();
    hide SameAge, Visible, Run, Validation.ValidPlatformFormat, TagPattern, Canonical;
    ws, b, x := AgesMustAgree(CONFIG, LARGE);
  }
}
