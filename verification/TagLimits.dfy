/** What becomes of an instance limit where a platform cannot find its own instances: ibmz.go:157-163, ibmp.go:125-131
    and ibmz_helpers.go:51-72. */
module TagLimits {
  import opened Text
  import opened TaskRuns
  import opened Platforms
  import opened Cluster
  import opened DynamicHosts
  import opened DynamicPools
  import opened PoolCounting
  import opened Reconcile
  import opened Safety
  import opened InstanceTags
  import opened Machine
  import opened Effects
  import opened Scenarios

  /** An IBM platform whose tag has an upper-case letter or an underscore counts none of its instances. */
  lemma NoneCounted(pc: PlatformConfig, w: World)
    requires Cloud(pc) && pc.provider != "aws" && !Canonical(pc.instanceTag)
    ensures forall i :: i in w.fleet && MachineFor(pc, w.fleet[i]) ==> i !in Counted(w, pc)
  {
    hide Named, Canonical;
    forall i | i in w.fleet && MachineFor(pc, w.fleet[i]) ensures i !in Counted(w, pc) {
      var hash: Hash :| w.fleet[i].mark == MarkFor(pc, hash);
      NameStartsWithTag(pc.instanceTag, hash);
    }
  }

  /** A tag that the configuration check and createInstanceName accept, and that is not the beginning of its names. */
  lemma UnseenTagAccepted()
    ensures ValidTag("linux-s390x", "Prod-s390x") && TagPattern("Prod-s390x") && !Canonical("Prod-s390x")
  {
    hide ValidTag;
    SimpleTagsIff("linux", "large", "s390x", "Prod");
    assert "linux" + "-" + "s390x" == "linux-s390x" && "Prod" + "-" + "s390x" == "Prod-s390x";
    assert Upper("Prod-s390x"[0]);
  }

  // ---- every number of instances ------------------------------------------------------------------------

  /** Only instances of `p`, all of them live and just launched. */
  ghost predicate AllOwn(cfg: Settings, p: string, w: World)
    requires Dynamic(cfg, p) || Pooled(cfg, p)
  {
    && w.live == w.fleet.Keys && w.clock == 0 && w.secrets == {} && w.stopped == {} && w.undercounted == {}
    && forall i :: i in w.fleet ==> w.fleet[i].platform == p && w.fleet[i].start == 0 && MachineFor(cfg[p], w.fleet[i])
  }

  /** `p` cannot find its instances, though it can launch them. */
  ghost predicate Blind(cfg: Settings, p: string) {
    && (Dynamic(cfg, p) || Pooled(cfg, p)) && !Visible(cfg[p])
    && cfg[p].platform == p && cfg[p].maxInstances >= 1 && Validation.ValidPlatformFormat(p)
  }

  lemma BlindCountsNone(cfg: Settings, p: string, w: World)
    requires Blind(cfg, p) && AllOwn(cfg, p, w)
    ensures Counted(w, cfg[p]) == {} && CanName(cfg[p])
  {
    hide Canonical, Named, TagPattern, Validation.ValidPlatformFormat;
    VisibleIff(cfg[p]);
    NoneCounted(cfg[p], w);
  }

  /** What a launch leaves, apart from the TaskRun. */
  ghost predicate JustLaunched(w: World, w': World, u: UserId, pc: PlatformConfig, id: string)
    requires Cloud(pc)
  {
    w' == Boot(w, id, NewMachine(pc, u, Smooth({}, {}, id), w.clock)).(tasks := w'.tasks)
  }

  lemma DynamicLaunches(w: World, u: UserId, tr: TaskRun, d: PlatformConfig, id: string)
    requires d.DynamicResolver? && CanName(d) && d.maxInstances >= 1 && User(u) in w.tasks
    requires FailedHostList(tr) == "" && InstanceOf(tr) == "" && Counted(w, d) == {}
    ensures var o := DynamicAllocate(w, u, tr, d, Smooth({}, {}, id)); o.error == NoError && JustLaunched(w, o.world, u, d, id)
  {
    hide Counted, StoredForm, Itoa, PlatformLabel, Named, CanName;
  }

  lemma PoolLaunches(w: World, u: UserId, tr: TaskRun, pc: PlatformConfig, id: string)
    requires pc.DynamicHostPool? && CanName(pc) && pc.maxInstances >= 1 && Counted(w, pc) == {}
    ensures var o := PoolAllocate(w, u, tr, pc, Smooth({}, {}, id)); o.error == NoError && JustLaunched(w, o.world, u, pc, id)
  {
    var c := Smooth({}, {}, id);
    assert Listed(w, pc, c) == {} && PoolHosts(w, pc, c) == map[] && Retired(w, pc, c) == {} && Old(w, pc, c) == {};
    SweepFrame(w, pc, c);
    hide Sweep, PoolAllocate, Counted, Old, Retired, PoolHosts, CanName, Named;
    assert Sweep(w, pc, c) == w;
    EmptyPoolLaunches(w, u, tr, pc, c);
    assert Forgotten(w, pc, c) == {};
  }

  lemma LaunchedOwn(cfg: Settings, p: string, w: World, w': World, u: UserId, id: string)
    requires (Dynamic(cfg, p) || Pooled(cfg, p)) && cfg[p].platform == p && CanName(cfg[p]) && AllOwn(cfg, p, w)
    requires JustLaunched(w, w', u, cfg[p], id)
    ensures AllOwn(cfg, p, w') && w'.fleet.Keys == w.fleet.Keys + {id}
  {
    hide Named, CanName;
    var c := Smooth({}, {}, id);
    assert NewMachine(cfg[p], u, c, 0).mark == MarkFor(cfg[p], c.launch.hash);
    assert MachineFor(cfg[p], NewMachine(cfg[p], u, c, 0));
  }

  lemma OneMore(cfg: Settings, p: string, w: World, u: UserId, id: string)
    requires Blind(cfg, p) && AllOwn(cfg, p, w) && User(u) in w.tasks && w.tasks[User(u)] == New(p)
    ensures var w' := ReconcileUser(cfg, w, u, Smooth({}, {}, id)).world;
      AllOwn(cfg, p, w') && w'.fleet.Keys == w.fleet.Keys + {id}
  {
    assert w.secrets == {};
    hide ReconcileUser, DynamicAllocate, PoolAllocate, Counted, Visible, Validation.ValidPlatformFormat, Named, CanName, Labelled, AllOwn, JustLaunched;
    BlindCountsNone(cfg, p, w);
    NewTaskAllocates(cfg, w, u, p, Smooth({}, {}, id));
    LabelledIsNew(p);
    if Dynamic(cfg, p) {
      DynamicLaunches(w, u, Labelled(p), cfg[p], id);
    } else {
      PoolLaunches(w, u, Labelled(p), cfg[p], id);
    }
    LaunchedOwn(cfg, p, w, ReconcileUser(cfg, w, u, Smooth({}, {}, id)).world, u, id);
  }

  lemma ArrivalRun(cfg: Settings, p: string, ws: seq<World>) returns (ws': seq<World>, u: UserId)
    requires Run(cfg, ws) && (Dynamic(cfg, p) || Pooled(cfg, p)) && AllOwn(cfg, p, ws[|ws| - 1])
    ensures |ws'| > 0 && Run(cfg, ws') && AllOwn(cfg, p, ws'[|ws'| - 1]) && ws'[|ws'| - 1].fleet == ws[|ws| - 1].fleet
    ensures User(u) in ws'[|ws'| - 1].tasks && ws'[|ws'| - 1].tasks[User(u)] == New(p)
  {
    var w := ws[|ws| - 1];
    hide Run, AllOwn, Leads;
    u := UnusedUser(w);
    var w1 := Arrive(w, u, New(p));
    ArrivalLeads(cfg, w, u, New(p));
    Extend(cfg, ws, w1);
    ArrivedOwn(cfg, p, w, u);
    ws' := ws + [w1];
  }

  lemma OneMoreRun(cfg: Settings, p: string, ws: seq<World>) returns (ws': seq<World>)
    requires Run(cfg, ws) && Blind(cfg, p) && AllOwn(cfg, p, ws[|ws| - 1])
    ensures |ws'| > 0 && Run(cfg, ws') && AllOwn(cfg, p, ws'[|ws'| - 1]) && |ws'[|ws'| - 1].fleet| == |ws[|ws| - 1].fleet| + 1
  {
    assert Dynamic(cfg, p) || Pooled(cfg, p);
    hide *;
    var ws1, u := ArrivalRun(cfg, p, ws);
    var w2 := OneMoreWorld(cfg, p, ws1[|ws1| - 1], u);
    Extend(cfg, ws1, w2);
    ws' := ws1 + [w2];
  }

  lemma OneMoreWorld(cfg: Settings, p: string, w: World, u: UserId) returns (w': World)
    requires Blind(cfg, p) && AllOwn(cfg, p, w) && User(u) in w.tasks && w.tasks[User(u)] == New(p)
    ensures Leads(cfg, w, w') && AllOwn(cfg, p, w') && |w'.fleet| == |w.fleet| + 1
  {
    assert Dynamic(cfg, p) || Pooled(cfg, p);
    hide *;
    var id := UnusedId(cfg, w, {});
    FreshIsNew(cfg, w, id);
    OneMore(cfg, p, w, u, id);
    SmoothLeads(cfg, w, u, id);
    w' := ReconcileUser(cfg, w, u, Smooth({}, {}, id)).world;
    assert |w'.fleet.Keys| == |w.fleet.Keys| + 1;
  }

  lemma SmoothLeads(cfg: Settings, w: World, u: UserId, id: string)
    requires User(u) in w.tasks && FreshId(cfg, w, id)
    ensures Leads(cfg, w, ReconcileUser(cfg, w, u, Smooth({}, {}, id)).world)
  {
    hide ReconcileUser, FreshId, Leads;
    ReconcileLeads(cfg, w, u, Smooth({}, {}, id));
  }

  lemma FreshIsNew(cfg: Settings, w: World, id: string)
    requires FreshId(cfg, w, id)
    ensures id !in w.fleet
  {
  }

  /** Without sight of its instances a platform has no limit: for every number there is a run with that many. */
  lemma {:induction false} NoLimit(cfg: Settings, p: string, n: nat) returns (ws: seq<World>)
    requires WellFormed(cfg) && Blind(cfg, p)
    ensures Run(cfg, ws) && AllOwn(cfg, p, ws[|ws| - 1]) && |ws[|ws| - 1].fleet| == n
  {
    hide Blind, WellFormed;
    if n == 0 {
      EmptyRun(cfg);
      ws := [EMPTY];
    } else {
      hide Run, AllOwn;
      ws := NoLimit(cfg, p, n - 1);
      ws := OneMoreRun(cfg, p, ws);
    }
  }

  lemma ArrivedOwn(cfg: Settings, p: string, w: World, u: UserId)
    requires (Dynamic(cfg, p) || Pooled(cfg, p)) && AllOwn(cfg, p, w)
    ensures AllOwn(cfg, p, Arrive(w, u, New(p)))
  {
  }

  /** The limit of a per-task platform holds in every run exactly if it finds its instances; otherwise every number of
      live instances can be reached. */
  lemma DynamicLimitNeedsSight(cfg: Settings, p: string, n: nat) returns (ws: seq<World>)
    requires WellFormed(cfg) && Dynamic(cfg, p) && !Visible(cfg[p]) && cfg[p].maxInstances >= 1 && Validation.ValidPlatformFormat(p)
    ensures Run(cfg, ws) && |LiveOf(ws[|ws| - 1], p)| == n
  {
    hide Validation.ValidPlatformFormat, Visible;
    ws := NoLimit(cfg, p, n);
    hide Run;
    var w := ws[|ws| - 1];
    assert LiveOf(w, p) == w.fleet.Keys;
  }

  /** The same for a pool, even though none of its passes undercounts. */
  lemma PoolLimitNeedsSight(cfg: Settings, p: string, n: nat) returns (ws: seq<World>)
    requires WellFormed(cfg) && Pooled(cfg, p) && !Visible(cfg[p]) && cfg[p].maxInstances >= 1 && Validation.ValidPlatformFormat(p)
    requires cfg[p].maxAge >= 0
    ensures Run(cfg, ws) && |YoungOf(ws[|ws| - 1], p, cfg[p].maxAge)| == n && p !in ws[|ws| - 1].undercounted
  {
    hide Validation.ValidPlatformFormat, Visible;
    ws := NoLimit(cfg, p, n);
    hide Run;
    var w := ws[|ws| - 1];
    assert YoungOf(w, p, cfg[p].maxAge) == w.fleet.Keys;
  }

  // ---- an example ------------------------------------------------------------------------------------------

  const PLATFORM: string := "linux" + ['/'] + "s390x"
  const CONFIG: Settings := map[PLATFORM := DynamicResolver("ibmz", "ssh-s390x", PLATFORM, 1, "Prod-s390x", [], 600, 60, "", map[])]

  lemma PlatformIsValid()
    ensures Validation.ValidPlatformFormat(PLATFORM)
  {
    SplitAt("linux", "s390x", '/');
    SplitOne("linux", '/');
    SplitOne("s390x", '/');
    hide Split;
    assert Validation.IsDns1035Label("linux") && Validation.IsDns1035Label("s390x");
    assert Split(PLATFORM, '/') == ["linux", "s390x"];
  }

  /** With the accepted tag "Prod-s390x" and a limit of one, every number of instances can be reached. */
  lemma UncountedRun(n: nat) returns (ws: seq<World>)
    ensures ValidTag("linux-s390x", "Prod-s390x") && TagPattern("Prod-s390x")
    ensures Run(CONFIG, ws) && |LiveOf(ws[|ws| - 1], PLATFORM)| == n
  {
    UnseenTagAccepted();
    PlatformIsValid();
    hide ValidTag, TagPattern, Canonical, Validation.ValidPlatformFormat;
    VisibleIff(CONFIG[PLATFORM]);
    hide Visible, Run;
    ws := DynamicLimitNeedsSight(CONFIG, PLATFORM, n);
  }
}
