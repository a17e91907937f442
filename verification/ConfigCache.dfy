/** The cached configuration of the reconciler: getPlatformConfig (taskrun.go:729-865). */
module ConfigCache {
  import opened Text
  import opened Platforms
  import opened Config
  import opened Reconcile
  import opened Safety

  /** The ConfigMap as the API server hands it out. */
  datatype ConfigMap = ConfigMap(version: string, data: Data)

  /** What the reconciler remembers. */
  datatype Memory = Memory(version: string, entries: map<string, PlatformConfig>)

  // ---- one lookup -------------------------------------------------------------------------------

  /** The answer when nothing is cached, and whether it is remembered. A local platform is never remembered; a static
      pool is, even if its metrics cannot be registered. */
  function FirstAnswer(data: Data, isIp: string -> bool, platform: string, metricsFail: bool): (Option<PlatformConfig>, bool) {
    var r := Resolve(data, isIp, platform);
    if r.None? || r.value.Local? then (r, false)
    else if metricsFail then (None, r.value.HostPool?)
    else (r, true)
  }

  function Lookup(m: Memory, cm: ConfigMap, isIp: string -> bool, platform: string, metricsFail: bool): (Memory, Option<PlatformConfig>) {
    var m1 := if m.version != cm.version then Memory(cm.version, map[]) else m;
    if platform in m1.entries then (m1, Some(m1.entries[platform]))
    else
      var (r, keep) := FirstAnswer(cm.data, isIp, platform, metricsFail);
      (if keep then m1.(entries := m1.entries[platform := Resolve(cm.data, isIp, platform).value]) else m1, r)
  }

  class Cache {
    var configMapResourceVersion: string
    var platformConfig: map<string, PlatformConfig>
    const isIp: string -> bool

    constructor (isIp: string -> bool)
      ensures Memo() == Memory("", map[]) && this.isIp == isIp
    {
      configMapResourceVersion, platformConfig, this.isIp := "", map[], isIp;
    }

    function Memo(): Memory
      reads this
    {
      Memory(configMapResourceVersion, platformConfig)
    }

    /** getPlatformConfig; `cm` is nothing if the ConfigMap cannot be read. */
    method GetPlatformConfig(cm: Option<ConfigMap>, platform: string, metricsFail: bool) returns (r: Option<PlatformConfig>)
      modifies this
      ensures cm.None? ==> r == None && Memo() == old(Memo())
      ensures cm.Some? ==> (Memo(), r) == Lookup(old(Memo()), cm.value, isIp, platform, metricsFail)
    {
      hide DynamicPlatform, PoolPlatform, StaticPlatform, PlatformList;
      if cm.None? {
        return None;
      }
      var data := cm.value.data;
      if configMapResourceVersion != cm.value.version {
        configMapResourceVersion, platformConfig := cm.value.version, map[];
      }
      if platform in platformConfig {
        return Some(platformConfig[platform]);
      }
      var locals := ParsePlatformList(Field(data, "local-platforms"));
      if locals.None? {
        return None;
      }
      if platform in locals.value {
        return Some(Local);
      }
      var dynamics := ParsePlatformList(Field(data, "dynamic-platforms"));
      if dynamics.None? {
        return None;
      }
      if platform in dynamics.value {
        r := DynamicPlatform(data, platform);
        r := Remember(platform, r, metricsFail);
        return;
      }
      var pools := ParsePlatformList(Field(data, "dynamic-pool-platforms"));
      if pools.None? {
        return None;
      }
      if platform in pools.value {
        r := PoolPlatform(data, platform);
        r := Remember(platform, r, metricsFail);
        return;
      }
      r := ParseStaticPlatform(data, isIp, platform);
      if r.Some? {
        platformConfig := platformConfig[platform := r.value];
        if metricsFail {
          r := None;
        }
      }
    }

    method Remember(platform: string, found: Option<PlatformConfig>, metricsFail: bool) returns (r: Option<PlatformConfig>)
      modifies this
      ensures configMapResourceVersion == old(configMapResourceVersion)
      ensures r == if metricsFail then None else found
      ensures platformConfig == if r.Some? then old(platformConfig)[platform := r.value] else old(platformConfig)
    {
      if found.None? || metricsFail {
        return None;
      }
      platformConfig := platformConfig[platform := found.value];
      return found;
    }
  }

  // ---- agreement -------------------------------------------------------------------------------------

  /** The tag key that launching on AWS writes into the shared map of additional tags. */
  const TASK_RUN_TAG: string := "taskRunID"

  function Tagged(pc: PlatformConfig, id: string): PlatformConfig {
    if pc.DynamicResolver? || pc.DynamicHostPool? then pc.(tags := pc.tags[TASK_RUN_TAG := id]) else pc
  }

  function Untagged(pc: PlatformConfig): PlatformConfig {
    if pc.DynamicResolver? || pc.DynamicHostPool? then pc.(tags := pc.tags - {TASK_RUN_TAG}) else pc
  }

  /** The same up to that tag. */
  predicate Agrees(a: PlatformConfig, b: PlatformConfig) {
    Untagged(a) == Untagged(b)
  }

  lemma TaggedAgrees(pc: PlatformConfig, id: string)
    ensures Agrees(Tagged(pc, id), pc)
  {
  }

  /** The ConfigMap now, every version it has had, and what the reconciler remembers. */
  datatype State = State(current: ConfigMap, history: map<string, Data>, memory: Memory)

  datatype Event =
    | Edited(version: string, data: Data)
    | LookedUp(platform: string, metricsFail: bool)
    | Launched(platform: string, id: string)

  function Step(s: State, isIp: string -> bool, e: Event): State {
    match e
    case Edited(version, data) => s.(current := ConfigMap(version, data), history := s.history[version := data])
    case LookedUp(platform, metricsFail) => s.(memory := Lookup(s.memory, s.current, isIp, platform, metricsFail).0)
    case Launched(platform, id) =>
      if platform in s.memory.entries
      then s.(memory := s.memory.(entries := s.memory.entries[platform := Tagged(s.memory.entries[platform], id)])) else s
  }

  /** An edit gives the ConfigMap a version it has not had. */
  predicate Admissible(s: State, e: Event) {
    e.Edited? ==> e.version !in s.history
  }

  ghost predicate Coherent(s: State, isIp: string -> bool) {
    && s.current.version in s.history && s.history[s.current.version] == s.current.data
    && (s.memory.entries != map[] ==> s.memory.version in s.history)
    && forall p :: p in s.memory.entries ==> EntryAgrees(s.history[s.memory.version], isIp, p, s.memory.entries[p])
  }

  predicate EntryAgrees(data: Data, isIp: string -> bool, platform: string, pc: PlatformConfig) {
    var r := Resolve(data, isIp, platform);
    r.Some? && Agrees(pc, r.value)
  }

  /** An answer is right: it is what a fresh resolution of the current data gives. */
  predicate Right(s: State, isIp: string -> bool, platform: string, metricsFail: bool) {
    var answer := Lookup(s.memory, s.current, isIp, platform, metricsFail).1;
    var resolved := Resolve(s.current.data, isIp, platform);
    && (answer.Some? ==> resolved.Some? && Agrees(answer.value, resolved.value))
    && (!metricsFail ==> (answer.None? <==> resolved.None?))
  }

  lemma LookupIsRight(s: State, isIp: string -> bool, platform: string, metricsFail: bool)
    requires Coherent(s, isIp)
    ensures Right(s, isIp, platform, metricsFail)
    ensures Coherent(Step(s, isIp, LookedUp(platform, metricsFail)), isIp)
  {
    hide Resolve;
    var m := if s.memory.version != s.current.version then Memory(s.current.version, map[]) else s.memory;
    assert forall p :: p in m.entries ==> EntryAgrees(s.current.data, isIp, p, m.entries[p]);
  }

  lemma StepKeeps(s: State, isIp: string -> bool, e: Event)
    requires Coherent(s, isIp) && Admissible(s, e)
    ensures Coherent(Step(s, isIp, e), isIp)
  {
    hide Resolve;
    match e
    case Edited(version, data) =>
    case LookedUp(platform, metricsFail) => LookupIsRight(s, isIp, platform, metricsFail);
    case Launched(platform, id) =>
      if platform in s.memory.entries {
        TaggedAgrees(s.memory.entries[platform], id);
        assert EntryAgrees(s.history[s.memory.version], isIp, platform, s.memory.entries[platform]);
      }
  }

  ghost predicate Leads(s: State, isIp: string -> bool, s': State) {
    exists e :: Admissible(s, e) && s' == Step(s, isIp, e)
  }

  ghost predicate Run(ss: seq<State>, isIp: string -> bool) {
    && |ss| > 0 && ss[0].memory == Memory("", map[])
    && ss[0].current.version in ss[0].history && ss[0].history[ss[0].current.version] == ss[0].current.data
    && forall k :: 0 < k < |ss| ==> Leads(ss[k - 1], isIp, ss[k])
  }

  lemma {:induction false} RunIsCoherent(ss: seq<State>, isIp: string -> bool, k: nat)
    requires Run(ss, isIp) && k < |ss|
    ensures Coherent(ss[k], isIp)
  {
    if k > 0 {
      RunIsCoherent(ss, isIp, k - 1);
      assert Leads(ss[k - 1], isIp, ss[k]);
      var e :| Admissible(ss[k - 1], e) && ss[k] == Step(ss[k - 1], isIp, e);
      hide Coherent, Step, Admissible;
      StepKeeps(ss[k - 1], isIp, e);
    }
  }

  /** After any edits, lookups and launches: every entry agrees with the version of the ConfigMap it was read from, and
      every answer with a fresh resolution of the current one, apart from the tag that launching writes. */
  lemma CacheAgrees(ss: seq<State>, isIp: string -> bool, k: nat, platform: string, metricsFail: bool)
    requires Run(ss, isIp) && k < |ss|
    ensures Right(ss[k], isIp, platform, metricsFail)
    ensures forall p :: p in ss[k].memory.entries ==>
      && ss[k].memory.version in ss[k].history
      && EntryAgrees(ss[k].history[ss[k].memory.version], isIp, p, ss[k].memory.entries[p])
    ensures ss[k].current.version in ss[k].history && ss[k].history[ss[k].current.version] == ss[k].current.data
  {
    RunIsCoherent(ss, isIp, k);
    LookupIsRight(ss[k], isIp, platform, metricsFail);
    hide Right;
  }

  /** A configuration is read once for each version: what a lookup answers it remembers, unless it is local, and answers
      again without reading anything; a static pool is remembered even where its metrics could not be registered. */
  lemma LookupRemembers(m: Memory, cm: ConfigMap, isIp: string -> bool, platform: string, metricsFail: bool)
    ensures var (m', r) := Lookup(m, cm, isIp, platform, metricsFail);
      && m'.version == cm.version
      && (r.Some? && !r.value.Local? ==> forall again :: Lookup(m', cm, isIp, platform, again) == (m', r))
      && (var resolved := Resolve(cm.data, isIp, platform);
          (m.version != cm.version || platform !in m.entries) && resolved.Some? && resolved.value.HostPool? ==>
            platform in m'.entries && m'.entries[platform] == resolved.value)
  {
    hide Resolve;
  }

  // ---- the configurations the controller runs with ---------------------------------------------------------

  /** What the reconciler works with for the platforms `ps`. */
  function SettingsFor(data: Data, isIp: string -> bool, ps: set<string>): Settings {
    map p | p in ps && Resolve(data, isIp, p).Some? :: Resolve(data, isIp, p).value
  }

  /** Host names are not empty and contain no comma. */
  predicate ProperNames(data: Data) {
    forall h :: h in HostNames(data) ==> ProperName(h)
  }

  predicate ProperName(h: string) { h != "" && ',' !in h }

  lemma HostsAreNamed(data: Data, isIp: string -> bool, p: string, h: string)
    requires ProperNames(data) && StaticPlatform(data, isIp, p).Some? && h in StaticPlatform(data, isIp, p).value.hosts
    ensures ProperName(h)
  {
  }

  lemma StaticOnly(data: Data, isIp: string -> bool, p: string)
    requires Resolve(data, isIp, p).Some? && Resolve(data, isIp, p).value.HostPool?
    ensures Resolve(data, isIp, p) == StaticPlatform(data, isIp, p)
  {
    hide PlatformList, StaticPlatform, DynamicPlatform, PoolPlatform;
  }

  /** A ConfigMap with proper host names gives settings of the kind the run theorems are about. */
  lemma ResolvedIsWellFormed(data: Data, isIp: string -> bool, ps: set<string>)
    requires ProperNames(data)
    ensures WellFormed(SettingsFor(data, isIp, ps))
  {
    var cfg := SettingsFor(data, isIp, ps);
    hide Resolve, ProperNames;
    forall p | p in cfg ensures EntryOk(p, cfg[p]) {
      ResolvedIsOk(data, isIp, p);
    }
    forall p, h | Static(cfg, p) && h in cfg[p].hosts ensures ProperHost(cfg[p].hosts[h], h, p) {
      assert EntryOk(p, cfg[p]) && HostOk(p, h, cfg[p].hosts[h]);
      StaticOnly(data, isIp, p);
      HostsAreNamed(data, isIp, p, h);
    }
  }
}
