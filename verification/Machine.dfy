/** Runs of the whole system: reconciles in any order, interleaved with everything that can
    happen around the controller. */
module Machine {
  import opened TaskRuns
  import opened Cluster
  import opened Reconcile
  import opened Safety
  import opened Effects
  import opened Handlers

  datatype Event =
    | UserReconciled(u: UserId, c: Calls)
    | ProvisionReconciled(id: TaskId, c: Calls)
    | CleanReconciled(id: TaskId, c: Calls)
    | UserCreated(u: UserId, tr: TaskRun)
    | TaskEdited(id: TaskId, edit: Edit)          // another writer, a completion, a deletion request
    | TaskRemoved(id: TaskId)
    | SecretProvided(u: UserId)                   // a provision task stores the credentials
    | InstanceLost(i: string)
    | HostUpdateStarted(n: nat, host: string)
    | Ticked(t: nat)

  /** What the surroundings promise: instance ids are new, a new TaskRun carries none of the controller's
      marks and an unused name, TaskRuns with a finalizer are not removed, updates are for configured hosts. */
  ghost predicate Admissible(cfg: Settings, w: World, e: Event) {
    match e
    case UserReconciled(u, c) => User(u) in w.tasks && (c.launch.Launched? ==> FreshId(cfg, w, c.launch.id))
    case ProvisionReconciled(id, _) => id.Provision? && id in w.tasks
    case CleanReconciled(id, _) => id.Clean? && id in w.tasks
    case UserCreated(u, tr) => u !in w.seen && Untouched(tr)
    case TaskEdited(id, _) => id in w.tasks
    case TaskRemoved(id) => id in w.tasks && w.tasks[id].finalizers == []
    case SecretProvided(_) => true
    case InstanceLost(_) => true
    case HostUpdateStarted(n, host) => HostUpdate(n) !in w.tasks && StaticName(cfg, host)
    case Ticked(_) => true
  }

  ghost function Step(cfg: Settings, w: World, e: Event): World
    requires Admissible(cfg, w, e)
  {
    match e
    case UserReconciled(u, c) => ReconcileUser(cfg, w, u, c).world
    case ProvisionReconciled(id, c) => ReconcileProvision(w, id, c)
    case CleanReconciled(id, c) => ReconcileClean(w, id, c)
    case UserCreated(u, tr) => Arrive(w, u, tr)
    case TaskEdited(id, edit) => Put(w, id, ApplyEdit(w.tasks[id], edit))
    case TaskRemoved(id) => Drop(w, id)
    case SecretProvided(u) => w.(secrets := w.secrets + {u})
    case InstanceLost(i) => StopAll(w, {}, {i})
    case HostUpdateStarted(n, host) => Put(w, HostUpdate(n), HostUpdateRun(host))
    case Ticked(t) => w.(clock := w.clock + t)
  }

  ghost predicate Leads(cfg: Settings, w: World, w': World) {
    exists e :: Admissible(cfg, w, e) && w' == Step(cfg, w, e)
  }

  ghost predicate Path(cfg: Settings, ws: seq<World>) {
    |ws| > 0 && forall k :: 0 < k < |ws| ==> Leads(cfg, ws[k - 1], ws[k])
  }

  predicate Initial(w: World) {
    && w.tasks == map[] && w.fleet == map[] && w.live == {} && w.stopped == {} && w.seen == {}
    && w.tallies == map[] && w.undercounted == {}
  }

  /** `ws` is a run: it starts with nothing, and each world comes from the one before. */
  ghost predicate Run(cfg: Settings, ws: seq<World>) {
    WellFormed(cfg) && Path(cfg, ws) && Initial(ws[0])
  }

  lemma InitialIsGood(cfg: Settings, w: World)
    requires Initial(w)
    ensures Good(cfg, w)
  {
    forall p, h ensures AssignedBy(w, p, h) == {} {}
    forall p ensures LiveOf(w, p) == {} {}
    forall p, a ensures YoungOf(w, p, a) == {} {}
  }

  lemma StepKeeps(cfg: Settings, w: World, e: Event)
    requires WellFormed(cfg) && Good(cfg, w) && Admissible(cfg, w, e)
    ensures Good(cfg, Step(cfg, w, e)) && Follows(cfg, w, Step(cfg, w, e))
  {
    hide Good, Follows, WellFormed, FreshId, ReconcileUser, ReconcileProvision, ReconcileClean, Untouched, StaticName;
    match e
    case UserReconciled(u, c) => ReconcileUserKeeps(cfg, w, u, c);
    case ProvisionReconciled(id, c) => ReconcileProvisionKeeps(cfg, w, id, c);
    case CleanReconciled(id, c) => ReconcileCleanKeeps(cfg, w, id, c);
    case UserCreated(u, tr) => ArriveKeeps(cfg, w, u, tr);
    case TaskEdited(id, edit) => EditKeeps(cfg, w, id, edit);
    case TaskRemoved(id) => DropKeeps(cfg, w, id);
    case SecretProvided(u) => SecretProvidedKeeps(cfg, w, u);
    case InstanceLost(i) => InstanceLostKeeps(cfg, w, i);
    case HostUpdateStarted(n, host) => HostUpdateKeeps(cfg, w, n, host);
    case Ticked(t) => TickKeeps(cfg, w, t);
  }

  lemma SecretProvidedKeeps(cfg: Settings, w: World, u: UserId)
    requires Good(cfg, w)
    ensures var w' := w.(secrets := w.secrets + {u}); Good(cfg, w') && Follows(cfg, w, w')
  {
    hide GoodBut, Follows;
    SecretAddedKeeps(cfg, w, u, "");
  }

  lemma InstanceLostKeeps(cfg: Settings, w: World, i: string)
    requires Good(cfg, w)
    ensures Good(cfg, StopAll(w, {}, {i})) && Follows(cfg, w, StopAll(w, {}, {i}))
  {
    hide GoodBut, Follows;
    StopKeeps(cfg, w, {}, {i}, "");
  }

  /** The event that leads from one world of a run to the next. */
  lemma NextStep(cfg: Settings, ws: seq<World>, k: nat) returns (e: Event)
    requires Run(cfg, ws) && k + 1 < |ws|
    ensures WellFormed(cfg) && Admissible(cfg, ws[k], e) && ws[k + 1] == Step(cfg, ws[k], e)
  {
    assert WellFormed(cfg);
    hide WellFormed, Admissible, Step;
    assert Leads(cfg, ws[k + 1 - 1], ws[k + 1]);
    e :| Admissible(cfg, ws[k], e) && ws[k + 1] == Step(cfg, ws[k], e);
  }

  /** Every world of a run satisfies the invariant. */
  lemma {:induction false} RunIsGood(cfg: Settings, ws: seq<World>, k: nat)
    requires Run(cfg, ws) && k < |ws|
    ensures Good(cfg, ws[k])
  {
    assert Initial(ws[0]);
    hide *;
    if k == 0 {
      InitialIsGood(cfg, ws[0]);
    } else {
      RunIsGood(cfg, ws, k - 1);
      var e := NextStep(cfg, ws, k - 1);
      StepKeeps(cfg, ws[k - 1], e);
    }
  }

  /** Any later world of a run follows any earlier one. */
  lemma {:induction false} RunFollows(cfg: Settings, ws: seq<World>, j: nat, k: nat)
    requires Run(cfg, ws) && j <= k < |ws|
    ensures Follows(cfg, ws[j], ws[k])
    decreases k - j
  {
    hide *;
    if j == k {
      FollowsSelf(cfg, ws[j]);
    } else {
      RunFollows(cfg, ws, j, k - 1);
      RunIsGood(cfg, ws, j);
      RunIsGood(cfg, ws, k - 1);
      var e := NextStep(cfg, ws, k - 1);
      StepKeeps(cfg, ws[k - 1], e);
      ChainGood(cfg, ws[j], ws[k - 1], ws[k]);
    }
  }
}
