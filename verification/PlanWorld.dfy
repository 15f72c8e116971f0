/** The autopilot plan shared by the control-plane controller, its background version updaters
    and the UpdateMachine hook, as a labelled transition system. Every reconcile, poll and hook
    call is one atomic step whose writes may each be refused or land with a lost reply. */
module PlanWorld {
  import opened Prelude

  type Key = string
  type Name = string
  type Version = string
  type Id = nat

  datatype Target = Controllers | Workers

  /** `state` is status.state; `signalled` the nodes that status.commands reports as
      SignalCompleted, absent until autopilot first publishes it. */
  datatype Plan = Plan(
    nodes: seq<Name>, version: Version, target: Target,
    state: Option<string>, signalled: Option<set<Name>>)

  /** One workload cluster with the Machines that stand for its nodes.
      `recorded` is Machine.spec.version, `installed` what a node really runs, `finished` the
      history of (node, version) pairs some plan reported as done, `created` the number of plans
      ever created. */
  datatype Cluster = Cluster(
    plan: Option<Plan>,
    recorded: map<Name, Version>,
    installed: map<Name, Version>,
    finished: set<(Name, Version)>,
    created: nat)

  // ---- internal/autopilot/autopilot.go ------------------------------------------------------

  const COMPLETED: string := "Completed"

  datatype PlanError = StateNotFound | UnexpectedState(state: string)

  predicate Processing(s: string) { s == "NewPlan" || s == "Schedulable" || s == "SchedulableWait" }

  function IsPlanCompleted(p: Plan): (r: Result<bool, PlanError>) {
    match p.state
    case None => Err(StateNotFound)
    case Some(s) =>
      if s == COMPLETED then Ok(true)
      else if Processing(s) then Ok(false)
      else Err(UnexpectedState(s))
  }

  function NewPlan(nodes: seq<Name>, version: Version, target: Target): Plan {
    Plan(nodes, version, target, None, None)
  }

  /** POST of the plan object. Its name is fixed, so it is refused while a plan exists. */
  function CreatePlan(c: Cluster, p: Plan, reply: Reply): (r: (Cluster, bool)) {
    if c.plan.None? && reply.Landed()
    then (c.(plan := Some(p), created := c.created + 1), reply.Done?)
    else (c, false)
  }

  function DeletePlan(c: Cluster, reply: Reply): (r: (Cluster, bool)) {
    (if reply.Landed() then c.(plan := None) else c, reply.Done?)
  }

  // ---- recording versions on Machines -------------------------------------------------------

  /** A Machine patch. It fails when the Machine is gone. */
  function PatchVersion(recorded: map<Name, Version>, n: Name, v: Version, reply: Reply): (map<Name, Version>, bool) {
    if n !in recorded then (recorded, false)
    else (if reply.Landed() then recorded[n := v] else recorded, reply.Done?)
  }

  /** `updateMachineVersion` for each of the names in turn, on local copies of the Machines, up to
      the first failing patch. `replies` answers the patch sent for the name at that index. */
  function RecordAll(recorded: map<Name, Version>, local: map<Name, Version>, names: seq<Name>,
                     v: Version, replies: seq<Reply>): (r: (map<Name, Version>, map<Name, Version>, bool))
    requires |replies| == |names|
    decreases |names|
  {
    if names == [] then (recorded, local, true)
    else
      var n := names[0];
      if n !in local || local[n] == v then RecordAll(recorded, local, names[1..], v, replies[1..])
      else
        var (recorded', ok) := PatchVersion(recorded, n, v, replies[0]);
        if ok then RecordAll(recorded', local[n := v], names[1..], v, replies[1..])
        else (recorded', local[n := v], false)
  }

  // ---- internal/controller/controlplane/inplace.go ------------------------------------------

  /** A background updateMachineVersions goroutine. `local` holds its copies of the Machines. */
  datatype Updater = Updater(key: Key, version: Version, local: map<Name, Version>,
                             cancelled: bool, running: bool)

  /** `handles` is the controller's sync.Map of cancel handles; an updater's identity, and its
      handle's, is its position in `updaters`. */
  datatype World = World(clusters: map<Key, Cluster>, handles: map<Key, Id>, updaters: seq<Updater>)

  function StartUpdater(w: World, k: Key, v: Version, local: map<Name, Version>): World {
    w.(handles := w.handles[k := |w.updaters|],
       updaters := w.updaters + [Updater(k, v, local, false, true)])
  }

  function StopUpdater(w: World, k: Key): World {
    if k !in w.handles then w
    else
      var id := w.handles[k];
      w.(handles := w.handles - {k},
         updaters := if id < |w.updaters| then w.updaters[id := w.updaters[id].(cancelled := true)] else w.updaters)
  }

  /** The goroutine's deferred CompareAndDelete. */
  function CleanUp(w: World, id: Id): World
    requires id < |w.updaters|
  {
    var k := w.updaters[id].key;
    if k in w.handles && w.handles[k] == id then w.(handles := w.handles - {k}) else w
  }

  function Put(w: World, k: Key, c: Cluster): World { w.(clusters := w.clusters[k := c]) }

  /** What a reconcile has in hand: the desired version, its copies of the active Machines, the
      names of those not up to date, and whether an in-place update is called for. */
  datatype Scope = Scope(version: Version, local: map<Name, Version>, outdated: seq<Name>, requiresUpdate: bool)

  /** What the API servers answer during one reconcile; `extension` says that the in-place
      extension is enabled and found deployed. */
  datatype Answers = Answers(available: bool, client: bool, getPlan: bool,
                             patches: seq<Reply>, delete: Reply, extension: bool, create: Reply)

  /** `runStandaloneAutopilotPlan`. */
  function RunStandalone(w: World, k: Key, scope: Scope, local: map<Name, Version>, create: Reply): World
    requires k in w.clusters
  {
    var (c, ok) := CreatePlan(w.clusters[k], NewPlan(scope.outdated, scope.version, Controllers), create);
    if ok then StartUpdater(Put(w, k, c), k, scope.version, local) else Put(w, k, c)
  }

  /** `runInplaceUpdate`. With the extension a Machine's trigger is sent instead, whose effect
      here, the new version on the Machine, is a step of its own. */
  function RunInplace(w: World, k: Key, scope: Scope, local: map<Name, Version>, a: Answers): World
    requires k in w.clusters
  {
    if a.extension then w else RunStandalone(w, k, scope, local, a.create)
  }

  /** `reconcileInplaceK0sVersionUpdate`, from the availability check on. */
  function Reconcile(w: World, k: Key, scope: Scope, a: Answers): World
    requires k in w.clusters
    requires w.clusters[k].plan.Some? ==> |a.patches| == |w.clusters[k].plan.value.nodes|
  {
    var c := w.clusters[k];
    if !a.available || !a.client || !a.getPlan then w
    else match c.plan
      case None => if scope.requiresUpdate then RunInplace(w, k, scope, scope.local, a) else w
      case Some(p) =>
        if IsPlanCompleted(p) != Ok(true) then w
        else
          var (recorded, local, ok) := RecordAll(c.recorded, scope.local, p.nodes, p.version, a.patches);
          var w1 := Put(StopUpdater(w, k), k, c.(recorded := recorded));
          if !ok || !scope.requiresUpdate then w1
          else
            var (c2, deleted) := DeletePlan(w1.clusters[k], a.delete);
            var w2 := Put(w1, k, c2);
            if deleted then RunInplace(w2, k, scope, local, a) else w2
  }

  /** The nodes a poll records: those reported as SignalCompleted, in status order. */
  function Signalled(p: Plan): seq<Name> {
    if p.target.Controllers? && p.signalled.Some? then Keep(p.nodes, p.signalled.value) else []
  }

  function Keep(xs: seq<Name>, s: set<Name>): (r: seq<Name>)
    ensures forall x :: x in r <==> x in xs && x in s
    ensures |r| <= |xs|
  {
    if xs == [] then [] else if xs[0] in s then [xs[0]] + Keep(xs[1..], s) else Keep(xs[1..], s)
  }

  predicate AllSignalled(p: Plan) {
    p.target.Controllers? && p.signalled.Some? && forall n :: n in p.nodes ==> n in p.signalled.value
  }

  /** One round of `updateMachineVersions`. The updater stops on an error or once every
      controller of the plan has been signalled. */
  function Poll(w: World, id: Id, getPlan: bool, patches: seq<Reply>): World
    requires id < |w.updaters| && w.updaters[id].key in w.clusters
    requires w.clusters[w.updaters[id].key].plan.Some? ==>
               |patches| == |Signalled(w.clusters[w.updaters[id].key].plan.value)|
  {
    var u := w.updaters[id];
    var c := w.clusters[u.key];
    if !getPlan || c.plan.None? then w.(updaters := w.updaters[id := u.(running := false)])
    else
      var p := c.plan.value;
      var (recorded, local, ok) := RecordAll(c.recorded, u.local, Signalled(p), u.version, patches);
      Put(w.(updaters := w.updaters[id := u.(local := local, running := ok && !AllSignalled(p))]),
          u.key, c.(recorded := recorded))
  }

  // ---- extensions/inplaceversionupdate/handler.go -------------------------------------------

  datatype CallAnswers = CallAnswers(cluster: bool, getPlan: bool, bootstrap: bool, delete: Reply, create: Reply)

  /** `retry` is RetryAfterSeconds of a successful response: 15 means still updating. */
  datatype Response = Failure | Success(retry: nat)

  const UPDATING := Success(15)
  const UPDATED := Success(0)

  /** `createAutopilotPlanForMachine`, which first reads the bootstrap config. */
  function CreateForMachine(c: Cluster, m: Name, v: Version, t: Target, a: CallAnswers): (Cluster, Response) {
    if !a.bootstrap then (c, Failure)
    else
      var (c', ok) := CreatePlan(c, NewPlan([m], v, t), a.create);
      (c', if ok then UPDATING else Failure)
  }

  /** `DoUpdateMachine`. */
  function DoUpdateMachine(c: Cluster, m: Name, v: Version, t: Target, a: CallAnswers): (r: (Cluster, Response)) {
    if !a.cluster || !a.getPlan then (c, Failure)
    else match c.plan
      case None => CreateForMachine(c, m, v, t, a)
      case Some(p) =>
        match IsPlanCompleted(p)
        case Err(_) => (c, Failure)
        case Ok(false) => (c, UPDATING)
        case Ok(true) =>
          if m !in p.nodes || p.version != v then
            var (c', ok) := DeletePlan(c, a.delete);
            if ok then CreateForMachine(c', m, v, t, a) else (c', Failure)
          else (c, UPDATED)
  }

  // ---- autopilot and the rest of the environment --------------------------------------------

  /** Autopilot publishes the per-node status of the plan. */
  predicate CanPublish(c: Cluster) {
    c.plan.Some? && c.plan.value.signalled.None? && c.plan.value.state != Some(COMPLETED)
  }

  function Publish(c: Cluster): Cluster
    requires CanPublish(c)
  {
    c.(plan := Some(c.plan.value.(signalled := Some({}))))
  }

  /** Autopilot finishes the update of one node of the plan. */
  predicate CanSignal(c: Cluster, n: Name) {
    && c.plan.Some? && c.plan.value.signalled.Some? && c.plan.value.state != Some(COMPLETED)
    && n in c.plan.value.nodes
  }

  function Signal(c: Cluster, n: Name): Cluster
    requires CanSignal(c, n)
  {
    var p := c.plan.value;
    c.(plan := Some(p.(signalled := Some(p.signalled.value + {n}))),
       installed := c.installed[n := p.version],
       finished := c.finished + {(n, p.version)})
  }

  /** Autopilot moves the plan to another state. Completed is final and needs every node. */
  predicate CanMove(c: Cluster, s: string) {
    && c.plan.Some? && c.plan.value.state != Some(COMPLETED)
    && (s == COMPLETED ==>
          c.plan.value.signalled.Some? && forall n :: n in c.plan.value.nodes ==> n in c.plan.value.signalled.value)
  }

  function Move(c: Cluster, s: string): Cluster
    requires CanMove(c, s)
  {
    c.(plan := Some(c.plan.value.(state := Some(s))))
  }

  datatype Label =
    | ReconcileStep(k: Key, scope: Scope, answers: Answers)
    | PollStep(id: Id, getPlan: bool, patches: seq<Reply>)
    | ReturnStep(id: Id)
    | CleanUpStep(id: Id)
    | RestartStep
    | TriggerStep(k: Key, n: Name, v: Version)
    | CallStep(k: Key, m: Name, v: Version, t: Target, call: CallAnswers)
    | PublishStep(k: Key)
    | SignalStep(k: Key, n: Name)
    | MoveStep(k: Key, state: string)
    | JoinStep(k: Key, n: Name, v: Version, machine: bool)
    | RemoveStep(k: Key, n: Name)

  predicate Enabled(w: World, l: Label) {
    match l
    case ReconcileStep(k, _, a) =>
      k in w.clusters && (w.clusters[k].plan.Some? ==> |a.patches| == |w.clusters[k].plan.value.nodes|)
    case PollStep(id, _, patches) =>
      && id < |w.updaters| && w.updaters[id].running && !w.updaters[id].cancelled
      && w.updaters[id].key in w.clusters
      && (w.clusters[w.updaters[id].key].plan.Some? ==>
            |patches| == |Signalled(w.clusters[w.updaters[id].key].plan.value)|)
    case ReturnStep(id) => id < |w.updaters| && w.updaters[id].running
    case CleanUpStep(id) => id < |w.updaters| && !w.updaters[id].running
    case RestartStep => true
    // the hook patch of a trigger lands: the Machine gets the version that is wanted
    case TriggerStep(k, n, _) => k in w.clusters && n in w.clusters[k].recorded
    case CallStep(k, _, _, _, _) => k in w.clusters
    case PublishStep(k) => k in w.clusters && CanPublish(w.clusters[k])
    case SignalStep(k, n) => k in w.clusters && CanSignal(w.clusters[k], n)
    case MoveStep(k, s) => k in w.clusters && CanMove(w.clusters[k], s)
    // Machine names are generated, so a joining node never reuses one.
    case JoinStep(k, n, _, _) => k in w.clusters && n !in w.clusters[k].installed && n !in w.clusters[k].recorded
    case RemoveStep(k, n) => k in w.clusters
  }

  function StopAll(us: seq<Updater>): (r: seq<Updater>)
    ensures |r| == |us| && forall i :: 0 <= i < |us| ==> r[i] == us[i].(running := false)
  {
    seq(|us|, i requires 0 <= i < |us| => us[i].(running := false))
  }

  function Apply(w: World, l: Label): World
    requires Enabled(w, l)
  {
    match l
    case ReconcileStep(k, scope, a) => Reconcile(w, k, scope, a)
    case PollStep(id, getPlan, patches) => Poll(w, id, getPlan, patches)
    case ReturnStep(id) => w.(updaters := w.updaters[id := w.updaters[id].(running := false)])
    case CleanUpStep(id) => CleanUp(w, id)
    case RestartStep => w.(handles := map[], updaters := StopAll(w.updaters))
    case TriggerStep(k, n, v) => Put(w, k, w.clusters[k].(recorded := w.clusters[k].recorded[n := v]))
    case CallStep(k, m, v, t, a) => Put(w, k, DoUpdateMachine(w.clusters[k], m, v, t, a).0)
    case PublishStep(k) => Put(w, k, Publish(w.clusters[k]))
    case SignalStep(k, n) => Put(w, k, Signal(w.clusters[k], n))
    case MoveStep(k, s) => Put(w, k, Move(w.clusters[k], s))
    case JoinStep(k, n, v, machine) =>
      var c := w.clusters[k];
      Put(w, k, c.(installed := c.installed[n := v],
                   recorded := if machine then c.recorded[n := v] else c.recorded))
    case RemoveStep(k, n) => Put(w, k, w.clusters[k].(recorded := w.clusters[k].recorded - {n}))
  }

  /** A finite run: worlds joined by enabled labels. */
  ghost predicate IsRun(ws: seq<World>, ls: seq<Label>) {
    && |ws| == |ls| + 1
    && Init(ws[0])
    && forall i :: 0 <= i < |ls| ==> Enabled(ws[i], ls[i]) && ws[i + 1] == Apply(ws[i], ls[i])
  }

  /** A plan's reports agree with its history and with what the nodes run. */
  ghost predicate ClusterOk(c: Cluster) {
    c.plan.Some? ==>
      var p := c.plan.value;
      && (p.signalled.Some? ==> forall n :: n in p.signalled.value ==>
            (n, p.version) in c.finished && n in c.installed && c.installed[n] == p.version)
      && (p.state == Some(COMPLETED) ==> p.signalled.Some? && forall n :: n in p.nodes ==> n in p.signalled.value)
  }

  /** A freshly started controller in front of clusters whose plans, if any, report truthfully. */
  ghost predicate Init(w: World) {
    w.handles == map[] && w.updaters == [] && forall k :: k in w.clusters ==> ClusterOk(w.clusters[k])
  }
}
