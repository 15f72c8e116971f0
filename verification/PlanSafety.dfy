/** What every run of PlanWorld keeps. */
module PlanSafety {
  import opened Prelude
  import opened PlanWorld

  // ---- recording --------------------------------------------------------------------------

  /** Recording touches only the named Machines, only existing ones, and only with that version. */
  lemma {:induction false} RecordAllFrame(recorded: map<Name, Version>, local: map<Name, Version>,
                                          names: seq<Name>, v: Version, replies: seq<Reply>)
    requires |replies| == |names|
    ensures var (r, _, _) := RecordAll(recorded, local, names, v, replies);
            && r.Keys == recorded.Keys
            && forall n :: n in r && r[n] != recorded[n] ==> n in names && r[n] == v
    decreases |names|
  {
    if names == [] {
    } else {
      var n := names[0];
      var rest := names[1..];
      if n !in local || local[n] == v {
        RecordAllFrame(recorded, local, rest, v, replies[1..]);
      } else {
        var (recorded', ok) := PatchVersion(recorded, n, v, replies[0]);
        if ok { RecordAllFrame(recorded', local[n := v], rest, v, replies[1..]); }
      }
    }
  }

  /** When recording reports success, a named Machine of the scope is recorded exactly when it was
      before or its local copy did not show the version yet. */
  lemma {:induction false} RecordAllComplete(recorded: map<Name, Version>, local: map<Name, Version>,
                                             names: seq<Name>, v: Version, replies: seq<Reply>)
    requires |replies| == |names|
    ensures var (r, local', ok) := RecordAll(recorded, local, names, v, replies);
            && r.Keys == recorded.Keys
            && (ok ==> forall n :: n in names && n in local && n in recorded ==>
                  (r[n] == v <==> recorded[n] == v || local[n] != v))
    decreases |names|
  {
    RecordAllFrame(recorded, local, names, v, replies);
    if names == [] {
    } else {
      var n := names[0];
      var rest := names[1..];
      assert names == [n] + rest;
      if n !in local || local[n] == v {
        RecordAllComplete(recorded, local, rest, v, replies[1..]);
        RecordAllShown(recorded, local, rest, v, replies[1..], n);
      } else {
        var (recorded', ok) := PatchVersion(recorded, n, v, replies[0]);
        if ok {
          RecordAllComplete(recorded', local[n := v], rest, v, replies[1..]);
          RecordAllFrame(recorded', local[n := v], rest, v, replies[1..]);
        }
      }
    }
  }

  /** A Machine whose copy shows the version is not patched. */
  lemma {:induction false} RecordAllShown(recorded: map<Name, Version>, local: map<Name, Version>,
                                          names: seq<Name>, v: Version, replies: seq<Reply>, n: Name)
    requires |replies| == |names| && (n in local ==> local[n] == v)
    ensures var (r, _, _) := RecordAll(recorded, local, names, v, replies);
            n in recorded ==> n in r && r[n] == recorded[n]
    decreases |names|
  {
    if names == [] {
    } else {
      var m := names[0];
      if m !in local || local[m] == v {
        RecordAllShown(recorded, local, names[1..], v, replies[1..], n);
      } else {
        var (recorded', ok) := PatchVersion(recorded, m, v, replies[0]);
        if ok { RecordAllShown(recorded', local[m := v], names[1..], v, replies[1..], n); }
      }
    }
  }

  // ---- the invariant of any mix of steps ----------------------------------------------------

  ghost predicate ClustersOk(w: World) { forall k :: k in w.clusters ==> ClusterOk(w.clusters[k]) }

  lemma HandlerKeepsClusterOk(c: Cluster, m: Name, v: Version, t: Target, a: CallAnswers)
    requires ClusterOk(c)
    ensures ClusterOk(DoUpdateMachine(c, m, v, t, a).0)
  {
  }

  /** A reconcile of one control plane leaves the other clusters alone. */
  lemma ReconcileFrame(w: World, k: Key, scope: Scope, a: Answers)
    requires Enabled(w, ReconcileStep(k, scope, a))
    ensures Reconcile(w, k, scope, a).clusters.Keys == w.clusters.Keys
    ensures forall k' :: k' in w.clusters && k' != k ==> Reconcile(w, k, scope, a).clusters[k'] == w.clusters[k']
  {
  }

  /** What a reconcile makes of the plan and the records of its own cluster. */
  function ReconciledCluster(c: Cluster, scope: Scope, a: Answers): Cluster
    requires c.plan.Some? ==> |a.patches| == |c.plan.value.nodes|
  {
    var next := NewPlan(scope.outdated, scope.version, Controllers);
    if !a.available || !a.client || !a.getPlan then c
    else match c.plan
      case None => if scope.requiresUpdate && !a.extension then CreatePlan(c, next, a.create).0 else c
      case Some(p) =>
        if IsPlanCompleted(p) != Ok(true) then c
        else
          var (recorded, local, ok) := RecordAll(c.recorded, scope.local, p.nodes, p.version, a.patches);
          var c1 := c.(recorded := recorded);
          if !ok || !scope.requiresUpdate then c1
          else
            var (c2, deleted) := DeletePlan(c1, a.delete);
            if deleted && !a.extension then CreatePlan(c2, next, a.create).0 else c2
  }

  lemma ReconcileOwnCluster(w: World, k: Key, scope: Scope, a: Answers)
    requires Enabled(w, ReconcileStep(k, scope, a))
    ensures k in Reconcile(w, k, scope, a).clusters
    ensures Reconcile(w, k, scope, a).clusters[k] == ReconciledCluster(w.clusters[k], scope, a)
  {
  }

  lemma ReconcileKeepsClusterOk(w: World, k: Key, scope: Scope, a: Answers)
    requires ClustersOk(w) && Enabled(w, ReconcileStep(k, scope, a))
    ensures ClustersOk(Reconcile(w, k, scope, a))
  {
    ReconcileFrame(w, k, scope, a);
    ReconcileOwnCluster(w, k, scope, a);
    assert ClusterOk(ReconciledCluster(w.clusters[k], scope, a));
  }

  lemma StepKeepsClustersOk(w: World, l: Label)
    requires ClustersOk(w) && Enabled(w, l)
    ensures ClustersOk(Apply(w, l))
  {
    match l
    case ReconcileStep(k, scope, a) => ReconcileKeepsClusterOk(w, k, scope, a);
    case CallStep(k, m, v, t, a) => HandlerKeepsClusterOk(w.clusters[k], m, v, t, a);
    case PollStep(id, getPlan, patches) =>
    case SignalStep(k, n) =>
    case _ =>
  }

  lemma {:induction false} RunKeepsClustersOk(ws: seq<World>, ls: seq<Label>, i: nat)
    requires IsRun(ws, ls) && i < |ws|
    ensures ClustersOk(ws[i])
  {
    if i == 0 {
    } else {
      RunKeepsClustersOk(ws, ls, i - 1);
      StepKeepsClustersOk(ws[i - 1], ls[i - 1]);
    }
  }

  /** The plan in place stays in place: same nodes, version and target. */
  predicate SamePlan(p: Plan, c: Cluster) {
    && c.plan.Some? && c.plan.value.nodes == p.nodes
    && c.plan.value.version == p.version && c.plan.value.target == p.target
  }

  lemma StepKeepsUnfinishedPlan(w: World, l: Label, k: Key)
    requires Enabled(w, l) && k in w.clusters && w.clusters[k].plan.Some?
    requires w.clusters[k].plan.value.state != Some(COMPLETED)
    ensures k in Apply(w, l).clusters && SamePlan(w.clusters[k].plan.value, Apply(w, l).clusters[k])
  {
    if l.ReconcileStep? {
      ReconcileFrame(w, l.k, l.scope, l.answers);
      ReconcileOwnCluster(w, l.k, l.scope, l.answers);
    }
  }

  /** The hook answers "updated" only when the machine runs that version. */
  lemma UpdatedMeansInstalled(c: Cluster, m: Name, v: Version, t: Target, a: CallAnswers)
    requires ClusterOk(c) && DoUpdateMachine(c, m, v, t, a).1 == UPDATED
    ensures m in c.installed && c.installed[m] == v && (m, v) in c.finished
    ensures DoUpdateMachine(c, m, v, t, a).0 == c
  {
  }

  /** Shared-plan safety over every run that mixes reconciles, updaters, hook calls for any
      machines, controller restarts and autopilot progress. */
  lemma {:induction false} SharedPlanSafety(ws: seq<World>, ls: seq<Label>)
    requires IsRun(ws, ls)
    // a Completed plan has put its version on every node it targets
    ensures forall i, k :: 0 <= i < |ws| && k in ws[i].clusters && ws[i].clusters[k].plan.Some?
                && ws[i].clusters[k].plan.value.state == Some(COMPLETED)
              ==> forall n :: n in ws[i].clusters[k].plan.value.nodes ==>
                    && n in ws[i].clusters[k].installed
                    && ws[i].clusters[k].installed[n] == ws[i].clusters[k].plan.value.version
    // an unfinished plan is never deleted or replaced
    ensures forall i, k :: 0 <= i < |ls| && k in ws[i].clusters && ws[i].clusters[k].plan.Some?
                && ws[i].clusters[k].plan.value.state != Some(COMPLETED)
              ==> k in ws[i + 1].clusters && SamePlan(ws[i].clusters[k].plan.value, ws[i + 1].clusters[k])
    // and the hook never reports an update that did not happen
    ensures forall i :: 0 <= i < |ls| && ls[i].CallStep?
                && DoUpdateMachine(ws[i].clusters[ls[i].k], ls[i].m, ls[i].v, ls[i].t, ls[i].call).1 == UPDATED
              ==> ls[i].m in ws[i].clusters[ls[i].k].installed
                  && ws[i].clusters[ls[i].k].installed[ls[i].m] == ls[i].v
  {
    forall i | 0 <= i < |ws| ensures ClustersOk(ws[i]) { RunKeepsClustersOk(ws, ls, i); }
    forall i, k | 0 <= i < |ls| && k in ws[i].clusters && ws[i].clusters[k].plan.Some?
                  && ws[i].clusters[k].plan.value.state != Some(COMPLETED)
      ensures k in ws[i + 1].clusters && SamePlan(ws[i].clusters[k].plan.value, ws[i + 1].clusters[k])
    {
      StepKeepsUnfinishedPlan(ws[i], ls[i], k);
    }
    forall i | 0 <= i < |ls| && ls[i].CallStep?
               && DoUpdateMachine(ws[i].clusters[ls[i].k], ls[i].m, ls[i].v, ls[i].t, ls[i].call).1 == UPDATED
      ensures ls[i].m in ws[i].clusters[ls[i].k].installed
      ensures ws[i].clusters[ls[i].k].installed[ls[i].m] == ls[i].v
    {
      UpdatedMeansInstalled(ws[i].clusters[ls[i].k], ls[i].m, ls[i].v, ls[i].t, ls[i].call);
    }
  }

  // ---- the standalone mode --------------------------------------------------------------------

  /** An updater that can still write. */
  predicate Live(w: World, id: int) { 0 <= id < |w.updaters| && w.updaters[id].running && !w.updaters[id].cancelled }

  /** A live updater is the one its control plane's handle names, and waits on the plan that was
      created for its version. */
  ghost predicate LiveOk(w: World, id: int)
    requires 0 <= id < |w.updaters|
  {
    var u := w.updaters[id];
    && u.key in w.handles && w.handles[u.key] == id
    && u.key in w.clusters && w.clusters[u.key].plan.Some?
    && w.clusters[u.key].plan.value.version == u.version
  }

  ghost predicate Standalone(w: World) {
    && ClustersOk(w)
    && (forall k :: k in w.handles ==> w.handles[k] < |w.updaters|)
    && (forall id :: Live(w, id) ==> LiveOk(w, id))
  }

  lemma StopLeavesNoneLive(w: World, k: Key)
    requires Standalone(w)
    ensures Standalone(StopUpdater(w, k))
    ensures forall id :: Live(StopUpdater(w, k), id) ==> StopUpdater(w, k).updaters[id].key != k
    ensures StopUpdater(w, k).clusters == w.clusters
  {
    var w' := StopUpdater(w, k);
    forall id | Live(w', id) ensures LiveOk(w', id) && w'.updaters[id].key != k {
      assert Live(w, id);
      assert LiveOk(w, id);
    }
  }

  lemma PutKeepsStandalone(w: World, k: Key, c: Cluster)
    requires Standalone(w) && k in w.clusters && ClusterOk(c)
    requires || (forall id :: Live(w, id) ==> w.updaters[id].key != k)
             || (w.clusters[k].plan.Some? ==> c.plan.Some? && c.plan.value.version == w.clusters[k].plan.value.version)
    ensures Standalone(Put(w, k, c))
    ensures forall id :: Live(Put(w, k, c), id) <==> Live(w, id)
  {
    var w' := Put(w, k, c);
    forall id | Live(w', id) ensures LiveOk(w', id) {
      assert Live(w, id);
      assert LiveOk(w, id);
    }
  }

  lemma StartKeepsStandalone(w: World, k: Key, v: Version, local: map<Name, Version>)
    requires Standalone(w) && k in w.clusters
    requires forall id :: Live(w, id) ==> w.updaters[id].key != k
    requires w.clusters[k].plan.Some? && w.clusters[k].plan.value.version == v
    ensures Standalone(StartUpdater(w, k, v, local))
  {
    var w' := StartUpdater(w, k, v, local);
    forall id | Live(w', id) ensures LiveOk(w', id) {
      if id < |w.updaters| {
        assert Live(w, id);
        assert LiveOk(w, id);
      }
    }
  }

  lemma RunStandaloneKeeps(w: World, k: Key, scope: Scope, local: map<Name, Version>, create: Reply)
    requires Standalone(w) && k in w.clusters && w.clusters[k].plan.None?
    requires forall id :: Live(w, id) ==> w.updaters[id].key != k
    ensures Standalone(RunStandalone(w, k, scope, local, create))
  {
    var (c, ok) := CreatePlan(w.clusters[k], NewPlan(scope.outdated, scope.version, Controllers), create);
    PutKeepsStandalone(w, k, c);
    if ok { StartKeepsStandalone(Put(w, k, c), k, scope.version, local); }
  }

  lemma ReconcileKeepsStandalone(w: World, k: Key, scope: Scope, a: Answers)
    requires Standalone(w) && Enabled(w, ReconcileStep(k, scope, a))
    ensures Standalone(Reconcile(w, k, scope, a))
  {
    var c := w.clusters[k];
    if a.available && a.client && a.getPlan {
      if c.plan.None? {
        forall id | Live(w, id) ensures w.updaters[id].key != k { assert LiveOk(w, id); }
        if scope.requiresUpdate && !a.extension { RunStandaloneKeeps(w, k, scope, scope.local, a.create); }
      } else if IsPlanCompleted(c.plan.value) == Ok(true) {
        var p := c.plan.value;
        var (recorded, local, ok) := RecordAll(c.recorded, scope.local, p.nodes, p.version, a.patches);
        StopLeavesNoneLive(w, k);
        var stopped := StopUpdater(w, k);
        PutKeepsStandalone(stopped, k, c.(recorded := recorded));
        var w1 := Put(stopped, k, c.(recorded := recorded));
        if ok && scope.requiresUpdate {
          var (c2, deleted) := DeletePlan(w1.clusters[k], a.delete);
          PutKeepsStandalone(w1, k, c2);
          if deleted && !a.extension { RunStandaloneKeeps(Put(w1, k, c2), k, scope, local, a.create); }
        }
      }
    }
  }

  lemma UpdaterStepKeepsStandalone(w: World, id: Id, u: Updater)
    requires Standalone(w) && id < |w.updaters|
    requires u.key == w.updaters[id].key && u.version == w.updaters[id].version
             && u.cancelled == w.updaters[id].cancelled
    requires u.running ==> w.updaters[id].running
    ensures Standalone(w.(updaters := w.updaters[id := u]))
    ensures forall j :: Live(w.(updaters := w.updaters[id := u]), j) ==> Live(w, j)
  {
    var w' := w.(updaters := w.updaters[id := u]);
    forall j | Live(w', j) ensures LiveOk(w', j) && Live(w, j) {
      assert Live(w, j);
      assert LiveOk(w, j);
    }
  }

  lemma PollKeepsStandalone(w: World, id: Id, getPlan: bool, patches: seq<Reply>)
    requires Standalone(w) && Enabled(w, PollStep(id, getPlan, patches))
    ensures Standalone(Poll(w, id, getPlan, patches))
  {
    var u := w.updaters[id];
    var c := w.clusters[u.key];
    if !getPlan || c.plan.None? {
      UpdaterStepKeepsStandalone(w, id, u.(running := false));
    } else {
      var p := c.plan.value;
      var (recorded, local, ok) := RecordAll(c.recorded, u.local, Signalled(p), u.version, patches);
      var u' := u.(local := local, running := ok && !AllSignalled(p));
      UpdaterStepKeepsStandalone(w, id, u');
      PutKeepsStandalone(w.(updaters := w.updaters[id := u']), u.key, c.(recorded := recorded));
    }
  }

  lemma CleanUpKeepsStandalone(w: World, id: Id)
    requires Standalone(w) && Enabled(w, CleanUpStep(id))
    ensures Standalone(CleanUp(w, id))
  {
    var w' := CleanUp(w, id);
    forall j | Live(w', j) ensures LiveOk(w', j) {
      assert Live(w, j);
      assert LiveOk(w, j);
    }
  }

  /** The hook call reaches its delete, and the delete lands. */
  predicate DeletesPlan(c: Cluster, m: Name, v: Version, a: CallAnswers) {
    && a.cluster && a.getPlan && c.plan.Some? && IsPlanCompleted(c.plan.value) == Ok(true)
    && (m !in c.plan.value.nodes || c.plan.value.version != v) && a.delete.Landed()
  }

  /** The call then leaves a plan for the version of the one it deleted. */
  predicate RenewsPlan(c: Cluster, v: Version, a: CallAnswers)
    requires c.plan.Some?
  {
    a.delete.Done? && a.bootstrap && a.create.Landed() && c.plan.value.version == v
  }

  /** A hook call takes the plan away under a live updater of the control plane, and does not put
      one for the same version in its place. */
  ghost predicate Undercuts(w: World, l: Label) {
    && l.CallStep? && l.k in w.clusters && DeletesPlan(w.clusters[l.k], l.m, l.v, l.call)
    && !RenewsPlan(w.clusters[l.k], l.v, l.call)
    && exists id :: Live(w, id) && w.updaters[id].key == l.k
  }

  /** What a hook call leaves of the plan. */
  lemma CallPlan(c: Cluster, m: Name, v: Version, t: Target, a: CallAnswers)
    ensures var c' := DoUpdateMachine(c, m, v, t, a).0;
            && c'.recorded == c.recorded && c'.installed == c.installed && c'.finished == c.finished
            && (c.plan.Some? && !DeletesPlan(c, m, v, a) ==> c'.plan == c.plan)
            && (DeletesPlan(c, m, v, a) ==>
                  (RenewsPlan(c, v, a) <==> c'.plan.Some? && c'.plan.value.version == c.plan.value.version))
  {
  }

  /** The hook call keeps the standalone invariant exactly when it does not undercut an updater. */
  lemma CallKeepsStandaloneIff(w: World, l: Label)
    requires Standalone(w) && Enabled(w, l) && l.CallStep?
    ensures Standalone(Apply(w, l)) <==> !Undercuts(w, l)
  {
    var c := w.clusters[l.k];
    var c' := DoUpdateMachine(c, l.m, l.v, l.t, l.call).0;
    HandlerKeepsClusterOk(c, l.m, l.v, l.t, l.call);
    CallPlan(c, l.m, l.v, l.t, l.call);
    if Undercuts(w, l) {
      var id :| Live(w, id) && w.updaters[id].key == l.k;
      assert LiveOk(w, id);
      assert Live(Apply(w, l), id) && !LiveOk(Apply(w, l), id);
    } else {
      PutKeepsStandalone(w, l.k, c');
    }
  }

  lemma StepKeepsStandalone(w: World, l: Label)
    requires Standalone(w) && Enabled(w, l) && !Undercuts(w, l)
    ensures Standalone(Apply(w, l))
  {
    StepKeepsClustersOk(w, l);
    match l
    case CallStep(_, _, _, _, _) => CallKeepsStandaloneIff(w, l);
    case ReconcileStep(k, scope, a) => ReconcileKeepsStandalone(w, k, scope, a);
    case PollStep(id, getPlan, patches) => PollKeepsStandalone(w, id, getPlan, patches);
    case ReturnStep(id) => UpdaterStepKeepsStandalone(w, id, w.updaters[id].(running := false));
    case CleanUpStep(id) => CleanUpKeepsStandalone(w, id);
    case RestartStep =>
    case PublishStep(k) => PutKeepsStandalone(w, k, Apply(w, l).clusters[k]);
    case SignalStep(k, n) => PutKeepsStandalone(w, k, Apply(w, l).clusters[k]);
    case MoveStep(k, s) => PutKeepsStandalone(w, k, Apply(w, l).clusters[k]);
    case JoinStep(k, n, v, machine) => PutKeepsStandalone(w, k, Apply(w, l).clusters[k]);
    case TriggerStep(k, n, v) => PutKeepsStandalone(w, k, Apply(w, l).clusters[k]);
    case RemoveStep(k, n) => PutKeepsStandalone(w, k, Apply(w, l).clusters[k]);
  }

  lemma {:induction false} RunKeepsStandalone(ws: seq<World>, ls: seq<Label>, i: nat)
    requires IsRun(ws, ls) && i < |ws|
    requires forall j :: 0 <= j < |ls| ==> !Undercuts(ws[j], ls[j])
    ensures Standalone(ws[i])
  {
    if i == 0 {
    } else {
      RunKeepsStandalone(ws, ls, i - 1);
      StepKeepsStandalone(ws[i - 1], ls[i - 1]);
    }
  }

  /** A step that gives an existing Machine of cluster k another recorded version. */
  predicate Rerecords(w: World, w': World, k: Key, n: Name) {
    && k in w.clusters && k in w'.clusters
    && n in w.clusters[k].recorded && n in w'.clusters[k].recorded
    && w.clusters[k].recorded[n] != w'.clusters[k].recorded[n]
  }

  lemma ReconcileRecordsFinished(w: World, l: Label, k: Key, n: Name)
    requires Standalone(w) && Enabled(w, l) && l.ReconcileStep? && Rerecords(w, Apply(w, l), k, n)
    ensures (n, Apply(w, l).clusters[k].recorded[n]) in w.clusters[k].finished
  {
    ReconcileFrame(w, l.k, l.scope, l.answers);
    ReconcileOwnCluster(w, l.k, l.scope, l.answers);
    if l.k == k && w.clusters[k].plan.Some? {
      var p := w.clusters[k].plan.value;
      RecordAllFrame(w.clusters[k].recorded, l.scope.local, p.nodes, p.version, l.answers.patches);
    }
  }

  lemma PollRecordsFinished(w: World, l: Label, k: Key, n: Name)
    requires Standalone(w) && Enabled(w, l) && l.PollStep? && Rerecords(w, Apply(w, l), k, n)
    ensures (n, Apply(w, l).clusters[k].recorded[n]) in w.clusters[k].finished
  {
    assert LiveOk(w, l.id) by { assert Live(w, l.id); }
    var u := w.updaters[l.id];
    var p := w.clusters[u.key].plan.value;
    RecordAllFrame(w.clusters[u.key].recorded, u.local, Signalled(p), u.version, l.patches);
  }

  lemma StepRecordsFinished(w: World, l: Label, k: Key, n: Name)
    requires Standalone(w) && Enabled(w, l) && !l.TriggerStep? && Rerecords(w, Apply(w, l), k, n)
    ensures (n, Apply(w, l).clusters[k].recorded[n]) in w.clusters[k].finished
  {
    match l
    case ReconcileStep(_, _, _) => ReconcileRecordsFinished(w, l, k, n);
    case PollStep(_, _, _) => PollRecordsFinished(w, l, k, n);
    case CallStep(k', m, v, t, a) => CallPlan(w.clusters[k'], m, v, t, a);
    case _ =>
  }

  ghost predicate RecordsOnlyFinished(w: World, w': World) {
    forall k, n :: Rerecords(w, w', k, n) ==> (n, w'.clusters[k].recorded[n]) in w.clusters[k].finished
  }

  /** Among the updaters of one control plane at most one can write, and its handle is the one a
      cancellation would reach. */
  ghost predicate OneWriterPerPlane(w: World) {
    && (forall id, id' :: Live(w, id) && Live(w, id') && w.updaters[id].key == w.updaters[id'].key ==> id == id')
    && (forall id :: Live(w, id) ==> w.updaters[id].key in w.handles && w.handles[w.updaters[id].key] == id)
  }

  /** An updater's exit takes away its own handle or none. */
  lemma ExitKeepsNewerHandle(w: World, id: Id, k: Key)
    requires Enabled(w, CleanUpStep(id)) && k in w.handles && w.handles[k] != id
    ensures k in CleanUp(w, id).handles && CleanUp(w, id).handles[k] == w.handles[k]
  {
  }

  /** Standalone upgrades, over every run with hook calls, restarts, lost replies and exits anywhere,
      in which no hook call undercuts a live updater: at most one updater per control plane can
      write and it is the one that can be cancelled, and a Machine's recorded version becomes v only
      once a plan for v has finished on that node. Only the trigger of an in-place extension, which
      asks for v that way, writes it earlier. */
  lemma {:induction false} StandaloneSafety(ws: seq<World>, ls: seq<Label>)
    requires IsRun(ws, ls) && forall j :: 0 <= j < |ls| ==> !Undercuts(ws[j], ls[j])
    ensures forall i :: 0 <= i < |ws| ==> OneWriterPerPlane(ws[i])
    ensures forall i :: 0 <= i < |ls| && !ls[i].TriggerStep? ==> RecordsOnlyFinished(ws[i], ws[i + 1])
  {
    forall i | 0 <= i < |ws| ensures OneWriterPerPlane(ws[i]) { RunKeepsStandalone(ws, ls, i); }
    forall i | 0 <= i < |ls| && !ls[i].TriggerStep? ensures RecordsOnlyFinished(ws[i], ws[i + 1]) {
      RunKeepsStandalone(ws, ls, i);
      var w, w' := ws[i], ws[i + 1];
      forall k, n | Rerecords(w, w', k, n) ensures (n, w'.clusters[k].recorded[n]) in w.clusters[k].finished {
        StepRecordsFinished(ws[i], ls[i], k, n);
      }
    }
  }

  /** One control plane named k with at most one updater, which is live. */
  function Single(k: Key, c: Cluster, us: seq<Updater>): World {
    World(map[k := c], if us == [] then map[] else map[k := 0], us)
  }

  /** With no plan in place, a reconcile starts an updater whether or not one is live; the first of
      the two is then out of reach of a cancellation. */
  lemma NoPlanDoublesUpdater(w: World, k: Key, scope: Scope, id: Id) returns (r: Label)
    requires k in w.clusters && w.clusters[k].plan.None? && scope.requiresUpdate
    requires Live(w, id) && w.updaters[id].key == k
    ensures r.ReconcileStep? && r.k == k && r.scope == scope && Enabled(w, r)
    ensures var w' := Apply(w, r);
            && Live(w', id) && Live(w', |w.updaters|) && w'.updaters[|w.updaters|].key == k
            && k in w'.handles && w'.handles[k] != id && !OneWriterPerPlane(w')
  {
    r := ReconcileStep(k, scope, Answers(true, true, true, [], Done, false, Done));
    var w' := Apply(w, r);
    assert Live(w', id) && Live(w', |w.updaters|);
  }

  /** Worlds joined by enabled labels, from any world on. */
  ghost predicate Steps(ws: seq<World>, ls: seq<Label>) {
    && |ws| == |ls| + 1
    && forall i :: 0 <= i < |ls| ==> Enabled(ws[i], ls[i]) && ws[i + 1] == Apply(ws[i], ls[i])
  }

  lemma Continue(ws0: seq<World>, ls0: seq<Label>, l: Label) returns (ws: seq<World>, ls: seq<Label>)
    requires Steps(ws0, ls0) && Enabled(ws0[|ls0|], l)
    ensures Steps(ws, ls) && ws == ws0 + [Apply(ws0[|ls0|], l)] && ls == ls0 + [l]
  {
    ws, ls := ws0 + [Apply(ws0[|ls0|], l)], ls0 + [l];
  }

  /** A new one-node plan runs to its end and is then deleted by a hook call whose create fails. */
  lemma PlanComesAndGoes(ws0: seq<World>, ls0: seq<Label>, k: Key, m: Name) returns (ws: seq<World>, ls: seq<Label>)
    requires Steps(ws0, ls0) && k in ws0[|ls0|].clusters
    requires var p := ws0[|ls0|].clusters[k].plan; p.Some? && p.value == NewPlan([m], p.value.version, p.value.target)
    ensures Steps(ws, ls) && |ls| == |ls0| + 4 && ws[..|ws0|] == ws0 && ls[..|ls0|] == ls0
    ensures ws[|ls|].updaters == ws0[|ls0|].updaters
    ensures k in ws[|ls|].clusters && ws[|ls|].clusters[k].plan.None?
  {
    var v := ws0[|ls0|].clusters[k].plan.value.version;
    ws, ls := Continue(ws0, ls0, PublishStep(k));
    ws, ls := Continue(ws, ls, SignalStep(k, m));
    assert {} + {m} == {m};
    ws, ls := Continue(ws, ls, MoveStep(k, COMPLETED));
    var p := ws[|ls|].clusters[k].plan.value;
    assert p.version == v && IsPlanCompleted(p) == Ok(true);
    var other := v + "'";
    assert |other| != |v|;
    ws, ls := Continue(ws, ls, CallStep(k, m, other, Controllers, CallAnswers(true, true, true, Done, Refused)));
  }

  /** The condition is exact for the claim itself: from every world, every call outside it has a
      continuation that ends with two live updaters of one control plane. */
  lemma UndercutBreaks(w: World, l: Label, scope: Scope) returns (ws: seq<World>, ls: seq<Label>)
    requires Enabled(w, l) && Undercuts(w, l) && scope.requiresUpdate
    ensures Steps(ws, ls) && ls != [] && ws[0] == w && ls[0] == l && !OneWriterPerPlane(ws[|ls|])
  {
    var id: int :| Live(w, id) && w.updaters[id].key == l.k;
    ws, ls := Continue([w], [], l);
    CallLeaves(w.clusters[l.k], l.m, l.v, l.t, l.call);
    if ws[1].clusters[l.k].plan.Some? { ws, ls := PlanComesAndGoes(ws, ls, l.k, l.m); }
    assert Live(ws[|ls|], id);
    var r := NoPlanDoublesUpdater(ws[|ls|], l.k, scope, id);
    ws, ls := Continue(ws, ls, r);
  }

  lemma CallLeaves(c: Cluster, m: Name, v: Version, t: Target, a: CallAnswers)
    requires DeletesPlan(c, m, v, a)
    ensures var p := DoUpdateMachine(c, m, v, t, a).0.plan;
            p.Some? ==> p.value == NewPlan([m], v, t)
  {
  }

  /** Such a run: the hook call's delete succeeds and its create does not. */
  lemma HookCallDoublesUpdater(k: Key, a: Name, b: Name, v0: Version, v1: Version, v2: Version)
      returns (ws: seq<World>, ls: seq<Label>)
    requires a != b && v1 != v2
    ensures IsRun(ws, ls) && !OneWriterPerPlane(ws[|ls|]) && Live(ws[|ls|], 0) && Live(ws[|ls|], 1)
  {
    var old0 := map[a := v0, b := v0];
    var u := Updater(k, v1, old0, false, true);
    var c4;
    ws, ls, c4 := MisledPrefix(k, a, v1, u, old0);
    var w := ws[4];
    assert Live(w, 0);
    var l := CallStep(k, b, v2, Controllers, CallAnswers(true, true, true, Done, Refused));
    assert Live(Apply(w, l), 0);
    var r := NoPlanDoublesUpdater(Apply(w, l), k, Scope(v2, old0, [b], true), 0);
    ws, ls := Extend(ws, ls, l, Apply(w, l));
    ws, ls := Extend(ws, ls, r, Apply(Apply(w, l), r));
  }

  /** The condition is needed for the records too: a hook call that replaces a completed plan under a
      live updater makes that updater record its old version v1 for node b, which was taken to v2.
      The run works for any two nodes and any versions. */
  lemma HookCallMisleadsUpdater(k: Key, a: Name, b: Name, v0: Version, v1: Version, v2: Version)
      returns (ws: seq<World>, ls: seq<Label>)
    requires a != b && v0 != v1 && v1 != v2
    ensures IsRun(ws, ls) && |ws| == 9 && k in ws[8].clusters
    ensures !RecordsOnlyFinished(ws[7], ws[8])
    ensures b in ws[8].clusters[k].installed && ws[8].clusters[k].installed[b] == v2
    ensures b in ws[8].clusters[k].recorded && ws[8].clusters[k].recorded[b] == v1
  {
    var old0 := map[a := v0, b := v0];
    var u := Updater(k, v1, old0, false, true);
    var c4, c7;
    ws, ls, c4 := MisledPrefix(k, a, v1, u, old0);
    ws, ls, c7 := MisledMiddle(ws, ls, k, b, v2, u, c4);
    var c8 := c7.(recorded := old0[b := v1]);
    MisledPoll(k, c7, u, b, PollStep(0, true, [Done]), c8);
    ws, ls := Extend(ws, ls, PollStep(0, true, [Done]), Single(k, c8, [u.(local := old0[b := v1], running := false)]));
    assert Rerecords(ws[7], ws[8], k, b);
    assert (b, v1) !in c7.finished;
  }

  /** A standalone update of node a to v1, complete but with its updater still waiting. */
  lemma MisledPrefix(k: Key, a: Name, v1: Version, u: Updater, old0: map<Name, Version>)
      returns (ws: seq<World>, ls: seq<Label>, c4: Cluster)
    requires u == Updater(k, v1, old0, false, true)
    ensures IsRun(ws, ls) && |ls| == 4 && ws[4] == Single(k, c4, [u])
    ensures c4 == Cluster(Some(Plan([a], v1, Controllers, Some(COMPLETED), Some({a}))), old0, old0[a := v1],
            {(a, v1)}, 1)
  {
    var c0 := Cluster(None, old0, old0, {}, 0);
    var c1 := c0.(plan := Some(NewPlan([a], v1, Controllers)), created := 1);
    var l0 := ReconcileStep(k, Scope(v1, old0, [a], true), Answers(true, true, true, [], Done, false, Done));
    ws, ls := [Single(k, c0, [])], [];
    MisledStart(k, c0, c1, u, l0);
    ws, ls := Extend(ws, ls, l0, Single(k, c1, [u]));
    ws, ls, c4 := FinishPlan(ws, ls, k, a, u, c1);
    assert {} + {(a, v1)} == {(a, v1)};
  }

  /** The new plan of one node runs to its end. */
  lemma FinishPlan(ws0: seq<World>, ls0: seq<Label>, k: Key, a: Name, u: Updater, c1: Cluster)
      returns (ws: seq<World>, ls: seq<Label>, c4: Cluster)
    requires IsRun(ws0, ls0) && ws0[|ls0|] == Single(k, c1, [u])
    requires c1.plan.Some? && c1.plan.value == NewPlan([a], c1.plan.value.version, Controllers)
    ensures IsRun(ws, ls) && |ls| == |ls0| + 3 && ws[|ls|] == Single(k, c4, [u])
    ensures var p := c1.plan.value;
            c4 == Cluster(Some(Plan([a], p.version, Controllers, Some(COMPLETED), Some({a}))), c1.recorded,
                          c1.installed[a := p.version], c1.finished + {(a, p.version)}, c1.created)
  {
    var c2 := Publish(c1);
    ws, ls := ExtendSingle(ws0, ls0, k, c1, [u], PublishStep(k), c2);
    var c3 := Signal(c2, a);
    assert {} + {a} == {a};
    ws, ls := ExtendSingle(ws, ls, k, c2, [u], SignalStep(k, a), c3);
    c4 := Move(c3, COMPLETED);
    ws, ls := ExtendSingle(ws, ls, k, c3, [u], MoveStep(k, COMPLETED), c4);
  }

  /** A hook call replaces the completed plan by one for b and v2, and b reports in. */
  lemma MisledMiddle(ws0: seq<World>, ls0: seq<Label>, k: Key, b: Name, v2: Version, u: Updater, c4: Cluster)
      returns (ws: seq<World>, ls: seq<Label>, c7: Cluster)
    requires IsRun(ws0, ls0) && ws0[|ls0|] == Single(k, c4, [u])
    requires c4.plan.Some? && c4.plan.value.state == Some(COMPLETED) && b in c4.installed
    requires c4.plan.value.version != v2 && c4.created == 1
    ensures IsRun(ws, ls) && |ls| == |ls0| + 3 && ws[|ls|] == Single(k, c7, [u]) && ws[..|ws0|] == ws0
    ensures c7 == Cluster(Some(Plan([b], v2, Controllers, None, Some({b}))), c4.recorded, c4.installed[b := v2],
                          c4.finished + {(b, v2)}, 2)
  {
    var c5 := c4.(plan := Some(NewPlan([b], v2, Controllers)), created := 2);
    ws, ls := ExtendSingle(ws0, ls0, k, c4, [u],
        CallStep(k, b, v2, Controllers, CallAnswers(true, true, true, Done, Done)), c5);
    var c6 := Publish(c5);
    ws, ls := ExtendSingle(ws, ls, k, c5, [u], PublishStep(k), c6);
    c7 := Signal(c6, b);
    assert {} + {b} == {b};
    ws, ls := ExtendSingle(ws, ls, k, c6, [u], SignalStep(k, b), c7);
  }

  lemma Extend(ws: seq<World>, ls: seq<Label>, l: Label, w: World) returns (ws': seq<World>, ls': seq<Label>)
    requires IsRun(ws, ls) && Enabled(ws[|ls|], l) && w == Apply(ws[|ls|], l)
    ensures IsRun(ws', ls') && ws' == ws + [w] && ls' == ls + [l]
  {
    ws', ls' := ws + [w], ls + [l];
  }

  lemma ExtendSingle(ws: seq<World>, ls: seq<Label>, k: Key, c: Cluster, us: seq<Updater>, l: Label, c': Cluster)
      returns (ws': seq<World>, ls': seq<Label>)
    requires IsRun(ws, ls) && ws[|ls|] == Single(k, c, us)
    requires l.PublishStep? || l.SignalStep? || l.MoveStep? || l.CallStep?
    requires l.k == k && Enabled(Single(k, c, us), l)
    requires c' == match l
                   case PublishStep(_) => Publish(c)
                   case SignalStep(_, n) => Signal(c, n)
                   case MoveStep(_, s) => Move(c, s)
                   case CallStep(_, m, v, t, a) => DoUpdateMachine(c, m, v, t, a).0
    ensures IsRun(ws', ls') && ws' == ws + [Single(k, c', us)] && ls' == ls + [l]
  {
    assert map[k := c][k := c'] == map[k := c'];
    ws', ls' := Extend(ws, ls, l, Single(k, c', us));
  }

  lemma MisledStart(k: Key, c0: Cluster, c1: Cluster, u: Updater, l: Label)
    requires c0.plan.None? && u.key == k && u.running && !u.cancelled
    requires l.ReconcileStep? && l.k == k && l.scope.requiresUpdate && l.scope.version == u.version
             && l.scope.local == u.local
    requires l.answers == Answers(true, true, true, [], Done, false, Done)
    requires c1 == c0.(plan := Some(NewPlan(l.scope.outdated, u.version, Controllers)), created := c0.created + 1)
    ensures Enabled(Single(k, c0, []), l) && Apply(Single(k, c0, []), l) == Single(k, c1, [u])
  {
    assert map[k := c0][k := c1] == map[k := c1];
  }

  lemma MisledPoll(k: Key, c: Cluster, u: Updater, b: Name, l: Label, c': Cluster)
    requires u.key == k && u.running && !u.cancelled && l == PollStep(0, true, [Done])
    requires b in u.local && u.local[b] != u.version && b in c.recorded
    requires c.plan.Some? && c.plan.value.target.Controllers? && c.plan.value.nodes == [b]
             && c.plan.value.signalled == Some({b})
    requires c' == c.(recorded := c.recorded[b := u.version])
    ensures Enabled(Single(k, c, [u]), l)
    ensures Apply(Single(k, c, [u]), l) == Single(k, c', [u.(local := u.local[b := u.version], running := false)])
  {
    var p := c.plan.value;
    assert Keep([b], {b}) == [b] + Keep([b][1..], {b});
    assert Signalled(p) == [b];
    var tail: seq<Name> := [b][1..];
    assert tail == [] && [Done][1..] == [];
    assert RecordAll(c.recorded, u.local, [b], u.version, [Done])
        == RecordAll(c.recorded[b := u.version], u.local[b := u.version], tail, u.version, [Done][1..]);
    assert AllSignalled(p);
    assert map[k := c][k := c'] == map[k := c'];
    var done := u.(local := u.local[b := u.version], running := false);
    assert [u][0 := done] == [done];
  }
}
