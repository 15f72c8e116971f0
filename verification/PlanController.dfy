/** The code that moves PlanWorld, in the form the source has: a controller object with a
    concurrent map of cancel handles, and a hook handler, both acting on the plan step by step. */
module PlanController {
  import opened Prelude
  import opened PlanWorld
  import opened PlanSafety
  import opened PlanTables
  import PlanProgress

  /** The part of sync.Map that the controller uses. */
  class CancelMap {
    var entries: map<Key, Id>

    constructor ()
      ensures entries == map[]
    {
      entries := map[];
    }

    method Store(k: Key, id: Id)
      modifies this
      ensures entries == old(entries)[k := id]
    {
      entries := entries[k := id];
    }

    method LoadAndDelete(k: Key) returns (found: Option<Id>)
      modifies this
      ensures found == if k in old(entries) then Some(old(entries)[k]) else None
      ensures entries == old(entries) - {k}
    {
      found := if k in entries then Some(entries[k]) else None;
      entries := entries - {k};
    }

    method CompareAndDelete(k: Key, id: Id)
      modifies this
      ensures entries == if k in old(entries) && old(entries)[k] == id then old(entries) - {k} else old(entries)
    {
      if k in entries && entries[k] == id { entries := entries - {k}; }
    }
  }

  class K0sController {
    const autopilotUpdateCancels: CancelMap
    var updaters: seq<Updater>
    var clusters: map<Key, Cluster>

    ghost function Model(): World
      reads this, autopilotUpdateCancels
    {
      World(clusters, autopilotUpdateCancels.entries, updaters)
    }

    constructor (clusters: map<Key, Cluster>)
      ensures Model() == World(clusters, map[], []) && fresh(autopilotUpdateCancels)
    {
      autopilotUpdateCancels := new CancelMap();
      updaters := [];
      this.clusters := clusters;
    }

    method StartUpdateMachineVersions(k: Key, v: Version, local: map<Name, Version>)
      modifies this, autopilotUpdateCancels
      ensures Model() == StartUpdater(old(Model()), k, v, local)
      ensures Live(Model(), |old(updaters)|)
              && autopilotUpdateCancels.entries == old(autopilotUpdateCancels.entries)[k := |old(updaters)|]
    {
      autopilotUpdateCancels.Store(k, |updaters|);
      updaters := updaters + [Updater(k, v, local, false, true)];
    }

    method StopUpdateMachineVersions(k: Key)
      modifies this, autopilotUpdateCancels
      ensures Model() == StopUpdater(old(Model()), k)
      ensures Standalone(old(Model())) ==>
                Standalone(Model()) && forall id :: Live(Model(), id) ==> Model().updaters[id].key != k
    {
      if Standalone(Model()) { StopLeavesNoneLive(Model(), k); }
      var found := autopilotUpdateCancels.LoadAndDelete(k);
      if found.Some? && found.value < |updaters| {
        updaters := updaters[found.value := updaters[found.value].(cancelled := true)];
      }
      assert k !in old(autopilotUpdateCancels.entries) ==>
          old(autopilotUpdateCancels.entries) - {k} == old(autopilotUpdateCancels.entries);
    }

    /** The deferred end of an updater's goroutine. */
    method FinishUpdater(id: Id)
      requires id < |updaters|
      modifies autopilotUpdateCancels
      ensures Model() == CleanUp(old(Model()), id)
      ensures var k, was := updaters[id].key, old(autopilotUpdateCancels.entries);
              autopilotUpdateCancels.entries == if k in was && was[k] == id then was - {k} else was
      ensures Standalone(old(Model())) && !updaters[id].running ==> Standalone(Model())
    {
      if Standalone(Model()) && !updaters[id].running { CleanUpKeepsStandalone(Model(), id); }
      autopilotUpdateCancels.CompareAndDelete(updaters[id].key, id);
    }

    /** `updateMachineVersion` on a local copy of the Machine; the patch may fail. */
    method UpdateMachineVersion(k: Key, n: Name, v: Version, reply: Reply) returns (ok: bool)
      requires k in clusters
      modifies this`clusters
      ensures var c := old(clusters)[k];
              clusters == old(clusters)[k := c.(recorded := PatchVersion(c.recorded, n, v, reply).0)]
      ensures ok == PatchVersion(old(clusters)[k].recorded, n, v, reply).1
    {
      var c := clusters[k];
      if n !in c.recorded {
        ok := false;
        assert clusters == clusters[k := c];
      } else {
        if reply.Landed() { c := c.(recorded := c.recorded[n := v]); }
        clusters := clusters[k := c];
        ok := reply.Done?;
      }
    }

    /** The loop shared by `ensureTargetMachinesWithTargetVersion` and one updater round. */
    method RecordVersions(k: Key, local0: map<Name, Version>, names: seq<Name>, v: Version, replies: seq<Reply>)
        returns (local: map<Name, Version>, ok: bool)
      requires k in clusters && |replies| == |names|
      modifies this`clusters
      ensures var (recorded, local', ok') := RecordAll(old(clusters)[k].recorded, local0, names, v, replies);
              && clusters == old(clusters)[k := old(clusters)[k].(recorded := recorded)]
              && local == local' && ok == ok'
    {
      local, ok := local0, true;
      var i := 0;
      ghost var goal := RecordAll(clusters[k].recorded, local0, names, v, replies);
      assert names[0..] == names && replies[0..] == replies;
      while i < |names|
        invariant 0 <= i <= |names| && ok
        invariant k in clusters && clusters == old(clusters)[k := old(clusters)[k].(recorded := clusters[k].recorded)]
        invariant RecordAll(clusters[k].recorded, local, names[i..], v, replies[i..]) == goal
      {
        var n := names[i];
        assert names[i..][1..] == names[i + 1..] && replies[i..][1..] == replies[i + 1..];
        if n in local && local[n] != v {
          local := local[n := v];
          ok := UpdateMachineVersion(k, n, v, replies[i]);
          if !ok { return; }
        }
        i := i + 1;
      }
    }

    method RunStandaloneAutopilotPlan(k: Key, scope: Scope, local: map<Name, Version>, create: Reply)
      requires k in clusters
      modifies this, autopilotUpdateCancels
      ensures Model() == RunStandalone(old(Model()), k, scope, local, create)
    {
      var (c, ok) := CreatePlan(clusters[k], NewPlan(scope.outdated, scope.version, Controllers), create);
      clusters := clusters[k := c];
      if ok { StartUpdateMachineVersions(k, scope.version, local); }
    }

    /** `runInplaceUpdate`; the trigger sent with the extension is the subject of module Trigger. */
    method RunInplaceUpdate(k: Key, scope: Scope, local: map<Name, Version>, a: Answers)
      requires k in clusters
      modifies this, autopilotUpdateCancels
      ensures Model() == RunInplace(old(Model()), k, scope, local, a)
    {
      if !a.extension { RunStandaloneAutopilotPlan(k, scope, local, a.create); }
    }

    /** `reconcileInplaceK0sVersionUpdate`, from the availability check on. */
    method ReconcileInplaceK0sVersionUpdate(k: Key, scope: Scope, a: Answers)
      requires k in clusters
      requires clusters[k].plan.Some? ==> |a.patches| == |clusters[k].plan.value.nodes|
      modifies this, autopilotUpdateCancels
      ensures Model() == Reconcile(old(Model()), k, scope, a)
      ensures Standalone(old(Model())) ==> Standalone(Model())
    {
      if Standalone(Model()) { ReconcileKeepsStandalone(Model(), k, scope, a); }
      if !a.available || !a.client || !a.getPlan { return; }
      if clusters[k].plan.None? {
        if scope.requiresUpdate { RunInplaceUpdate(k, scope, scope.local, a); }
        return;
      }
      var plan := clusters[k].plan.value;
      var completed := IsPlanCompleted(plan);
      if completed != Ok(true) { return; }

      StopUpdateMachineVersions(k);
      var local, ok := RecordVersions(k, scope.local, plan.nodes, plan.version, a.patches);
      if !ok || !scope.requiresUpdate { return; }

      var (c, deleted) := DeletePlan(clusters[k], a.delete);
      clusters := clusters[k := c];
      if deleted { RunInplaceUpdate(k, scope, local, a); }
    }

    /** One round of `updateMachineVersions`. */
    method UpdateMachineVersions(id: Id, getPlan: bool, patches: seq<Reply>)
      requires id < |updaters| && updaters[id].key in clusters
      requires clusters[updaters[id].key].plan.Some? ==> |patches| == |Signalled(clusters[updaters[id].key].plan.value)|
      modifies this
      ensures Model() == Poll(old(Model()), id, getPlan, patches)
      ensures Standalone(old(Model())) && old(Live(Model(), id)) ==> Standalone(Model())
    {
      if Standalone(Model()) && Live(Model(), id) { PollKeepsStandalone(Model(), id, getPlan, patches); }
      var u := updaters[id];
      if !getPlan || clusters[u.key].plan.None? {
        updaters := updaters[id := u.(running := false)];
        return;
      }
      var plan := clusters[u.key].plan.value;
      var local, ok := RecordVersions(u.key, u.local, Signalled(plan), u.version, patches);
      updaters := updaters[id := u.(local := local, running := ok && !AllSignalled(plan))];
    }
  }

  /** The UpdateMachine hook in front of one workload cluster. */
  class UpdateMachineHandler {
    var cluster: Cluster

    constructor (cluster: Cluster)
      ensures this.cluster == cluster
    {
      this.cluster := cluster;
    }

    method CreateAutopilotPlanForMachine(m: Name, v: Version, t: Target, a: CallAnswers) returns (resp: Response)
      modifies this
      ensures (cluster, resp) == CreateForMachine(old(cluster), m, v, t, a)
      // a plan in place is never replaced, and only the plan and its count can change
      ensures old(cluster).plan.Some? ==> cluster == old(cluster) && resp == Failure
      ensures cluster == old(cluster).(plan := cluster.plan, created := cluster.created)
      // "updating" is answered exactly when the one-node plan is there and known to be
      ensures resp == UPDATING ==>
                cluster.plan == Some(NewPlan([m], v, t)) && cluster.created == old(cluster).created + 1
      ensures resp == UPDATING <==> old(cluster).plan.None? && a.bootstrap && a.create.Done?
      ensures ClusterOk(old(cluster)) ==> ClusterOk(cluster)
    {
      if !a.bootstrap { return Failure; }
      var (c, ok) := CreatePlan(cluster, NewPlan([m], v, t), a.create);
      cluster := c;
      resp := if ok then UPDATING else Failure;
    }

    /** `DoUpdateMachine`. "Updated" is answered only for an installed version, and a plan that is
        not Completed stays in place. That "updated" is reached is shown in PlanProgress. */
    method UpdateMachine(m: Name, v: Version, t: Target, a: CallAnswers) returns (resp: Response)
      modifies this
      ensures (cluster, resp) == DoUpdateMachine(old(cluster), m, v, t, a)
      ensures ClusterOk(old(cluster)) ==> ClusterOk(cluster)
      // the plan it leaves and its answer, case by case
      ensures LeavesPlan(old(cluster), cluster, m, v, t, a) && Answered(old(cluster), m, v, a, resp)
      ensures ClusterOk(old(cluster)) && resp == UPDATED ==> m in cluster.installed && cluster.installed[m] == v
      ensures old(cluster).plan.Some? && old(cluster).plan.value.state != Some(COMPLETED) ==> cluster == old(cluster)
      ensures resp == UPDATED <==>
                a.cluster && a.getPlan && PlanProgress.Rank(old(cluster), PlanProgress.Job(m, v, t)) == 0
    {
      if ClusterOk(cluster) { HandlerKeepsClusterOk(cluster, m, v, t, a); }
      HookTable(cluster, m, v, t, a);
      if a.cluster && a.getPlan { PlanProgress.UpdatedIffRankZero(cluster, PlanProgress.Job(m, v, t), a); }
      if !a.cluster || !a.getPlan { return Failure; }
      if cluster.plan.None? {
        resp := CreateAutopilotPlanForMachine(m, v, t, a);
        return;
      }
      var plan := cluster.plan.value;
      var completed := IsPlanCompleted(plan);
      if completed.Err? { return Failure; }
      if !completed.value { return UPDATING; }
      if m !in plan.nodes || plan.version != v {
        var (c, ok) := DeletePlan(cluster, a.delete);
        cluster := c;
        if !ok { return Failure; }
        resp := CreateAutopilotPlanForMachine(m, v, t, a);
        return;
      }
      return UPDATED;
    }
  }
}
