/** What each step of PlanWorld does, field by field and in terms of what it finds: which Machines it
    records, which plan it leaves, what it answers and whom it starts or stops. */
module PlanTables {
  import opened Prelude
  import opened PlanWorld
  import opened PlanSafety

  // ---- recording versions ------------------------------------------------------------------------

  /** The Machine at this index is patched: its copy shows another version and it was not met before. */
  predicate Sent(local: map<Name, Version>, names: seq<Name>, v: Version, i: nat)
    requires i < |names|
  {
    names[i] in local && local[names[i]] != v && names[i] !in names[..i]
  }

  /** The patch at this index goes through. */
  predicate Goes(recorded: map<Name, Version>, names: seq<Name>, replies: seq<Reply>, i: nat)
    requires i < |names| == |replies|
  {
    names[i] in recorded && replies[i].Done?
  }

  /** Every patch that is sent goes through. */
  predicate AllGo(recorded: map<Name, Version>, local: map<Name, Version>, names: seq<Name>, v: Version,
      replies: seq<Reply>)
    requires |replies| == |names|
  {
    forall i :: 0 <= i < |names| && Sent(local, names, v, i) ==> Goes(recorded, names, replies, i)
  }

  /** The names whose copies show another version get this one. */
  function Updated(m: map<Name, Version>, local: map<Name, Version>, names: seq<Name>, v: Version): map<Name, Version> {
    map n | n in m :: if n in names && n in local && local[n] != v then v else m[n]
  }

  /** The loop ends well exactly when every patch it sends goes through, and then every named Machine
      whose copy showed another version has this one, and nothing else is changed. */
  lemma {:induction false} RecordAllTable(recorded: map<Name, Version>, local: map<Name, Version>, names: seq<Name>,
                                          v: Version, replies: seq<Reply>)
    requires |replies| == |names|
    ensures var (r, l, ok) := RecordAll(recorded, local, names, v, replies);
            && (ok <==> AllGo(recorded, local, names, v, replies))
            && (ok ==> r == Updated(recorded, local, names, v) && l == Updated(local, local, names, v))
    decreases |names|
  {
    if names == [] {
      assert Updated(recorded, local, names, v) == recorded && Updated(local, local, names, v) == local;
    } else {
      var n, rest := names[0], names[1..];
      if n !in local || local[n] == v {
        RecordAllTable(recorded, local, rest, v, replies[1..]);
        AllGoTail(recorded, local, names, v, replies);
        UpdatedTail(recorded, local, names, v);
        UpdatedTail(local, local, names, v);
      } else {
        assert Sent(local, names, v, 0);
        var (recorded', ok) := PatchVersion(recorded, n, v, replies[0]);
        if ok {
          RecordAllTable(recorded', local[n := v], rest, v, replies[1..]);
          AllGoSent(recorded, local, names, v, replies);
          UpdatedSent(recorded, local, names, v);
          UpdatedSent(local, local, names, v);
        } else {
          assert !Goes(recorded, names, replies, 0);
        }
      }
    }
  }

  /** Where a loop that fails stops: at the first patch that does not go through, with everything
      before it done, and that one too if it landed after all. */
  ghost predicate StopsAt(recorded: map<Name, Version>, local: map<Name, Version>, names: seq<Name>, v: Version,
                          replies: seq<Reply>, r: map<Name, Version>, k: nat)
    requires |replies| == |names|
  {
    && k < |names| && Sent(local, names, v, k) && !Goes(recorded, names, replies, k)
    && (forall i :: 0 <= i < k && Sent(local, names, v, i) ==> Goes(recorded, names, replies, i))
    && var done := Updated(recorded, local, names[..k], v);
    r == if names[k] in recorded && replies[k].Landed() then done[names[k] := v] else done
  }

  lemma {:induction false} RecordAllStops(recorded: map<Name, Version>, local: map<Name, Version>, names: seq<Name>,
                                          v: Version, replies: seq<Reply>) returns (k: nat)
    requires |replies| == |names| && !RecordAll(recorded, local, names, v, replies).2
    ensures StopsAt(recorded, local, names, v, replies, RecordAll(recorded, local, names, v, replies).0, k)
    decreases |names|
  {
    var n, rest := names[0], names[1..];
    if n !in local || local[n] == v {
      var k' := RecordAllStops(recorded, local, rest, v, replies[1..]);
      k := k' + 1;
      StopsLater(recorded, local, names, v, replies, recorded, local,
          RecordAll(recorded, local, rest, v, replies[1..]).0, k');
    } else {
      var (recorded', ok) := PatchVersion(recorded, n, v, replies[0]);
      if ok {
        var k' := RecordAllStops(recorded', local[n := v], rest, v, replies[1..]);
        k := k' + 1;
        StopsLater(recorded, local, names, v, replies, recorded', local[n := v],
            RecordAll(recorded', local[n := v], rest, v, replies[1..]).0, k');
      } else {
        k := 0;
        assert names[..0] == [] && Updated(recorded, local, [], v) == recorded;
      }
    }
  }

  /** A stop among the rest is a stop of the whole, the first name being passed over or patched. */
  lemma StopsLater(recorded: map<Name, Version>, local: map<Name, Version>, names: seq<Name>, v: Version,
      replies: seq<Reply>,
                   recorded': map<Name, Version>, local': map<Name, Version>, r: map<Name, Version>, k: nat)
    requires |replies| == |names| > 0 && StopsAt(recorded', local', names[1..], v, replies[1..], r, k)
    requires var n := names[0];
             if n !in local || local[n] == v then recorded' == recorded && local' == local
             else Goes(recorded, names, replies, 0) && recorded' == recorded[n := v] && local' == local[n := v]
    ensures StopsAt(recorded, local, names, v, replies, r, k + 1)
  {
    var n, rest := names[0], names[1..];
    forall i | 0 <= i <= k
      ensures Sent(local', rest, v, i) == Sent(local, names, v, i + 1)
      ensures Goes(recorded', rest, replies[1..], i) == Goes(recorded, names, replies, i + 1)
    {
      assert names[..i + 1] == [n] + rest[..i];
    }
    assert forall i :: 0 < i <= k ==> Sent(local, names, v, i) == Sent(local', rest, v, i - 1);
    assert forall i :: 0 < i <= k ==> Goes(recorded, names, replies, i) == Goes(recorded', rest, replies[1..], i - 1);
    var head := names[..k + 1];
    assert head[1..] == rest[..k] && head[0] == n;
    if n !in local || local[n] == v {
      UpdatedTail(recorded, local, head, v);
    } else {
      UpdatedSent(recorded, local, head, v);
    }
  }

  lemma UpdatedTail(m: map<Name, Version>, local: map<Name, Version>, names: seq<Name>, v: Version)
    requires names != [] && (names[0] !in local || local[names[0]] == v)
    ensures Updated(m, local, names[1..], v) == Updated(m, local, names, v)
  {
    assert names == [names[0]] + names[1..];
  }

  lemma UpdatedSent(m: map<Name, Version>, local: map<Name, Version>, names: seq<Name>, v: Version)
    requires names != [] && names[0] in m && names[0] in local && local[names[0]] != v
    ensures Updated(m[names[0] := v], local[names[0] := v], names[1..], v) == Updated(m, local, names, v)
  {
    assert names == [names[0]] + names[1..];
  }

  /** A first name that is not patched does not matter for the rest. */
  lemma AllGoTail(recorded: map<Name, Version>, local: map<Name, Version>, names: seq<Name>, v: Version,
      replies: seq<Reply>)
    requires |replies| == |names| > 0 && (names[0] !in local || local[names[0]] == v)
    ensures AllGo(recorded, local, names[1..], v, replies[1..]) <==> AllGo(recorded, local, names, v, replies)
  {
    var rest := names[1..];
    forall i | 0 <= i < |rest|
      ensures Sent(local, rest, v, i) == Sent(local, names, v, i + 1)
      ensures Goes(recorded, rest, replies[1..], i) == Goes(recorded, names, replies, i + 1)
    {
      assert names[..i + 1] == [names[0]] + rest[..i];
    }
    assert forall i :: 0 < i < |names| ==> Sent(local, names, v, i) == Sent(local, rest, v, i - 1);
    assert forall i :: 0 < i < |names| ==>
        Goes(recorded, names, replies, i) == Goes(recorded, rest, replies[1..], i - 1);
  }

  /** Nor does one that was patched, once its copy shows the version. */
  lemma AllGoSent(recorded: map<Name, Version>, local: map<Name, Version>, names: seq<Name>, v: Version,
      replies: seq<Reply>)
    requires |replies| == |names| > 0 && names[0] in local && Goes(recorded, names, replies, 0)
    ensures var n := names[0];
            AllGo(recorded[n := v], local[n := v], names[1..], v, replies[1..]) <==>
                AllGo(recorded, local, names, v, replies)
  {
    var n, rest := names[0], names[1..];
    var recorded', local' := recorded[n := v], local[n := v];
    forall i | 0 <= i < |rest|
      ensures Sent(local', rest, v, i) == Sent(local, names, v, i + 1)
      ensures Goes(recorded', rest, replies[1..], i) == Goes(recorded, names, replies, i + 1)
    {
      assert names[..i + 1] == [n] + rest[..i];
    }
    assert forall i :: 0 < i < |names| ==> Sent(local, names, v, i) == Sent(local', rest, v, i - 1);
    assert forall i :: 0 < i < |names| ==>
        Goes(recorded, names, replies, i) == Goes(recorded', rest, replies[1..], i - 1);
  }

  // ---- the updater's poll ------------------------------------------------------------------------------

  /** The controllers that the plan reports as SignalCompleted, in some order. */
  ghost predicate ListsSignalled(order: seq<Name>, p: Plan) {
    forall n :: n in order <==>
      p.target == Controllers && p.signalled.Some? && n in p.nodes && n in p.signalled.value
  }

  /** Every controller of the plan is reported as SignalCompleted. */
  predicate EveryoneSignalled(p: Plan) {
    p.target == Controllers && p.signalled.Some? && forall n :: n in p.nodes ==> n in p.signalled.value
  }

  /** A poll without a plan, or that cannot read it, ends the updater and changes nothing else. Any
      other takes the signalled controllers in some order: if every patch it sends goes through, each
      of them whose copy showed another version has the updater's, nothing else is changed, and the
      updater goes on exactly while not everyone is signalled; otherwise it stops at the first patch
      that does not, and the updater ends. */
  lemma PollTable(w: World, id: Id, getPlan: bool, patches: seq<Reply>)
    requires Enabled(w, PollStep(id, getPlan, patches))
    ensures var u, c, w' := w.updaters[id], w.clusters[w.updaters[id].key], Apply(w, PollStep(id, getPlan, patches));
            && w'.handles == w.handles && w'.clusters.Keys == w.clusters.Keys
            && (!getPlan || c.plan.None? ==>
                  w'.clusters == w.clusters && w'.updaters == w.updaters[id := u.(running := false)])
            && (getPlan && c.plan.Some? ==> exists order ::
                  && ListsSignalled(order, c.plan.value) && |order| == |patches|
                  && (AllGo(c.recorded, u.local, order, u.version, patches) ==>
                        && w'.clusters[u.key] == c.(recorded := Updated(c.recorded, u.local, order, u.version))
                        && w'.updaters == w.updaters[id := u.(local := Updated(u.local, u.local, order, u.version),
                                                              running := !EveryoneSignalled(c.plan.value))])
                  && (!AllGo(c.recorded, u.local, order, u.version, patches) ==>
                        && !w'.updaters[id].running && exists k ::
                          StopsAt(c.recorded, u.local, order, u.version, patches, w'.clusters[u.key].recorded, k)))
  {
    var u, c := w.updaters[id], w.clusters[w.updaters[id].key];
    if getPlan && c.plan.Some? {
      var order := Signalled(c.plan.value);
      assert ListsSignalled(order, c.plan.value);
      RecordAllTable(c.recorded, u.local, order, u.version, patches);
      if !AllGo(c.recorded, u.local, order, u.version, patches) {
        var k := RecordAllStops(c.recorded, u.local, order, u.version, patches);
      }
    } else {
      assert w.clusters[u.key := c] == w.clusters;
    }
  }

  /** In particular, with every patch answered well and every such Machine there: every signalled
      controller has the version. */
  lemma PollRecordsEveryone(w: World, id: Id, patches: seq<Reply>, n: Name)
    requires Enabled(w, PollStep(id, true, patches)) && forall i :: 0 <= i < |patches| ==> patches[i].Done?
    requires w.clusters[w.updaters[id].key].plan.Some?
    requires forall m :: m in w.updaters[id].local ==> m in w.clusters[w.updaters[id].key].recorded
    requires var p := w.clusters[w.updaters[id].key].plan.value;
             p.target == Controllers && p.signalled.Some? && n in p.nodes && n in p.signalled.value
    requires n in w.updaters[id].local && w.updaters[id].local[n] != w.updaters[id].version
    ensures var u := w.updaters[id];
            var recorded := Apply(w, PollStep(id, true, patches)).clusters[u.key].recorded;
            n in recorded && recorded[n] == u.version
  {
    PollTable(w, id, true, patches);
  }

  // ---- the hook call ---------------------------------------------------------------------------------------

  predicate InProgress(p: Plan) {
    p.state == Some("NewPlan") || p.state == Some("Schedulable") || p.state == Some("SchedulableWait")
  }

  predicate Finished(p: Plan) { p.state == Some("Completed") }

  /** A finished plan that is not for this machine and version. */
  predicate OfAnother(p: Plan, m: Name, v: Version) { Finished(p) && (m !in p.nodes || p.version != v) }

  /** The call gets as far as creating its plan. */
  predicate Creates(c: Cluster, m: Name, v: Version, a: CallAnswers) {
    && a.cluster && a.getPlan && a.bootstrap
    && (c.plan.None? || (OfAnother(c.plan.value, m, v) && a.delete.Done?))
  }

  /** The plan that the hook call leaves. */
  predicate LeavesPlan(c: Cluster, c': Cluster, m: Name, v: Version, t: Target, a: CallAnswers) {
    if Creates(c, m, v, a) && a.create.Landed() then
      c' == c.(plan := Some(Plan([m], v, t, None, None)), created := c.created + 1)
    else if a.cluster && a.getPlan && c.plan.Some? && OfAnother(c.plan.value, m, v) && a.delete.Landed() then
      c' == c.(plan := None)
    else c' == c
  }

  /** The hook answers "completed" exactly for a finished plan of this machine and version, "updating"
      exactly while a plan is in progress or when its own was just created, and fails otherwise. */
  predicate Answered(c: Cluster, m: Name, v: Version, a: CallAnswers, r: Response) {
    && (r == Success(0) <==>
          a.cluster && a.getPlan && c.plan.Some? && Finished(c.plan.value) && !OfAnother(c.plan.value, m, v))
    && (r == Success(15) <==>
          || (a.cluster && a.getPlan && c.plan.Some? && InProgress(c.plan.value))
          || (Creates(c, m, v, a) && a.create.Done?))
    && (r == Failure || r == Success(0) || r == Success(15))
  }

  lemma HookTable(c: Cluster, m: Name, v: Version, t: Target, a: CallAnswers)
    ensures var (c', r) := DoUpdateMachine(c, m, v, t, a);
            LeavesPlan(c, c', m, v, t, a) && Answered(c, m, v, a, r)
  {
    assert "Completed"[0] != "NewPlan"[0] && "Completed"[0] != "Schedulable"[0];
    assert "Completed"[0] != "SchedulableWait"[0];
  }

  // ---- the reconcile ------------------------------------------------------------------------------------------

  /** The reconcile gets to look at the plan. */
  predicate Reaches(a: Answers) { a.available && a.client && a.getPlan }

  /** It finds a finished plan and brings the Machines up to its version. */
  predicate Settles(c: Cluster, scope: Scope, a: Answers)
    requires c.plan.Some? ==> |a.patches| == |c.plan.value.nodes|
  {
    && Reaches(a) && c.plan.Some? && Finished(c.plan.value)
    && AllGo(c.recorded, scope.local, c.plan.value.nodes, c.plan.value.version, a.patches)
  }

  /** It gets as far as the next in-place update: there was no plan, or a finished one is gone. */
  predicate Advances(c: Cluster, scope: Scope, a: Answers)
    requires c.plan.Some? ==> |a.patches| == |c.plan.value.nodes|
  {
    Reaches(a) && scope.requiresUpdate && (c.plan.None? || (Settles(c, scope, a) && a.delete.Done?))
  }

  /** It creates the plan of the standalone update. */
  predicate Plans(c: Cluster, scope: Scope, a: Answers)
    requires c.plan.Some? ==> |a.patches| == |c.plan.value.nodes|
  {
    Advances(c, scope, a) && !a.extension && a.create.Landed()
  }

  /** The versions on the Machines after a reconcile. */
  ghost predicate RecordsSettled(c: Cluster, c': Cluster, scope: Scope, a: Answers)
    requires c.plan.Some? ==> |a.patches| == |c.plan.value.nodes|
  {
    if Settles(c, scope, a) then
      c'.recorded == Updated(c.recorded, scope.local, c.plan.value.nodes, c.plan.value.version)
    else if Reaches(a) && c.plan.Some? && Finished(c.plan.value) then
      exists k :: StopsAt(c.recorded, scope.local, c.plan.value.nodes, c.plan.value.version, a.patches, c'.recorded, k)
    else c'.recorded == c.recorded
  }

  /** The plan after a reconcile. */
  ghost predicate LeavesReconciled(c: Cluster, c': Cluster, scope: Scope, a: Answers)
    requires c.plan.Some? ==> |a.patches| == |c.plan.value.nodes|
  {
    && c'.installed == c.installed && c'.finished == c.finished
    && c'.created == c.created + (if Plans(c, scope, a) then 1 else 0)
    && c'.plan == (if Plans(c, scope, a) then Some(Plan(scope.outdated, scope.version, Controllers, None, None))
                   else if Settles(c, scope, a) && scope.requiresUpdate && a.delete.Landed() then None
                   else c.plan)
  }

  lemma ReconciledTable(c: Cluster, scope: Scope, a: Answers)
    requires c.plan.Some? ==> |a.patches| == |c.plan.value.nodes|
    ensures RecordsSettled(c, ReconciledCluster(c, scope, a), scope, a)
    ensures LeavesReconciled(c, ReconciledCluster(c, scope, a), scope, a)
  {
    if c.plan.Some? {
      var p := c.plan.value;
      RecordAllTable(c.recorded, scope.local, p.nodes, p.version, a.patches);
      if !RecordAll(c.recorded, scope.local, p.nodes, p.version, a.patches).2 {
        var k := RecordAllStops(c.recorded, scope.local, p.nodes, p.version, a.patches);
      }
    }
  }

  /** A reconcile leaves other clusters alone, brings the Machines of a finished plan up to its version
      as far as the patches go, deletes such a plan and creates the next one. */
  lemma ReconcileTable(w: World, k: Key, scope: Scope, a: Answers)
    requires Enabled(w, ReconcileStep(k, scope, a))
    ensures var c, w' := w.clusters[k], Apply(w, ReconcileStep(k, scope, a));
            && w'.clusters.Keys == w.clusters.Keys
            && (forall k' :: k' in w.clusters && k' != k ==> w'.clusters[k'] == w.clusters[k'])
            && RecordsSettled(c, w'.clusters[k], scope, a) && LeavesReconciled(c, w'.clusters[k], scope, a)
  {
    ReconcileFrame(w, k, scope, a);
    ReconcileOwnCluster(w, k, scope, a);
    ReconciledTable(w.clusters[k], scope, a);
  }

  /** The updaters once the one whose handle is stored for k is cancelled. */
  function Cancelled(w: World, k: Key): seq<Updater> {
    if k in w.handles && w.handles[k] < |w.updaters|
    then w.updaters[w.handles[k] := w.updaters[w.handles[k]].(cancelled := true)] else w.updaters
  }

  /** The copies of the Machines as the reconcile leaves them: those of a finished plan show its
      version. */
  function CopiesAfter(c: Cluster, scope: Scope): map<Name, Version> {
    if c.plan.None? then scope.local
    else Updated(scope.local, scope.local, c.plan.value.nodes, c.plan.value.version)
  }

  /** A finished plan stops the control plane's updater and forgets its handle; a plan created and
      known to be starts one, for the wanted version and with the copies as they are then, whose
      handle is stored. Nothing else happens to updaters and handles. */
  lemma ReconcileUpdaters(w: World, k: Key, scope: Scope, a: Answers)
    requires Enabled(w, ReconcileStep(k, scope, a))
    ensures var c, w' := w.clusters[k], Apply(w, ReconcileStep(k, scope, a));
            var stops := Reaches(a) && c.plan.Some? && Finished(c.plan.value);
            var starts := Advances(c, scope, a) && !a.extension && a.create.Done?;
            && w'.handles == (if starts then w.handles[k := |w.updaters|] else if stops then w.handles - {k}
               else w.handles)
            && w'.updaters == (if stops then Cancelled(w, k) else w.updaters)
                              + (if starts then [Updater(k, scope.version, CopiesAfter(c, scope), false, true)] else [])
  {
    var c, w' := w.clusters[k], Apply(w, ReconcileStep(k, scope, a));
    if c.plan.Some? {
      RecordAllTable(c.recorded, scope.local, c.plan.value.nodes, c.plan.value.version, a.patches);
      StopTable(w, k);
    }
  }

  lemma StopTable(w: World, k: Key)
    ensures StopUpdater(w, k) == World(w.clusters, w.handles - {k}, Cancelled(w, k))
  {
    if k !in w.handles { assert w.handles - {k} == w.handles; }
  }

  /** The exit of an updater forgets its handle exactly if that is the one stored. */
  lemma CleanUpTable(w: World, id: Id)
    requires Enabled(w, CleanUpStep(id))
    ensures var k, w' := w.updaters[id].key, Apply(w, CleanUpStep(id));
            && w'.clusters == w.clusters && w'.updaters == w.updaters
            && w'.handles == (if k in w.handles && w.handles[k] == id then w.handles - {k} else w.handles)
  {
  }
}
