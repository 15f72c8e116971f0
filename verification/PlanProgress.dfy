/** Progress of the UpdateMachine hook when machines are driven one at a time. */
module PlanProgress {
  import opened Prelude
  import opened PlanWorld
  import opened PlanSafety

  datatype Job = Job(m: Name, v: Version, t: Target)

  /** What may happen to the cluster while one machine is being driven: a hook call for it with
      any answers, autopilot working on whatever plan there is and reporting any state, or a
      reconcile of the control plane, which with the in-place extension creates no plan of its own
      but may delete one. */
  datatype Event =
    | Call(answers: CallAnswers)
    | Report
    | Finish(n: Name)
    | Enter(state: string)
    | Controller(scope: Scope, replies: Answers)

  predicate Possible(c: Cluster, e: Event) {
    match e
    case Call(_) => true
    case Report => CanPublish(c)
    case Finish(n) => CanSignal(c, n)
    case Enter(s) => CanMove(c, s)
    case Controller(_, a) => a.extension && (c.plan.Some? ==> |a.patches| == |c.plan.value.nodes|)
  }

  function Do(c: Cluster, j: Job, e: Event): Cluster
    requires Possible(c, e)
  {
    match e
    case Call(a) => DoUpdateMachine(c, j.m, j.v, j.t, a).0
    case Report => Publish(c)
    case Finish(n) => Signal(c, n)
    case Enter(s) => Move(c, s)
    case Controller(scope, a) => ReconciledCluster(c, scope, a)
  }

  predicate IsFor(p: Plan, j: Job) { j.m in p.nodes && p.version == j.v }

  function Pending(p: Plan): set<Name> {
    (set n | n in p.nodes) - (if p.signalled.Some? then p.signalled.value else {})
  }

  /** Autopilot steps still missing before the plan is Completed. */
  function Remaining(p: Plan): nat {
    if p.state == Some(COMPLETED) then 0
    else (if p.signalled.None? then 1 else 0) + |Pending(p)| + 1
  }

  /** An upper bound on the steps that can still bring the job forward. */
  function Rank(c: Cluster, j: Job): nat {
    match c.plan
    case None => 4
    case Some(p) => if IsFor(p, j) then Remaining(p) else 5 + Remaining(p)
  }

  /** Plans the job may still have to create. */
  function Owed(c: Cluster, j: Job): nat { if c.plan.Some? && IsFor(c.plan.value, j) then 0 else 1 }

  /** The event changes how far the job is. */
  predicate Productive(c: Cluster, j: Job, e: Event)
    requires Possible(c, e)
  {
    match e
    case Call(_) => Do(c, j, e) != c
    case Report => true
    case Finish(n) => n in Pending(c.plan.value)
    case Enter(s) => s == COMPLETED
    case Controller(scope, a) => DropsPlan(c, scope, a)
  }

  /** The reconcile records all versions of a completed plan and its delete lands. */
  predicate DropsPlan(c: Cluster, scope: Scope, a: Answers)
    requires c.plan.Some? ==> |a.patches| == |c.plan.value.nodes|
  {
    && a.available && a.client && a.getPlan && scope.requiresUpdate && a.delete.Landed()
    && c.plan.Some? && IsPlanCompleted(c.plan.value) == Ok(true)
    && RecordAll(c.recorded, scope.local, c.plan.value.nodes, c.plan.value.version, a.patches).2
  }

  /** The reconcile deletes the completed plan of the job before the job has heard of it. */
  predicate Spoils(c: Cluster, j: Job, e: Event)
    requires Possible(c, e)
  {
    e.Controller? && DropsPlan(c, e.scope, e.replies) && IsFor(c.plan.value, j)
  }

  lemma NewPlanRemaining(j: Job)
    ensures Remaining(NewPlan([j.m], j.v, j.t)) == 3
  {
    assert Pending(NewPlan([j.m], j.v, j.t)) == {j.m};
  }

  lemma PendingShrinks(p: Plan, n: Name)
    requires p.signalled.Some? && n in p.nodes
    ensures var p' := p.(signalled := Some(p.signalled.value + {n}));
            Pending(p') == Pending(p) - {n} && |Pending(p')| == |Pending(p)| - (if n in Pending(p) then 1 else 0)
  {
    var p' := p.(signalled := Some(p.signalled.value + {n}));
    assert Pending(p') == Pending(p) - {n};
  }

  lemma CallRank(c: Cluster, j: Job, a: CallAnswers)
    ensures var c' := DoUpdateMachine(c, j.m, j.v, j.t, a).0;
            && Rank(c', j) <= Rank(c, j) && (c' != c ==> Rank(c', j) < Rank(c, j))
            && c'.created + Owed(c', j) <= c.created + Owed(c, j)
  {
    NewPlanRemaining(j);
    var c' := DoUpdateMachine(c, j.m, j.v, j.t, a).0;
    assert c' == c || c'.plan.None? || c'.plan.value == NewPlan([j.m], j.v, j.t);
  }

  lemma FinishRank(c: Cluster, j: Job, n: Name)
    requires CanSignal(c, n)
    ensures Rank(Signal(c, n), j) == Rank(c, j) - (if n in Pending(c.plan.value) then 1 else 0)
    ensures Owed(Signal(c, n), j) == Owed(c, j)
  {
    PendingShrinks(c.plan.value, n);
  }

  lemma ReportRank(c: Cluster, j: Job)
    requires CanPublish(c)
    ensures Rank(Publish(c), j) == Rank(c, j) - 1 && Owed(Publish(c), j) == Owed(c, j)
  {
    assert Pending(c.plan.value.(signalled := Some({}))) == Pending(c.plan.value);
  }

  lemma EnterRank(c: Cluster, j: Job, s: string)
    requires CanMove(c, s)
    ensures Rank(Move(c, s), j) <= Rank(c, j) && (s == COMPLETED ==> Rank(Move(c, s), j) < Rank(c, j))
    ensures Owed(Move(c, s), j) == Owed(c, j)
  {
    assert Pending(c.plan.value.(state := Some(s))) == Pending(c.plan.value);
  }

  lemma ControllerRank(c: Cluster, j: Job, scope: Scope, a: Answers)
    requires Possible(c, Controller(scope, a))
    ensures var c' := ReconciledCluster(c, scope, a);
            && c'.created == c.created
            && c'.plan == (if DropsPlan(c, scope, a) then None else c.plan)
  {
  }

  /** An event spoils the job's plan exactly when it moves the job back, and exactly when the job owes
      a plan more than it did; any other keeps the account of plans, and productive ones move the
      job on. */
  lemma EventRank(c: Cluster, j: Job, e: Event)
    requires Possible(c, e)
    ensures Rank(Do(c, j, e), j) <= Rank(c, j) <==> !Spoils(c, j, e)
    ensures Do(c, j, e).created + Owed(Do(c, j, e), j) <= c.created + Owed(c, j) <==> !Spoils(c, j, e)
    ensures Productive(c, j, e) && !Spoils(c, j, e) ==> Rank(Do(c, j, e), j) < Rank(c, j)
    ensures Spoils(c, j, e) ==> Rank(c, j) == 0 && Owed(c, j) == 0 && Owed(Do(c, j, e), j) == 1
  {
    match e
    case Call(a) => CallRank(c, j, a);
    case Report => ReportRank(c, j);
    case Finish(n) => FinishRank(c, j, n);
    case Enter(s) => EnterRank(c, j, s);
    case Controller(scope, a) => ControllerRank(c, j, scope, a);
  }

  /** Rank zero is exactly "the next undisturbed call answers updated". */
  lemma UpdatedIffRankZero(c: Cluster, j: Job, a: CallAnswers)
    requires a.cluster && a.getPlan
    ensures DoUpdateMachine(c, j.m, j.v, j.t, a).1 == UPDATED <==> Rank(c, j) == 0
  {
  }

  predicate DriverRun(cs: seq<Cluster>, j: Job, es: seq<Event>) {
    && |cs| == |es| + 1
    && forall i :: 0 <= i < |es| ==> Possible(cs[i], es[i]) && cs[i + 1] == Do(cs[i], j, es[i])
  }

  function ProductiveEvents(cs: seq<Cluster>, j: Job, es: seq<Event>): nat
    requires DriverRun(cs, j, es)
    decreases |es|
  {
    if es == [] then 0
    else
      var i := |es| - 1;
      ProductiveEvents(cs[..i + 1], j, es[..i]) + (if Productive(cs[i], j, es[i]) then 1 else 0)
  }

  /** Over every run that drives one machine, with any failures, states and reconciles that do not
      spoil the job's plan: productive events are bounded by the initial rank, so enough of them
      bring the rank to zero, and at most one plan is created for the machine however often a delete
      or a create fails. */
  lemma {:induction false} DriverProgress(cs: seq<Cluster>, j: Job, es: seq<Event>)
    requires DriverRun(cs, j, es) && forall i :: 0 <= i < |es| ==> !Spoils(cs[i], j, es[i])
    ensures ProductiveEvents(cs, j, es) + Rank(cs[|es|], j) <= Rank(cs[0], j)
    ensures cs[|es|].created + Owed(cs[|es|], j) <= cs[0].created + Owed(cs[0], j)
    decreases |es|
  {
    if es == [] {
    } else {
      var i := |es| - 1;
      var cs', es' := cs[..i + 1], es[..i];
      DriverProgress(cs', j, es');
      assert cs'[0] == cs[0] && cs'[|es'|] == cs[i];
      EventRank(cs[i], j, es[i]);
    }
  }

  /** The state of the plan is one autopilot reports while all goes well. */
  predicate Unstuck(c: Cluster) {
    c.plan.Some? && c.plan.value.state.Some? ==>
      Processing(c.plan.value.state.value) || c.plan.value.state.value == COMPLETED
  }

  const UNDISTURBED := CallAnswers(true, true, true, Done, Done)

  /** There is always something that helps: autopilot's next step, or an undisturbed call. */
  function NextEvent(c: Cluster, j: Job): (e: Event)
    requires Rank(c, j) > 0
    ensures Possible(c, e)
  {
    if c.plan.None? || c.plan.value.state == Some(COMPLETED) then Call(UNDISTURBED)
    else if c.plan.value.signalled.None? then Report
    else if Pending(c.plan.value) == {} then NonePending(c.plan.value); Enter(COMPLETED)
    else Finish(FirstPending(c.plan.value))
  }

  lemma NonePending(p: Plan)
    requires Pending(p) == {} && p.signalled.Some?
    ensures forall n :: n in p.nodes ==> n in p.signalled.value
  {
    assert forall n :: n in p.nodes && n !in p.signalled.value ==> n in Pending(p);
  }

  function FirstPending(p: Plan): (n: Name)
    requires Pending(p) != {}
    ensures n in Pending(p) && n in p.nodes
  {
    FirstAmong(p.nodes, Pending(p))
  }

  function FirstAmong(ns: seq<Name>, s: set<Name>): (n: Name)
    requires exists x :: x in s && x in ns
    ensures n in s && n in ns
  {
    if ns[0] in s then ns[0] else FirstAmong(ns[1..], s)
  }

  lemma NextEventHelps(c: Cluster, j: Job)
    requires Rank(c, j) > 0
    ensures Productive(c, j, NextEvent(c, j))
  {
  }

  /** Nodes other than the job's are safe while no other plan is unfinished. */
  predicate Quiet(c: Cluster, j: Job) {
    c.plan.None? || c.plan.value.state == Some(COMPLETED) || c.plan.value.nodes == [j.m]
  }

  predicate SameElsewhere(a: map<Name, Version>, b: map<Name, Version>, m: Name) {
    forall n :: n != m && n in a ==> n in b && b[n] == a[n]
  }

  lemma EventKeeps(c: Cluster, j: Job, e: Event)
    requires Possible(c, e) && ClusterOk(c)
    ensures ClusterOk(Do(c, j, e))
    ensures Unstuck(c) && (e.Enter? ==> Processing(e.state) || e.state == COMPLETED) ==> Unstuck(Do(c, j, e))
    ensures Quiet(c, j) ==> Quiet(Do(c, j, e), j) && SameElsewhere(c.installed, Do(c, j, e).installed, j.m)
  {
  }

  /** What driving keeps. */
  ghost predicate Driven(c0: Cluster, c: Cluster, j: Job) {
    && ClusterOk(c) && Unstuck(c) && c.created + Owed(c, j) <= c0.created + Owed(c0, j)
    && (Quiet(c0, j) ==> Quiet(c, j) && SameElsewhere(c0.installed, c.installed, j.m))
  }

  lemma Drives(c0: Cluster, c: Cluster, j: Job, e: Event)
    requires Driven(c0, c, j) && Possible(c, e) && !e.Controller?
    requires e.Enter? ==> Processing(e.state) || e.state == COMPLETED
    ensures Driven(c0, Do(c, j, e), j)
    ensures Rank(Do(c, j, e), j) <= Rank(c, j) && (Productive(c, j, e) ==> Rank(Do(c, j, e), j) < Rank(c, j))
  {
    EventRank(c, j, e);
    EventKeeps(c, j, e);
  }

  /** Drives one machine until the hook answers with retry zero. `faults` disturbs the first
      calls; after each unfinished call autopilot takes its next step if it has one. */
  method DriveOne(c0: Cluster, j: Job, faults: seq<CallAnswers>) returns (c: Cluster, left: seq<CallAnswers>)
    requires ClusterOk(c0) && Unstuck(c0)
    ensures ClusterOk(c) && Unstuck(c) && Rank(c, j) == 0
    ensures j.m in c.installed && c.installed[j.m] == j.v
    ensures c.created <= c0.created + Owed(c0, j)
    ensures Quiet(c0, j) ==> SameElsewhere(c0.installed, c.installed, j.m)
  {
    c, left := c0, faults;
    var response := Failure;
    while response != UPDATED
      invariant Driven(c0, c, j)
      invariant response == UPDATED ==> Rank(c, j) == 0
      decreases |left|, Rank(c, j), response != UPDATED
    {
      var answers := if left == [] then UNDISTURBED else left[0];
      ghost var before := c;
      Drives(c0, c, j, Call(answers));
      var (c', r) := DoUpdateMachine(c, j.m, j.v, j.t, answers);
      left := if left == [] then left else left[1..];
      response := r;
      c := c';
      if r == UPDATED {
        UpdatedMeansInstalled(before, j.m, j.v, j.t, answers);
        UpdatedIffRankZero(before, j, UNDISTURBED);
      } else if Rank(c, j) > 0 && !NextEvent(c, j).Call? {
        var e := NextEvent(c, j);
        NextEventHelps(c, j);
        Drives(c0, c, j, e);
        c := Do(c, j, e);
      } else if Rank(c, j) > 0 {
        NextEventHelps(c, j);
        NextEventHelps(before, j);
      }
    }
  }

  /** Drives a list of machines in turn: it ends, every machine runs the version last asked for
      it, and no more plans are created than there are machines. */
  method DriveAll(c0: Cluster, jobs: seq<Job>, faults: seq<CallAnswers>) returns (c: Cluster)
    requires ClusterOk(c0) && Unstuck(c0)
    ensures ClusterOk(c) && c.created <= c0.created + |jobs|
    ensures forall i :: 0 <= i < |jobs| && (forall k :: i < k < |jobs| ==> jobs[k].m != jobs[i].m) ==>
              jobs[i].m in c.installed && c.installed[jobs[i].m] == jobs[i].v
  {
    c := c0;
    var left := faults;
    for i := 0 to |jobs|
      invariant ClusterOk(c) && Unstuck(c) && c.created <= c0.created + i
      invariant i > 0 ==> Rank(c, jobs[i - 1]) == 0
      invariant forall h :: 0 <= h < i && (forall k :: h < k < i ==> jobs[k].m != jobs[h].m) ==>
                  jobs[h].m in c.installed && c.installed[jobs[h].m] == jobs[h].v
    {
      ghost var before := c;
      c, left := DriveOne(c, jobs[i], left);
      if i > 0 { assert Quiet(before, jobs[i]); }
      forall h | 0 <= h < i + 1 && (forall k :: h < k < i + 1 ==> jobs[k].m != jobs[h].m)
        ensures jobs[h].m in c.installed && c.installed[jobs[h].m] == jobs[h].v
      {
        if h < i {
          assert jobs[i].m != jobs[h].m;
          assert forall k :: h < k < i ==> jobs[k].m != jobs[h].m;
          assert jobs[h].m in before.installed;
        }
      }
    }
  }
}
