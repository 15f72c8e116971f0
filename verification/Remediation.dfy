/** Remediation of unhealthy control-plane Machines: one pass, and passes interleaved with
    everybody else who changes Machines. */
module Remediation {
  import opened Prelude
  import opened Oldest

  /** The HealthCheckSucceeded condition. */
  datatype Health = NotReported | Healthy | Unhealthy | Unknown

  datatype Reason = ByHealthCheck | TooFewReplicas | WaitingForProvisioning | WaitingForDeletion | RemediationFailed

  /** The OwnerRemediated condition. */
  datatype Remediated = Unset | Yes | No(reason: Reason)

  datatype Machine = Machine(created: int, health: Health, remediated: Remediated, node: bool, deleting: bool) {
    predicate IsHealthy() { health.Healthy? }
    predicate NeedsRemediation() { health.Unhealthy? && remediated.No? }
    predicate Provisioning() { IsHealthy() && !node }
  }

  type Machines = map<string, Machine>

  function Active(ms: Machines): Machines { map n | n in ms && !ms[n].deleting :: ms[n] }
  function Deleting(ms: Machines): set<string> { set n | n in ms && ms[n].deleting }
  function Candidates(ms: Machines): Machines { map n | n in ms && ms[n].NeedsRemediation() :: ms[n] }
  function Keys(ms: Machines): set<Key> { set n | n in ms :: Key(ms[n].created, n) }
  predicate AnyProvisioning(ms: Machines) { exists n :: n in ms && ms[n].Provisioning() }

  // ---- what one pass decides --------------------------------------------------------------

  datatype Verdict = Leave | Wait(name: string, reason: Reason) | Remove(name: string)

  /** The decision of `reconcileUnhealthyMachines` once the healthy Machines are clean. */
  ghost function Decide(active: Machines, deleted: set<string>, annotated: bool, initialised: bool): Verdict {
    var cs := Candidates(active);
    if annotated || cs == map[] then Leave
    else
      var c :| c in cs;
      assert Key(cs[c].created, c) in Keys(cs);
      Judge(active, deleted, initialised, OldestOf(Keys(cs)).name)
  }

  /** The guards, in the order the code looks at them. */
  function Judge(active: Machines, deleted: set<string>, initialised: bool, n: string): Verdict {
    if initialised && |active| <= 1 then Wait(n, TooFewReplicas)
    else if initialised && AnyProvisioning(active) then Wait(n, WaitingForProvisioning)
    else if initialised && deleted != {} then Wait(n, WaitingForDeletion)
    else Remove(n)
  }

  /** The health check failed and the Machine is marked for its owner to remediate. */
  predicate Ill(m: Machine) { m.health == Unhealthy && m.remediated.No? }

  /** n is the Machine whose turn it is: ill, and created before every other that is. */
  predicate OldestCandidate(active: Machines, n: string) {
    && n in active && Ill(active[n])
    && forall m :: m in active && m != n && Ill(active[m]) ==>
       Before(Key(active[n].created, n), Key(active[m].created, m))
  }

  lemma CandidateOfKey(active: Machines, n: string)
    ensures n in active && IsOldest(Keys(Candidates(active)), Key(active[n].created, n)) <==> OldestCandidate(active, n)
  {
    var cs := Candidates(active);
    if OldestCandidate(active, n) {
      assert Key(cs[n].created, n) in Keys(cs);
    } else if n in active && IsOldest(Keys(cs), Key(active[n].created, n)) {
      forall m | m in active && m != n && Ill(active[m])
          ensures Before(Key(active[n].created, n), Key(active[m].created, m)) {
        assert Key(cs[m].created, m) in Keys(cs);
      }
    }
  }

  /** A Machine is deleted exactly when no remediation is in progress, it is the oldest candidate,
      and, once the control plane is initialised, another Machine stays, every healthy Machine has
      its node, and no Machine is on its way out. Before initialisation nothing is guarded. */
  lemma RemoveIff(active: Machines, deleted: set<string>, annotated: bool, initialised: bool, n: string)
    ensures Decide(active, deleted, annotated, initialised) == Remove(n) <==>
            && !annotated && OldestCandidate(active, n)
            && (initialised ==>
                  |active| > 1 && deleted == {} && forall m :: m in active && active[m].IsHealthy() ==> active[m].node)
  {
    var cs := Candidates(active);
    if OldestCandidate(active, n) { assert n in cs; }
    if cs != map[] {
      var c :| c in cs;
      assert Key(cs[c].created, c) in Keys(cs);
      var k := OldestOf(Keys(cs));
      CandidateOfKey(active, k.name);
      CandidateOfKey(active, n);
      if OldestCandidate(active, n) { OldestUnique(Keys(cs), k, Key(active[n].created, n)); }
      if AnyProvisioning(active) {
        var m :| m in active && active[m].Provisioning();
      } else {
        assert forall m :: m in active && active[m].IsHealthy() ==> !active[m].Provisioning();
      }
    }
  }

  /** Whoever is deleted or kept waiting is the oldest candidate. */
  lemma VerdictNamesOldest(active: Machines, deleted: set<string>, annotated: bool, initialised: bool)
    ensures var v := Decide(active, deleted, annotated, initialised);
            && (v.Leave? <==> annotated || forall n :: n in active ==> !Ill(active[n]))
            && (!v.Leave? ==> OldestCandidate(active, v.name))
  {
    var cs := Candidates(active);
    if cs != map[] {
      var c :| c in cs;
      assert Key(cs[c].created, c) in Keys(cs);
      CandidateOfKey(active, OldestOf(Keys(cs)).name);
    } else {
      assert forall n :: n in active && active[n].NeedsRemediation() ==> n in cs;
    }
  }

  /** Why a Machine has to wait: the first guard that does not hold. */
  lemma WaitIff(active: Machines, deleted: set<string>, annotated: bool, initialised: bool, n: string, r: Reason)
    ensures Decide(active, deleted, annotated, initialised) == Wait(n, r) <==>
            && !annotated && initialised && OldestCandidate(active, n)
            && var waits := exists m :: m in active && active[m].health == Healthy && !active[m].node;
            match r
            case TooFewReplicas => |active| <= 1
            case WaitingForProvisioning => |active| > 1 && waits
            case WaitingForDeletion => |active| > 1 && !waits && deleted != {}
            case _ => false
  {
    VerdictNamesOldest(active, deleted, annotated, initialised);
    var v := Decide(active, deleted, annotated, initialised);
    if OldestCandidate(active, n) && !v.Leave? {
      BeforeTotal(Key(active[n].created, n), Key(active[v.name].created, v.name));
    }
    assert AnyProvisioning(active) <==> exists m :: m in active && active[m].health == Healthy && !active[m].node by {
      if m :| m in active && active[m].health == Healthy && !active[m].node { assert active[m].Provisioning(); }
      if m :| m in active && active[m].Provisioning() { assert active[m].health == Healthy; }
    }
  }

  predicate Stale(m: Machine) { m.IsHealthy() && m.remediated.No? }

  function ToClean(active: Machines): set<string> { set n | n in active && Stale(active[n]) }

  /** The local copies after `sanitizeHealthyMachines`. */
  function Cleaned(active: Machines): Machines {
    map n | n in active :: if Stale(active[n]) then active[n].(remediated := Unset) else active[n]
  }

  /** Cleaning the healthy ones never changes whose turn it is. */
  lemma CleaningKeepsVerdict(active: Machines, deleted: set<string>, annotated: bool, initialised: bool)
    ensures Decide(Cleaned(active), deleted, annotated, initialised) == Decide(active, deleted, annotated, initialised)
  {
    var after := Cleaned(active);
    assert Candidates(after) == Candidates(active);
    assert after.Keys == active.Keys;
    assert |after| == |after.Keys| && |active| == |active.Keys|;
    assert forall n :: n in active ==> after[n].Provisioning() == active[n].Provisioning();
    assert AnyProvisioning(after) <==> AnyProvisioning(active) by {
      if AnyProvisioning(after) { var n :| n in after && after[n].Provisioning(); assert active[n].Provisioning(); }
      if AnyProvisioning(active) { var n :| n in active && active[n].Provisioning(); assert after[n].Provisioning(); }
    }
  }

  // ---- passes among other actors --------------------------------------------------------------

  /** A pass in flight: its copies of the Machines, and the patches it still has to send. */
  datatype Pass = Pass(active: Machines, deleted: set<string>, annotated: bool, todo: set<string>, failed: bool)

  datatype State = State(
    machines: Machines,
    initialised: bool,
    pass: Option<Pass>,
    /** history: Machines whose health or node was reported since the pass read them */
    reported: set<string>,
    /** history: Machines that others asked to delete since the pass read them, or created them */
    removed: set<string>,
    /** history: Machines created since the pass read them */
    made: set<string>,
    /** history: Machines that remediation deleted and that still exist */
    ours: set<string>)

  datatype Label =
    /** The Machines come from the API server; the annotation may be out of date or lost. */
    | Read(annotated: bool)
    | Clean(name: string, reply: Reply)
    | Conclude(deletion: Reply, patch: Reply)
    | Report(name: string, health: Health, node: bool)
    | Mark(name: string, remediated: Remediated)
    | OtherDelete(name: string)
    | Gone(name: string)
    | Create(name: string, created: int)

  predicate Enabled(s: State, l: Label) {
    match l
    case Read(_) => s.pass.None?
    case Clean(n, _) => s.pass.Some? && n in s.pass.value.todo
    case Conclude(_, _) => s.pass.Some? && s.pass.value.todo == {}
    case Report(n, _, _) => n in s.machines
    case Mark(n, _) => n in s.machines
    case OtherDelete(n) => n in s.machines
    case Gone(n) => n in s.machines && s.machines[n].deleting
    case Create(n, _) => n !in s.machines
  }

  function SetRemediated(ms: Machines, n: string, r: Remediated, reply: Reply): Machines {
    if n in ms && reply.Landed() then ms[n := ms[n].(remediated := r)] else ms
  }

  /** Deletion is by name and a Machine that is gone counts as deleted. */
  function Delete(ms: Machines, n: string, reply: Reply): Machines {
    if n in ms && reply.Landed() then ms[n := ms[n].(deleting := true)] else ms
  }

  ghost function VerdictOf(s: State): Verdict
    requires s.pass.Some?
  {
    var p := s.pass.value;
    if p.failed then Leave else Decide(p.active, p.deleted, p.annotated, s.initialised)
  }

  /** The condition a pass read on a Machine; the status patch after a delete sends it back. */
  function ReadCondition(active: Machines, n: string): Remediated {
    if n in active then active[n].remediated else Unset
  }

  ghost function Carry(ms: Machines, active: Machines, v: Verdict, deletion: Reply, patch: Reply): Machines {
    match v
    case Leave => ms
    case Wait(n, r) => SetRemediated(ms, n, No(r), patch)
    case Remove(n) =>
      var condition := if deletion.Done? then ReadCondition(active, n) else No(RemediationFailed);
      SetRemediated(Delete(ms, n, deletion), n, condition, patch)
  }

  ghost function Apply(s: State, l: Label): State
    requires Enabled(s, l)
  {
    match l
    case Read(annotated) =>
      var active := Active(s.machines);
      s.(pass := Some(Pass(active, Deleting(s.machines), annotated, ToClean(active), false)), reported := {},
          removed := {}, made := {})
    case Clean(n, reply) =>
      var p := s.pass.value;
      s.(machines := SetRemediated(s.machines, n, Unset, reply),
         pass := Some(p.(todo := p.todo - {n}, failed := p.failed || !reply.Done?)))
    case Conclude(deletion, patch) =>
      var v := VerdictOf(s);
      s.(machines := Carry(s.machines, s.pass.value.active, v, deletion, patch), pass := None,
         ours := if v.Remove? && v.name in s.machines && deletion.Landed() then s.ours + {v.name} else s.ours)
    case Report(n, health, node) =>
      s.(machines := s.machines[n := s.machines[n].(health := health, node := node)],
         reported := s.reported + {n})
    case Mark(n, r) => s.(machines := s.machines[n := s.machines[n].(remediated := r)])
    case OtherDelete(n) =>
      s.(machines := s.machines[n := s.machines[n].(deleting := true)],
          removed := s.removed + {n})
    case Gone(n) => s.(machines := s.machines - {n}, ours := s.ours - {n})
    case Create(n, created) =>
      s.(machines := s.machines[n := Machine(created, NotReported, Unset, false, false)],
         reported := s.reported - {n}, removed := s.removed - {n}, made := s.made + {n})
  }

  /** States joined by enabled labels. */
  ghost predicate Steps(ss: seq<State>, ls: seq<Label>) {
    && |ss| == |ls| + 1
    && forall i :: 0 <= i < |ls| ==> Enabled(ss[i], ls[i]) && ss[i + 1] == Apply(ss[i], ls[i])
  }

  /** Runs of an initialised control plane that start between passes. */
  ghost predicate IsRun(ss: seq<State>, ls: seq<Label>) {
    && Steps(ss, ls) && ss[0].initialised && ss[0].pass.None?
    && ss[0].reported == {} && ss[0].removed == {} && ss[0].made == {} && ss[0].ours == {}
  }

  // ---- safety -------------------------------------------------------------------------------

  /** A Machine of which nothing was reported since: created since and never reported on, or as the
      pass read it, or already deleting then. */
  predicate AsRead(p: Pass, m: Machine, n: string, made: set<string>) {
    if n in made then m.health.NotReported?
    else if n in p.active then p.active[n].health == m.health && p.active[n].node == m.node
    else n in p.deleted
  }

  /** What a pass remembers is what is there, except where others interfered. */
  ghost predicate Remembers(p: Pass, ms: Machines, reported: set<string>, removed: set<string>, made: set<string>) {
    && (forall n :: n in ms && !ms[n].deleting <==> (n in p.active || n in made) && n !in removed)
    && (forall n :: n in ms ==> n in p.active || n in p.deleted || n in made)
    && (forall n :: n in ms && n !in reported ==> AsRead(p, ms[n], n, made))
  }

  ghost predicate Inv(s: State) {
    && s.initialised
    && s.ours <= Deleting(s.machines)
    && (forall a, b :: a in s.ours && b in s.ours ==> a == b)
    && (s.pass.Some? ==>
          s.ours <= s.pass.value.deleted && Remembers(s.pass.value, s.machines, s.reported, s.removed, s.made))
  }

  /** A remediation delete of n reaches the API server in this step. */
  ghost predicate Deletes(s: State, l: Label, n: string) {
    Enabled(s, l) && l.Conclude? && l.deletion.Landed() && VerdictOf(s) == Remove(n)
  }

  /** The guarantees of a remediation delete: nothing of its own is on the way out; a Machine is
      deleting exactly if others asked for that after the pass had read it; one that is healthy
      without a node was reported on since; the victim is unhealthy unless it was; and an active
      Machine is left exactly when others spared one. */
  ghost predicate SafeDelete(s: State, n: string, s': State)
    requires s.pass.Some?
  {
    && s.ours == {}
    && (forall m :: m in s.machines ==> (s.machines[m].deleting <==> m in s.removed))
    && (forall m :: m in s.machines && s.machines[m].Provisioning() ==> m in s.reported)
    && (n in s.machines && n !in s.made && n !in s.reported ==> s.machines[n].health.Unhealthy?)
    && (AnyActive(s') <==> exists m :: Spared(s, n, m))
    && (|s.removed| < |s.pass.value.active| - 1 ==> AnyActive(s'))
  }

  /** Another Machine than n that the pass read as active, or that was created since, and that
      nobody else asked to delete. */
  ghost predicate Spared(s: State, n: string, m: string)
    requires s.pass.Some?
  {
    m != n && (m in s.pass.value.active || m in s.made) && m !in s.removed
  }

  ghost predicate AnyActive(s: State) { exists m :: m in s.machines && !s.machines[m].deleting }

  lemma SubsetSize(a: set<string>, b: set<string>)
    requires a <= b
    ensures |a| <= |b|
  {
    assert b == a + (b - a);
  }

  /** Fewer removals than the pass has other Machines leave one of them. */
  lemma SomeSpared(active: Machines, removed: set<string>, n: string) returns (m: string)
    requires |removed| < |active| - 1
    ensures m in active && m != n && m !in removed
  {
    var gone := removed + {n};
    if active.Keys <= gone {
      SubsetSize(active.Keys, gone);
      assert false;
    }
    m :| m in active.Keys && m !in gone;
  }

  lemma DeleteIsSafe(s: State, l: Label, n: string)
    requires Inv(s) && Deletes(s, l, n)
    ensures SafeDelete(s, n, Apply(s, l))
  {
    var p := s.pass.value;
    RemoveIff(p.active, p.deleted, p.annotated, true, n);
    VerdictNamesOldest(p.active, p.deleted, p.annotated, true);
    DeleteSpares(s, l, n);
    if |s.removed| < |p.active| - 1 {
      var m := SomeSpared(p.active, s.removed, n);
      assert Spared(s, n, m);
    }
  }

  lemma DeleteSpares(s: State, l: Label, n: string)
    requires Inv(s) && Deletes(s, l, n)
    ensures AnyActive(Apply(s, l)) <==> exists m :: Spared(s, n, m)
  {
    var s' := Apply(s, l);
    CarryDeletes(s.machines, s.pass.value.active, Remove(n), l.deletion, l.patch);
    forall m ensures m in s'.machines && !s'.machines[m].deleting <==> Spared(s, n, m) {
      assert m in s'.machines <==> m in s.machines;
    }
  }

  /** What the conclusion of a pass does to deletion marks. */
  lemma CarryDeletes(ms: Machines, active: Machines, v: Verdict, deletion: Reply, patch: Reply)
    ensures var ms' := Carry(ms, active, v, deletion, patch);
            && ms'.Keys == ms.Keys
            && forall m :: m in ms ==> (ms'[m].deleting <==> ms[m].deleting || (v == Remove(m) && deletion.Landed()))
  {
  }

  /** What the conclusion of a pass writes: the reason why a Machine waits, the deletion, or the failure
      of the deletion, on that Machine and no other. */
  lemma CarryTable(ms: Machines, active: Machines, v: Verdict, deletion: Reply, patch: Reply)
    ensures var ms' := Carry(ms, active, v, deletion, patch);
            && (v.Leave? ==> ms' == ms)
            && (forall m :: m in ms && !v.Leave? && m != v.name ==> m in ms' && ms'[m] == ms[m])
            && (!v.Leave? && v.name in ms && patch.Landed() ==>
                  && v.name in ms'
                  && (v.Wait? ==> ms'[v.name] == ms[v.name].(remediated := No(v.reason)))
                  && (v.Remove? && !deletion.Done? ==> ms'[v.name].remediated == No(RemediationFailed))
                  && (v.Remove? && deletion.Done? && v.name in active ==>
                        ms'[v.name].remediated == active[v.name].remediated))
            && (!v.Leave? && v.name in ms && !patch.Landed() ==>
                  v.name in ms' && ms'[v.name].remediated == ms[v.name].remediated)
  {
  }

  lemma ConcludeKeepsInv(s: State, deletion: Reply, patch: Reply)
    requires Inv(s) && Enabled(s, Conclude(deletion, patch))
    ensures Inv(Apply(s, Conclude(deletion, patch)))
  {
    var l := Conclude(deletion, patch);
    var v := VerdictOf(s);
    CarryDeletes(s.machines, s.pass.value.active, v, deletion, patch);
    if v.Remove? && deletion.Landed() { DeleteIsSafe(s, l, v.name); }
    var s' := Apply(s, l);
    forall a | a in s'.ours ensures a in Deleting(s'.machines) { assert a in s.ours ==> a in Deleting(s.machines); }
  }

  lemma StepKeepsInv(s: State, l: Label)
    requires Inv(s) && Enabled(s, l)
    ensures Inv(Apply(s, l))
  {
    match l
    case Conclude(deletion, patch) => ConcludeKeepsInv(s, deletion, patch);
    case _ =>
  }

  lemma {:induction false} RunKeepsInv(ss: seq<State>, ls: seq<Label>, i: nat)
    requires IsRun(ss, ls) && i < |ss|
    ensures Inv(ss[i])
  {
    if i == 0 {
    } else {
      RunKeepsInv(ss, ls, i - 1);
      StepKeepsInv(ss[i - 1], ls[i - 1]);
    }
  }

  /** What remediation itself never has more than one of. */
  ghost predicate OneAtATime(s: State) { forall a, b :: a in s.ours && b in s.ours ==> a == b }

  ghost predicate StepSafe(s: State, l: Label, s': State) { forall n :: Deletes(s, l, n) ==> SafeDelete(s, n, s') }

  /** Remediation safety, over every run of passes, machines coming up or failing, deletions by
      others and deletions finishing, and whatever the progress annotation says: remediation has
      one Machine on its way out at most; when a delete is issued the Machines deleting are exactly
      those that others asked to delete since the pass read them, and those healthy without a node
      were reported on since; and the delete leaves an active Machine exactly when others have spared
      one, in particular when they removed fewer than the pass had besides its own. */
  lemma RemediationSafety(ss: seq<State>, ls: seq<Label>)
    requires IsRun(ss, ls)
    ensures forall i :: 0 <= i < |ss| ==> OneAtATime(ss[i])
    ensures forall i :: 0 <= i < |ls| ==> StepSafe(ss[i], ls[i], ss[i + 1])
  {
    forall i | 0 <= i < |ss| ensures OneAtATime(ss[i]) { RunKeepsInv(ss, ls, i); }
    forall i | 0 <= i < |ls| ensures StepSafe(ss[i], ls[i], ss[i + 1]) {
      RunKeepsInv(ss, ls, i);
      forall n | Deletes(ss[i], ls[i], n) ensures SafeDelete(ss[i], n, ss[i + 1]) { DeleteIsSafe(ss[i], ls[i], n); }
    }
  }

  /** The histories mean what they say: a pass starts with clean ones, and a Machine enters them
      only in a step of somebody else that concerns that Machine. */
  lemma Histories(s: State, l: Label, m: string)
    requires Enabled(s, l)
    ensures l.Read? ==> Apply(s, l).reported == {} && Apply(s, l).removed == {} && Apply(s, l).made == {}
    ensures m in Apply(s, l).reported && m !in s.reported ==> l.Report? && l.name == m
    ensures m in Apply(s, l).removed && m !in s.removed ==> l == OtherDelete(m)
    ensures m in Apply(s, l).made && m !in s.made ==> l.Create? && l.name == m
    ensures m in Apply(s, l).ours && m !in s.ours ==> Deletes(s, l, m)
    ensures m in s.ours && m !in Apply(s, l).ours ==> l == Gone(m)
  {
  }

  /** The step takes the last active Machine: it is a remediation delete for which others spared
      none, or it is a deletion by others. */
  ghost predicate TakesLast(s: State, l: Label) {
    || (l.OtherDelete? && forall m :: m in s.machines && !s.machines[m].deleting ==> m == l.name)
    || (exists n :: Deletes(s, l, n) && forall m :: !Spared(s, n, m))
  }

  /** An active Machine is left exactly unless the step takes the last one. */
  lemma StepLeavesActive(s: State, l: Label)
    requires Inv(s) && Enabled(s, l) && AnyActive(s)
    ensures AnyActive(Apply(s, l)) <==> !TakesLast(s, l)
  {
    var s' := Apply(s, l);
    if l.Conclude? && l.deletion.Landed() && VerdictOf(s).Remove? {
      var n := VerdictOf(s).name;
      DeleteSpares(s, l, n);
      assert Deletes(s, l, n) && forall n' :: Deletes(s, l, n') ==> n' == n;
    } else if l.OtherDelete? {
      assert forall m :: m in s'.machines && !s'.machines[m].deleting <==>
                         m in s.machines && !s.machines[m].deleting && m != l.name;
    } else {
      var m :| m in s.machines && !s.machines[m].deleting;
      assert m in s'.machines && !s'.machines[m].deleting;
    }
  }

  lemma {:induction false} ActiveSoFar(ss: seq<State>, ls: seq<Label>, i: nat)
    requires IsRun(ss, ls) && AnyActive(ss[0]) && i < |ss|
    requires forall j :: 0 <= j < |ls| ==> !TakesLast(ss[j], ls[j])
    ensures AnyActive(ss[i])
  {
    if i == 0 {
    } else {
      ActiveSoFar(ss, ls, i - 1);
      RunKeepsInv(ss, ls, i - 1);
      StepLeavesActive(ss[i - 1], ls[i - 1]);
    }
  }

  /** Over every run, with others deleting as they like: the control plane always has an active
      Machine exactly when no step takes the last one. */
  lemma ActiveNeverEmpty(ss: seq<State>, ls: seq<Label>)
    requires IsRun(ss, ls) && AnyActive(ss[0])
    ensures (forall i :: 0 <= i < |ss| ==> AnyActive(ss[i])) <==> forall j :: 0 <= j < |ls| ==> !TakesLast(ss[j], ls[j])
  {
    if forall j :: 0 <= j < |ls| ==> !TakesLast(ss[j], ls[j]) {
      forall i | 0 <= i < |ss| ensures AnyActive(ss[i]) { ActiveSoFar(ss, ls, i); }
    } else {
      var j :| 0 <= j < |ls| && TakesLast(ss[j], ls[j]);
      RunKeepsInv(ss, ls, j);
      if AnyActive(ss[j]) { StepLeavesActive(ss[j], ls[j]); }
      assert !AnyActive(ss[j]) || !AnyActive(ss[j + 1]);
    }
  }

  /** Remediation alone never does: nobody else deleting means an active Machine for ever. */
  lemma AloneKeepsActive(ss: seq<State>, ls: seq<Label>)
    requires IsRun(ss, ls) && AnyActive(ss[0])
    requires forall j :: 0 <= j < |ls| ==> !ls[j].OtherDelete?
    ensures forall i :: 0 <= i < |ss| ==> AnyActive(ss[i])
  {
    forall j | 0 <= j < |ls| ensures !TakesLast(ss[j], ls[j]) {
      RunKeepsInv(ss, ls, j);
      NothingRemoved(ss, ls, j);
      forall n | Deletes(ss[j], ls[j], n) ensures exists m :: Spared(ss[j], n, m) {
        var p := ss[j].pass.value;
        RemoveIff(p.active, p.deleted, p.annotated, true, n);
        var m := SomeSpared(p.active, {}, n);
        assert Spared(ss[j], n, m);
      }
    }
    ActiveNeverEmpty(ss, ls);
  }

  lemma {:induction false} NothingRemoved(ss: seq<State>, ls: seq<Label>, i: nat)
    requires IsRun(ss, ls) && i < |ss| && forall j :: 0 <= j < |ls| ==> !ls[j].OtherDelete?
    ensures ss[i].removed == {}
  {
    if i == 0 {
    } else {
      NothingRemoved(ss, ls, i - 1);
    }
  }

  lemma Extend(ss0: seq<State>, ls0: seq<Label>, l: Label) returns (ss: seq<State>, ls: seq<Label>)
    requires Steps(ss0, ls0) && Enabled(ss0[|ls0|], l)
    ensures Steps(ss, ls) && ls == ls0 + [l] && ss == ss0 + [Apply(ss0[|ls0|], l)]
  {
    ss, ls := ss0 + [Apply(ss0[|ls0|], l)], ls0 + [l];
  }

  /** Two Machines, the first in need of remediation. */
  function Pair(a: string, b: string): Machines {
    map[a := Machine(0, Unhealthy, No(ByHealthCheck), true, false), b := Machine(1, Healthy, Unset, true, false)]
  }

  lemma PairVerdict(a: string, b: string)
    requires a != b
    ensures Decide(Pair(a, b), {}, false, true) == Remove(a)
  {
    var ms := Pair(a, b);
    var cs := Candidates(ms);
    assert cs == map[a := ms[a]];
    assert Key(cs[a].created, a) in Keys(cs);
    assert |ms.Keys| > 1 by { assert ms.Keys == {a, b}; }
    RemoveIff(ms, {}, false, true, a);
  }

  lemma PairRead(a: string, b: string)
    requires a != b
    ensures Apply(State(Pair(a, b), true, None, {}, {}, {}, {}), Read(false))
         == State(Pair(a, b), true, Some(Pass(Pair(a, b), {}, false, {}, false)), {}, {}, {}, {})
  {
    var ms := Pair(a, b);
    assert Active(ms) == ms;
    assert ToClean(ms) == {} && Deleting(ms) == {};
  }

  lemma PairOther(s: State, b: string)
    requires b in s.machines
    ensures Enabled(s, OtherDelete(b))
    ensures var s' := Apply(s, OtherDelete(b));
            && s'.machines.Keys == s.machines.Keys && s'.machines[b].deleting
            && s'.initialised == s.initialised && s'.pass == s.pass
  {
  }

  lemma PairConclude(s: State, a: string, b: string)
    requires a != b && s.initialised && s.pass == Some(Pass(Pair(a, b), {}, false, {}, false))
    requires s.machines.Keys == {a, b} && s.machines[b].deleting
    ensures Deletes(s, Conclude(Done, Done), a) && !AnyActive(Apply(s, Conclude(Done, Done)))
  {
    PairVerdict(a, b);
    assert Apply(s, Conclude(Done, Done)).machines.Keys == {a, b};
  }

  /** The restriction is needed: a deletion by somebody else between the read and the delete of a
      pass leaves no active Machine. */
  lemma OutsiderRace(a: string, b: string) returns (ss: seq<State>, ls: seq<Label>)
    requires a != b
    ensures IsRun(ss, ls) && |ls| == 3 && AnyActive(ss[0]) && !AnyActive(ss[3])
    ensures ls[1] == OtherDelete(b) && Deletes(ss[2], ls[2], a)
  {
    var s := State(Pair(a, b), true, None, {}, {}, {}, {});
    assert AnyActive(s) by { assert a in s.machines && !s.machines[a].deleting; }
    PairRead(a, b);
    ss, ls := Extend([s], [], Read(false));
    PairOther(ss[1], b);
    ss, ls := Extend(ss, ls, OtherDelete(b));
    PairConclude(ss[2], a, b);
    ss, ls := Extend(ss, ls, Conclude(Done, Done));
  }

  // ---- the pass, as the code performs it -----------------------------------------------------

  /** The stored Machines after every cleaning patch was sent. */
  function CleanedStored(stored: Machines, names: set<string>, replies: string -> Reply): Machines {
    map n | n in stored :: if n in names && replies(n).Landed() then stored[n].(remediated := Unset) else stored[n]
  }

  predicate AllCleaned(names: set<string>, replies: string -> Reply) { forall n :: n in names ==> replies(n).Done? }

  /** The copies after those in `names` were cleaned. */
  function CleanedOf(active: Machines, names: set<string>): Machines {
    map n | n in active :: if n in names then active[n].(remediated := Unset) else active[n]
  }

  lemma CleanNone(active: Machines, stored: Machines, replies: string -> Reply)
    ensures CleanedOf(active, {}) == active && CleanedStored(stored, {}, replies) == stored
  {
  }

  lemma CleanOneMore(active: Machines, stored: Machines, names: set<string>, n: string, replies: string -> Reply)
    requires n in active && n !in names
    ensures n in CleanedOf(active, names)
    ensures CleanedOf(active, names + {n})
            == CleanedOf(active, names)[n := CleanedOf(active, names)[n].(remediated := Unset)]
    ensures CleanedStored(stored, names + {n}, replies)
            == SetRemediated(CleanedStored(stored, names, replies), n, Unset, replies(n))
    ensures AllCleaned(names + {n}, replies) <==> AllCleaned(names, replies) && replies(n).Done?
  {
  }

  /** The Machine is healthy and still marked for remediation. */
  predicate Recovered(active: Machines, n: string) {
    n in active && active[n].health == Healthy && active[n].remediated.No?
  }

  /** Cleaning reaches every such Machine and no other. */
  lemma CleanedMeaning(active: Machines, stored: Machines, replies: string -> Reply)
    ensures var after := CleanedStored(stored, ToClean(active), replies);
            && after.Keys == stored.Keys
            && (forall n :: Recovered(active, n) && n in stored && replies(n).Landed() ==>
                  after[n] == stored[n].(remediated := Unset))
            && (forall n :: n in stored && !Recovered(active, n) ==> after[n] == stored[n])
  {
  }

  lemma CleanAll(active: Machines)
    ensures CleanedOf(active, ToClean(active)) == Cleaned(active)
  {
  }

  /** The cleaning patches of a pass, one after the other. */
  lemma {:induction false} CleaningIsRun(ss0: seq<State>, ls0: seq<Label>, stored: Machines, done: set<string>,
      replies: string -> Reply)
      returns (ss: seq<State>, ls: seq<Label>)
    requires Steps(ss0, ls0) && ls0 != [] && ls0[0].Read? && forall i :: 0 < i < |ls0| ==> ls0[i].Clean?
    requires var s := ss0[|ls0|];
             && s.pass.Some? && s.pass.value.todo == ToClean(s.pass.value.active) - done
             && done <= ToClean(s.pass.value.active)
             && s.machines == CleanedStored(stored, done, replies)
             && s.pass.value.failed == !AllCleaned(done, replies)
    ensures Steps(ss, ls) && ls != [] && ss[0] == ss0[0] && ls[0] == ls0[0] && forall i :: 0 < i < |ls| ==> ls[i].Clean?
    ensures var s, p, q := ss[|ls|], ss0[|ls0|].pass.value, ss[|ls|].pass;
            && s == ss0[|ls0|].(machines := s.machines, pass := s.pass)
            && q == Some(p.(todo := {}, failed := !AllCleaned(ToClean(p.active), replies)))
            && s.machines == CleanedStored(stored, ToClean(p.active), replies)
    decreases ss0[|ls0|].pass.value.todo
  {
    var p := ss0[|ls0|].pass.value;
    if p.todo == {} {
      assert forall n :: n in ToClean(p.active) && n !in done ==> n in p.todo;
      assert done == ToClean(p.active);
      ss, ls := ss0, ls0;
    } else {
      var n :| n in p.todo;
      CleanOneMore(p.active, stored, done, n, replies);
      var ss1, ls1 := Extend(ss0, ls0, Clean(n, replies(n)));
      assert p.todo - {n} == ToClean(p.active) - (done + {n});
      ss, ls := CleaningIsRun(ss1, ls1, stored, done + {n}, replies);
    }
  }

  /** What `reconcileUnhealthyMachines` does to the Machines, undisturbed, is what a run of Read, Clean
      and Conclude does, so the results over runs speak of the code. */
  lemma PassIsRun(s: State, annotated: bool, replies: string -> Reply, deletion: Reply, patch: Reply)
      returns (ss: seq<State>, ls: seq<Label>)
    requires s.pass.None?
    ensures Steps(ss, ls) && ss[0] == s && |ls| >= 2 && ls[0] == Read(annotated)
            && ls[|ls| - 1] == Conclude(deletion, patch)
    ensures forall i :: 0 < i < |ls| - 1 ==> ls[i].Clean?
    ensures var active := Active(s.machines);
            var v := if AllCleaned(ToClean(active), replies)
                     then Decide(active, Deleting(s.machines), annotated, s.initialised) else Leave;
            ss[|ls|].machines == Carry(CleanedStored(s.machines, ToClean(active), replies), active, v, deletion, patch)
  {
    ss, ls := Extend([s], [], Read(annotated));
    CleanNone(Active(s.machines), s.machines, replies);
    ss, ls := CleaningIsRun(ss, ls, s.machines, {}, replies);
    ss, ls := Extend(ss, ls, Conclude(deletion, patch));
  }

  class Fleet {
    var machines: Machines
    var annotated: bool

    constructor (machines: Machines, annotated: bool)
      ensures this.machines == machines && this.annotated == annotated
    {
      this.machines := machines;
      this.annotated := annotated;
    }

    /** `sanitizeHealthyMachines`: the loop goes on after a patch that failed. */
    method SanitizeHealthyMachines(active: Machines, replies: string -> Reply) returns (cleaned: Machines, ok: bool)
      modifies this`machines
      ensures cleaned == Cleaned(active)
      ensures machines == CleanedStored(old(machines), ToClean(active), replies)
      ensures ok <==> AllCleaned(ToClean(active), replies)
      // every healthy Machine that is marked for remediation is sent a patch, and only those
      ensures forall n :: Recovered(active, n) && n in machines && replies(n).Landed() ==>
                machines[n] == old(machines)[n].(remediated := Unset)
      ensures forall n :: n in old(machines) && !Recovered(active, n) ==>
              n in machines && machines[n] == old(machines)[n]
    {
      CleanedMeaning(active, machines, replies);
      cleaned, ok := CleanLoop(active, replies);
    }

    /** Its loop over the healthy Machines. */
    method CleanLoop(active: Machines, replies: string -> Reply) returns (cleaned: Machines, ok: bool)
      modifies this`machines
      ensures cleaned == Cleaned(active)
      ensures machines == CleanedStored(old(machines), ToClean(active), replies)
      ensures ok <==> AllCleaned(ToClean(active), replies)
    {
      cleaned, ok := active, true;
      var todo := active.Keys;
      ghost var tried: set<string> := {};
      CleanNone(active, machines, replies);
      while todo != {}
        invariant todo <= active.Keys && tried == ToClean(active) - todo
        invariant cleaned == CleanedOf(active, tried)
        invariant machines == CleanedStored(old(machines), tried, replies)
        invariant ok <==> AllCleaned(tried, replies)
        modifies this`machines
        decreases |todo|
      {
        var n :| n in todo;
        todo := todo - {n};
        if Stale(active[n]) {
          CleanOneMore(active, old(machines), tried, n, replies);
          cleaned := cleaned[n := cleaned[n].(remediated := Unset)];
          machines := SetRemediated(machines, n, Unset, replies(n));
          ok := ok && replies(n).Done?;
          tried := tried + {n};
        }
      }
      assert tried == ToClean(active);
      CleanAll(active);
    }

    /** The rest of the pass, on clean copies and with no remediation in progress. */
    method RemediateOldest(active: Machines, deleted: set<string>, initialised: bool, deletion: Reply, patch: Reply)
        returns (ok: bool)
      requires !annotated
      modifies this
      ensures var v := Decide(active, deleted, false, initialised);
              && machines == Carry(old(machines), active, v, deletion, patch)
              && annotated == (v.Remove? && deletion.Done?)
              && ok == (v.Remove? ==> deletion.Done?)
    {
      var candidates := Candidates(active);
      if candidates == map[] { return true; }
      var any :| any in candidates;
      assert Key(candidates[any].created, any) in Keys(candidates);
      var k := FindOldest(Keys(candidates));
      OldestUnique(Keys(candidates), k, OldestOf(Keys(candidates)));
      var n := k.name;
      assert Decide(active, deleted, false, initialised) == Judge(active, deleted, initialised, n);
      var reason := Judge(active, deleted, initialised, n);
      if reason.Wait? {
        machines := SetRemediated(machines, n, No(reason.reason), patch);
        return true;
      }
      machines := Delete(machines, n, deletion);
      if !deletion.Done? {
        machines := SetRemediated(machines, n, No(RemediationFailed), patch);
        return false;
      }
      machines := SetRemediated(machines, n, active[n].remediated, patch);
      annotated := true;
      ok := true;
    }

    /** `reconcileUnhealthyMachines` on a scope. A failed status patch at the end is not reported:
        the error it wraps is the earlier one, which is nil there. */
    method ReconcileUnhealthyMachines(active: Machines, deleted: set<string>, initialised: bool,
                                      replies: string -> Reply, deletion: Reply, patch: Reply) returns (ok: bool)
      modifies this
      ensures var cleaned := AllCleaned(ToClean(active), replies);
              var v := if cleaned then Decide(active, deleted, old(annotated), initialised) else Leave;
              && machines == Carry(CleanedStored(old(machines), ToClean(active), replies), active, v, deletion, patch)
              && annotated == (old(annotated) || (v.Remove? && deletion.Done?))
              && ok == (cleaned && (v.Remove? ==> deletion.Done?))
    {
      var local;
      local, ok := SanitizeHealthyMachines(active, replies);
      if !ok { return false; }
      if annotated { return true; }
      CleaningKeepsVerdict(active, deleted, false, initialised);
      ok := RemediateOldest(local, deleted, initialised, deletion, patch);
    }
  }
}
