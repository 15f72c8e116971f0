/** Which control-plane config receives the data that starts a new cluster, and which receive
    data that joins one. */
module InitialController {
  import opened Prelude
  import opened Oldest

  datatype Kind = Initial | Join

  /** Generating the data may fail, or have to wait for an endpoint or for the first Machine's
      addresses, which is no error. */
  datatype Generation = Ready | Waiting | Failed

  datatype State = State(
    /** Machines in creation order */
    created: seq<Key>,
    /** bootstrap secrets by config name; a config bears the name of its Machine */
    secrets: map<string, Kind>,
    /** configs whose status says that the secret is there */
    latched: set<string>,
    /** history: configs that ever received initial data */
    started: set<string>)

  datatype Label =
    | Create(key: Key)
    /** One reconcile of a config: the latch and the Machines it sees, how
        generating the data went, and the answers to the secret and status writes. */
    | Reconcile(name: string, seesLatch: bool, view: set<Key>, generation: Generation, secret: Reply, status: Reply)

  ghost predicate Increasing(created: seq<Key>) {
    && (forall i, j :: 0 <= i < j < |created| ==> Before(created[i], created[j]))
    && (forall i, j :: 0 <= i < j < |created| ==> created[i].name != created[j].name)
  }

  ghost predicate Enabled(s: State, l: Label) {
    match l
    case Create(k) => Increasing(s.created + [k])
    case Reconcile(n, seesLatch, view, _, _, _) =>
      (seesLatch ==> n in s.latched) && forall k :: k in view ==> k in s.created
  }

  /** The kind of data generated for a config, if the reconcile gets that far. */
  ghost function Choice(n: string, seesLatch: bool, view: set<Key>, generation: Generation): Option<Kind> {
    if seesLatch || view == {} || !generation.Ready? then None
    else if OldestOf(view).name == n then Some(Initial) else Some(Join)
  }

  /** The secret is written, then the latch; the status write goes out even if the secret failed,
      but carries the latch only if it did not. */
  ghost function Write(s: State, n: string, choice: Option<Kind>, secret: Reply, status: Reply): State {
    if choice.None? || !secret.Landed() then s
    else
      s.(secrets := s.secrets[n := choice.value],
         started := if choice.value.Initial? then s.started + {n} else s.started,
         latched := if secret.Done? && status.Landed() then s.latched + {n} else s.latched)
  }

  ghost function Apply(s: State, l: Label): State
    requires Enabled(s, l)
  {
    match l
    case Create(k) => s.(created := s.created + [k])
    case Reconcile(n, seesLatch, view, generation, secret, status) =>
      Write(s, n, Choice(n, seesLatch, view, generation), secret, status)
  }

  ghost predicate IsRun(ss: seq<State>, ls: seq<Label>) {
    && |ss| == |ls| + 1 && ss[0] == State([], map[], {}, {})
    && forall i :: 0 <= i < |ls| ==> Enabled(ss[i], ls[i]) && ss[i + 1] == Apply(ss[i], ls[i])
  }

  /** A reconcile stores data exactly when it sees no latch, sees Machines, its data is ready and the
      write lands: initial data if it is the oldest Machine it sees, else data to join. The latch is
      stored with it exactly when the secret is known to be and the status write lands. */
  lemma ReconcileTable(s: State, l: Label)
    requires l.Reconcile? && Enabled(s, l)
    ensures var s' := Apply(s, l);
            var stores := !l.seesLatch && l.view != {} && l.generation == Ready && l.secret.Landed();
            && s'.created == s.created
            && (!stores ==> s' == s)
            && (stores ==>
                  var initial := exists k :: IsOldest(l.view, k) && k.name == l.name;
                  && s'.secrets == s.secrets[l.name := if initial then Initial else Join]
                  && s'.started == s.started + (if initial then {l.name} else {})
                  && s'.latched == s.latched + (if l.secret == Done && l.status.Landed() then {l.name} else {}))
  {
    if l.view != {} {
      var k := OldestOf(l.view);
      forall k' | IsOldest(l.view, k') ensures k' == k { OldestUnique(l.view, k, k'); }
    }
    assert s.started + {} == s.started && s.latched + {} == s.latched;
  }

  // ---- the election ---------------------------------------------------------------------------

  /** Whatever part of the Machines a reconcile sees, it takes the first Machine for the oldest
      exactly when it sees it. */
  lemma FirstIsOldest(created: seq<Key>, view: set<Key>)
    requires Increasing(created) && view != {} && forall k :: k in view ==> k in created
    ensures created != []
    ensures OldestOf(view).name == created[0].name <==> created[0] in view
  {
    var k := OldestOf(view);
    assert k in created;
    var i :| 0 <= i < |created| && created[i] == k;
    if created[0] in view && i > 0 { BeforeTotal(created[0], k); }
    if i > 0 { assert created[0].name != created[i].name; }
  }

  /** A reconcile that does not see the first Machine gets its data stored. */
  ghost predicate MissesFirst(s: State, l: Label) {
    && l.Reconcile? && !l.seesLatch && l.view != {} && l.generation.Ready? && l.secret.Landed()
    && s.created != [] && s.created[0] !in l.view
  }

  /** It is that of the oldest Machine it sees, which gets initial data in place of the first. */
  ghost predicate Crowns(s: State, l: Label) { MissesFirst(s, l) && l.name == OldestOf(l.view).name }

  /** It is that of the first Machine, which gets data to join a cluster that nobody starts. */
  ghost predicate Demotes(s: State, l: Label) { MissesFirst(s, l) && l.name == s.created[0].name }

  lemma CrownsAnother(s: State, l: Label)
    requires Increasing(s.created) && Enabled(s, l) && Crowns(s, l)
    ensures l.name != s.created[0].name && l.name in Apply(s, l).started && Apply(s, l).secrets[l.name].Initial?
  {
    FirstIsOldest(s.created, l.view);
  }

  // ---- at most one initial controller ----------------------------------------------------------

  /** Only the first Machine's config ever received initial data. */
  ghost predicate OnlyFirst(s: State) {
    Increasing(s.created) && forall n :: n in s.started ==> s.created != [] && n == s.created[0].name
  }

  lemma StepKeepsOnlyFirstIff(s: State, l: Label)
    requires OnlyFirst(s) && Enabled(s, l)
    ensures OnlyFirst(Apply(s, l)) <==> !Crowns(s, l)
  {
    if l.Reconcile? && l.view != {} { FirstIsOldest(s.created, l.view); }
  }

  lemma {:induction false} RunKeepsOnlyFirst(ss: seq<State>, ls: seq<Label>, i: nat)
    requires IsRun(ss, ls) && i < |ss| && forall j :: 0 <= j < i ==> !Crowns(ss[j], ls[j])
    ensures OnlyFirst(ss[i])
  {
    if i == 0 {
    } else {
      RunKeepsOnlyFirst(ss, ls, i - 1);
      StepKeepsOnlyFirstIff(ss[i - 1], ls[i - 1]);
    }
  }

  lemma {:induction false} RunIncreases(ss: seq<State>, ls: seq<Label>, i: nat)
    requires IsRun(ss, ls) && i < |ss|
    ensures Increasing(ss[i].created)
  {
    if i == 0 {
    } else {
      RunIncreases(ss, ls, i - 1);
    }
  }

  /** Single initial controller, over every interleaving of creations and reconciles with views as
      old and as partial as they like and writes that fail or are lost: only the first Machine's
      config ever receives initial data exactly when no reconcile crowns another, and then at most
      one config does. */
  lemma SingleInitialController(ss: seq<State>, ls: seq<Label>)
    requires IsRun(ss, ls)
    ensures (forall i :: 0 <= i < |ss| ==> OnlyFirst(ss[i])) <==> forall j :: 0 <= j < |ls| ==> !Crowns(ss[j], ls[j])
    ensures (forall j :: 0 <= j < |ls| ==> !Crowns(ss[j], ls[j])) ==>
              forall i :: 0 <= i < |ss| ==> forall a, b :: a in ss[i].started && b in ss[i].started ==> a == b
  {
    if forall j :: 0 <= j < |ls| ==> !Crowns(ss[j], ls[j]) {
      forall i | 0 <= i < |ss| ensures OnlyFirst(ss[i]) { RunKeepsOnlyFirst(ss, ls, i); }
    } else {
      var j :| 0 <= j < |ls| && Crowns(ss[j], ls[j]);
      RunIncreases(ss, ls, j);
      CrownsAnother(ss[j], ls[j]);
      assert !OnlyFirst(ss[j + 1]);
    }
  }

  /** What a reconcile of n does that sees all Machines and meets with no failure. */
  function Undisturbed(s: State, n: string): Label {
    Reconcile(n, false, (set k | k in s.created), Ready, Done, Done)
  }

  /** The condition is needed for "at most one" too: from every state, a reconcile that crowns another
      Machine followed by one of the first leaves two configs with initial data. */
  lemma CrownedTwice(s: State, l: Label)
    requires Increasing(s.created) && Enabled(s, l) && Crowns(s, l)
    ensures var r := Undisturbed(s, s.created[0].name);
            && Enabled(Apply(s, l), r)
            && {s.created[0].name, l.name} <= Apply(Apply(s, l), r).started && s.created[0].name != l.name
  {
    CrownsAnother(s, l);
    var r := Undisturbed(s, s.created[0].name);
    assert s.created[0] in r.view;
    FirstIsOldest(s.created, r.view);
  }

  // ---- the kind of a config's data ----------------------------------------------------------------

  /** The data of every config is of the kind its Machine's rank calls for. */
  ghost predicate KindsOk(s: State) {
    && Increasing(s.created)
    && (s.secrets != map[] ==> s.created != [])
    && (forall n :: n in s.secrets ==> (s.secrets[n].Initial? <==> n == s.created[0].name))
  }

  lemma StepKeepsKindsIff(s: State, l: Label)
    requires KindsOk(s) && Enabled(s, l)
    ensures KindsOk(Apply(s, l)) <==> !Crowns(s, l) && !Demotes(s, l)
  {
    if l.Reconcile? && l.view != {} {
      FirstIsOldest(s.created, l.view);
      if Crowns(s, l) || Demotes(s, l) { assert l.name in Apply(s, l).secrets; }
    }
  }

  lemma {:induction false} RunKeepsKinds(ss: seq<State>, ls: seq<Label>, i: nat)
    requires IsRun(ss, ls) && i < |ss|
    requires forall j :: 0 <= j < |ls| ==> !Crowns(ss[j], ls[j]) && !Demotes(ss[j], ls[j])
    ensures KindsOk(ss[i])
  {
    if i == 0 {
    } else {
      RunKeepsKinds(ss, ls, i - 1);
      StepKeepsKindsIff(ss[i - 1], ls[i - 1]);
    }
  }

  lemma {:induction false} FirstStays(ss: seq<State>, ls: seq<Label>, i: nat, j: nat)
    requires IsRun(ss, ls) && i <= j < |ss| && ss[i].created != []
    ensures ss[j].created != [] && ss[j].created[0] == ss[i].created[0]
    decreases j
  {
    if i == j {
    } else {
      FirstStays(ss, ls, i, j - 1);
    }
  }

  /** Over every run in which no reconcile crowns or demotes, the first Machine's config has initial
      data and every other data to join, and none ever changes its kind, even when its latch was
      never stored. */
  lemma KindNeverChanges(ss: seq<State>, ls: seq<Label>, i: nat, j: nat, n: string)
    requires IsRun(ss, ls)
    requires forall k :: 0 <= k < |ls| ==> !Crowns(ss[k], ls[k]) && !Demotes(ss[k], ls[k])
    requires i <= j < |ss| && n in ss[i].secrets && n in ss[j].secrets
    ensures ss[i].secrets[n] == ss[j].secrets[n]
    ensures ss[i].created != [] && (ss[i].secrets[n].Initial? <==> n == ss[i].created[0].name)
  {
    RunKeepsKinds(ss, ls, i);
    RunKeepsKinds(ss, ls, j);
    FirstStays(ss, ls, i, j);
  }

  /** The condition is exact: from every state, a reconcile that crowns or demotes followed by one of
      the same config that sees all Machines changes the kind of its data. */
  lemma KindChanges(s: State, l: Label)
    requires Increasing(s.created) && Enabled(s, l) && (Crowns(s, l) || Demotes(s, l))
    ensures var s1, r := Apply(s, l), Undisturbed(s, l.name);
            && Enabled(s1, r) && l.name in s1.secrets && l.name in Apply(s1, r).secrets
            && s1.secrets[l.name] != Apply(s1, r).secrets[l.name]
  {
    var r := Undisturbed(s, l.name);
    assert s.created[0] in r.view;
    FirstIsOldest(s.created, r.view);
    FirstIsOldest(s.created, l.view);
  }

  // ---- the latch ------------------------------------------------------------------------------------

  /** A reconcile of this config reads its latch as stored. */
  ghost predicate LatchFresh(s: State, l: Label, n: string) {
    l.Reconcile? && l.name == n && n in s.latched ==> l.seesLatch
  }

  /** The latch alone protects one config: once it is stored and as long as its reconciles see it,
      the config keeps its data whatever becomes of the Machines. */
  lemma {:induction false} LatchHolds(ss: seq<State>, ls: seq<Label>, i: nat, j: nat, n: string)
    requires IsRun(ss, ls) && i <= j < |ss| && n in ss[i].latched && n in ss[i].secrets
    requires forall k :: i <= k < j ==> LatchFresh(ss[k], ls[k], n)
    ensures n in ss[j].latched && n in ss[j].secrets && ss[j].secrets[n] == ss[i].secrets[n]
    decreases j
  {
    if i == j {
    } else {
      LatchHolds(ss, ls, i, j - 1, n);
      assert LatchFresh(ss[j - 1], ls[j - 1], n);
    }
  }

  /** It does not protect the cluster: when the first Machine is no longer listed, a config that
      has no data yet starts a second one. */
  lemma FirstRemoved(a: Key, b: Key) returns (ss: seq<State>, ls: seq<Label>)
    requires Before(a, b) && a.name != b.name
    ensures IsRun(ss, ls) && |ls| == 4 && forall k, n :: 0 <= k < |ls| ==> LatchFresh(ss[k], ls[k], n)
    ensures ss[4].started == {a.name, b.name}
  {
    var l2 := Reconcile(a.name, false, {a, b}, Ready, Done, Done);
    var l3 := Reconcile(b.name, false, {b}, Ready, Done, Done);
    var s2 := State([a, b], map[], {}, {});
    FirstIsOldest(s2.created, l2.view);
    assert IsOldest(l3.view, b);
    OldestUnique(l3.view, b, OldestOf(l3.view));
    ss, ls := TwoMachines(a, b);
    ss, ls := Extend(ss, ls, l2);
    assert ss[3] == State([a, b], map[a.name := Initial], {a.name}, {a.name});
    ss, ls := Extend(ss, ls, l3);
  }

  lemma TwoMachines(a: Key, b: Key) returns (ss: seq<State>, ls: seq<Label>)
    requires Before(a, b) && a.name != b.name
    ensures IsRun(ss, ls) && ls == [Create(a), Create(b)] && ss[2] == State([a, b], map[], {}, {})
  {
    assert [] + [a] == [a] && [a] + [b] == [a, b];
    ss, ls := Extend([State([], map[], {}, {})], [], Create(a));
    ss, ls := Extend(ss, ls, Create(b));
  }

  lemma Extend(ss0: seq<State>, ls0: seq<Label>, l: Label) returns (ss: seq<State>, ls: seq<Label>)
    requires IsRun(ss0, ls0) && Enabled(ss0[|ls0|], l)
    ensures IsRun(ss, ls) && ls == ls0 + [l] && ss == ss0 + [Apply(ss0[|ls0|], l)]
  {
    ss, ls := ss0 + [Apply(ss0[|ls0|], l)], ls0 + [l];
  }

  // ---- the code -------------------------------------------------------------------------------

  class ControlPlaneController {
    var secrets: map<string, Kind>
    var latched: set<string>
    ghost var created: seq<Key>
    ghost var started: set<string>

    ghost function Model(): State
      reads this
    {
      State(created, secrets, latched, started)
    }

    constructor ()
      ensures Model() == State([], map[], {}, {})
    {
      secrets, latched, created, started := map[], {}, [], {};
    }

    /** `Reconcile` of one config, from the latch on. */
    method Reconcile(name: string, dataSecretCreated: bool, machines: set<Key>, generation: Generation,
        secret: Reply, status: Reply)
        returns (ok: bool)
      requires Enabled(Model(), Label.Reconcile(name, dataSecretCreated, machines, generation, secret, status))
      modifies this
      ensures var l := Label.Reconcile(name, dataSecretCreated, machines, generation, secret, status);
              Model() == Apply(old(Model()), l)
      ensures ok <==>
                dataSecretCreated || machines == {} || generation.Waiting? || (generation.Ready? && secret.Done?)
    {
      if dataSecretCreated { return true; }
      if machines == {} { return true; }
      var oldest := FindOldest(machines);
      OldestUnique(machines, oldest, OldestOf(machines));
      var kind := if oldest.name == name then Initial else Join;
      if !generation.Ready? { return generation.Waiting?; }
      if secret.Landed() {
        secrets := secrets[name := kind];
        if kind.Initial? { started := started + {name}; }
      }
      if !secret.Done? { return false; }
      if status.Landed() { latched := latched + {name}; }
      ok := true;
    }
  }
}
