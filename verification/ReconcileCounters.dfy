/** Reconcile counters scraped from pods that restart, come and go: sums and differences. */
module ReconcileCounters {

  type Counters = map<string, int>
  type PodCounters = map<string, Counters>

  // ---- sums over a set of pods -----------------------------------------------------------------

  ghost function Sum(pods: set<string>, f: string -> int): int {
    if pods == {} then 0 else var p :| p in pods; f(p) + Sum(pods - {p}, f)
  }

  /** The order of summation does not matter. */
  lemma {:induction false} SumPick(pods: set<string>, p: string, f: string -> int)
    requires p in pods
    ensures Sum(pods, f) == f(p) + Sum(pods - {p}, f)
    decreases pods
  {
    var q :| q in pods && Sum(pods, f) == f(q) + Sum(pods - {q}, f);
    if q != p {
      SumPick(pods - {q}, p, f);
      SumPick(pods - {p}, q, f);
      assert pods - {q} - {p} == pods - {p} - {q};
    }
  }

  lemma SumAdd(pods: set<string>, p: string, f: string -> int)
    requires p !in pods
    ensures Sum(pods + {p}, f) == Sum(pods, f) + f(p)
  {
    SumPick(pods + {p}, p, f);
    assert pods + {p} - {p} == pods;
  }

  /** Two families that differ at p alone. */
  lemma {:induction false} SumBump(pods: set<string>, p: string, f: string -> int, g: string -> int)
    requires forall q :: q in pods && q != p ==> g(q) == f(q)
    ensures Sum(pods, g) == Sum(pods, f) + (if p in pods then g(p) - f(p) else 0)
    decreases pods
  {
    if pods == {} {
    } else {
      var q :| q in pods;
      SumPick(pods, q, f);
      SumPick(pods, q, g);
      SumBump(pods - {q}, p, f, g);
    }
  }

  // ---- what the code computes -------------------------------------------------------------------

  /** A counter read from a map: a missing one is zero. */
  function Get(c: Counters, k: string): int { if k in c then c[k] else 0 }

  function Pod(c: PodCounters, p: string): Counters { if p in c then c[p] else map[] }

  function At(c: PodCounters, p: string, k: string): int { Get(Pod(c, p), k) }

  /** A difference between two readings of one pod's counter; one that went down was reset. */
  function Delta(v: int, base: int): int { if v - base < 0 then v else v - base }

  /** What one pod adds for one controller. */
  function Growth(cur: Counters, base: Counters, k: string): int { if k in cur then Delta(cur[k], Get(base, k)) else 0 }

  function Contributions(cur: PodCounters, prev: PodCounters, k: string): string -> int {
    p => Growth(Pod(cur, p), Pod(prev, p), k)
  }

  function Values(cur: PodCounters, k: string): string -> int { p => At(cur, p, k) }

  /** The controllers that these pods report on. */
  ghost predicate Reported(cur: PodCounters, pods: set<string>, k: string) { exists p :: p in pods && k in Pod(cur, p) }

  /** The result holds the sum of the differences of every reported controller, and nothing else. */
  ghost predicate IsDiff(out: Counters, cur: PodCounters, prev: PodCounters, pods: set<string>) {
    forall k :: Entry(out, cur, prev, pods, k)
  }

  ghost predicate Entry(out: Counters, cur: PodCounters, prev: PodCounters, pods: set<string>, k: string) {
    && (k in out <==> Reported(cur, pods, k))
    && (k in out ==> out[k] == Sum(pods, Contributions(cur, prev, k)))
  }

  lemma {:induction false} SumZero(pods: set<string>, f: string -> int)
    requires forall p :: p in pods ==> f(p) == 0
    ensures Sum(pods, f) == 0
    decreases pods
  {
    if pods == {} {
    } else {
      var p :| p in pods;
      SumPick(pods, p, f);
      SumZero(pods - {p}, f);
    }
  }

  lemma NothingReported(cur: PodCounters, prev: PodCounters, pods: set<string>, k: string)
    requires !Reported(cur, pods, k)
    ensures Sum(pods, Contributions(cur, prev, k)) == 0
  {
    forall p | p in pods ensures Contributions(cur, prev, k)(p) == 0 { assert k !in Pod(cur, p); }
    SumZero(pods, Contributions(cur, prev, k));
  }

  lemma ReportedMore(cur: PodCounters, pods: set<string>, pod: string, k: string)
    requires pod in cur
    ensures Reported(cur, pods + {pod}, k) <==> Reported(cur, pods, k) || k in cur[pod]
  {
    if Reported(cur, pods, k) { var p :| p in pods && k in Pod(cur, p); assert p in pods + {pod}; }
    if k in cur[pod] { assert pod in pods + {pod} && k in Pod(cur, pod); }
  }

  lemma PodAdded(before: Counters, out: Counters, cur: PodCounters, prev: PodCounters, pods: set<string>, pod: string)
    requires pod in cur && pod !in pods && IsDiff(before, cur, prev, pods)
    requires out.Keys == before.Keys + cur[pod].Keys
    requires forall k :: k in out ==> out[k] == Get(before, k) + Growth(cur[pod], Pod(prev, pod), k)
    ensures IsDiff(out, cur, prev, pods + {pod})
  {
    forall k ensures Entry(out, cur, prev, pods + {pod}, k) {
      assert Entry(before, cur, prev, pods, k);
      ReportedMore(cur, pods, pod, k);
      SumAdd(pods, pod, Contributions(cur, prev, k));
      if k !in before { NothingReported(cur, prev, pods, k); }
    }
  }

  /** The inner loop of `Diff`: one pod's counters onto the result. */
  method AddGrowth(out0: Counters, cur: Counters, base: Counters) returns (out: Counters)
    ensures out.Keys == out0.Keys + cur.Keys
    ensures forall k :: k in out ==> out[k] == Get(out0, k) + Growth(cur, base, k)
  {
    out := out0;
    var todo := cur.Keys;
    while todo != {}
      invariant todo <= cur.Keys && out.Keys == out0.Keys + (cur.Keys - todo)
      invariant forall k :: k in out ==> out[k] == Get(out0, k) + (if k in todo then 0 else Growth(cur, base, k))
      decreases todo
    {
      var k :| k in todo;
      var d := cur[k] - Get(base, k);
      if d < 0 { d := cur[k]; }
      out := out[k := Get(out, k) + d];
      todo := todo - {k};
    }
  }

  /** The inner loop of `Total`. */
  method AddValues(out0: Counters, cur: Counters) returns (out: Counters)
    ensures out.Keys == out0.Keys + cur.Keys
    ensures forall k :: k in out ==> out[k] == Get(out0, k) + Get(cur, k)
  {
    out := out0;
    var todo := cur.Keys;
    while todo != {}
      invariant todo <= cur.Keys && out.Keys == out0.Keys + (cur.Keys - todo)
      invariant forall k :: k in out ==> out[k] == Get(out0, k) + (if k in todo then 0 else Get(cur, k))
      decreases todo
    {
      var k :| k in todo;
      out := out[k := Get(out, k) + cur[k]];
      todo := todo - {k};
    }
  }

  /** `Diff`, whatever the order in which the maps hand out their entries. */
  method Diff(cur: PodCounters, prev: PodCounters) returns (out: Counters)
    ensures IsDiff(out, cur, prev, cur.Keys)
  {
    out := map[];
    var todo := cur.Keys;
    ghost var done: set<string> := {};
    while todo != {}
      invariant done == cur.Keys - todo && todo <= cur.Keys
      invariant IsDiff(out, cur, prev, done)
      decreases todo
    {
      var pod :| pod in todo;
      ghost var before := out;
      out := AddGrowth(out, cur[pod], Pod(prev, pod));
      PodAdded(before, out, cur, prev, done, pod);
      todo, done := todo - {pod}, done + {pod};
    }
    assert done == cur.Keys;
  }

  lemma FromNothing(cur: PodCounters, k: string)
    ensures Sum(cur.Keys, Contributions(cur, map[], k)) == Sum(cur.Keys, Values(cur, k))
  {
    SumBump(cur.Keys, k, Values(cur, k), Contributions(cur, map[], k));
  }

  /** `Total`: the sum over the pods, and the same as a difference from nothing. */
  method Total(cur: PodCounters) returns (out: Counters)
    ensures IsDiff(out, cur, map[], cur.Keys)
    ensures forall k :: k in out ==> out[k] == Sum(cur.Keys, Values(cur, k))
  {
    out := map[];
    var todo := cur.Keys;
    ghost var done: set<string> := {};
    while todo != {}
      invariant done == cur.Keys - todo && todo <= cur.Keys
      invariant IsDiff(out, cur, map[], done)
      decreases todo
    {
      var pod :| pod in todo;
      ghost var before := out;
      out := AddValues(out, cur[pod]);
      PodAdded(before, out, cur, map[], done, pod);
      todo, done := todo - {pod}, done + {pod};
    }
    assert done == cur.Keys;
    forall k | k in out ensures out[k] == Sum(cur.Keys, Values(cur, k)) {
      assert Entry(out, cur, map[], cur.Keys, k);
      FromNothing(cur, k);
    }
  }

  // ---- what happened in the window -----------------------------------------------------------

  datatype Event =
    | Inc(pod: string, controller: string)
    | Register(pod: string, controller: string)
    | Restart(pod: string)
    | Start(pod: string)
    | Stop(pod: string)

  predicate Possible(c: PodCounters, e: Event) { e.Start? <==> e.pod !in c }

  /** Counters appear at zero, grow by one, and start over when their pod's process does. */
  function Happen(c: PodCounters, e: Event): PodCounters
    requires Possible(c, e)
  {
    match e
    case Inc(p, k) => c[p := c[p][k := At(c, p, k) + 1]]
    case Register(p, k) => c[p := c[p][k := At(c, p, k)]]
    case Restart(p) => c[p := map[]]
    case Start(p) => c[p := map[]]
    case Stop(p) => c - {p}
  }

  /** A history from one state of all pods to another. */
  ghost predicate History(start: PodCounters, events: seq<Event>, end: PodCounters)
    decreases |events|
  {
    if events == [] then start == end
    else
      var last := |events| - 1;
      exists mid ::
        History(start, events[..last], mid) && Possible(mid, events[last]) && end == Happen(mid, events[last])
  }

  function One(e: Event, p: string, k: string): int { if e == Inc(p, k) then 1 else 0 }

  function Incs(events: seq<Event>, p: string, k: string): int {
    if events == [] then 0 else Incs(events[..|events| - 1], p, k) + One(events[|events| - 1], p, k)
  }

  predicate Resets(e: Event, p: string) { e == Restart(p) || e == Stop(p) }

  /** Increments after the pod's counters last started over. */
  function Since(events: seq<Event>, p: string, k: string): int {
    if events == [] || Resets(events[|events| - 1], p) then 0
    else Since(events[..|events| - 1], p, k) + One(events[|events| - 1], p, k)
  }

  /** The reconciles of one controller in the window, over all pods. */
  function Reconciles(events: seq<Event>, k: string): nat {
    if events == [] then 0
    else
      var e := events[|events| - 1];
      Reconciles(events[..|events| - 1], k) + if e.Inc? && e.controller == k then 1 else 0
  }

  function IncsOf(events: seq<Event>, k: string): string -> int { p => Incs(events, p, k) }

  predicate Broken(events: seq<Event>, p: string) { Restart(p) in events || Stop(p) in events }

  ghost predicate NonNegative(c: PodCounters) { forall p, k :: 0 <= At(c, p, k) }

  /** One step for one counter. */
  lemma OneStep(c: PodCounters, e: Event, p: string, k: string)
    requires Possible(c, e)
    ensures At(Happen(c, e), p, k) == if e == Restart(p) || e == Stop(p) then 0 else At(c, p, k) + One(e, p, k)
    ensures e != Stop(p) && (p in c || e.pod == p) ==> p in Happen(c, e)
  {
  }

  /** One pod's counter: the start value plus the increments if the pod was never reset, and the
      increments since the last reset if it was. */
  lemma {:induction false} OnePod(start: PodCounters, events: seq<Event>, end: PodCounters, p: string, k: string)
    requires History(start, events, end) && NonNegative(start)
    ensures 0 <= At(end, p, k) && 0 <= Since(events, p, k) <= Incs(events, p, k)
    ensures Broken(events, p) ==> At(end, p, k) == Since(events, p, k)
    ensures !Broken(events, p) ==> At(end, p, k) == At(start, p, k) + Incs(events, p, k)
    decreases |events|
  {
    if events == [] {
    } else {
      var last := |events| - 1;
      var mid :| History(start, events[..last], mid) && Possible(mid, events[last]) && end == Happen(mid, events[last]);
      OnePod(start, events[..last], mid, p, k);
      OneStep(mid, events[last], p, k);
      assert events == events[..last] + [events[last]];
      assert Broken(events, p) <==> Broken(events[..last], p) || Resets(events[last], p);
    }
  }

  /** Increments summed pod by pod: all of them if every pod that incremented is counted. */
  lemma {:induction false} IncsSum(pods: set<string>, events: seq<Event>, k: string)
    ensures Sum(pods, IncsOf(events, k)) <= Reconciles(events, k)
    ensures (forall e :: e in events && e.Inc? && e.controller == k ==> e.pod in pods) ==>
              Sum(pods, IncsOf(events, k)) == Reconciles(events, k)
    decreases |events|
  {
    if events == [] {
      SumZero(pods, IncsOf(events, k));
    } else {
      var init, e := events[..|events| - 1], events[|events| - 1];
      IncsSum(pods, init, k);
      assert events == init + [e];
      SumBump(pods, e.pod, IncsOf(init, k), IncsOf(events, k));
    }
  }

  /** Pods scraped at the end of the window; a scrape may miss some. */
  ghost predicate Scraped(cur: PodCounters, end: PodCounters) { forall p :: p in cur ==> p in end && cur[p] == end[p] }

  /** Differences never over-report: for every history and every scrape of its end, against a
      baseline that holds every pod running at its start. */
  lemma NeverOverReports(prev: PodCounters, events: seq<Event>, end: PodCounters, cur: PodCounters, out: Counters,
      k: string)
    requires History(prev, events, end) && NonNegative(prev) && Scraped(cur, end)
    requires IsDiff(out, cur, prev, cur.Keys) && k in out
    ensures 0 <= out[k] <= Reconciles(events, k)
  {
    var f, g := Contributions(cur, prev, k), IncsOf(events, k);
    assert Entry(out, cur, prev, cur.Keys, k);
    forall p ensures 0 <= f(p) <= g(p) { OnePodExact(prev, events, end, cur, p, k); }
    SumTight(cur.Keys, f, g);
    SumZero(cur.Keys, _ => 0);
    SumTight(cur.Keys, _ => 0, f);
    IncsSum(cur.Keys, events, k);
  }

  /** Nothing of this pod's increments is missing from the difference: a pod that the scrape has
      either was not reset, or was reset before its first increment in the window and has not come
      up to its old count again; any other pod did not increment. */
  ghost predicate LosesNothing(prev: PodCounters, events: seq<Event>, cur: PodCounters, p: string, k: string) {
    if p in cur then
      Broken(events, p) ==>
        && Since(events, p, k) == Incs(events, p, k)
        && (At(prev, p, k) == 0 || Since(events, p, k) < At(prev, p, k))
    else Incs(events, p, k) == 0
  }

  /** What one pod adds is at most its increments, and all of them exactly when it loses nothing. */
  lemma OnePodExact(prev: PodCounters, events: seq<Event>, end: PodCounters, cur: PodCounters, p: string, k: string)
    requires History(prev, events, end) && NonNegative(prev) && Scraped(cur, end)
    ensures 0 <= Contributions(cur, prev, k)(p) <= Incs(events, p, k)
    ensures Contributions(cur, prev, k)(p) == Incs(events, p, k) <==> LosesNothing(prev, events, cur, p, k)
  {
    OnePod(prev, events, end, p, k);
    assert 0 <= At(prev, p, k);
    assert p in cur ==> Contributions(cur, prev, k)(p) == Delta(At(end, p, k), At(prev, p, k));
  }

  /** Sums of bounded terms are equal exactly when the terms are. */
  lemma {:induction false} SumTight(pods: set<string>, f: string -> int, g: string -> int)
    requires forall p :: p in pods ==> f(p) <= g(p)
    ensures Sum(pods, f) <= Sum(pods, g)
    ensures Sum(pods, f) == Sum(pods, g) <==> forall p :: p in pods ==> f(p) == g(p)
    decreases pods
  {
    if pods == {} {
    } else {
      var p :| p in pods;
      SumPick(pods, p, f);
      SumPick(pods, p, g);
      SumTight(pods - {p}, f, g);
      assert (forall q :: q in pods ==> f(q) == g(q)) <==>
             f(p) == g(p) && forall q :: q in pods - {p} ==> f(q) == g(q);
    }
  }

  /** Terms that are zero do not matter. */
  lemma {:induction false} SumOutside(pods: set<string>, more: set<string>, f: string -> int)
    requires pods <= more && forall p :: p in more - pods ==> f(p) == 0
    ensures Sum(pods, f) == Sum(more, f)
    decreases more - pods
  {
    if more != pods {
      var p :| p in more && p !in pods;
      assert p in more - pods;
      SumPick(more, p, f);
      SumOutside(pods, more - {p}, f);
    }
  }

  lemma {:induction false} NeverIncremented(events: seq<Event>, p: string, k: string)
    requires forall e :: e in events ==> e.pod != p
    ensures Incs(events, p, k) == 0
    decreases |events|
  {
    if events == [] {
    } else {
      assert events[|events| - 1] in events;
      NeverIncremented(events[..|events| - 1], p, k);
    }
  }

  /** Exactness, for every history and every scrape of its end: the difference counts all reconciles
      of the window exactly when no pod loses any. A controller that is not reported counts as
      zero. */
  lemma ExactIff(prev: PodCounters, events: seq<Event>, end: PodCounters, cur: PodCounters, out: Counters, k: string)
    requires History(prev, events, end) && NonNegative(prev) && Scraped(cur, end)
    requires IsDiff(out, cur, prev, cur.Keys)
    ensures Get(out, k) == Reconciles(events, k) <==> forall p :: LosesNothing(prev, events, cur, p, k)
  {
    var f, g := Contributions(cur, prev, k), IncsOf(events, k);
    var all := cur.Keys + set e | e in events :: e.pod;
    assert Entry(out, cur, prev, cur.Keys, k);
    if k !in out { NothingReported(cur, prev, cur.Keys, k); }
    forall p ensures 0 <= f(p) <= g(p) && (f(p) == g(p) <==> LosesNothing(prev, events, cur, p, k)) {
      OnePodExact(prev, events, end, cur, p, k);
    }
    SumOutside(cur.Keys, all, f);
    IncsSum(all, events, k);
    SumTight(all, f, g);
    forall p | p !in all ensures LosesNothing(prev, events, cur, p, k) { NeverIncremented(events, p, k); }
  }

  /** So it is exact when no pod was reset or disappeared and the scrape missed none. */
  lemma ExactWithoutResets(prev: PodCounters, events: seq<Event>, end: PodCounters, out: Counters, k: string)
    requires History(prev, events, end) && NonNegative(prev)
    requires forall e :: e in events ==> !e.Restart? && !e.Stop?
    requires IsDiff(out, end, prev, end.Keys)
    ensures Get(out, k) == Reconciles(events, k)
  {
    forall p ensures LosesNothing(prev, events, end, p, k) {
      if p !in end {
        if e :| e in events && e.pod == p { IncrementedStays(prev, events, end, p); }
        NeverIncremented(events, p, k);
      }
    }
    ExactIff(prev, events, end, end, out, k);
  }

  lemma {:induction false} IncrementedStays(start: PodCounters, events: seq<Event>, end: PodCounters, p: string)
    requires History(start, events, end) && !Broken(events, p)
    requires exists e :: e in events && e.pod == p
    ensures p in end
    decreases |events|
  {
    var last := |events| - 1;
    var mid :| History(start, events[..last], mid) && Possible(mid, events[last]) && end == Happen(mid, events[last]);
    assert events == events[..last] + [events[last]];
    if events[last].pod != p {
      var e :| e in events && e.pod == p;
      assert e in events[..last];
      IncrementedStays(start, events[..last], mid, p);
    }
  }

  /** A restart can hide reconciles: the counter comes up to its old value again. */
  lemma RestartHides(p: string, k: string) returns (events: seq<Event>, end: PodCounters)
    ensures History(map[p := map[k := 1]], events, end) && Reconciles(events, k) == 2
    ensures Sum(end.Keys, Contributions(end, map[p := map[k := 1]], k)) == 1
  {
    var c0: PodCounters := map[p := map[k := 1]];
    var e1, c1 := Extend(c0, [], c0, Restart(p), k);
    var e2, c2 := Extend(c0, e1, c1, Inc(p, k), k);
    events, end := Extend(c0, e2, c2, Inc(p, k), k);
    OneStep(c0, Restart(p), p, k);
    OneStep(c1, Inc(p, k), p, k);
    OneStep(c2, Inc(p, k), p, k);
    assert At(c0, p, k) == 1 && At(c2, p, k) == 1;
    assert At(end, p, k) == 2;
    OnePodSum(end, c0, p, k);
  }

  lemma OnePodSum(cur: PodCounters, prev: PodCounters, p: string, k: string)
    requires cur.Keys == {p} && At(prev, p, k) < At(cur, p, k) && k in cur[p]
    ensures Sum(cur.Keys, Contributions(cur, prev, k)) == At(cur, p, k) - At(prev, p, k)
  {
    SumAdd({}, p, Contributions(cur, prev, k));
    assert cur.Keys == {} + {p};
  }

  lemma Extend(start: PodCounters, events: seq<Event>, mid: PodCounters, e: Event, k: string)
      returns (events': seq<Event>, end: PodCounters)
    requires History(start, events, mid) && Possible(mid, e)
    ensures History(start, events', end) && end == Happen(mid, e) && events' == events + [e]
    ensures Reconciles(events', k) == Reconciles(events, k) + if e.Inc? && e.controller == k then 1 else 0
  {
    events', end := events + [e], Happen(mid, e);
    assert events'[..|events|] == events;
  }
}
