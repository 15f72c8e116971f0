/** The four-patch trigger of a Cluster API in-place update, interleaved patch by patch with the
    machine controller that completes it. */
module Trigger {
  import opened Prelude
  import opened HookList

  /** A Machine with the objects it points at, as stored: the in-progress mark on each of the
      three, the hooks its pending-hooks annotation lists (HookList reads and writes that text) and
      its version. */
  datatype Objects = Objects(latch: bool, infra: bool, boot: bool, hooks: set<string>, version: string) {
    predicate Pending() { UPDATE_MACHINE in hooks }
    predicate Marked() { latch && infra && boot }
    /** What a trigger still has to write. */
    function Missing(): nat {
      (if latch then 0 else 1) + (if infra then 0 else 1) + (if boot then 0 else 1) + (if Pending() then 0 else 1)
    }
  }

  /** `machinesToCompleteTrigger` for one Machine. */
  predicate Interrupted(o: Objects) { o.latch && !o.Pending() }

  datatype Patch = Latch | Infra | Boot | Hook

  const ORDER: seq<Patch> := [Latch, Infra, Boot, Hook]

  predicate Has(o: Objects, p: Patch) {
    match p case Latch => o.latch case Infra => o.infra case Boot => o.boot case Hook => o.Pending()
  }

  /** A trigger in flight: its own copies of the objects, the version it asks for, and the index
      of the patch it looks at next. */
  datatype Call = Call(local: Objects, desired: string, next: nat)

  /** The merge patch that brings the mark of the local copy to the stored objects. The hook list
      is replaced by the one computed from the local copy, and the version rides along if the copy
      did not show it yet. */
  function Write(stored: Objects, c: Call, p: Patch): Objects {
    match p
    case Latch => stored.(latch := true)
    case Infra => stored.(infra := true)
    case Boot => stored.(boot := true)
    case Hook =>
      stored.(hooks := c.local.hooks + {UPDATE_MACHINE},
              version := if c.local.version == c.desired then stored.version else c.desired)
  }

  /** A patch answered with success leaves the local copy of the patched object as the server has
      it, with whatever others wrote there in the meantime. */
  function Refresh(local: Objects, stored: Objects, p: Patch): Objects {
    match p
    case Infra => local.(infra := stored.infra)
    case Boot => local.(boot := stored.boot)
    case _ => local.(latch := stored.latch, hooks := stored.hooks, version := stored.version)
  }

  /** One patch of `triggerCAPIInplaceVersionUpdate`: skipped when the local copy carries it,
      otherwise sent. A refused or lost patch ends the call. */
  function PatchStep(stored: Objects, c: Call, reply: Reply): (Objects, Option<Call>)
    requires c.next < 4
  {
    var p := ORDER[c.next];
    if Has(c.local, p) then (stored, Some(c.(next := c.next + 1)))
    else
      var stored' := if reply.Landed() then Write(stored, c, p) else stored;
      (stored', if reply.Done? then Some(Call(Refresh(c.local, stored', p), c.desired, c.next + 1)) else None)
  }

  /** The machine controller's completion: the marks it has cleared so far. */
  datatype State = State(
    stored: Objects,
    call: Option<Call>,
    cleared: set<Patch>,
    /** history: the latch was written by a trigger that has not written the hook since */
    unfinished: bool,
    /** history: somebody else wrote the version since the trigger in flight got its Machine copy */
    rewritten: bool)

  datatype Label =
    /** The Machine copy is read from the API server; the infra machine and the config come from
        the informer cache and show their marks as they are or as they were. */
    | Begin(desired: string, infra: bool, boot: bool)
    | Send(reply: Reply)
    | Return
    | Clear(mark: Patch)
    | Complete
    | OtherHooks(hooks: set<string>)
    | OtherVersion(version: string)

  predicate Enabled(s: State, l: Label) {
    match l
    case Begin(_, _, _) => s.call.None?
    case Send(_) => s.call.Some? && s.call.value.next < 4
    case Return => s.call.Some? && s.call.value.next == 4
    // the machine controller clears marks only while the hook is pending, and the hook last
    case Clear(m) => m != Hook && s.stored.Pending()
    case Complete => s.cleared == {Latch, Infra, Boot} && s.stored.Pending()
    // other controllers keep their own hooks in the same list
    case OtherHooks(hooks) => (UPDATE_MACHINE in hooks) == s.stored.Pending()
    // a background updater records versions on the same Machine
    case OtherVersion(_) => true
  }

  function Erase(o: Objects, m: Patch): Objects {
    match m
    case Latch => o.(latch := false)
    case Infra => o.(infra := false)
    case Boot => o.(boot := false)
    case Hook => o.(hooks := o.hooks - {UPDATE_MACHINE})
  }

  /** The copies a trigger starts from. */
  function Copies(o: Objects, infra: bool, boot: bool): Objects { o.(infra := infra, boot := boot) }

  function Apply(s: State, l: Label): State
    requires Enabled(s, l)
  {
    match l
    case Begin(desired, infra, boot) =>
      s.(call := Some(Call(Copies(s.stored, infra, boot), desired, 0)), rewritten := false)
    case Send(reply) =>
      var c := s.call.value;
      var p := ORDER[c.next];
      var (stored, call) := PatchStep(s.stored, c, reply);
      var wrote := !Has(c.local, p) && reply.Landed();
      State(stored, call, s.cleared,
            if wrote && p == Latch then true else if wrote && p == Hook then false else s.unfinished,
            s.rewritten && !(wrote && p == Latch))
    case Return => s.(call := None)
    case Clear(m) => s.(stored := Erase(s.stored, m), cleared := s.cleared + {m})
    case Complete => s.(stored := Erase(s.stored, Hook), cleared := {})
    case OtherHooks(hooks) => s.(stored := s.stored.(hooks := hooks))
    case OtherVersion(v) => s.(stored := s.stored.(version := v), rewritten := true)
  }

  ghost predicate Init(s: State) {
    && !s.stored.latch && !s.stored.infra && !s.stored.boot && !s.stored.Pending()
    && s.call.None? && s.cleared == {} && !s.unfinished && !s.rewritten
  }

  /** States joined by enabled labels. */
  ghost predicate Steps(ss: seq<State>, ls: seq<Label>) {
    && |ss| == |ls| + 1
    && forall i :: 0 <= i < |ls| ==> Enabled(ss[i], ls[i]) && ss[i + 1] == Apply(ss[i], ls[i])
  }

  ghost predicate IsRun(ss: seq<State>, ls: seq<Label>) { Steps(ss, ls) && Init(ss[0]) }

  // ---- what every run keeps -----------------------------------------------------------------

  /** The step makes the hook pending. */
  predicate TurnsOn(s: State, s': State) { !s.stored.Pending() && s'.stored.Pending() }

  /** Without the hook in its Machine copy a trigger has nobody else to make it pending, and the copy
      shows the stored version unless somebody else wrote it. */
  predicate CopyOk(s: State, c: Call) {
    && c.next <= 4
    && (c.next <= 3 && !c.local.Pending() ==> !s.stored.Pending())
    && (c.next <= 3 && !s.rewritten ==> c.local.version == s.stored.version)
  }

  ghost predicate Base(s: State) {
    && Hook !in s.cleared
    && (s.cleared != {} ==> s.stored.Pending())
    && (s.stored.latch && !s.unfinished ==> s.stored.Pending() && Latch !in s.cleared)
    && (s.call.Some? ==> CopyOk(s, s.call.value))
  }

  lemma StepKeepsBase(s: State, l: Label)
    requires Base(s) && Enabled(s, l)
    ensures Base(Apply(s, l))
  {
  }

  lemma {:induction false} RunKeepsBase(ss: seq<State>, ls: seq<Label>, i: nat)
    requires IsRun(ss, ls) && i < |ss|
    ensures Base(ss[i])
  {
    if i == 0 {
    } else {
      RunKeepsBase(ss, ls, i - 1);
      StepKeepsBase(ss[i - 1], ls[i - 1]);
    }
  }

  /** The hook is made pending by a hook patch only, with the desired version exactly unless the copy
      already showed it while another is stored, which takes another writer since the copy was made;
      and a trigger moves the version at no other moment. */
  ghost predicate Orderly(s: State, l: Label, s': State) {
    && (TurnsOn(s, s') ==>
          && l.Send? && s.call.Some? && s.call.value.next == 3
          && var c := s.call.value;
          && (s'.stored.version == c.desired <==> c.local.version != c.desired || s.stored.version == c.desired)
          && (s'.stored.version == c.desired || s.rewritten))
    && (s.stored.version != s'.stored.version ==> l.OtherVersion? || TurnsOn(s, s'))
  }

  lemma StepOrderly(s: State, l: Label)
    requires Base(s) && Enabled(s, l)
    ensures Orderly(s, l, Apply(s, l))
  {
  }

  /** Trigger protocol, over every run with failures at any patch, completion and other writers
      interleaved anywhere, and starts from any copies: the hook becomes pending only in a trigger's
      hook patch and with the desired version, unless somebody else wrote the version meanwhile; a
      trigger moves the version at no other moment; and a Machine taken for one whose trigger was
      interrupted is neither being completed nor without an unfinished trigger. */
  lemma TriggerSafety(ss: seq<State>, ls: seq<Label>)
    requires IsRun(ss, ls)
    ensures forall i :: 0 <= i < |ls| ==> Orderly(ss[i], ls[i], ss[i + 1])
    ensures forall i :: 0 <= i < |ss| && Interrupted(ss[i].stored) ==> ss[i].unfinished && ss[i].cleared == {}
  {
    forall i | 0 <= i < |ss| ensures Base(ss[i]) { RunKeepsBase(ss, ls, i); }
    forall i | 0 <= i < |ls| ensures Orderly(ss[i], ls[i], ss[i + 1]) { StepOrderly(ss[i], ls[i]); }
  }

  // ---- the three marks ------------------------------------------------------------------------

  /** The marks a trigger at this point has behind it. */
  predicate Behind(c: Call) {
    c.next <= 4 && forall i :: 0 <= i < c.next ==> Has(c.local, ORDER[i])
  }

  /** Without the hook anywhere, no copy shows a mark that is not there. */
  predicate Covered(stored: Objects, c: Call) {
    && !stored.Pending() && c.local.latch == stored.latch
    && (c.local.infra ==> stored.infra) && (c.local.boot ==> stored.boot)
  }

  /** The starts from which a trigger keeps the order, whatever happens to it. Without the hook the
      other two copies must not show marks that are gone. With it and the latch nothing is left to
      send for the Machine. With the hook but no latch, completion is on its way and the copies of
      the other two must not show marks at all. */
  predicate SafeStart(o: Objects, infra: bool, boot: bool) {
    if o.Pending() then o.latch || (!infra && !boot)
    else (infra ==> o.infra) && (boot ==> o.boot)
  }

  predicate StartsSafely(s: State, l: Label) { l.Begin? ==> SafeStart(s.stored, l.infra, l.boot) }

  ghost predicate CallOk(stored: Objects, c: Call) {
    && Behind(c)
    && (c.next < 4 && !c.local.Pending() ==> Covered(stored, c))
    && (c.next == 0 && c.local.Pending() ==> c.local.latch || (!c.local.infra && !c.local.boot))
  }

  ghost predicate Inv(s: State) { s.call.Some? ==> CallOk(s.stored, s.call.value) }

  lemma SendKeepsCallOk(stored: Objects, c: Call, reply: Reply)
    requires c.next < 4 && CallOk(stored, c)
    ensures var (stored', c') := PatchStep(stored, c, reply);
            c'.Some? ==> CallOk(stored', c'.value)
  {
    var (stored', c') := PatchStep(stored, c, reply);
    if c'.Some? {
      forall i | 0 <= i < c'.value.next ensures Has(c'.value.local, ORDER[i]) {
        if i < c.next { assert Has(c.local, ORDER[i]); }
      }
    }
  }

  lemma StepKeepsInv(s: State, l: Label)
    requires Inv(s) && Enabled(s, l) && StartsSafely(s, l)
    ensures Inv(Apply(s, l))
  {
    match l
    case Send(reply) => SendKeepsCallOk(s.stored, s.call.value, reply);
    case _ =>
  }

  lemma {:induction false} RunKeepsInv(ss: seq<State>, ls: seq<Label>, i: nat)
    requires IsRun(ss, ls) && i < |ss| && forall j :: 0 <= j < |ls| ==> StartsSafely(ss[j], ls[j])
    ensures Inv(ss[i])
  {
    if i == 0 {
    } else {
      RunKeepsInv(ss, ls, i - 1);
      StepKeepsInv(ss[i - 1], ls[i - 1]);
    }
  }

  ghost predicate HookLast(s: State, s': State) { TurnsOn(s, s') ==> s'.stored.Marked() }

  lemma StepHookLast(s: State, l: Label)
    requires Inv(s) && Enabled(s, l)
    ensures HookLast(s, Apply(s, l))
  {
    match l
    case Send(reply) =>
      var c := s.call.value;
      if ORDER[c.next] == Hook {
        assert Has(c.local, ORDER[0]) && Has(c.local, ORDER[1]) && Has(c.local, ORDER[2]);
      }
    case _ =>
  }

  /** Over every such run with safe starts the hook becomes pending only over three marked objects. */
  lemma HookOverMarks(ss: seq<State>, ls: seq<Label>)
    requires IsRun(ss, ls) && forall j :: 0 <= j < |ls| ==> StartsSafely(ss[j], ls[j])
    ensures forall i :: 0 <= i < |ls| ==> HookLast(ss[i], ss[i + 1])
  {
    forall i | 0 <= i < |ls| ensures HookLast(ss[i], ss[i + 1]) {
      RunKeepsInv(ss, ls, i);
      StepHookLast(ss[i], ls[i]);
    }
  }

  /** The history flag means what it says: it is raised only by a latch patch of a trigger and
      lowered only by a hook patch. */
  lemma UnfinishedHistory(s: State, l: Label)
    requires Enabled(s, l) && Apply(s, l).unfinished != s.unfinished
    ensures l.Send? && l.reply.Landed() && !Has(s.call.value.local, ORDER[s.call.value.next])
    ensures Apply(s, l).unfinished ==> ORDER[s.call.value.next] == Latch && Apply(s, l).stored.latch
    ensures !Apply(s, l).unfinished ==> ORDER[s.call.value.next] == Hook
  {
  }

  // ---- unsafe starts ---------------------------------------------------------------------------

  lemma Extend(ss0: seq<State>, ls0: seq<Label>, l: Label) returns (ss: seq<State>, ls: seq<Label>)
    requires Steps(ss0, ls0) && Enabled(ss0[|ls0|], l)
    ensures Steps(ss, ls) && ls == ls0 + [l] && ss == ss0 + [Apply(ss0[|ls0|], l)]
    ensures ss[0] == ss0[0] && ss[|ls|] == Apply(ss0[|ls0|], l)
  {
    ss, ls := ss0 + [Apply(ss0[|ls0|], l)], ls0 + [l];
  }

  /** A run that ends with the hook made pending over an object without its mark. */
  ghost predicate BreaksOrder(ss: seq<State>, ls: seq<Label>) {
    Steps(ss, ls) && ls != [] && TurnsOn(ss[|ls| - 1], ss[|ls|]) && !ss[|ls|].stored.Marked()
  }

  /** A copy shows a mark that is not stored. */
  predicate FalseMark(o: Objects, local: Objects) { (local.infra && !o.infra) || (local.boot && !o.boot) }

  /** A call at this patch, past the latch, that shows such a mark. */
  predicate Misled(s: State, k: nat) {
    && s.call.Some? && s.call.value.next == k && !s.call.value.local.Pending() && !s.stored.Pending()
    && FalseMark(s.stored, s.call.value.local)
  }

  lemma MisledOn(s: State, k: nat)
    requires Misled(s, k) && 1 <= k <= 2
    ensures Misled(Apply(s, Send(Done)), k + 1)
  {
  }

  /** A call that shows a mark which is not stored runs into the hook patch. */
  lemma FalseMarkBreaksOrder(s: State) returns (ss: seq<State>, ls: seq<Label>)
    requires s.call.Some? && s.call.value.next == 0 && !s.stored.Pending()
    requires s.call.value.local.Pending() ==> !s.call.value.local.latch
    requires FalseMark(s.stored, s.call.value.local)
    ensures BreaksOrder(ss, ls) && ss[0] == s && forall i :: 0 <= i < |ls| ==> ls[i] == Send(Done)
  {
    ss, ls := Extend([s], [], Send(Done));
    assert Misled(ss[1], 1);
    MisledOn(ss[1], 1);
    ss, ls := Extend(ss, ls, Send(Done));
    MisledOn(ss[2], 2);
    ss, ls := Extend(ss, ls, Send(Done));
    ss, ls := Extend(ss, ls, Send(Done));
  }

  /** Completion runs to its end past a call that has not sent anything. */
  lemma CompletionOvertakes(s: State) returns (ss: seq<State>, ls: seq<Label>)
    requires s.call.Some? && s.stored.Pending() && Hook !in s.cleared
    ensures Steps(ss, ls) && ss[0] == s && forall i :: 0 <= i < |ls| ==> ls[i].Clear? || ls[i].Complete?
    ensures var s' := ss[|ls|];
            s'.call == s.call && !s'.stored.Pending() && !s'.stored.infra && !s'.stored.boot
  {
    ss, ls := [s], [];
    ss, ls := Extend(ss, ls, Clear(Latch));
    ss, ls := Extend(ss, ls, Clear(Infra));
    ss, ls := Extend(ss, ls, Clear(Boot));
    assert ss[3].cleared == {Latch, Infra, Boot} by {
      assert forall m :: m in ss[3].cleared <==> m != Hook;
    }
    ss, ls := Extend(ss, ls, Complete);
  }

  lemma Concat(ss0: seq<State>, ls0: seq<Label>, ss1: seq<State>, ls1: seq<Label>)
      returns (ss: seq<State>, ls: seq<Label>)
    requires Steps(ss0, ls0) && Steps(ss1, ls1) && ss0[|ls0|] == ss1[0]
    ensures Steps(ss, ls) && ls == ls0 + ls1 && ss == ss0 + ss1[1..]
    ensures ss[0] == ss0[0] && ss[|ls|] == ss1[|ls1|]
    ensures BreaksOrder(ss1, ls1) ==> BreaksOrder(ss, ls)
  {
    ss, ls := ss0 + ss1[1..], ls0 + ls1;
    forall i | 0 <= i < |ls| ensures Enabled(ss[i], ls[i]) && ss[i + 1] == Apply(ss[i], ls[i]) {
      if i >= |ls0| {
        assert ls[i] == ls1[i - |ls0|] && ss[i] == ss1[i - |ls0|] && ss[i + 1] == ss1[i - |ls0| + 1];
      }
    }
    if ls1 != [] { assert ss[|ls| - 1] == ss1[|ls1| - 1]; }
  }

  /** The condition on starts is exact: after every run that leaves no trigger in flight, every start
      outside it has a continuation, with no further start, that makes the hook pending over an
      object without its mark. */
  lemma UnsafeStart(ss0: seq<State>, ls0: seq<Label>, desired: string, infra: bool, boot: bool)
      returns (ss: seq<State>, ls: seq<Label>)
    requires IsRun(ss0, ls0) && ss0[|ls0|].call.None? && !SafeStart(ss0[|ls0|].stored, infra, boot)
    ensures IsRun(ss, ls) && BreaksOrder(ss, ls)
    ensures |ls0| < |ls| && ls[..|ls0|] == ls0 && ss[..|ss0|] == ss0 && ls[|ls0|] == Begin(desired, infra, boot)
    ensures forall i :: |ls0| < i < |ls| ==> !ls[i].Begin?
  {
    RunKeepsBase(ss0, ls0, |ls0|);
    ss, ls := Extend(ss0, ls0, Begin(desired, infra, boot));
    if ss0[|ls0|].stored.Pending() {
      var ss1, ls1 := CompletionOvertakes(ss[|ls|]);
      ss, ls := Concat(ss, ls, ss1, ls1);
    }
    var ss2, ls2 := FalseMarkBreaksOrder(ss[|ls|]);
    ss, ls := Concat(ss, ls, ss2, ls2);
  }

  /** One start of that kind: an infra machine whose cached copy still carries the mark of an update
      that is over. */
  lemma StaleCopyMisleads(v: string, w: string) returns (ss: seq<State>, ls: seq<Label>)
    ensures IsRun(ss, ls) && BreaksOrder(ss, ls) && ls[0] == Begin(w, true, false)
  {
    ss, ls := UnsafeStart([Fresh(v)], [], w, true, false);
  }

  function Fresh(v: string): State { State(Objects(false, false, false, {}, v), None, {}, false, false) }

  /** And the version: a background updater that records another one while a trigger is under way
      whose copy already shows the wanted one makes the hook pending with that other version. */
  lemma RecordedVersionStays(v: string, w: string) returns (ss: seq<State>, ls: seq<Label>)
    requires v != w
    ensures IsRun(ss, ls) && |ls| == 6 && ls[0] == Begin(v, false, false)
    ensures TurnsOn(ss[5], ss[6]) && ss[6].stored.version == w
  {
    ss, ls := Extend([Fresh(v)], [], Begin(v, false, false));
    ss, ls := Extend(ss, ls, Send(Done));
    ss, ls := Extend(ss, ls, Send(Done));
    ss, ls := Extend(ss, ls, Send(Done));
    assert ss[4].call.value.next == 3 && ss[4].call.value.local.version == v && !ss[4].call.value.local.Pending();
    ss, ls := Extend(ss, ls, OtherVersion(w));
    ss, ls := Extend(ss, ls, Send(Done));
  }

  /** A first trigger of a Machine, and the first mark cleared after it. */
  lemma FinishingRun(v: string) returns (ss: seq<State>, ls: seq<Label>)
    ensures IsRun(ss, ls) && forall i :: 0 <= i < |ls| ==> StartsSafely(ss[i], ls[i])
    ensures ss[|ls|] == State(Objects(false, true, true, {UPDATE_MACHINE}, v), None, {Latch}, false, false)
  {
    ss, ls := Extend([Fresh(v)], [], Begin(v, false, false));
    ss, ls := Extend(ss, ls, Send(Done));
    ss, ls := Extend(ss, ls, Send(Done));
    ss, ls := Extend(ss, ls, Send(Done));
    var marked := Objects(true, true, true, {}, v);
    assert ss[|ls|] == State(marked, Some(Call(marked, v, 3)), {}, true, false);
    ss, ls := Extend(ss, ls, Send(Done));
    ss, ls := Extend(ss, ls, Return);
    assert {} + {UPDATE_MACHINE} == {UPDATE_MACHINE} && {} + {Latch} == {Latch};
    ss, ls := Extend(ss, ls, Clear(Latch));
  }

  /** Another: a Machine whose last update is being completed, with copies that are up to date. */
  lemma RetriggerWhileFinishing(v: string, w: string) returns (ss: seq<State>, ls: seq<Label>)
    ensures IsRun(ss, ls) && BreaksOrder(ss, ls)
    ensures exists i :: 0 <= i < |ls| && ls[i] == Begin(w, true, true) && ss[i].stored.infra && ss[i].stored.boot
  {
    var ss0, ls0 := FinishingRun(v);
    ss, ls := UnsafeStart(ss0, ls0, w, true, true);
    assert ss[|ls0|] == ss0[|ls0|];
  }

  // ---- running a trigger to its end -----------------------------------------------------------

  /** The rest of a call with nobody else in between; `replies` answers the patch at each index. */
  function Finish(stored: Objects, c: Call, replies: seq<Reply>): (r: (Objects, bool))
    requires c.next <= 4 && |replies| == 4
    decreases 4 - c.next
  {
    if c.next == 4 then (stored, true)
    else
      var (stored', c') := PatchStep(stored, c, replies[c.next]);
      if c'.Some? then Finish(stored', c'.value, replies) else (stored', false)
  }

  function TriggerAll(o: Objects, infra: bool, boot: bool, desired: string, replies: seq<Reply>): (r: (Objects, bool))
    requires |replies| == 4
  {
    Finish(o, Call(Copies(o, infra, boot), desired, 0), replies)
  }

  predicate AllDone(replies: seq<Reply>) { forall i :: 0 <= i < |replies| ==> replies[i].Done? }

  /** Nothing already there is taken away. */
  predicate Grows(o: Objects, o': Objects) {
    (o.latch ==> o'.latch) && (o.infra ==> o'.infra) && (o.boot ==> o'.boot) && (o.Pending() ==> o'.Pending())
  }

  /** A call that is not disturbed: the Machine copy is exact, without the hook. */
  predicate Undisturbed(stored: Objects, c: Call) {
    && Behind(c) && !c.local.Pending() && !stored.Pending()
    && c.local.latch == stored.latch && c.local.version == stored.version
  }

  /** A patch that changes something leaves one of four things fewer to do, and what is there is
      not written anew. */
  lemma PatchDecreasesMissing(stored: Objects, c: Call, reply: Reply)
    requires c.next < 4 && Undisturbed(stored, c)
    ensures var (stored', c') := PatchStep(stored, c, reply);
            && Grows(stored, stored')
            && (stored' != stored ==> stored'.Missing() == stored.Missing() - 1 && !Has(stored, ORDER[c.next]))
            && (Has(stored, ORDER[c.next]) ==> stored' == stored)
            && (c'.Some? && c'.value.next < 4 ==> Undisturbed(stored', c'.value))
            && (c'.Some? ==> Has(stored', ORDER[c.next]) || Has(c.local, ORDER[c.next]))
            && (reply.Done? ==> c'.Some?)
  {
    var (stored', c') := PatchStep(stored, c, reply);
    if c'.Some? {
      forall i | 0 <= i < c'.value.next ensures Has(c'.value.local, ORDER[i]) {
        if i < c.next { assert Has(c.local, ORDER[i]); }
      }
    }
  }

  /** A mark that is still ahead ends up stored unless the copy wrongly shows it. */
  predicate Ends(before: bool, copy: bool, ahead: bool, after: bool) { after <==> before || (ahead && !copy) }

  lemma {:induction false} FinishCompletes(stored: Objects, c: Call, replies: seq<Reply>)
    requires c.next < 4 && |replies| == 4 && Undisturbed(stored, c)
    ensures var (o, ok) := Finish(stored, c, replies);
            && Grows(stored, o) && o.Missing() <= stored.Missing()
            && (AllDone(replies) ==> ok)
            && (ok ==> o.latch && o.Pending() && o.version == c.desired)
            && (ok ==> Ends(stored.infra, c.local.infra, c.next <= 1, o.infra))
            && (ok ==> Ends(stored.boot, c.local.boot, c.next <= 2, o.boot))
            && (!o.Pending() ==> o.version == stored.version)
    decreases 4 - c.next
  {
    PatchDecreasesMissing(stored, c, replies[c.next]);
    var (stored', c') := PatchStep(stored, c, replies[c.next]);
    if c'.Some? && c'.value.next < 4 {
      FinishCompletes(stored', c'.value, replies);
      assert ORDER[c.next] != Hook;
    } else if c'.Some? {
      assert Has(c.local, ORDER[0]);
    }
  }

  /** Recovery: from every state in which the hook is not pending, in particular an interrupted
      one, an undisturbed pass gets the hook and the version on, over three marks exactly when the
      two cached copies show no mark that is gone; a disturbed pass loses nothing and leaves the
      version alone unless it got the hook on. */
  lemma TriggerRecovers(o: Objects, infra: bool, boot: bool, desired: string, replies: seq<Reply>)
    requires |replies| == 4 && !o.Pending()
    ensures var (o', ok) := TriggerAll(o, infra, boot, desired, replies);
            && (AllDone(replies) ==> ok)
            && (ok ==> o'.latch && o'.Pending() && o'.version == desired)
            && (ok ==> (o'.Marked() <==> SafeStart(o, infra, boot)))
            && Grows(o, o') && o'.Missing() <= o.Missing() <= 4
            && (!o'.Pending() ==> o'.version == o.version)
  {
    FinishCompletes(o, Call(Copies(o, infra, boot), desired, 0), replies);
  }

  /** Every patch that the copies show as missing is answered well. */
  predicate AllAnswered(copies: Objects, replies: seq<Reply>)
    requires |replies| == 4
  {
    && (copies.latch || replies[0].Done?) && (copies.infra || replies[1].Done?)
    && (copies.boot || replies[2].Done?) && (copies.Pending() || replies[3].Done?)
  }

  lemma {:induction false} FinishOkIff(stored: Objects, c: Call, replies: seq<Reply>)
    requires c.next <= 4 && |replies| == 4 && c.local.hooks == stored.hooks
    ensures Finish(stored, c, replies).1 <==>
              forall i :: c.next <= i < 4 ==> Has(c.local, ORDER[i]) || replies[i].Done?
    decreases 4 - c.next
  {
    if c.next == 4 {
    } else {
      var (stored', c') := PatchStep(stored, c, replies[c.next]);
      if c'.Some? {
        PatchLeavesRest(stored, c, replies[c.next]);
        FinishOkIff(stored', c'.value, replies);
      }
    }
  }

  /** A patch does not change what the copies show of the patches ahead. */
  lemma PatchLeavesRest(stored: Objects, c: Call, reply: Reply)
    requires c.next < 4 && c.local.hooks == stored.hooks
    ensures var (stored', c') := PatchStep(stored, c, reply);
            c'.Some? ==>
              && c'.value.next == c.next + 1 && c'.value.local.hooks == stored'.hooks
              && forall i :: c.next < i < 4 ==> Has(c'.value.local, ORDER[i]) == Has(c.local, ORDER[i])
  {
    assert ORDER[0] == Latch && ORDER[1] == Infra && ORDER[2] == Boot && ORDER[3] == Hook;
  }

  /** An undisturbed trigger reports success exactly when every patch its copies show as missing is
      answered well. */
  lemma TriggerOkIff(o: Objects, infra: bool, boot: bool, desired: string, replies: seq<Reply>)
    requires |replies| == 4
    ensures TriggerAll(o, infra, boot, desired, replies).1 <==> AllAnswered(Copies(o, infra, boot), replies)
  {
    FinishOkIff(o, Call(Copies(o, infra, boot), desired, 0), replies);
    assert ORDER[0] == Latch && ORDER[1] == Infra && ORDER[2] == Boot && ORDER[3] == Hook;
  }

  /** An undisturbed trigger gets as far as this patch. */
  predicate Gets(copies: Objects, replies: seq<Reply>, k: nat)
    requires |replies| == 4 && k <= 3
  {
    && (k > 0 ==> copies.latch || replies[0].Done?) && (k > 1 ==> copies.infra || replies[1].Done?)
    && (k > 2 ==> copies.boot || replies[2].Done?)
  }

  /** What an undisturbed trigger leaves, whatever the answers: each mark that was there or was sent
      and landed, the hook added to the list likewise, and with it the desired version. */
  lemma TriggerTable(o: Objects, infra: bool, boot: bool, desired: string, replies: seq<Reply>)
    requires |replies| == 4
    ensures var o', copies := TriggerAll(o, infra, boot, desired, replies).0, Copies(o, infra, boot);
            var hooked := !o.Pending() && Gets(copies, replies, 3) && replies[3].Landed();
            && o'.latch == (o.latch || replies[0].Landed())
            && o'.infra == (o.infra || (!infra && Gets(copies, replies, 1) && replies[1].Landed()))
            && o'.boot == (o.boot || (!boot && Gets(copies, replies, 2) && replies[2].Landed()))
            && o'.hooks == (if hooked then o.hooks + {UPDATE_MACHINE} else o.hooks)
            && o'.version == (if hooked then desired else o.version)
  {
    assert ORDER[0] == Latch && ORDER[1] == Infra && ORDER[2] == Boot && ORDER[3] == Hook;
    var c0 := Call(Copies(o, infra, boot), desired, 0);
    var (o1, n1) := PatchStep(o, c0, replies[0]);
    assert Finish(o, c0, replies) == if n1.Some? then Finish(o1, n1.value, replies) else (o1, false);
    if n1.Some? {
      var (o2, n2) := PatchStep(o1, n1.value, replies[1]);
      assert Finish(o1, n1.value, replies) == if n2.Some? then Finish(o2, n2.value, replies) else (o2, false);
      if n2.Some? { LastTwo(o2, n2.value, replies); }
    }
  }

  lemma LastTwo(stored: Objects, c: Call, replies: seq<Reply>)
    requires c.next == 2 && |replies| == 4 && c.local.hooks == stored.hooks && c.local.version == stored.version
    ensures var o', hooked := Finish(stored, c, replies).0,
                              !stored.Pending() && (c.local.boot || replies[2].Done?) && replies[3].Landed();
            && o'.latch == stored.latch && o'.infra == stored.infra
            && o'.boot == (stored.boot || (!c.local.boot && replies[2].Landed()))
            && o'.hooks == (if hooked then stored.hooks + {UPDATE_MACHINE} else stored.hooks)
            && o'.version == (if hooked then c.desired else stored.version)
  {
    assert ORDER[2] == Boot && ORDER[3] == Hook;
    var (o3, n3) := PatchStep(stored, c, replies[2]);
    assert Finish(stored, c, replies) == if n3.Some? then Finish(o3, n3.value, replies) else (o3, false);
    if n3.Some? {
      var (o4, n4) := PatchStep(o3, n3.value, replies[3]);
      assert Finish(o3, n3.value, replies).0 == o4;
    }
  }

  /** An undisturbed call is a run of the protocol. */
  lemma {:induction false} FinishIsRun(s: State, replies: seq<Reply>) returns (ss: seq<State>, ls: seq<Label>)
    requires s.call.Some? && s.call.value.next <= 4 && |replies| == 4
    ensures Steps(ss, ls) && ss[0] == s && forall i :: 0 <= i < |ls| ==> ls[i].Send?
    ensures Finish(s.stored, s.call.value, replies) == (ss[|ls|].stored, ss[|ls|].call.Some?)
    decreases 4 - s.call.value.next
  {
    ss, ls := [s], [];
    if s.call.value.next < 4 {
      ss, ls := Extend(ss, ls, Send(replies[s.call.value.next]));
      if ss[1].call.Some? {
        var ss1, ls1 := FinishIsRun(ss[1], replies);
        ss, ls := Concat(ss, ls, ss1, ls1);
      }
    }
  }

  lemma TriggerIsRun(s: State, infra: bool, boot: bool, desired: string, replies: seq<Reply>)
      returns (ss: seq<State>, ls: seq<Label>)
    requires s.call.None? && |replies| == 4
    ensures Steps(ss, ls) && ss[0] == s && ls != [] && ls[0] == Begin(desired, infra, boot)
    ensures forall i :: 0 < i < |ls| ==> ls[i].Send?
    ensures TriggerAll(s.stored, infra, boot, desired, replies) == (ss[|ls|].stored, ss[|ls|].call.Some?)
  {
    ss, ls := Extend([s], [], Begin(desired, infra, boot));
    var ss1, ls1 := FinishIsRun(ss[1], replies);
    ss, ls := Concat(ss, ls, ss1, ls1);
  }

  // ---- the hooks of other controllers ----------------------------------------------------------

  /** The stretch of a run that one call takes, from its begin at i to the state at j. */
  ghost predicate OneCall(ss: seq<State>, ls: seq<Label>, i: nat, j: nat) {
    && Steps(ss, ls) && i < j < |ss| && ls[i].Begin?
    && forall k :: i < k <= j ==> ss[k].call.Some?
  }

  /** The state from which the call has its copy of the Machine: the one after its latch patch was
      answered, or its begin if it sent none. */
  ghost function LastRefresh(ss: seq<State>, ls: seq<Label>, i: nat, j: nat): (k: nat)
    requires OneCall(ss, ls, i, j) && ss[j].call.value.next <= 3
    ensures i <= k <= j
    decreases j
  {
    if j == i + 1 then i
    else if ls[j - 1].Send? && ss[j - 1].call.value.next == 0 && !ss[j - 1].call.value.local.latch then j
    else assert ls[j - 1].Send? ==> ss[j - 1].call.value.next <= 3; LastRefresh(ss, ls, i, j - 1)
  }

  lemma {:induction false} CopyIsLastRefresh(ss: seq<State>, ls: seq<Label>, i: nat, j: nat)
    requires OneCall(ss, ls, i, j) && ss[j].call.value.next <= 3
    ensures ss[j].call.value.local.hooks == ss[LastRefresh(ss, ls, i, j)].stored.hooks
    decreases j
  {
    if j > i + 1 && !(ls[j - 1].Send? && ss[j - 1].call.value.next == 0 && !ss[j - 1].call.value.local.latch) {
      CopyIsLastRefresh(ss, ls, i, j - 1);
    }
  }

  /** The list is replaced as one text, so over a whole call, whatever others do meanwhile: when its
      hook patch lands, a hook of somebody else is in the list afterwards exactly when it was stored
      at the last refresh of the Machine copy. */
  lemma OtherHooksSurvive(ss: seq<State>, ls: seq<Label>, i: nat, j: nat, h: string)
    requires OneCall(ss, ls, i, j) && j < |ls| && h != UPDATE_MACHINE
    requires ss[j].call.value.next == 3 && !ss[j].call.value.local.Pending() && ls[j].Send? && ls[j].reply.Landed()
    ensures h in ss[j + 1].stored.hooks <==> h in ss[LastRefresh(ss, ls, i, j)].stored.hooks
  {
    CopyIsLastRefresh(ss, ls, i, j);
  }

  lemma ConcurrentHookLost(h: string, desired: string) returns (ss: seq<State>, ls: seq<Label>)
    requires h != UPDATE_MACHINE
    ensures IsRun(ss, ls) && |ls| == 6
    ensures h in ss[5].stored.hooks && h !in ss[6].stored.hooks
  {
    ss, ls := Extend([Fresh(desired)], [], Begin(desired, false, false));
    ss, ls := Extend(ss, ls, Send(Done));
    ss, ls := Extend(ss, ls, Send(Done));
    ss, ls := Extend(ss, ls, Send(Done));
    assert ss[4].call.value.local.hooks == {} && ss[4].call.value.next == 3;
    ss, ls := Extend(ss, ls, OtherHooks({h}));
    ss, ls := Extend(ss, ls, Send(Done));
  }

  // ---- the code, on stored objects and local copies ------------------------------------------

  /** The API server's copy of one Machine and its objects, with the writes it saw. */
  class Store {
    var objects: Objects
    var log: seq<Patch>

    constructor (objects: Objects)
      ensures this.objects == objects && log == []
    {
      this.objects := objects;
      log := [];
    }

    method Send(c: Call, p: Patch, reply: Reply) returns (ok: bool)
      modifies this
      ensures objects == (if reply.Landed() then Write(old(objects), c, p) else old(objects))
      ensures log == old(log) + [p] && ok == reply.Done?
    {
      if reply.Landed() { objects := Write(objects, c, p); }
      log := log + [p];
      ok := reply.Done?;
    }

    /** One guarded block of the trigger: nothing if the local copy carries the mark, else the
        mark goes on the local copy and out in a patch. */
    method SendIfMissing(c: Call, reply: Reply) returns (next: Option<Call>)
      requires c.next < 4
      modifies this
      ensures (objects, next) == PatchStep(old(objects), c, reply)
      ensures log == old(log) + (if Has(c.local, ORDER[c.next]) then [] else [ORDER[c.next]])
    {
      var p := ORDER[c.next];
      if Has(c.local, p) { return Some(c.(next := c.next + 1)); }
      var ok := Send(c, p, reply);
      next := if ok then Some(Call(Refresh(c.local, objects, p), c.desired, c.next + 1)) else None;
    }

    /** `triggerCAPIInplaceVersionUpdate` with nobody else in between: latch, infra machine,
        bootstrap config, hook. Only what is missing is sent, in this order, up to the first
        patch that fails. From a Machine without the hook it ends with everything marked exactly
        when the cached copies show no mark that is gone. */
    method TriggerCAPIInplaceVersionUpdate(infra: bool, boot: bool, desired: string, replies: seq<Reply>)
        returns (ok: bool)
      requires |replies| == 4
      modifies this
      ensures (objects, ok) == TriggerAll(old(objects), infra, boot, desired, replies)
      ensures var copies := Copies(old(objects), infra, boot);
              exists n: nat :: n <= 4 && (ok ==> n == 4) && log == old(log) + MissingUpTo(copies, n)
      ensures ok && !old(objects).Pending() ==>
                && objects.latch && objects.Pending() && objects.version == desired
                && (objects.Marked() <==> SafeStart(old(objects), infra, boot))
    {
      ghost var goal, base := TriggerAll(objects, infra, boot, desired, replies), log;
      if !objects.Pending() { TriggerRecovers(objects, infra, boot, desired, replies); }
      ghost var o := Copies(objects, infra, boot);
      var next := Block(Call(Copies(objects, infra, boot), desired, 0), replies, o, goal, base);  // latch
      if next.None? { return false; }
      next := Block(next.value, replies, o, goal, base);  // infra machine
      if next.None? { return false; }
      next := Block(next.value, replies, o, goal, base);  // bootstrap config
      if next.None? { return false; }
      next := Block(next.value, replies, o, goal, base);  // hook
      ok := next.Some?;
    }

    /** The next block of the trigger of o. */
    method Block(c: Call, replies: seq<Reply>, ghost o: Objects, ghost goal: (Objects, bool), ghost base: seq<Patch>)
        returns (next: Option<Call>)
      requires c.next < 4 && UnderWay(o, goal, objects, c, replies) && log == base + MissingUpTo(o, c.next)
      modifies this
      ensures log == base + MissingUpTo(o, c.next + 1)
      ensures next.None? ==> goal == (objects, false)
      ensures next.Some? ==> next.value.next == c.next + 1 && UnderWay(o, goal, objects, next.value, replies)
      ensures next.Some? && c.next == 3 ==> goal == (objects, true)
    {
      Advance(o, goal, objects, c, replies);
      next := SendIfMissing(c, replies[c.next]);
    }
  }

  /** A trigger of o under way: its outcome is still the goal, and the patches ahead are as missing
      in its copies as they were in o. */
  ghost predicate UnderWay(o: Objects, goal: (Objects, bool), stored: Objects, c: Call, replies: seq<Reply>) {
    && c.next <= 4 && |replies| == 4 && SameFrom(o, c.local, c.next)
    && c.local.hooks == stored.hooks && Finish(stored, c, replies) == goal
  }

  /** One block of the trigger, and what it adds to the patches sent. */
  lemma Advance(o: Objects, goal: (Objects, bool), stored: Objects, c: Call, replies: seq<Reply>)
    requires c.next < 4 && UnderWay(o, goal, stored, c, replies)
    ensures var (stored', next) := PatchStep(stored, c, replies[c.next]);
            && (next.None? ==> goal == (stored', false))
            && (next.Some? ==> next.value.next == c.next + 1 && UnderWay(o, goal, stored', next.value, replies))
            && (next.Some? && next.value.next == 4 ==> goal == (stored', true))
    ensures MissingUpTo(o, c.next + 1) ==
              MissingUpTo(o, c.next) + (if Has(c.local, ORDER[c.next]) then [] else [ORDER[c.next]])
  {
    assert Has(o, ORDER[c.next]) == Has(c.local, ORDER[c.next]);
    assert forall k :: c.next < k < 4 ==> ORDER[k] != ORDER[c.next];
  }

  /** The patches from index i on are as missing in one copy as in the other. */
  predicate SameFrom(a: Objects, b: Objects, i: nat) { forall k :: i <= k < 4 ==> Has(a, ORDER[k]) == Has(b, ORDER[k]) }

  /** The missing ones among the first n patches, in order. */
  function MissingUpTo(o: Objects, n: nat): seq<Patch>
    requires n <= 4
  {
    if n == 0 then [] else MissingUpTo(o, n - 1) + (if Has(o, ORDER[n - 1]) then [] else [ORDER[n - 1]])
  }

  // ---- completing what was interrupted --------------------------------------------------------

  /** The active Machines, and the marks shown by the copies of their infra machines and configs, as
      far as the scope has them. */
  datatype Machines = Machines(objects: map<string, Objects>, infra: map<string, bool>, configs: map<string, bool>) {
    predicate Safe(n: string)
      requires n in objects && n in infra && n in configs
    {
      SafeStart(objects[n], infra[n], configs[n])
    }
  }

  /** Recovery of this Machine gets through: its objects are in the scope, and every patch its copies
      show as missing is answered well. */
  predicate Completes(ms: Machines, n: string, replies: map<string, seq<Reply>>)
    requires n in ms.objects && n in replies && |replies[n]| == 4
  {
    n in ms.infra && n in ms.configs && AllAnswered(Copies(ms.objects[n], ms.infra[n], ms.configs[n]), replies[n])
  }

  /** What a finished recovery of one Machine leaves. */
  predicate Triggered(ms: Machines, n: string, o: Objects, desired: string)
    requires n in ms.objects
  {
    && n in ms.infra && n in ms.configs
    && o.latch && o.Pending() && o.version == desired && (o.Marked() <==> ms.Safe(n))
  }

  function InterruptedOnes(ms: map<string, Objects>): set<string> { set n | n in ms && Interrupted(ms[n]) }

  /** A pass over `order` that got as far as the Machine at index `reached`: interrupted triggers
      before it are finished, everything after it and everything not interrupted is as it was,
      and nothing that was written is lost. */
  ghost predicate Pass(ms: Machines, after: map<string, Objects>, order: seq<string>, reached: nat, desired: string) {
    && after.Keys == ms.objects.Keys
    && (forall n :: n in ms.objects && n !in InterruptedOnes(ms.objects) ==> after[n] == ms.objects[n])
    && (forall n :: n in ms.objects ==> Grows(ms.objects[n], after[n]))
    && (forall i :: 0 <= i < |order| && i < reached && order[i] in InterruptedOnes(ms.objects) ==>
          order[i] in after && Triggered(ms, order[i], after[order[i]], desired))
    && (forall i :: reached < i < |order| && order[i] in ms.objects ==> after[order[i]] == ms.objects[order[i]])
  }

  /** One interrupted trigger taken further, or to its end. */
  lemma PassStep(ms: Machines, after: map<string, Objects>, order: seq<string>, reached: nat, desired: string,
      o: Objects)
    requires Pass(ms, after, order, reached, desired) && reached < |order|
    requires forall i, j :: 0 <= i < j < |order| ==> order[i] != order[j]
    requires order[reached] in InterruptedOnes(ms.objects) && after[order[reached]] == ms.objects[order[reached]]
    requires Grows(ms.objects[order[reached]], o)
    ensures Pass(ms, after[order[reached] := o], order, reached, desired)
    ensures Triggered(ms, order[reached], o, desired) ==>
              Pass(ms, after[order[reached] := o], order, reached + 1, desired)
  {
  }

  /** The Machine at which a pass gives up: untouched if its objects are not in the scope, else as far
      as its trigger got. */
  function AfterTry(ms: Machines, n: string, desired: string, replies: map<string, seq<Reply>>): Objects
    requires n in ms.objects && n in replies && |replies[n]| == 4
  {
    if n in ms.infra && n in ms.configs then TriggerAll(ms.objects[n], ms.infra[n], ms.configs[n], desired,
        replies[n]).0
    else ms.objects[n]
  }

  lemma TryOne(ms: Machines, n: string, desired: string, replies: map<string, seq<Reply>>)
    requires n in ms.objects && n in ms.infra && n in ms.configs && n in replies && |replies[n]| == 4
    requires Interrupted(ms.objects[n])
    ensures var (o, done) := TriggerAll(ms.objects[n], ms.infra[n], ms.configs[n], desired, replies[n]);
            && Grows(ms.objects[n], o) && (done <==> Completes(ms, n, replies))
            && (done ==> Triggered(ms, n, o, desired)) && o == AfterTry(ms, n, desired, replies)
  {
    TriggerRecovers(ms.objects[n], ms.infra[n], ms.configs[n], desired, replies[n]);
    TriggerOkIff(ms.objects[n], ms.infra[n], ms.configs[n], desired, replies[n]);
  }

  /** The loop of `completeInterruptedTriggers`, over the Machines in creation order. */
  method CompleteInOrder(ms: Machines, order: seq<string>, desired: string, replies: map<string, seq<Reply>>)
      returns (after: map<string, Objects>, ok: bool, reached: nat)
    requires forall n :: n in order ==> n in ms.objects && n in replies && |replies[n]| == 4
    requires forall i, j :: 0 <= i < j < |order| ==> order[i] != order[j]
    ensures Pass(ms, after, order, reached, desired)
    ensures ok <==> forall i :: 0 <= i < |order| && order[i] in InterruptedOnes(ms.objects) ==>
            Completes(ms, order[i], replies)
    ensures ok ==> reached == |order|
    ensures !ok ==>
              && reached < |order| && order[reached] in InterruptedOnes(ms.objects)
              && !Completes(ms, order[reached], replies)
              && after[order[reached]] == AfterTry(ms, order[reached], desired, replies)
  {
    after, reached := ms.objects, 0;
    while reached < |order|
      invariant reached <= |order| && SoFar(ms, after, order, reached, desired, replies)
    {
      var n := order[reached];
      if Interrupted(ms.objects[n]) {
        if n !in ms.infra || n !in ms.configs { return after, false, reached; }
        TryOne(ms, n, desired, replies);
        var (o, done) := TriggerAll(after[n], ms.infra[n], ms.configs[n], desired, replies[n]);
        PassStep(ms, after, order, reached, desired, o);
        after := after[n := o];
        if !done { return after, false, reached; }
      }
      assert SoFar(ms, after, order, reached + 1, desired, replies);
      reached := reached + 1;
    }
    ok := true;
  }

  /** A pass that got this far: the Machine it comes to is as it was, and every interrupted one before it
      got through. */
  ghost predicate SoFar(ms: Machines, after: map<string, Objects>, order: seq<string>, reached: nat, desired: string,
                        replies: map<string, seq<Reply>>)
    requires forall n :: n in order ==> n in ms.objects && n in replies && |replies[n]| == 4
  {
    && Pass(ms, after, order, reached, desired)
    && (reached < |order| ==> after[order[reached]] == ms.objects[order[reached]])
    && (forall i :: 0 <= i < reached && i < |order| && order[i] in InterruptedOnes(ms.objects) ==>
          Completes(ms, order[i], replies))
  }

  /** `completeInterruptedTriggers`. It answers true exactly when there is something to do, somebody to
      do it and every interrupted trigger gets through, false exactly when there is nothing to do or
      nobody to do it, and touches interrupted Machines only. */
  method CompleteInterruptedTriggers(ms: Machines, order: seq<string>, desired: string,
                                     enabled: bool, deployed: Result<bool, ()>, replies: map<string, seq<Reply>>)
      returns (after: map<string, Objects>, r: Result<bool, ()>)
    requires forall n :: n in order <==> n in ms.objects
    requires forall i, j :: 0 <= i < j < |order| ==> order[i] != order[j]
    requires forall n :: n in ms.objects ==> n in replies && |replies[n]| == 4
    ensures exists reached: nat :: Pass(ms, after, order, reached, desired)
    ensures r == Ok(true) ==> InterruptedOnes(ms.objects) != {} && InterruptedOnes(after) == {}
                              && forall n :: n in InterruptedOnes(ms.objects) ==> Triggered(ms, n, after[n], desired)
    ensures r == Ok(true) <==>
              && enabled && deployed == Ok(true) && InterruptedOnes(ms.objects) != {}
              && forall n :: n in InterruptedOnes(ms.objects) ==> Completes(ms, n, replies)
    ensures r == Ok(false) <==> !enabled || InterruptedOnes(ms.objects) == {} || deployed == Ok(false)
    ensures r == Ok(false) ==> after == ms.objects
    // no Machine is left with the latch and without the hook by a pass that gets through
    ensures r == Ok(true) || (r == Ok(false) && enabled && deployed == Ok(true)) ==>
              forall n :: n in after && after[n].latch ==> "UpdateMachine" in after[n].hooks
  {
    after := ms.objects;
    assert Pass(ms, after, order, 0, desired);
    if !enabled || InterruptedOnes(ms.objects) == {} { return after, Ok(false); }
    if deployed.Err? { return after, Err(()); }
    if !deployed.value { return after, Ok(false); }
    var ok, reached;
    after, ok, reached := CompleteInOrder(ms, order, desired, replies);
    assert ok <==> forall n :: n in InterruptedOnes(ms.objects) ==> Completes(ms, n, replies) by {
      forall n | n in InterruptedOnes(ms.objects)
          ensures exists i :: 0 <= i < |order| && order[i] == n { assert n in order; }
    }
    if !ok { return after, Err(()); }
    r := Ok(true);
    forall n | n in after
      ensures !Interrupted(after[n]) && (n in InterruptedOnes(ms.objects) ==> Triggered(ms, n, after[n], desired))
    {
      assert n in order;
      var i :| 0 <= i < |order| && order[i] == n;
      assert n !in InterruptedOnes(ms.objects) ==> after[n] == ms.objects[n];
    }
  }
}
