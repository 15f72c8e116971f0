/** The pending-hooks annotation: one comma separated text read as a set of hook names. */
module HookList {
  import opened StringOrder

  const UPDATE_MACHINE: string := "UpdateMachine"

  // ---- text and lists of names ------------------------------------------------------------

  predicate CommaFree(s: string) { ',' !in s }

  predicate AllCommaFree(xs: seq<string>) { forall i :: 0 <= i < |xs| ==> CommaFree(xs[i]) }

  /** The text up to the first comma, and whether there was one. */
  function Head(s: string): (h: string)
    ensures CommaFree(h) && |h| <= |s| && s[..|h|] == h
    ensures |h| < |s| ==> s[|h|] == ','
  {
    if s == "" || s[0] == ',' then "" else [s[0]] + Head(s[1..])
  }

  /** `strings.Split(s, ",")`. */
  function Split(s: string): (xs: seq<string>)
    ensures |xs| >= 1 && AllCommaFree(xs)
    decreases |s|
  {
    var h := Head(s);
    if |h| == |s| then [h] else [h] + Split(s[|h| + 1..])
  }

  /** `strings.Join(xs, ",")`. */
  function Join(xs: seq<string>): string {
    if xs == [] then "" else if |xs| == 1 then xs[0] else xs[0] + "," + Join(xs[1..])
  }

  lemma {:induction false} HeadOfJoined(h: string, rest: string)
    requires CommaFree(h)
    ensures Head(h + "," + rest) == h
    ensures Head(h) == h
    decreases |h|
  {
    if h == "" {
    } else {
      HeadOfJoined(h[1..], rest);
      assert (h + "," + rest)[1..] == h[1..] + "," + rest;
    }
  }

  /** Splitting undoes joining for every non-empty list of comma-free names. */
  lemma {:induction false} SplitJoin(xs: seq<string>)
    requires xs != [] && AllCommaFree(xs)
    ensures Split(Join(xs)) == xs
    decreases |xs|
  {
    if |xs| == 1 {
      HeadOfJoined(xs[0], "");
    } else {
      var rest := Join(xs[1..]);
      HeadOfJoined(xs[0], rest);
      SplitJoin(xs[1..]);
      var s := xs[0] + "," + rest;
      assert s[|xs[0]| + 1..] == rest;
    }
  }

  // ---- the order of `sets.List` -----------------------------------------------------------

  /** Ascending, hence free of duplicates. */
  predicate Ascending(xs: seq<string>) {
    forall i, j :: 0 <= i < j < |xs| ==> Less(xs[i], xs[j])
  }

  ghost function Elements(xs: seq<string>): set<string> { set x | x in xs }

  /** Inserts a name into an ascending list, unless it is there. */
  function Insert(x: string, xs: seq<string>): seq<string> {
    if xs == [] then [x]
    else if x == xs[0] then xs
    else if Less(x, xs[0]) then [x] + xs
    else [xs[0]] + Insert(x, xs[1..])
  }

  lemma {:induction false} InsertElements(x: string, xs: seq<string>)
    ensures Elements(Insert(x, xs)) == Elements(xs) + {x}
  {
    if xs == [] {
    } else {
      assert xs == [xs[0]] + xs[1..];
      if x != xs[0] && !Less(x, xs[0]) {
        InsertElements(x, xs[1..]);
        assert Elements(xs) == {xs[0]} + Elements(xs[1..]);
        assert Elements(Insert(x, xs)) == {xs[0]} + Elements(Insert(x, xs[1..]));
      }
    }
  }

  lemma {:induction false} InsertKeepsOrder(x: string, xs: seq<string>)
    requires Ascending(xs)
    ensures Ascending(Insert(x, xs))
    ensures Elements(Insert(x, xs)) == Elements(xs) + {x}
  {
    InsertElements(x, xs);
    if xs == [] {
    } else {
      LessTrichotomy(x, xs[0]);
      if Less(x, xs[0]) {
        forall j | 0 <= j < |xs| ensures Less(x, xs[j]) {
          if j > 0 { LessTransitive(x, xs[0], xs[j]); }
        }
      } else if x != xs[0] {
        InsertKeepsOrder(x, xs[1..]);
        var tail := Insert(x, xs[1..]);
        forall j | 0 <= j < |tail| ensures Less(xs[0], tail[j]) {
          assert tail[j] in Elements(tail);
          if tail[j] != x {
            assert tail[j] in xs[1..];
          }
        }
      }
    }
  }

  /** An ascending list is determined by its elements, so sorting has one outcome whatever the
      order in which a set hands out its members. */
  lemma {:induction false} AscendingUnique(xs: seq<string>, ys: seq<string>)
    requires Ascending(xs) && Ascending(ys) && Elements(xs) == Elements(ys)
    ensures xs == ys
    decreases |xs|
  {
    if xs == [] {
      if ys != [] { SomeElement(ys); }
    } else {
      assert xs[0] in Elements(ys);
      assert ys != [];
      assert ys[0] in Elements(xs);
      FirstIsLeast(xs, ys[0]);
      FirstIsLeast(ys, xs[0]);
      LessTrichotomy(xs[0], ys[0]);
      ElementsOfTail(xs);
      ElementsOfTail(ys);
      AscendingUnique(xs[1..], ys[1..]);
      assert xs == [xs[0]] + xs[1..] && ys == [ys[0]] + ys[1..];
    }
  }

  lemma SomeElement(xs: seq<string>)
    requires xs != []
    ensures Elements(xs) != {}
  {
    assert xs[0] in Elements(xs);
  }

  lemma FirstIsLeast(xs: seq<string>, x: string)
    requires xs != [] && Ascending(xs) && x in xs
    ensures x == xs[0] || Less(xs[0], x)
  {
    var i :| 0 <= i < |xs| && xs[i] == x;
  }

  lemma ElementsOfTail(xs: seq<string>)
    requires xs != [] && Ascending(xs)
    ensures Ascending(xs[1..])
    ensures Elements(xs[1..]) == Elements(xs) - {xs[0]}
  {
    assert xs == [xs[0]] + xs[1..];
    LessTrichotomy(xs[0], xs[0]);
    assert forall i :: 0 < i < |xs| ==> Less(xs[0], xs[i]);
  }

  // ---- the operations of inplace.go ---------------------------------------------------------

  /** `pendingHooks`: the names in the annotation; an absent annotation reads as "". */
  function PendingHooks(annotation: string): set<string> {
    (set h | h in Split(annotation)) - {""}
  }

  /** The ascending list of the non-empty names among xs: `sets.List` of `sets.New(xs...)`. */
  function SortedNames(xs: seq<string>): (r: seq<string>)
    decreases |xs|
  {
    if xs == [] then []
    else if xs[|xs| - 1] == "" then SortedNames(xs[..|xs| - 1])
    else Insert(xs[|xs| - 1], SortedNames(xs[..|xs| - 1]))
  }

  lemma {:induction false} SortedNamesMeaning(xs: seq<string>)
    ensures Ascending(SortedNames(xs))
    ensures Elements(SortedNames(xs)) == Elements(xs) - {""}
    decreases |xs|
  {
    if xs == [] {
    } else {
      var front, last := xs[..|xs| - 1], xs[|xs| - 1];
      SortedNamesMeaning(front);
      assert xs == front + [last];
      if last != "" { InsertKeepsOrder(last, SortedNames(front)); }
    }
  }

  /** The text `markHookPending` writes. */
  function MarkHook(annotation: string, hook: string): string {
    Join(SortedNames(Split(annotation) + [hook]))
  }

  /** Names that came out of a text and a comma-free hook survive being joined and split. */
  lemma {:induction false} SplitOfNames(names: seq<string>)
    requires AllCommaFree(names)
    ensures (set h | h in Split(Join(names))) - {""} == Elements(names) - {""}
  {
    if names == [] {
      assert Split("") == [""];
    } else {
      SplitJoin(names);
    }
  }

  lemma CommaFreeElements(names: seq<string>, source: seq<string>)
    requires AllCommaFree(source) && Elements(names) <= Elements(source)
    ensures AllCommaFree(names)
  {
    forall i | 0 <= i < |names| ensures CommaFree(names[i]) {
      assert names[i] in Elements(names);
      assert names[i] in source;
    }
  }

  /** Set semantics of marking: the old hooks plus the new one, written ascending and free of
      duplicates, and marking a second time writes the same text. */
  lemma {:induction false} MarkHookMeaning(annotation: string, hook: string)
    requires hook != "" && CommaFree(hook)
    ensures PendingHooks(MarkHook(annotation, hook)) == PendingHooks(annotation) + {hook}
    ensures exists names :: Ascending(names) && MarkHook(annotation, hook) == Join(names)
                            && Elements(names) == PendingHooks(annotation) + {hook}
    ensures MarkHook(MarkHook(annotation, hook), hook) == MarkHook(annotation, hook)
  {
    var text := MarkHook(annotation, hook);
    var names := MarkedNames(annotation, hook);
    SplitOfNames(names);
    var again := MarkedNames(text, hook);
    AscendingUnique(names, again);
  }

  /** The list behind the text that marking writes. */
  lemma {:induction false} MarkedNames(annotation: string, hook: string) returns (names: seq<string>)
    requires hook != "" && CommaFree(hook)
    ensures names == SortedNames(Split(annotation) + [hook])
    ensures Ascending(names) && AllCommaFree(names)
    ensures Elements(names) == PendingHooks(annotation) + {hook}
  {
    var source := Split(annotation) + [hook];
    names := SortedNames(source);
    SortedNamesMeaning(source);
    assert Elements(source) == Elements(Split(annotation)) + {hook};
    CommaFreeElements(names, source);
  }

  /** `markHookPending` on an object's annotations. */
  class Annotated {
    var annotations: map<string, string>

    constructor (annotations: map<string, string>)
      ensures this.annotations == annotations
    {
      this.annotations := annotations;
    }

    function Hooks(key: string): string
      reads this
    {
      if key in annotations then annotations[key] else ""
    }

    method MarkHookPending(key: string, hook: string)
      requires hook != "" && CommaFree(hook)
      modifies this
      ensures annotations == old(annotations)[key := MarkHook(old(Hooks(key)), hook)]
      ensures PendingHooks(Hooks(key)) == old(PendingHooks(Hooks(key))) + {hook}
    {
      var source := Split(Hooks(key));
      var names: seq<string> := [];
      ghost var all := source + [hook];
      for i := 0 to |source|
        invariant names == SortedNames(source[..i])
      {
        assert source[..i + 1] == source[..i] + [source[i]];
        if source[i] != "" { names := Insert(source[i], names); }
      }
      assert source[..|source|] == source && all[..|all| - 1] == source;
      names := Insert(hook, names);
      MarkHookMeaning(Hooks(key), hook);
      annotations := annotations[key := Join(names)];
    }
  }
}
