/** Pruning of a converted manifest against the zero-value baseline of its type. */
module Prune {
  import opened Json

  // ---- hack/convert/v1beta2.go ----------------------------------------------------------------

  function At(m: map<string, Json>, k: string): Json { if k in m then m[k] else Null }

  /** `deepEqual`. A key missing on the right reads as null. */
  predicate DeepEqual(a: Json, b: Json)
    decreases a
  {
    match a
    case Obj(m) => b.Obj? && |m| == |b.fields| && forall k :: k in m ==> DeepEqual(m[k], At(b.fields, k))
    case Arr(xs) => b.Arr? && |xs| == |b.items| && forall i :: 0 <= i < |xs| ==> DeepEqual(xs[i], b.items[i])
    case _ => a == b
  }

  /** A field of the result is dropped when nothing but its baseline is left of it. */
  predicate Dropped(rv: Json, bv: Json)
    decreases bv, 1
  {
    if rv.Obj? && bv.Obj? then PruneBaseline(rv, bv) == Obj(map[]) else DeepEqual(rv, bv)
  }

  /** The outcome of `pruneBaselineFields` on two objects. */
  function PruneBaseline(r: Json, b: Json): (p: Json)
    requires r.Obj? && b.Obj?
    ensures p.Obj? && p.fields.Keys <= r.fields.Keys
    decreases b, 0
  {
    Obj(map k | k in r.fields && !(k in b.fields && Dropped(r.fields[k], b.fields[k]))
        :: if k in b.fields && r.fields[k].Obj? && b.fields[k].Obj?
           then PruneBaseline(r.fields[k], b.fields[k]) else r.fields[k])
  }

  /** The outcome of `pruneEmptyMaps` on an object. */
  function PruneEmpty(r: Json): (p: Json)
    requires r.Obj?
    ensures p.Obj? && p.fields.Keys <= r.fields.Keys
  {
    Obj(map k | k in r.fields && !(r.fields[k].Obj? && PruneEmpty(r.fields[k]) == Obj(map[]))
        :: if r.fields[k].Obj? then PruneEmpty(r.fields[k]) else r.fields[k])
  }

  /** Both prunes in turn, as `convert` applies them. */
  function Pruned(r: Json, b: Json): (p: Json)
    requires r.Obj? && b.Obj?
    ensures p.Obj?
  {
    PruneEmpty(PruneBaseline(r, b))
  }

  /** `pruneBaselineFields`: deletes entries of the result while walking the baseline's keys, in
      whatever order the map hands them out. */
  method PruneBaselineFields(r: map<string, Json>, b: map<string, Json>) returns (result: map<string, Json>)
    ensures Obj(result) == PruneBaseline(Obj(r), Obj(b))
    decreases Obj(b)
  {
    result := r;
    ghost var goal := PruneBaseline(Obj(r), Obj(b)).fields;
    var keys := b.Keys;
    while keys != {}
      invariant keys <= b.Keys
      invariant forall k :: k in result <==> k in r && (k in b && k !in keys ==> k in goal)
      invariant forall k :: k in result ==> result[k] == if k in b && k !in keys then goal[k] else r[k]
      decreases keys
    {
      var k :| k in keys;
      keys := keys - {k};
      if k in result {
        var rv, bv := result[k], b[k];
        assert k in goal <==> !Dropped(rv, bv);
        if rv.Obj? && bv.Obj? {
          assert bv < Obj(b);
          var child := PruneBaselineFields(rv.fields, bv.fields);
          assert Obj(bv.fields) == bv && Obj(rv.fields) == rv;
          assert Dropped(rv, bv) <==> child == map[];
          result := if child == map[] then result - {k} else result[k := Obj(child)];
        } else if DeepEqual(rv, bv) {
          result := result - {k};
        }
      }
    }
    assert result.Keys == goal.Keys;
    assert forall k :: k in result ==> result[k] == goal[k];
    assert result == goal;
  }

  /** `pruneEmptyMaps`. */
  method PruneEmptyMaps(m: map<string, Json>) returns (result: map<string, Json>)
    ensures Obj(result) == PruneEmpty(Obj(m))
    decreases Obj(m)
  {
    result := m;
    ghost var goal := PruneEmpty(Obj(m)).fields;
    var keys := m.Keys;
    while keys != {}
      invariant keys <= m.Keys
      invariant result.Keys == keys + ((m.Keys - keys) * goal.Keys)
      invariant forall k :: k in result ==> result[k] == if k in keys then m[k] else goal[k]
      decreases keys
    {
      var k :| k in keys;
      keys := keys - {k};
      if result[k].Obj? {
        assert m[k] < Obj(m) && Obj(m[k].fields) == m[k];
        var child := PruneEmptyMaps(result[k].fields);
        result := if child == map[] then result - {k} else result[k := Obj(child)];
      }
    }
    assert result == goal;
  }

  // ---- when deepEqual is equality ---------------------------------------------------------------

  /** No null entry of a, at any depth, sits at a key its counterpart in b lacks. */
  predicate NoDanglingNull(a: Json, b: Json)
    decreases a
  {
    match a
    case Obj(m) =>
      b.Obj? ==> forall k :: k in m ==> (m[k].Null? ==> k in b.fields) && NoDanglingNull(m[k], At(b.fields, k))
    case Arr(xs) => b.Arr? && |xs| == |b.items| ==> forall i :: 0 <= i < |xs| ==> NoDanglingNull(xs[i], b.items[i])
    case _ => true
  }

  lemma SubsetOfSameSize<T>(a: set<T>, b: set<T>)
    requires a <= b && |a| == |b|
    ensures a == b
  {
    assert |b - a| == |b| - |a|;
  }

  lemma {:induction false} DeepEqualReflexive(a: Json)
    ensures DeepEqual(a, a) && NoDanglingNull(a, a)
  {
    match a
    case Obj(m) =>
      forall k | k in m ensures DeepEqual(m[k], m[k]) && NoDanglingNull(m[k], m[k]) {
        DeepEqualReflexive(m[k]);
      }
    case Arr(xs) =>
      forall i | 0 <= i < |xs| ensures DeepEqual(xs[i], xs[i]) && NoDanglingNull(xs[i], xs[i]) {
        DeepEqualReflexive(xs[i]);
      }
    case _ =>
  }

  /** Among values that deepEqual accepts, the equal ones are exactly those without a dangling null. */
  lemma {:induction false} DeepEqualExact(a: Json, b: Json)
    requires DeepEqual(a, b)
    ensures a == b <==> NoDanglingNull(a, b)
    decreases a
  {
    DeepEqualReflexive(a);
    if NoDanglingNull(a, b) {
      match a
      case Obj(m) =>
        forall k | k in m ensures k in b.fields && m[k] == b.fields[k] {
          DeepEqualExact(m[k], At(b.fields, k));
        }
        assert m.Keys <= b.fields.Keys;
        SubsetOfSameSize(m.Keys, b.fields.Keys);
        assert m == b.fields;
      case Arr(xs) =>
        forall i | 0 <= i < |xs| ensures xs[i] == b.items[i] { DeepEqualExact(xs[i], b.items[i]); }
        assert xs == b.items;
      case _ =>
    }
  }

  // ---- the meaning of a manifest -----------------------------------------------------------------

  /** The manifest with its defaults filled in: objects are merged, anything else of the tree wins. */
  function Overlay(b: Json, t: Json): (o: Json)
    requires b.Obj? && t.Obj?
    ensures o.Obj?
    decreases t
  {
    Obj(map k | k in b.fields.Keys + t.fields.Keys
        :: if k !in t.fields then b.fields[k]
           else if k in b.fields && b.fields[k].Obj? && t.fields[k].Obj? then Overlay(b.fields[k], t.fields[k])
           else t.fields[k])
  }

  /** Wherever pruning compares two values by deepEqual and finds them alike, no null dangles. */
  predicate Faithful(r: Json, b: Json)
    requires r.Obj? && b.Obj?
    decreases b
  {
    forall k :: k in r.fields && k in b.fields ==>
      if r.fields[k].Obj? && b.fields[k].Obj? then Faithful(r.fields[k], b.fields[k])
      else DeepEqual(r.fields[k], b.fields[k]) ==> NoDanglingNull(r.fields[k], b.fields[k])
  }

  lemma {:induction false} OverlayEmpty(b: Json)
    requires b.Obj?
    ensures Overlay(b, Obj(map[])) == b
  {
    assert Overlay(b, Obj(map[])).fields == b.fields;
  }

  /** What an overlay holds at one key. */
  function OverlayAt(b: Json, t: Json, k: string): Json
    requires b.Obj? && t.Obj?
  {
    At(Overlay(b, t).fields, k)
  }

  lemma {:induction false} KeyPreserved(r: Json, b: Json, k: string)
    requires r.Obj? && b.Obj? && k in r.fields && k in b.fields
    requires r.fields[k].Obj? && b.fields[k].Obj? ==>
               (Overlay(b.fields[k], PruneBaseline(r.fields[k], b.fields[k])) == Overlay(b.fields[k], r.fields[k])
                <==> Faithful(r.fields[k], b.fields[k]))
    ensures OverlayAt(b, PruneBaseline(r, b), k) == OverlayAt(b, r, k)
            <==> if r.fields[k].Obj? && b.fields[k].Obj? then Faithful(r.fields[k], b.fields[k])
                 else DeepEqual(r.fields[k], b.fields[k]) ==> NoDanglingNull(r.fields[k], b.fields[k])
  {
    var rv, bv := r.fields[k], b.fields[k];
    if rv.Obj? && bv.Obj? {
      OverlayEmpty(bv);
    } else if DeepEqual(rv, bv) {
      DeepEqualExact(rv, bv);
    }
  }

  /** Pruning keeps the meaning of a manifest exactly when no null dangles where values are
      compared. */
  lemma {:induction false} PrunePreservesMeaning(r: Json, b: Json)
    requires r.Obj? && b.Obj?
    ensures Overlay(b, PruneBaseline(r, b)) == Overlay(b, r) <==> Faithful(r, b)
    decreases b
  {
    var p := PruneBaseline(r, b);
    forall k | k in r.fields && k in b.fields
      ensures OverlayAt(b, p, k) == OverlayAt(b, r, k)
              <==> if r.fields[k].Obj? && b.fields[k].Obj? then Faithful(r.fields[k], b.fields[k])
                   else DeepEqual(r.fields[k], b.fields[k]) ==> NoDanglingNull(r.fields[k], b.fields[k])
    {
      if r.fields[k].Obj? && b.fields[k].Obj? { PrunePreservesMeaning(r.fields[k], b.fields[k]); }
      KeyPreserved(r, b, k);
    }
    if Faithful(r, b) {
      var x, y := Overlay(b, p).fields, Overlay(b, r).fields;
      assert x.Keys == y.Keys;
      forall k | k in x ensures x[k] == y[k] {
        if k in r.fields && k in b.fields { assert OverlayAt(b, p, k) == OverlayAt(b, r, k); }
      }
      assert x == y;
    } else {
      var k :| k in r.fields && k in b.fields &&
        !(if r.fields[k].Obj? && b.fields[k].Obj? then Faithful(r.fields[k], b.fields[k])
          else DeepEqual(r.fields[k], b.fields[k]) ==> NoDanglingNull(r.fields[k], b.fields[k]));
      assert OverlayAt(b, p, k) != OverlayAt(b, r, k);
    }
  }

  /** No object inside a list holds a null: what a caller can check on the manifest alone. */
  predicate NoNullInLists(r: Json) {
    match r
    case Obj(m) => forall k :: k in m ==> NoNullInLists(m[k])
    case Arr(xs) => forall i :: 0 <= i < |xs| ==> NoNullAtAll(xs[i])
    case _ => true
  }

  predicate NoNullAtAll(r: Json) {
    match r
    case Obj(m) => forall k :: k in m ==> !m[k].Null? && NoNullAtAll(m[k])
    case Arr(xs) => forall i :: 0 <= i < |xs| ==> NoNullAtAll(xs[i])
    case _ => true
  }

  lemma {:induction false} NoNullNoDangling(a: Json, b: Json)
    requires NoNullAtAll(a)
    ensures NoDanglingNull(a, b)
    decreases a
  {
    match a
    case Obj(m) =>
      if b.Obj? {
        forall k | k in m ensures NoDanglingNull(m[k], At(b.fields, k)) { NoNullNoDangling(m[k], At(b.fields, k)); }
      }
    case Arr(xs) =>
      if b.Arr? && |xs| == |b.items| {
        forall i | 0 <= i < |xs| ensures NoDanglingNull(xs[i], b.items[i]) { NoNullNoDangling(xs[i], b.items[i]); }
      }
    case _ =>
  }

  lemma {:induction false} NoNullInListsIsFaithful(r: Json, b: Json)
    requires r.Obj? && b.Obj? && NoNullInLists(r)
    ensures Faithful(r, b)
    decreases b
  {
    forall k | k in r.fields && k in b.fields
      ensures if r.fields[k].Obj? && b.fields[k].Obj? then Faithful(r.fields[k], b.fields[k])
              else DeepEqual(r.fields[k], b.fields[k]) ==> NoDanglingNull(r.fields[k], b.fields[k])
    {
      var rv, bv := r.fields[k], b.fields[k];
      if rv.Obj? && bv.Obj? {
        NoNullInListsIsFaithful(rv, bv);
      } else if rv.Arr? && bv.Arr? && |rv.items| == |bv.items| {
        forall i | 0 <= i < |rv.items| ensures NoDanglingNull(rv.items[i], bv.items[i]) {
          NoNullNoDangling(rv.items[i], bv.items[i]);
        }
      }
    }
  }

  /** The condition is needed of the functions: an object {a: null} in a list passes for {b: x}, and
      pruning swaps one for the other. `convert` itself prunes against zero values, whose lists are
      empty. */
  lemma NullSwap(a: string, b: string, x: Json)
    requires a != b
    ensures var r := Obj(map["l" := Arr([Obj(map[a := Null])])]);
            var base := Obj(map["l" := Arr([Obj(map[b := x])])]);
            PruneBaseline(r, base) == Obj(map[]) && Overlay(base, PruneBaseline(r, base)) != Overlay(base, r)
  {
    var left, right := Obj(map[a := Null]), Obj(map[b := x]);
    var r := Obj(map["l" := Arr([left])]);
    var base := Obj(map["l" := Arr([right])]);
    assert a in left.fields && a !in right.fields;
    assert DeepEqual(left, right);
    assert DeepEqual(Arr([left]), Arr([right]));
    assert PruneBaseline(r, base).fields == map[];
    OverlayEmpty(base);
    assert Overlay(base, r).fields["l"] == Arr([left]);
    assert left != right;
    assert Arr([left]) != Arr([right]) by { assert [left][0] != [right][0]; }
  }

  // ---- what is left ---------------------------------------------------------------------------------

  /** The leaf (scalar or list) that a path of object keys leads to, if it does. */
  function Leaf(t: Json, path: seq<string>): (r: seq<Json>)
    ensures |r| <= 1
    decreases |path|
  {
    if path == [] then (if t.Obj? then [] else [t])
    else if t.Obj? && path[0] in t.fields then Leaf(t.fields[path[0]], path[1..])
    else []
  }

  /** No object is empty, except possibly the root and inside lists. */
  predicate NoEmptyObject(t: Json) {
    t.Obj? ==> forall k :: k in t.fields ==> t.fields[k] != Obj(map[]) && NoEmptyObject(t.fields[k])
  }

  lemma {:induction false} PruneEmptyLeaves(t: Json, path: seq<string>)
    requires t.Obj?
    ensures Leaf(PruneEmpty(t), path) == Leaf(t, path)
    decreases |path|
  {
    if path != [] && path[0] in t.fields {
      var c := t.fields[path[0]];
      if c.Obj? {
        PruneEmptyLeaves(c, path[1..]);
      }
    }
  }

  lemma {:induction false} PruneEmptyHasNoEmptyObject(t: Json)
    requires t.Obj?
    ensures NoEmptyObject(PruneEmpty(t))
    decreases t
  {
    var p := PruneEmpty(t);
    forall k | k in p.fields ensures p.fields[k] != Obj(map[]) && NoEmptyObject(p.fields[k]) {
      if t.fields[k].Obj? { PruneEmptyHasNoEmptyObject(t.fields[k]); }
    }
  }

  /** A leaf of the pruned tree is a leaf of the tree; a leaf that went is one that deepEqual
      could not tell from the baseline's leaf at the same path. */
  lemma {:induction false} PruneBaselineLeaves(r: Json, b: Json, path: seq<string>)
    requires r.Obj? && b.Obj?
    ensures var p := PruneBaseline(r, b);
            && (Leaf(p, path) != [] ==> Leaf(p, path) == Leaf(r, path))
            && (Leaf(p, path) == [] && Leaf(r, path) != [] ==>
                  Leaf(b, path) != [] && DeepEqual(Leaf(r, path)[0], Leaf(b, path)[0])
                  && (Faithful(r, b) ==> Leaf(r, path) == Leaf(b, path)))
    decreases |path|
  {
    if path != [] && path[0] in r.fields {
      var k, rest := path[0], path[1..];
      var rv := r.fields[k];
      if k in b.fields && rv.Obj? && b.fields[k].Obj? {
        PruneBaselineLeaves(rv, b.fields[k], rest);
        assert Leaf(Obj(map[]), rest) == [];
      } else if k in b.fields && DeepEqual(rv, b.fields[k]) && !rv.Obj? {
        assert rest != [] ==> Leaf(rv, rest) == [];
        DeepEqualExact(rv, b.fields[k]);
      }
    }
  }

  /** Where both have a leaf, it is removed exactly when deepEqual takes it for the baseline's. */
  lemma {:induction false} LeafRemovedIff(r: Json, b: Json, path: seq<string>)
    requires r.Obj? && b.Obj? && Leaf(r, path) != [] && Leaf(b, path) != []
    ensures Leaf(PruneBaseline(r, b), path) == [] <==> DeepEqual(Leaf(r, path)[0], Leaf(b, path)[0])
    ensures Leaf(Pruned(r, b), path) == [] <==> DeepEqual(Leaf(r, path)[0], Leaf(b, path)[0])
    decreases |path|
  {
    PruneEmptyLeaves(PruneBaseline(r, b), path);
    var k, rest := path[0], path[1..];
    var rv, bv := r.fields[k], b.fields[k];
    if rv.Obj? && bv.Obj? {
      LeafRemovedIff(rv, bv, rest);
      assert Leaf(Obj(map[]), rest) == [];
    } else {
      assert rest == [];
    }
  }

  /** The value at a path of object keys, if there is one. */
  function Sub(t: Json, path: seq<string>): (r: seq<Json>)
    ensures |r| <= 1
    decreases |path|
  {
    if path == [] then [t]
    else if t.Obj? && path[0] in t.fields then Sub(t.fields[path[0]], path[1..])
    else []
  }

  /** An object that pruning by the baseline empties goes with its key: one that is empty afterwards
      was empty before, and the baseline has no object in its place. */
  lemma {:induction false} EmptiesWereThere(r: Json, b: Json, path: seq<string>)
    requires r.Obj? && b.Obj? && path != [] && Sub(PruneBaseline(r, b), path) == [Obj(map[])]
    ensures Sub(r, path) == [Obj(map[])] && (Sub(b, path) != [] ==> !Sub(b, path)[0].Obj?)
    decreases |path|
  {
    var k, rest := path[0], path[1..];
    var rv := r.fields[k];
    if k in b.fields && rv.Obj? && b.fields[k].Obj? {
      assert PruneBaseline(rv, b.fields[k]) != Obj(map[]);
      if rest == [] {
        assert false;
      } else {
        EmptiesWereThere(rv, b.fields[k], rest);
      }
    }
  }

  /** Pruning by the baseline a second time finds nothing more to remove. */
  lemma {:induction false} PruneSettled(r: Json, b: Json)
    requires r.Obj? && b.Obj?
    ensures PruneBaseline(Pruned(r, b), b) == Pruned(r, b)
    decreases b
  {
    var p := PruneBaseline(r, b);
    var q := PruneEmpty(p);
    forall k | k in q.fields && k in b.fields
      ensures !Dropped(q.fields[k], b.fields[k])
      ensures q.fields[k].Obj? && b.fields[k].Obj? ==> PruneBaseline(q.fields[k], b.fields[k]) == q.fields[k]
    {
      var rv, bv := r.fields[k], b.fields[k];
      if rv.Obj? && bv.Obj? {
        PruneSettled(rv, bv);
        assert p.fields[k] == PruneBaseline(rv, bv) && q.fields[k] == Pruned(rv, bv);
      } else if rv.Obj? {
        assert q.fields[k].Obj?;
      }
    }
    assert PruneBaseline(q, b).fields.Keys == q.fields.Keys;
    assert forall k :: k in q.fields ==> PruneBaseline(q, b).fields[k] == q.fields[k];
    assert PruneBaseline(q, b).fields == q.fields;
  }

  lemma {:induction false} PruneEmptySettled(t: Json)
    requires t.Obj? && NoEmptyObject(t)
    ensures PruneEmpty(t) == t
    decreases t
  {
    forall k | k in t.fields && t.fields[k].Obj? ensures PruneEmpty(t.fields[k]) == t.fields[k] {
      PruneEmptySettled(t.fields[k]);
    }
    assert PruneEmpty(t).fields == t.fields;
  }

  /** After both prunes: no empty object outside lists, every surviving leaf at its path with its
      value, every removed leaf the baseline's as far as deepEqual can tell, and nothing left for
      a second round. */
  lemma {:induction false} PrunedManifest(r: Json, b: Json)
    requires r.Obj? && b.Obj?
    ensures NoEmptyObject(Pruned(r, b))
    ensures forall path :: Leaf(Pruned(r, b), path) != [] ==> Leaf(Pruned(r, b), path) == Leaf(r, path)
    ensures forall path :: Leaf(r, path) != [] && Leaf(Pruned(r, b), path) == [] ==>
              Leaf(b, path) != [] && DeepEqual(Leaf(r, path)[0], Leaf(b, path)[0])
              && (Faithful(r, b) ==> Leaf(r, path) == Leaf(b, path))
    ensures Pruned(Pruned(r, b), b) == Pruned(r, b)
  {
    var p := PruneBaseline(r, b);
    PruneEmptyHasNoEmptyObject(p);
    forall path: seq<string>
      ensures Leaf(Pruned(r, b), path) != [] ==> Leaf(Pruned(r, b), path) == Leaf(r, path)
      ensures Leaf(r, path) != [] && Leaf(Pruned(r, b), path) == [] ==>
                Leaf(b, path) != [] && DeepEqual(Leaf(r, path)[0], Leaf(b, path)[0])
                && (Faithful(r, b) ==> Leaf(r, path) == Leaf(b, path))
    {
      PruneEmptyLeaves(p, path);
      PruneBaselineLeaves(r, b, path);
    }
    PruneSettled(r, b);
    PruneEmptySettled(Pruned(r, b));
  }

  // ---- the two prunes together ------------------------------------------------------------------------

  /** No object that carries nothing sits where the baseline has a scalar or a list. */
  predicate NoHollowOverLeaf(t: Json, b: Json)
    requires t.Obj? && b.Obj?
    decreases b
  {
    forall k :: k in t.fields && k in b.fields && t.fields[k].Obj? ==>
      if b.fields[k].Obj? then NoHollowOverLeaf(t.fields[k], b.fields[k])
      else PruneEmpty(t.fields[k]) != Obj(map[])
  }

  /** A manifest's meaning up to objects that carry nothing. */
  function Meaning(b: Json, t: Json): Json
    requires b.Obj? && t.Obj?
  {
    PruneEmpty(Overlay(b, t))
  }

  lemma {:induction false} PruneEmptyTwice(t: Json)
    requires t.Obj?
    ensures PruneEmpty(PruneEmpty(t)) == PruneEmpty(t)
  {
    PruneEmptyHasNoEmptyObject(t);
    PruneEmptySettled(PruneEmpty(t));
  }

  /** What a tree without hollow objects holds at a key. */
  function Solid(t: Json, k: string): Json
    requires t.Obj?
  {
    At(PruneEmpty(t).fields, k)
  }

  lemma {:induction false} HollowKey(t: Json, b: Json, k: string)
    requires t.Obj? && b.Obj? && k in t.fields && t.fields[k].Obj?
    requires k in b.fields && b.fields[k].Obj? ==>
               (Meaning(b.fields[k], PruneEmpty(t.fields[k])) == Meaning(b.fields[k], t.fields[k])
                <==> NoHollowOverLeaf(t.fields[k], b.fields[k]))
    ensures (k in Meaning(b, PruneEmpty(t)).fields <==> k in Meaning(b, t).fields)
            && Solid(Overlay(b, PruneEmpty(t)), k) == Solid(Overlay(b, t), k)
            <==> k in b.fields ==> if b.fields[k].Obj? then NoHollowOverLeaf(t.fields[k], b.fields[k])
                                   else PruneEmpty(t.fields[k]) != Obj(map[])
  {
    PruneEmptyTwice(t.fields[k]);
    if k in b.fields && b.fields[k].Obj? { OverlayEmpty(b.fields[k]); }
  }

  /** Dropping hollow objects keeps the meaning exactly when none of them hides a baseline leaf. */
  lemma {:induction false} PruneEmptyMeaning(t: Json, b: Json)
    requires t.Obj? && b.Obj?
    ensures Meaning(b, PruneEmpty(t)) == Meaning(b, t) <==> NoHollowOverLeaf(t, b)
    decreases b
  {
    var x, y := Meaning(b, PruneEmpty(t)).fields, Meaning(b, t).fields;
    forall k | k in t.fields && t.fields[k].Obj?
      ensures (k in x <==> k in y) && At(x, k) == At(y, k)
              <==> k in b.fields ==> if b.fields[k].Obj? then NoHollowOverLeaf(t.fields[k], b.fields[k])
                                     else PruneEmpty(t.fields[k]) != Obj(map[])
    {
      if k in b.fields && b.fields[k].Obj? { PruneEmptyMeaning(t.fields[k], b.fields[k]); }
      HollowKey(t, b, k);
    }
    if NoHollowOverLeaf(t, b) {
      forall k ensures (k in x <==> k in y) && At(x, k) == At(y, k) {
        if k in t.fields && t.fields[k].Obj? {
        } else {
          assert k in PruneEmpty(t).fields <==> k in t.fields;
        }
      }
      assert x.Keys == y.Keys;
      assert forall k :: k in x ==> x[k] == At(x, k) && y[k] == At(y, k);
      assert x == y;
    }
  }

  lemma {:induction false} HollowSurvivesBaseline(r: Json, b: Json)
    requires r.Obj? && b.Obj?
    ensures NoHollowOverLeaf(PruneBaseline(r, b), b) <==> NoHollowOverLeaf(r, b)
    decreases b
  {
    var p := PruneBaseline(r, b);
    forall k | k in r.fields && k in b.fields && r.fields[k].Obj?
      ensures b.fields[k].Obj? ==>
                (NoHollowOverLeaf(PruneBaseline(r.fields[k], b.fields[k]), b.fields[k])
                 <==> NoHollowOverLeaf(r.fields[k], b.fields[k]))
      ensures !b.fields[k].Obj? ==> k in p.fields && p.fields[k] == r.fields[k]
    {
      assert k in p.fields <==> !Dropped(r.fields[k], b.fields[k]);
      if b.fields[k].Obj? { HollowSurvivesBaseline(r.fields[k], b.fields[k]); }
    }
    if NoHollowOverLeaf(p, b) {
      forall k | k in r.fields && k in b.fields && r.fields[k].Obj?
        ensures if b.fields[k].Obj? then NoHollowOverLeaf(r.fields[k], b.fields[k])
                else PruneEmpty(r.fields[k]) != Obj(map[])
      {
        assert k in p.fields <==> !Dropped(r.fields[k], b.fields[k]);
        if b.fields[k].Obj? && k !in p.fields {
          assert PruneBaseline(r.fields[k], b.fields[k]) == Obj(map[]);
        }
      }
    }
  }

  /** Where the tree has a leaf the overlay shows it; where it has none the overlay shows the
      baseline's or, under something else of the tree, nothing. */
  lemma {:induction false} OverlayLeaves(b: Json, t: Json, path: seq<string>)
    requires b.Obj? && t.Obj?
    ensures Leaf(t, path) != [] ==> Leaf(Overlay(b, t), path) == Leaf(t, path)
    ensures Leaf(t, path) == [] ==> Leaf(Overlay(b, t), path) == Leaf(b, path) || Leaf(Overlay(b, t), path) == []
    decreases |path|
  {
    if path == [] {
    } else {
      var k := path[0];
      if k in t.fields && k in b.fields && b.fields[k].Obj? && t.fields[k].Obj? {
        OverlayLeaves(b.fields[k], t.fields[k], path[1..]);
      }
    }
  }

  /** A dangling null shows at some leaf: pruning removes it although the baseline's differs. */
  lemma {:induction false} UnfaithfulLeaf(r: Json, b: Json) returns (path: seq<string>)
    requires r.Obj? && b.Obj? && !Faithful(r, b)
    ensures Leaf(r, path) != [] && Leaf(PruneBaseline(r, b), path) == [] && Leaf(r, path) != Leaf(b, path)
    decreases b
  {
    var k :| k in r.fields && k in b.fields &&
      !(if r.fields[k].Obj? && b.fields[k].Obj? then Faithful(r.fields[k], b.fields[k])
        else DeepEqual(r.fields[k], b.fields[k]) ==> NoDanglingNull(r.fields[k], b.fields[k]));
    var rv, bv := r.fields[k], b.fields[k];
    if rv.Obj? && bv.Obj? {
      var rest := UnfaithfulLeaf(rv, bv);
      path := [k] + rest;
      assert path[1..] == rest;
      assert Leaf(Obj(map[]), rest) == [];
    } else {
      path := [k];
      assert path[1..] == [];
      DeepEqualExact(rv, bv);
    }
  }

  /** A dangling null cannot be made good by the second prune. */
  lemma UnfaithfulMeaning(r: Json, b: Json)
    requires r.Obj? && b.Obj? && !Faithful(r, b)
    ensures Meaning(b, Pruned(r, b)) != Meaning(b, r)
  {
    var path := UnfaithfulLeaf(r, b);
    PruneEmptyLeaves(PruneBaseline(r, b), path);
    OverlayLeaves(b, Pruned(r, b), path);
    OverlayLeaves(b, r, path);
    PruneEmptyLeaves(Overlay(b, Pruned(r, b)), path);
    PruneEmptyLeaves(Overlay(b, r), path);
  }

  /** The pipeline of `convert` on every manifest: what it means over its defaults survives both
      prunes exactly when no null dangles in a compared value and no hollow object hides a baseline
      leaf. */
  lemma {:induction false} PipelineMeaning(r: Json, b: Json)
    requires r.Obj? && b.Obj?
    ensures Meaning(b, Pruned(r, b)) == Meaning(b, r) <==> Faithful(r, b) && NoHollowOverLeaf(r, b)
  {
    if Faithful(r, b) {
      PrunePreservesMeaning(r, b);
      PruneEmptyMeaning(PruneBaseline(r, b), b);
      HollowSurvivesBaseline(r, b);
    } else {
      UnfaithfulMeaning(r, b);
    }
  }
}
