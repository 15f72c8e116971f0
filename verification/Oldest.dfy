/** The order in which Machine collections are searched: creation time, and the name on a tie. */
module Oldest {
  import opened StringOrder

  /** Creation time and name of a Machine; names are unique within a namespace. */
  datatype Key = Key(created: int, name: string)

  predicate Before(a: Key, b: Key) { a.created < b.created || (a.created == b.created && Less(a.name, b.name)) }

  lemma BeforeTotal(a: Key, b: Key)
    ensures Before(a, b) || a == b || Before(b, a)
    ensures !(Before(a, b) && Before(b, a)) && !Before(a, a)
  {
    LessTrichotomy(a.name, b.name);
    LessTrichotomy(a.name, a.name);
  }

  lemma BeforeTransitive(a: Key, b: Key, c: Key)
    requires Before(a, b) && Before(b, c)
    ensures Before(a, c)
  {
    if a.created == b.created == c.created { LessTransitive(a.name, b.name, c.name); }
  }

  /** Nobody in the collection comes before k. */
  predicate IsOldest(keys: set<Key>, k: Key) { k in keys && forall o :: o in keys && o != k ==> Before(k, o) }

  /** `Machines.Oldest`: none only for the empty collection. */
  method FindOldest(keys: set<Key>) returns (k: Key)
    requires keys != {}
    ensures IsOldest(keys, k)
  {
    k :| k in keys;
    var rest := keys - {k};
    while rest != {}
      invariant rest <= keys && k in keys && k !in rest
      invariant forall o :: o in keys && o !in rest && o != k ==> Before(k, o)
    {
      var o :| o in rest;
      BeforeTotal(k, o);
      if Before(o, k) {
        forall p | p in keys && p !in rest && p != k ensures Before(o, p) { BeforeTransitive(o, k, p); }
        k := o;
      }
      rest := rest - {o};
    }
  }

  lemma {:induction false} OldestExists(keys: set<Key>)
    requires keys != {}
    ensures exists k :: IsOldest(keys, k)
  {
    var k :| k in keys;
    var rest := keys - {k};
    if rest == {} {
      assert keys == {k};
      assert IsOldest(keys, k);
    } else {
      OldestExists(rest);
      var o :| IsOldest(rest, o);
      BeforeTotal(k, o);
      if Before(k, o) {
        forall p | p in keys && p != k ensures Before(k, p) { if p != o { BeforeTransitive(k, o, p); } }
        assert IsOldest(keys, k);
      } else {
        assert IsOldest(keys, o);
      }
    }
  }

  lemma OldestUnique(keys: set<Key>, a: Key, b: Key)
    requires IsOldest(keys, a) && IsOldest(keys, b)
    ensures a == b
  {
    BeforeTotal(a, b);
  }

  /** The oldest of a collection, where a function is needed. */
  ghost function OldestOf(keys: set<Key>): (k: Key)
    requires keys != {}
    ensures IsOldest(keys, k)
  {
    OldestExists(keys);
    var k :| IsOldest(keys, k);
    k
  }
}
