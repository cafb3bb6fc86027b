/**
 * The stable sort the views and the goal writer call (Array.prototype.sort with a
 * comparator), over keys made of a group string, a numeric rank and a name, with
 * String.prototype.localeCompare modelled by code-point order.
 */
module Sorting {
  import opened Text

  /** The fields a comparator looks at, in the order it looks at them. */
  datatype SortKey = SortKey(group: String, rank: int, name: String)

  predicate KeyLess(a: SortKey, b: SortKey)
  {
    StrLess(a.group, b.group)
    || (a.group == b.group && a.rank < b.rank)
    || (a.group == b.group && a.rank == b.rank && StrLess(a.name, b.name))
  }

  lemma KeyLessTotal(a: SortKey, b: SortKey)
    ensures KeyLess(a, b) || a == b || KeyLess(b, a)
  {
    StrLessTotal(a.group, b.group);
    StrLessTotal(a.name, b.name);
  }

  lemma KeyLessAsymmetric(a: SortKey, b: SortKey)
    requires KeyLess(a, b)
    ensures !KeyLess(b, a)
  {
    StrLessIrreflexive(a.group);
    StrLessIrreflexive(a.name);
    if StrLess(a.group, b.group) {
      StrLessAsymmetric(a.group, b.group);
    } else if a.rank == b.rank {
      StrLessAsymmetric(a.name, b.name);
    }
  }

  lemma KeyLessTransitive(a: SortKey, b: SortKey, c: SortKey)
    requires KeyLess(a, b) && KeyLess(b, c)
    ensures KeyLess(a, c)
  {
    if StrLess(a.group, b.group) && StrLess(b.group, c.group) {
      StrLessTransitive(a.group, b.group, c.group);
    } else if a.group == b.group && b.group == c.group && a.rank == b.rank && b.rank == c.rank {
      StrLessTransitive(a.name, b.name, c.name);
    }
  }

  /** `a` may stand before `b`. */
  predicate KeyLe(a: SortKey, b: SortKey)
  {
    !KeyLess(b, a)
  }

  lemma KeyLeTransitive(a: SortKey, b: SortKey, c: SortKey)
    requires KeyLe(a, b) && KeyLe(b, c)
    ensures KeyLe(a, c)
  {
    KeyLessTotal(a, b);
    KeyLessTotal(b, c);
    if KeyLess(c, a) && KeyLess(a, b) {
      KeyLessTransitive(c, a, b);
    }
  }

  predicate SortedBy<T>(s: seq<T>, key: T -> SortKey)
  {
    forall i, j :: 0 <= i < j < |s| ==> KeyLe(key(s[i]), key(s[j]))
  }

  /** Places `x` before the first element whose key is greater than its own. */
  function Insert<T>(s: seq<T>, x: T, key: T -> SortKey): (r: seq<T>)
    ensures |r| == |s| + 1
    ensures multiset(r) == multiset(s) + multiset{x}
  {
    if s == [] then [x]
    else if KeyLess(key(x), key(s[0])) then [x] + s
    else
      assert s == [s[0]] + s[1..];
      [s[0]] + Insert(s[1..], x, key)
  }

  /** Insertion sort; equal keys keep their input order, as the engine's stable sort does. */
  function Sort<T>(s: seq<T>, key: T -> SortKey): (r: seq<T>)
    ensures |r| == |s|
    ensures multiset(r) == multiset(s)
  {
    if s == [] then []
    else
      assert s == s[..|s| - 1] + [s[|s| - 1]];
      Insert(Sort(s[..|s| - 1], key), s[|s| - 1], key)
  }

  lemma {:induction false} InsertSorted<T>(s: seq<T>, x: T, key: T -> SortKey)
    requires SortedBy(s, key)
    ensures SortedBy(Insert(s, x, key), key)
  {
    if s == [] {
    } else if KeyLess(key(x), key(s[0])) {
      forall j | 0 <= j < |s| ensures KeyLe(key(x), key(s[j])) {
        KeyLessAsymmetric(key(x), key(s[0]));
        assert KeyLe(key(s[0]), key(s[j])) by {
          if j > 0 { assert KeyLe(key(s[0]), key(s[j])); }
          else { KeyLeReflexive(key(s[0])); }
        }
        KeyLeTransitive(key(x), key(s[0]), key(s[j]));
      }
      ConsSorted(x, s, key);
    } else {
      var t := Insert(s[1..], x, key);
      InsertSorted(s[1..], x, key);
      forall j | 0 <= j < |t| ensures KeyLe(key(s[0]), key(t[j])) {
        assert t[j] in multiset(t);
        assert t[j] in multiset(s[1..]) || t[j] == x;
        if t[j] != x {
          var k :| 0 <= k < |s[1..]| && s[1..][k] == t[j];
          assert s[k + 1] == t[j];
        }
      }
      ConsSorted(s[0], t, key);
    }
  }

  lemma KeyLeReflexive(a: SortKey)
    ensures KeyLe(a, a)
  {
    StrLessIrreflexive(a.group);
    StrLessIrreflexive(a.name);
  }

  /** An element no greater than every element of a sorted sequence can go in front of it. */
  lemma ConsSorted<T>(h: T, t: seq<T>, key: T -> SortKey)
    requires SortedBy(t, key) && forall j :: 0 <= j < |t| ==> KeyLe(key(h), key(t[j]))
    ensures SortedBy([h] + t, key)
  {
    var r := [h] + t;
    forall i, j | 0 <= i < j < |r| ensures KeyLe(key(r[i]), key(r[j])) {
      assert r[j] == t[j - 1];
      if i > 0 {
        assert r[i] == t[i - 1];
      }
    }
  }

  /** The sort's result is ordered by key. */
  lemma {:induction false} SortSorted<T>(s: seq<T>, key: T -> SortKey)
    ensures SortedBy(Sort(s, key), key)
  {
    if s != [] {
      SortSorted(s[..|s| - 1], key);
      InsertSorted(Sort(s[..|s| - 1], key), s[|s| - 1], key);
    }
  }
}
