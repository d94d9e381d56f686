/**
 * `sorted(curr_metrics)`: Python orders (namespace, pod, container) tuples
 * field by field, and strings by code point, lexicographically.
 */
module KeyOrder {
  import opened Labels

  /** `a < b` on Python strings. */
  predicate StrLess(a: string, b: string) {
    if a == [] then b != []
    else if b == [] then false
    else a[0] < b[0] || (a[0] == b[0] && StrLess(a[1..], b[1..]))
  }

  lemma {:induction false} StrLessIrreflexive(a: string)
    ensures !StrLess(a, a)
  {
    if a != [] {
      StrLessIrreflexive(a[1..]);
    }
  }

  lemma {:induction false} StrLessTransitive(a: string, b: string, c: string)
    requires StrLess(a, b) && StrLess(b, c)
    ensures StrLess(a, c)
  {
    if a != [] && b != [] && c != [] && a[0] == b[0] == c[0] {
      StrLessTransitive(a[1..], b[1..], c[1..]);
    }
  }

  lemma {:induction false} StrLessTotal(a: string, b: string)
    ensures a == b || StrLess(a, b) || StrLess(b, a)
  {
    if a != [] && b != [] && a[0] == b[0] {
      StrLessTotal(a[1..], b[1..]);
      if a[1..] == b[1..] {
        assert a == [a[0]] + a[1..] && b == [b[0]] + b[1..];
      }
    }
  }

  /** `x < y` on (namespace, pod, container) tuples. */
  predicate KeyLess(x: Key, y: Key) {
    || StrLess(x.namespace, y.namespace)
    || (x.namespace == y.namespace && StrLess(x.pod, y.pod))
    || (x.namespace == y.namespace && x.pod == y.pod && StrLess(x.container, y.container))
  }

  /** The tuple order is a strict total order, so sorting distinct keys has one answer. */
  lemma KeyLessStrictTotal(x: Key, y: Key, z: Key)
    ensures !KeyLess(x, x)
    ensures KeyLess(x, y) && KeyLess(y, z) ==> KeyLess(x, z)
    ensures x == y || KeyLess(x, y) || KeyLess(y, x)
  {
    StrLessIrreflexive(x.namespace);
    StrLessIrreflexive(x.pod);
    StrLessIrreflexive(x.container);
    StrLessTotal(x.namespace, y.namespace);
    StrLessTotal(x.pod, y.pod);
    StrLessTotal(x.container, y.container);
    if KeyLess(x, y) && KeyLess(y, z) {
      if StrLess(x.namespace, y.namespace) && StrLess(y.namespace, z.namespace) {
        StrLessTransitive(x.namespace, y.namespace, z.namespace);
      }
      if StrLess(x.pod, y.pod) && StrLess(y.pod, z.pod) {
        StrLessTransitive(x.pod, y.pod, z.pod);
      }
      if StrLess(x.container, y.container) && StrLess(y.container, z.container) {
        StrLessTransitive(x.container, y.container, z.container);
      }
    }
  }

  predicate StrictlySorted(s: seq<Key>) {
    forall i, j :: 0 <= i < j < |s| ==> KeyLess(s[i], s[j])
  }

  predicate Distinct<T(==)>(s: seq<T>) {
    forall i, j :: 0 <= i < j < |s| ==> s[i] != s[j]
  }

  /** Every key of `s` comes after `a`. */
  predicate Above(a: Key, s: seq<Key>) {
    forall j :: 0 <= j < |s| ==> KeyLess(a, s[j])
  }

  lemma ConsSorted(a: Key, s: seq<Key>)
    requires StrictlySorted(s) && Above(a, s)
    ensures StrictlySorted([a] + s)
  {
  }

  lemma SortedHeadAbove(s: seq<Key>)
    requires StrictlySorted(s) && s != []
    ensures Above(s[0], s[1..]) && StrictlySorted(s[1..])
  {
  }

  lemma AboveTransitive(a: Key, b: Key, s: seq<Key>)
    requires KeyLess(a, b) && Above(b, s)
    ensures Above(a, s)
  {
    forall j | 0 <= j < |s| ensures KeyLess(a, s[j]) {
      KeyLessStrictTotal(a, b, s[j]);
    }
  }

  lemma AboveSameKeys(a: Key, t: seq<Key>, u: seq<Key>, x: Key)
    requires multiset(t) == multiset(u) + multiset{x} && Above(a, u) && KeyLess(a, x)
    ensures Above(a, t)
  {
    forall j | 0 <= j < |t| ensures KeyLess(a, t[j]) {
      assert t[j] in multiset(t);
      if t[j] != x {
        assert t[j] in multiset(u);
        var i :| 0 <= i < |u| && u[i] == t[j];
      }
    }
  }

  function Insert(x: Key, s: seq<Key>): (r: seq<Key>)
    requires StrictlySorted(s) && x !in s
    ensures StrictlySorted(r) && multiset(r) == multiset(s) + multiset{x}
  {
    if s == [] then [x]
    else
      KeyLessStrictTotal(x, s[0], s[0]);
      SortedHeadAbove(s);
      if KeyLess(x, s[0]) then
        AboveTransitive(x, s[0], s[1..]);
        assert Above(x, s) by {
          assert s == [s[0]] + s[1..];
        }
        ConsSorted(x, s);
        [x] + s
      else
        assert s == [s[0]] + s[1..];
        var rest := Insert(x, s[1..]);
        AboveSameKeys(s[0], rest, s[1..], x);
        ConsSorted(s[0], rest);
        [s[0]] + rest
  }

  /** `sorted(keys)` for distinct keys: ascending, and the same keys. */
  function Sort(s: seq<Key>): (r: seq<Key>)
    requires Distinct(s)
    ensures StrictlySorted(r) && multiset(r) == multiset(s)
    ensures |r| == |s| && forall k :: k in r <==> k in s
  {
    if s == [] then []
    else
      assert s == [s[0]] + s[1..];
      var rest := Sort(s[1..]);
      assert s[0] !in multiset(rest);
      var r := Insert(s[0], rest);
      assert forall k :: k in r <==> k in multiset(r);
      assert forall k :: k in s <==> k in multiset(s);
      assert |r| == |multiset(r)|;
      r
  }

  lemma StrictlySortedDistinct(s: seq<Key>)
    requires StrictlySorted(s)
    ensures Distinct(s)
  {
    forall i, j | 0 <= i < j < |s| ensures s[i] != s[j] {
      KeyLessStrictTotal(s[i], s[j], s[j]);
    }
  }
}
