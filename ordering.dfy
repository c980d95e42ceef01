/** The order a Django `Meta.ordering = [f1, f2]` puts on query results, with
    both fields text: code-point lexicographic on `f1`, then on `f2`. Database
    collations are not modelled. */
module Ordering {

  /** Python's `a <= b` on `str`. */
  predicate StrLe(a: string, b: string)
    decreases |a|
  {
    a == [] || (b != [] && (a[0] < b[0] || (a[0] == b[0] && StrLe(a[1..], b[1..]))))
  }

  lemma {:induction false} StrLeTotal(a: string, b: string)
    ensures StrLe(a, b) || StrLe(b, a)
    decreases |a|
  {
    if a != [] && b != [] && a[0] == b[0] {
      StrLeTotal(a[1..], b[1..]);
    }
  }

  lemma {:induction false} StrLeTransitive(a: string, b: string, c: string)
    requires StrLe(a, b) && StrLe(b, c)
    ensures StrLe(a, c)
    decreases |a|
  {
    if a != [] && a[0] == b[0] && b[0] == c[0] {
      StrLeTransitive(a[1..], b[1..], c[1..]);
    }
  }

  lemma {:induction false} StrLeAntisymmetric(a: string, b: string)
    requires StrLe(a, b) && StrLe(b, a)
    ensures a == b
    decreases |a|
  {
    if a != [] {
      StrLeAntisymmetric(a[1..], b[1..]);
      assert a == [a[0]] + a[1..] && b == [b[0]] + b[1..];
    }
  }

  lemma {:induction false} StrLeReflexive(a: string)
    ensures StrLe(a, a)
    decreases |a|
  {
    if a != [] {
      StrLeReflexive(a[1..]);
    }
  }

  /** The two ordering fields of one row. */
  type Key = (string, string)

  predicate KeyLe(x: Key, y: Key) {
    (StrLe(x.0, y.0) && x.0 != y.0) || (x.0 == y.0 && StrLe(x.1, y.1))
  }

  lemma KeyLeTotal(x: Key, y: Key)
    ensures KeyLe(x, y) || KeyLe(y, x)
  {
    StrLeTotal(x.0, y.0);
    StrLeTotal(x.1, y.1);
  }

  lemma KeyLeReflexive(x: Key)
    ensures KeyLe(x, x)
  {
    StrLeReflexive(x.1);
  }

  lemma KeyLeTransitive(x: Key, y: Key, z: Key)
    requires KeyLe(x, y) && KeyLe(y, z)
    ensures KeyLe(x, z)
  {
    if x.0 == y.0 && y.0 == z.0 {
      StrLeTransitive(x.1, y.1, z.1);
    } else if x.0 == y.0 || y.0 == z.0 {
    } else {
      StrLeTransitive(x.0, y.0, z.0);
      if x.0 == z.0 {
        StrLeAntisymmetric(x.0, y.0);
      }
    }
  }

  lemma KeyLeAntisymmetric(x: Key, y: Key)
    requires KeyLe(x, y) && KeyLe(y, x)
    ensures x == y
  {
    if x.0 == y.0 {
      StrLeAntisymmetric(x.1, y.1);
    } else {
      StrLeAntisymmetric(x.0, y.0);
    }
  }

  ghost predicate SortedBy<T>(s: seq<T>, key: T -> Key) {
    forall i, j :: 0 <= i < j < |s| ==> KeyLe(key(s[i]), key(s[j]))
  }

  /** `x` placed before the first element whose key is not below its own. */
  function Insert<T>(x: T, s: seq<T>, key: T -> Key): (r: seq<T>)
    ensures multiset(r) == multiset(s) + multiset{x}
    decreases |s|
  {
    if s == [] then [x]
    else if KeyLe(key(x), key(s[0])) then [x] + s
    else
      assert s == [s[0]] + s[1..];
      [s[0]] + Insert(x, s[1..], key)
  }

  lemma {:induction false} InsertSorted<T>(x: T, s: seq<T>, key: T -> Key)
    requires SortedBy(s, key)
    ensures SortedBy(Insert(x, s, key), key)
    decreases |s|
  {
    var r := Insert(x, s, key);
    if s == [] {
    } else if KeyLe(key(x), key(s[0])) {
      forall j | 0 < j < |r| ensures KeyLe(key(r[0]), key(r[j])) {
        if j > 1 { KeyLeTransitive(key(x), key(s[0]), key(s[j - 1])); }
      }
    } else {
      KeyLeTotal(key(x), key(s[0]));
      var t := Insert(x, s[1..], key);
      InsertSorted(x, s[1..], key);
      forall j | 0 <= j < |t| ensures KeyLe(key(s[0]), key(t[j])) {
        assert t[j] in multiset(t);
        if t[j] != x {
          assert t[j] in multiset(s[1..]);
          var k :| 0 <= k < |s[1..]| && s[1..][k] == t[j];
          assert s[k + 1] == t[j];
        }
      }
    }
  }

  /** The rows in `Meta.ordering` order; rows with equal keys keep their
      relative order. */
  function SortBy<T>(s: seq<T>, key: T -> Key): (r: seq<T>)
    ensures multiset(r) == multiset(s)
    ensures |r| == |s|
    decreases |s|
  {
    if s == [] then []
    else
      var t := SortBy(s[1..], key);
      assert s == [s[0]] + s[1..];
      assert |multiset(Insert(s[0], t, key))| == |s|;
      Insert(s[0], t, key)
  }

  lemma {:induction false} SortBySorted<T>(s: seq<T>, key: T -> Key)
    ensures SortedBy(SortBy(s, key), key)
    decreases |s|
  {
    if s != [] {
      SortBySorted(s[1..], key);
      InsertSorted(s[0], SortBy(s[1..], key), key);
    }
  }

  lemma SortedHeadIsLeast<T>(a: seq<T>, key: T -> Key, x: T)
    requires SortedBy(a, key) && x in multiset(a)
    ensures KeyLe(key(a[0]), key(x))
  {
    var i :| 0 <= i < |a| && a[i] == x;
    if i == 0 { KeyLeReflexive(key(x)); }
  }

  lemma SortedTail<T>(a: seq<T>, key: T -> Key)
    requires a != [] && SortedBy(a, key)
    ensures SortedBy(a[1..], key)
  {
    forall p, q | 0 <= p < q < |a[1..]| ensures KeyLe(key(a[1..][p]), key(a[1..][q])) {
      assert a[1..][p] == a[p + 1] && a[1..][q] == a[q + 1];
    }
  }

  ghost predicate KeyInjective<T>(a: seq<T>, key: T -> Key) {
    forall i, j :: 0 <= i < |a| && 0 <= j < |a| && key(a[i]) == key(a[j]) ==> a[i] == a[j]
  }

  lemma InjectiveTail<T>(a: seq<T>, key: T -> Key)
    requires a != [] && KeyInjective(a, key)
    ensures KeyInjective(a[1..], key)
  {
    forall p, q | 0 <= p < |a[1..]| && 0 <= q < |a[1..]| && key(a[1..][p]) == key(a[1..][q])
      ensures a[1..][p] == a[1..][q]
    {
      assert a[1..][p] == a[p + 1] && a[1..][q] == a[q + 1];
    }
  }

  lemma SameHead<T>(a: seq<T>, b: seq<T>, key: T -> Key)
    requires a != [] && multiset(a) == multiset(b)
    requires SortedBy(a, key) && SortedBy(b, key)
    requires KeyInjective(a, key)
    ensures b != [] && a[0] == b[0]
  {
    assert |b| == |multiset(b)| == |a|;
    assert a[0] in multiset(b) && b[0] in multiset(a);
    SortedHeadIsLeast(a, key, b[0]);
    SortedHeadIsLeast(b, key, a[0]);
    KeyLeAntisymmetric(key(a[0]), key(b[0]));
    var i :| 0 <= i < |a| && a[i] == b[0];
  }

  /** Two orderings of the same rows agree when no two distinct rows share a
      key: the order of a query is then fully determined. */
  lemma {:induction false} SortedUnique<T>(a: seq<T>, b: seq<T>, key: T -> Key)
    requires multiset(a) == multiset(b)
    requires SortedBy(a, key) && SortedBy(b, key)
    requires KeyInjective(a, key)
    ensures a == b
    decreases |a|
  {
    if a == [] {
      assert |b| == |multiset(b)| == 0;
    } else {
      SameHead(a, b, key);
      var a', b' := a[1..], b[1..];
      assert a == [a[0]] + a' && b == [b[0]] + b';
      assert multiset(a') == multiset(b') by {
        assert multiset(a') == multiset(a) - multiset{a[0]};
        assert multiset(b') == multiset(b) - multiset{b[0]};
      }
      SortedTail(a, key);
      SortedTail(b, key);
      InjectiveTail(a, key);
      SortedUnique(a', b', key);
    }
  }
}
