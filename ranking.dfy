/** Ranking as the local analytics answer does it: Python's
    `sorted(items, key=..., reverse=True)`, a stable sort into descending key
    order, followed by taking a prefix. */
module Ranking {
  import opened Common

  /** Keys never increase from left to right. */
  ghost predicate SortedDesc<T>(s: seq<T>, key: T -> real) {
    forall i, j :: 0 <= i < j < |s| ==> key(s[i]) >= key(s[j])
  }

  /** The elements of `s` whose key is exactly `k`, in their order in `s`. */
  function KeyClass<T>(s: seq<T>, key: T -> real, k: real): seq<T> {
    if s == [] then []
    else (if key(s[0]) == k then [s[0]] else []) + KeyClass(s[1..], key, k)
  }

  /** A sort is stable when every class of equal keys keeps the input order. */
  ghost predicate SameClasses<T>(s: seq<T>, t: seq<T>, key: T -> real) {
    forall k :: KeyClass(s, key, k) == KeyClass(t, key, k)
  }

  /** Inserts `x` into a descending sequence after every element whose key is
      at least that of `x`. */
  function Insert<T>(s: seq<T>, key: T -> real, x: T): (r: seq<T>)
    ensures |r| == |s| + 1
  {
    if s == [] || key(s[0]) < key(x) then [x] + s
    else [s[0]] + Insert(s[1..], key, x)
  }

  /** Stable descending sort: insertion of each element, left to right, after
      the equal-key elements that preceded it. */
  function SortDesc<T>(s: seq<T>, key: T -> real): (r: seq<T>)
    ensures |r| == |s|
  {
    if s == [] then [] else Insert(SortDesc(s[..|s| - 1], key), key, s[|s| - 1])
  }

  /** Python's `s[:n]`. */
  function Take<T>(s: seq<T>, n: nat): (r: seq<T>)
    ensures |r| == if |s| <= n then |s| else n
    ensures r == s[..|r|]
  {
    if |s| <= n then s else s[..n]
  }

  lemma {:induction false} KeyClassAppend<T>(a: seq<T>, b: seq<T>, key: T -> real, k: real)
    ensures KeyClass(a + b, key, k) == KeyClass(a, key, k) + KeyClass(b, key, k)
  {
    if a == [] {
      assert a + b == b;
    } else {
      var ab := a + b;
      assert ab[0] == a[0] && ab[1..] == a[1..] + b;
      var head := if key(a[0]) == k then [a[0]] else [];
      assert KeyClass(ab, key, k) == head + KeyClass(a[1..] + b, key, k);
      assert KeyClass(a, key, k) == head + KeyClass(a[1..], key, k);
      KeyClassAppend(a[1..], b, key, k);
    }
  }

  lemma {:induction false} KeyClassMembers<T>(s: seq<T>, key: T -> real, k: real, x: T)
    ensures x in KeyClass(s, key, k) <==> x in s && key(x) == k
  {
    if s != [] {
      KeyClassMembers(s[1..], key, k, x);
      assert s == [s[0]] + s[1..];
    }
  }

  lemma {:induction false} KeyClassEmpty<T>(s: seq<T>, key: T -> real, k: real)
    requires forall y :: y in s ==> key(y) != k
    ensures KeyClass(s, key, k) == []
  {
    if s != [] {
      KeyClassEmpty(s[1..], key, k);
    }
  }

  lemma {:induction false} InsertMultiset<T>(s: seq<T>, key: T -> real, x: T)
    ensures multiset(Insert(s, key, x)) == multiset(s) + multiset{x}
  {
    if s != [] && key(s[0]) >= key(x) {
      InsertMultiset(s[1..], key, x);
      assert s == [s[0]] + s[1..];
    }
  }

  lemma {:induction false} InsertSorted<T>(s: seq<T>, key: T -> real, x: T)
    requires SortedDesc(s, key)
    ensures SortedDesc(Insert(s, key, x), key)
  {
    if s != [] && key(s[0]) >= key(x) {
      var r, tail := Insert(s, key, x), Insert(s[1..], key, x);
      InsertSorted(s[1..], key, x);
      InsertMultiset(s[1..], key, x);
      assert r == [s[0]] + tail;
      forall j | 0 <= j < |tail| ensures key(s[0]) >= key(tail[j]) {
        var y := tail[j];
        assert y in multiset(tail);
        if y != x {
          assert y in multiset(s[1..]);
          var m :| 0 <= m < |s[1..]| && s[1..][m] == y;
          assert s[m + 1] == y;
        }
      }
    }
  }

  lemma {:induction false} InsertClass<T>(s: seq<T>, key: T -> real, x: T, k: real)
    requires SortedDesc(s, key)
    ensures KeyClass(Insert(s, key, x), key, k) == KeyClass(s, key, k) + (if key(x) == k then [x] else [])
  {
    var r := Insert(s, key, x);
    if s == [] || key(s[0]) < key(x) {
      assert r[0] == x && r[1..] == s;
      if key(x) == k {
        // no element of the descending `s` has the key of `x`
        forall y | y in s ensures key(y) != k {
          var j :| 0 <= j < |s| && s[j] == y;
          assert key(s[0]) >= key(s[j]);
        }
        KeyClassEmpty(s, key, k);
      }
    } else {
      InsertClass(s[1..], key, x, k);
      assert r[0] == s[0] && r[1..] == Insert(s[1..], key, x);
    }
  }

  lemma {:induction false} SortDescCorrect<T>(s: seq<T>, key: T -> real)
    ensures SortedDesc(SortDesc(s, key), key)
    ensures multiset(SortDesc(s, key)) == multiset(s)
    ensures SameClasses(SortDesc(s, key), s, key)
  {
    if s != [] {
      var init, last := s[..|s| - 1], s[|s| - 1];
      assert s == init + [last];
      SortDescCorrect(init, key);
      InsertSorted(SortDesc(init, key), key, last);
      InsertMultiset(SortDesc(init, key), key, last);
      forall k ensures KeyClass(SortDesc(s, key), key, k) == KeyClass(s, key, k) {
        InsertClass(SortDesc(init, key), key, last, k);
        KeyClassAppend(init, [last], key, k);
      }
    }
  }

  /** A sorted sequence with the same key classes as `s` is determined uniquely:
      stable descending order is a specification, not one sort among many. */
  lemma {:induction false} SortedWithSameClassesUnique<T>(t: seq<T>, u: seq<T>, key: T -> real)
    requires SortedDesc(t, key) && SortedDesc(u, key)
    requires SameClasses(t, u, key)
    ensures t == u
  {
    if t == [] && u != [] {
      KeyClassMembers(u, key, key(u[0]), u[0]);
      assert false;
    } else if t != [] && u == [] {
      KeyClassMembers(t, key, key(t[0]), t[0]);
      assert false;
    } else if t != [] {
      var a, b := t[0], u[0];
      KeyClassMembers(u, key, key(b), b);
      KeyClassMembers(t, key, key(b), b);
      KeyClassMembers(t, key, key(a), a);
      KeyClassMembers(u, key, key(a), a);
      assert KeyClass(u, key, key(b)) == KeyClass(t, key, key(b));
      assert KeyClass(t, key, key(a)) == KeyClass(u, key, key(a));
      var i :| 0 <= i < |t| && t[i] == b;
      var j :| 0 <= j < |u| && u[j] == a;
      assert key(a) >= key(b) by { if i > 0 { assert key(t[0]) >= key(t[i]); } }
      assert key(b) >= key(a) by { if j > 0 { assert key(u[0]) >= key(u[j]); } }
      var top := key(a);
      assert KeyClass(t, key, top) == [a] + KeyClass(t[1..], key, top);
      assert KeyClass(u, key, top) == [b] + KeyClass(u[1..], key, top);
      assert KeyClass(t, key, top)[0] == KeyClass(u, key, top)[0];
      assert a == b;
      forall k ensures KeyClass(t[1..], key, k) == KeyClass(u[1..], key, k) {
        var head := if key(a) == k then [a] else [];
        assert KeyClass(t, key, k) == head + KeyClass(t[1..], key, k);
        assert KeyClass(u, key, k) == head + KeyClass(u[1..], key, k);
        assert KeyClass(t[1..], key, k) == KeyClass(t, key, k)[|head|..];
        assert KeyClass(u[1..], key, k) == KeyClass(u, key, k)[|head|..];
      }
      SortedWithSameClassesUnique(t[1..], u[1..], key);
      assert t == [a] + t[1..];
      assert u == [b] + u[1..];
    }
  }

  /** SortDesc is THE stable descending sort: any sorted rearrangement that keeps
      every class of equal keys in input order is equal to it. */
  lemma SortDescIsTheStableSort<T>(s: seq<T>, t: seq<T>, key: T -> real)
    requires SortedDesc(t, key) && SameClasses(t, s, key)
    ensures t == SortDesc(s, key)
  {
    SortDescCorrect(s, key);
    SortedWithSameClassesUnique(t, SortDesc(s, key), key);
  }

  /** The first `n` elements of the stable descending sort: each has a key at
      least that of every element left out; they come from `s`; and in each
      class of equal keys they are the earliest ones of `s`, in input order. */
  lemma TopOfSortDesc<T>(s: seq<T>, key: T -> real, n: nat)
    ensures var sorted := SortDesc(s, key);
            var top := Take(sorted, n);
            && |top| == Min(n, |s|)
            && (forall i, j :: 0 <= i < |top| <= j < |s| ==> key(top[i]) >= key(sorted[j]))
            && multiset(top) + multiset(sorted[|top|..]) == multiset(s)
            && (forall k :: KeyClass(top, key, k) <= KeyClass(s, key, k))
  {
    var sorted := SortDesc(s, key);
    var top := Take(sorted, n);
    SortDescCorrect(s, key);
    assert sorted == top + sorted[|top|..];
    PrefixDominates(sorted, key, |top|);
    forall k ensures KeyClass(top, key, k) <= KeyClass(s, key, k) {
      PrefixClass(sorted, s, key, |top|, k);
    }
  }

  lemma PrefixDominates<T>(sorted: seq<T>, key: T -> real, m: nat)
    requires m <= |sorted| && SortedDesc(sorted, key)
    ensures forall i, j :: 0 <= i < m <= j < |sorted| ==> key(sorted[..m][i]) >= key(sorted[j])
  {
  }

  lemma PrefixClass<T>(sorted: seq<T>, s: seq<T>, key: T -> real, m: nat, k: real)
    requires m <= |sorted| && KeyClass(sorted, key, k) == KeyClass(s, key, k)
    ensures KeyClass(sorted[..m], key, k) <= KeyClass(s, key, k)
  {
    assert sorted == sorted[..m] + sorted[m..];
    KeyClassAppend(sorted[..m], sorted[m..], key, k);
  }
}
