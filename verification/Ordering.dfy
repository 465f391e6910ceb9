/** Sorting by a key under an abstract total order (String.prototype.localeCompare, code unit order), as
    Array.prototype.sort does, and when it is a canonical form. */
module Ordering {
  import opened Common

  ghost predicate TotalOrder<K(!new)>(leq: (K, K) -> bool) {
    && (forall a, b :: leq(a, b) || leq(b, a))
    && (forall a, b :: leq(a, b) && leq(b, a) ==> a == b)
    && (forall a, b, c :: leq(a, b) && leq(b, c) ==> leq(a, c))
  }

  function Insert<T, K>(x: T, s: seq<T>, key: T -> K, leq: (K, K) -> bool): (r: seq<T>)
    ensures multiset(r) == multiset(s) + multiset{x}
  {
    if s == [] then [x]
    else if leq(key(s[|s| - 1]), key(x)) then s + [x]
    else
      assert s == s[..|s| - 1] + [s[|s| - 1]];
      Insert(x, s[..|s| - 1], key, leq) + [s[|s| - 1]]
  }

  /** The stable sort of s by key. */
  function SortBy<T, K>(s: seq<T>, key: T -> K, leq: (K, K) -> bool): (r: seq<T>)
    ensures multiset(r) == multiset(s) && |r| == |s|
  {
    if s == [] then []
    else
      assert s == s[..|s| - 1] + [s[|s| - 1]];
      var r := Insert(s[|s| - 1], SortBy(s[..|s| - 1], key, leq), key, leq);
      assert |multiset(r)| == |multiset(s)|;
      r
  }

  predicate Sorted<T, K>(s: seq<T>, key: T -> K, leq: (K, K) -> bool) {
    forall i, j :: 0 <= i < j < |s| ==> leq(key(s[i]), key(s[j]))
  }

  /** Elements with the same key are the same element. */
  predicate KeysIdentify<T(==), K(==)>(s: seq<T>, key: T -> K) {
    forall i, j :: 0 <= i < |s| && 0 <= j < |s| && key(s[i]) == key(s[j]) ==> s[i] == s[j]
  }

  lemma {:induction false} InsertSorted<T, K(!new)>(x: T, s: seq<T>, key: T -> K, leq: (K, K) -> bool)
    requires TotalOrder(leq) && Sorted(s, key, leq)
    ensures Sorted(Insert(x, s, key, leq), key, leq)
  {
    if s != [] && !leq(key(s[|s| - 1]), key(x)) {
      var n := |s| - 1;
      var front := Insert(x, s[..n], key, leq);
      InsertSorted(x, s[..n], key, leq);
      forall i | 0 <= i < |front| ensures leq(key(front[i]), key(s[n])) {
        assert front[i] in multiset(front);
        assert front[i] == x || front[i] in s[..n];
      }
    }
  }

  lemma {:induction false} SortBySorted<T, K(!new)>(s: seq<T>, key: T -> K, leq: (K, K) -> bool)
    requires TotalOrder(leq)
    ensures Sorted(SortBy(s, key, leq), key, leq)
  {
    if s != [] {
      SortBySorted(s[..|s| - 1], key, leq);
      InsertSorted(s[|s| - 1], SortBy(s[..|s| - 1], key, leq), key, leq);
    }
  }

  lemma LastIsUnique<T, K(!new)>(a: seq<T>, b: seq<T>, key: T -> K, leq: (K, K) -> bool)
    requires TotalOrder(leq) && Sorted(a, key, leq) && Sorted(b, key, leq) && a != [] && b != []
    requires KeysIdentify(a, key) && multiset(a) == multiset(b)
    ensures a[|a| - 1] == b[|b| - 1]
  {
    var x, y := a[|a| - 1], b[|b| - 1];
    assert x in multiset(b) && y in multiset(a);
    var i :| 0 <= i < |a| && a[i] == y;
    var j :| 0 <= j < |b| && b[j] == x;
    assert leq(key(y), key(x)) && leq(key(x), key(y));
  }

  lemma PrefixSorted<T, K>(a: seq<T>, key: T -> K, leq: (K, K) -> bool)
    requires Sorted(a, key, leq) && a != []
    ensures Sorted(a[..|a| - 1], key, leq) && (KeysIdentify(a, key) ==> KeysIdentify(a[..|a| - 1], key))
  {
  }

  lemma WithoutLast<T>(a: seq<T>)
    requires a != []
    ensures a == a[..|a| - 1] + [a[|a| - 1]]
    ensures multiset(a[..|a| - 1]) == multiset(a) - multiset{a[|a| - 1]}
  {
    assert a == a[..|a| - 1] + [a[|a| - 1]];
  }

  lemma SameSize<T>(a: seq<T>, b: seq<T>)
    requires multiset(a) == multiset(b)
    ensures |a| == |b|
  {
    assert |multiset(a)| == |a| && |multiset(b)| == |b|;
  }

  lemma {:induction false} SortedIsUnique<T, K(!new)>(a: seq<T>, b: seq<T>, key: T -> K, leq: (K, K) -> bool)
    requires TotalOrder(leq) && Sorted(a, key, leq) && Sorted(b, key, leq)
    requires KeysIdentify(a, key) && multiset(a) == multiset(b)
    ensures a == b
    decreases |a|
  {
    SameSize(a, b);
    if a != [] {
      LastIsUnique(a, b, key, leq);
      WithoutLast(a);
      WithoutLast(b);
      PrefixSorted(a, key, leq);
      PrefixSorted(b, key, leq);
      SortedIsUnique(a[..|a| - 1], b[..|b| - 1], key, leq);
    }
  }

  /** When keys identify elements, sorting forgets the order and nothing else. */
  lemma SortIsCanonical<T, K(!new)>(a: seq<T>, b: seq<T>, key: T -> K, leq: (K, K) -> bool)
    requires TotalOrder(leq) && KeysIdentify(a, key)
    ensures SortBy(a, key, leq) == SortBy(b, key, leq) <==> multiset(a) == multiset(b)
  {
    var x, y := SortBy(a, key, leq), SortBy(b, key, leq);
    if multiset(a) == multiset(b) {
      SortBySorted(a, key, leq);
      SortBySorted(b, key, leq);
      forall i, j | 0 <= i < |x| && 0 <= j < |x| && key(x[i]) == key(x[j]) ensures x[i] == x[j] {
        assert x[i] in multiset(a) && x[j] in multiset(a);
      }
      SortedIsUnique(x, y, key, leq);
    }
  }

  lemma MappedAppend<T, U>(s: seq<T>, x: T, f: T -> U)
    ensures Mapped(s + [x], f) == Mapped(s, f) + [f(x)]
  {
  }

  lemma MappedFront<T, U>(s: seq<T>, f: T -> U)
    requires s != []
    ensures Mapped(s, f)[..|s| - 1] == Mapped(s[..|s| - 1], f) && Mapped(s, f)[|s| - 1] == f(s[|s| - 1])
  {
  }

  lemma {:induction false} InsertMapped<T, U, K>(
      x: T, s: seq<T>, f: T -> U, key: T -> K, key': U -> K, leq: (K, K) -> bool)
    requires forall y :: key'(f(y)) == key(y)
    ensures Mapped(Insert(x, s, key, leq), f) == Insert(f(x), Mapped(s, f), key', leq)
  {
    if s == [] {
    } else {
      var front, last := s[..|s| - 1], s[|s| - 1];
      MappedFront(s, f);
      assert key'(f(last)) == key(last) && key'(f(x)) == key(x);
      if leq(key(last), key(x)) {
        MappedAppend(s, x, f);
      } else {
        InsertMapped(x, front, f, key, key', leq);
        MappedAppend(Insert(x, front, key, leq), last, f);
      }
    }
  }

  /** Sorting by a key commutes with any change of the elements that keeps it. */
  lemma {:induction false} SortMapped<T, U, K>(s: seq<T>, f: T -> U, key: T -> K, key': U -> K, leq: (K, K) -> bool)
    requires forall y :: key'(f(y)) == key(y)
    ensures Mapped(SortBy(s, key, leq), f) == SortBy(Mapped(s, f), key', leq)
  {
    if s != [] {
      var front := s[..|s| - 1];
      MappedFront(s, f);
      SortMapped(front, f, key, key', leq);
      InsertMapped(s[|s| - 1], SortBy(front, key, leq), f, key, key', leq);
    }
  }
}
