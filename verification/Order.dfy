/** String order and sorting, as Go's `sort.Sort` promises it: some sorted permutation. */
module Order {

  /** Go's `<` on strings. */
  predicate StrLess(a: string, b: string) {
    b != [] && (a == [] || a[0] < b[0] || (a[0] == b[0] && StrLess(a[1..], b[1..])))
  }

  lemma {:induction false} StrLessIrreflexive(a: string)
    ensures !StrLess(a, a)
  {
    if a != [] { StrLessIrreflexive(a[1..]); }
  }

  lemma {:induction false} StrLessTransitive(a: string, b: string, c: string)
    requires StrLess(a, b) && StrLess(b, c)
    ensures StrLess(a, c)
  {
    if a != [] && a[0] == b[0] && b[0] == c[0] { StrLessTransitive(a[1..], b[1..], c[1..]); }
  }

  lemma {:induction false} StrLessTotal(a: string, b: string)
    ensures a == b || StrLess(a, b) || StrLess(b, a)
  {
    if a != [] && b != [] && a[0] == b[0] {
      StrLessTotal(a[1..], b[1..]);
      if a[1..] == b[1..] { assert a == [a[0]] + a[1..] && b == [b[0]] + b[1..]; }
    }
  }

  /** What a comparator must satisfy for a sorted result to exist and mean something. */
  ghost predicate WeakOrder<T(!new)>(less: (T, T) -> bool) {
    && (forall a :: !less(a, a))
    && (forall a, b, c :: less(a, b) && less(b, c) ==> less(a, c))
    && (forall a, b, c :: !less(a, b) && !less(b, c) ==> !less(a, c))
  }

  ghost predicate Sorted<T>(s: seq<T>, less: (T, T) -> bool) {
    forall i, j :: 0 <= i < j < |s| ==> !less(s[j], s[i])
  }

  /** Elements that the order cannot tell apart are equal. */
  ghost predicate TiesAreEqual<T>(s: seq<T>, less: (T, T) -> bool) {
    forall x, y :: x in s && y in s && !less(x, y) && !less(y, x) ==> x == y
  }

  lemma SortedHeads<T>(a: seq<T>, b: seq<T>, less: (T, T) -> bool)
    requires Sorted(a, less) && Sorted(b, less) && multiset(a) == multiset(b)
    requires TiesAreEqual(a, less) && a != [] && b != []
    ensures a[0] == b[0]
  {
    assert a[0] in multiset(b) && b[0] in multiset(a);
    var i :| 0 <= i < |b| && b[i] == a[0];
    var j :| 0 <= j < |a| && a[j] == b[0];
    if i != 0 && j != 0 {
      assert !less(b[i], b[0]) && !less(a[j], a[0]);
    }
  }

  lemma SameTails<T>(a: seq<T>, b: seq<T>)
    requires multiset(a) == multiset(b) && a != [] && b != [] && a[0] == b[0]
    ensures multiset(a[1..]) == multiset(b[1..])
  {
    assert a == [a[0]] + a[1..] && b == [b[0]] + b[1..];
    assert multiset(a) == multiset{a[0]} + multiset(a[1..]);
    assert multiset(b) == multiset{b[0]} + multiset(b[1..]);
    assert multiset(a[1..]) == multiset(a) - multiset{a[0]};
  }

  /** A sorted permutation is unique when ties are equal, whatever algorithm produced it. */
  lemma {:induction false} SortedIsCanonical<T>(a: seq<T>, b: seq<T>, less: (T, T) -> bool)
    requires Sorted(a, less) && Sorted(b, less) && multiset(a) == multiset(b)
    requires TiesAreEqual(a, less)
    ensures a == b
  {
    assert |a| == |multiset(a)| == |multiset(b)| == |b|;
    if a != [] {
      SortedHeads(a, b, less);
      SameTails(a, b);
      SortedIsCanonical(a[1..], b[1..], less);
    }
  }

  ghost predicate Distinct<T>(s: seq<T>) {
    forall i, j :: 0 <= i < j < |s| ==> s[i] != s[j]
  }

  lemma {:induction false} DistinctCounts<T>(s: seq<T>, x: T)
    requires Distinct(s)
    ensures multiset(s)[x] <= 1
  {
    if s != [] {
      var t := s[..|s| - 1];
      assert s == t + [s[|s| - 1]];
      DistinctCounts(t, x);
      if x == s[|s| - 1] { assert x !in t; }
    }
  }

  /** A permutation of distinct elements has distinct elements. */
  lemma DistinctPermutes<T>(a: seq<T>, b: seq<T>)
    requires Distinct(a) && multiset(a) == multiset(b)
    ensures Distinct(b)
  {
    forall i, j | 0 <= i < j < |b| ensures b[i] != b[j] {
      assert b == b[..j] + [b[j]] + b[j + 1..];
      DistinctCounts(a, b[j]);
      assert b[..j][i] == b[i];
    }
  }

  /** Two different elements that tie can change places in a sorted sequence. */
  lemma SwapTies<T(!new)>(s: seq<T>, less: (T, T) -> bool) returns (r: seq<T>)
    requires WeakOrder(less) && Sorted(s, less) && !TiesAreEqual(s, less)
    ensures Sorted(r, less) && multiset(r) == multiset(s) && r != s
  {
    var x, y :| x in s && y in s && !less(x, y) && !less(y, x) && x != y;
    var i :| 0 <= i < |s| && s[i] == x;
    var j :| 0 <= j < |s| && s[j] == y;
    r := s[i := y][j := x];
    assert r[i] == y && r[i] != s[i];
    forall k, l | 0 <= k < l < |r| ensures !less(r[l], r[k]) {
      SwappedTies(s, less, i, j, k, l);
    }
  }

  lemma SwappedTies<T(!new)>(s: seq<T>, less: (T, T) -> bool, i: nat, j: nat, k: nat, l: nat)
    requires WeakOrder(less) && Sorted(s, less) && i < |s| && j < |s| && k < l < |s|
    requires !less(s[i], s[j]) && !less(s[j], s[i])
    ensures var r := s[i := s[j]][j := s[i]]; !less(r[l], r[k])
  {
    var r := s[i := s[j]][j := s[i]];
    assert !less(s[l], s[k]);
    assert !less(r[l], s[l]) && !less(s[k], r[k]);
    assert !less(r[l], s[k]);
  }

  /** Inserts into a sorted sequence. */
  method Insert<T(!new)>(s: seq<T>, x: T, less: (T, T) -> bool) returns (r: seq<T>)
    requires WeakOrder(less) && Sorted(s, less)
    ensures Sorted(r, less) && multiset(r) == multiset(s) + multiset{x}
  {
    var k := 0;
    while k < |s| && !less(x, s[k])
      invariant 0 <= k <= |s|
      invariant forall i :: 0 <= i < k ==> !less(x, s[i])
    {
      k := k + 1;
    }
    r := s[..k] + [x] + s[k..];
    assert s == s[..k] + s[k..];
    forall i, j | 0 <= i < j < |r| ensures !less(r[j], r[i]) {
      if i == k {
        assert less(x, s[k]) && (j - 1 == k || !less(s[j - 1], s[k]));
      }
    }
  }

  /** `sort.Sort`.  Callers may rely only on the contract. */
  method Sort<T(!new)>(s: seq<T>, less: (T, T) -> bool) returns (r: seq<T>)
    requires WeakOrder(less)
    ensures Sorted(r, less) && multiset(r) == multiset(s)
  {
    r := [];
    var i := 0;
    while i < |s|
      invariant 0 <= i <= |s|
      invariant Sorted(r, less) && multiset(r) == multiset(s[..i])
    {
      r := Insert(r, s[i], less);
      assert s[..i + 1] == s[..i] + [s[i]];
      i := i + 1;
    }
    assert s[..i] == s;
  }

  /** Comparing a string key is a weak order. */
  lemma ByKeyIsWeakOrder<T(!new)>(key: T -> string, less: (T, T) -> bool)
    requires forall a, b :: less(a, b) <==> StrLess(key(a), key(b))
    ensures WeakOrder(less)
  {
    forall a ensures !less(a, a) { StrLessIrreflexive(key(a)); }
    forall a, b, c | less(a, b) && less(b, c) ensures less(a, c) { StrLessTransitive(key(a), key(b), key(c)); }
    forall a, b, c | !less(a, b) && !less(b, c) ensures !less(a, c) {
      StrLessTotal(key(a), key(b));
      StrLessTotal(key(b), key(c));
      if less(a, c) {
        if key(a) != key(b) { StrLessTransitive(key(b), key(a), key(c)); }
      }
    }
  }

  lemma ReversedPermutes<T>(a: T, b: T, c: T)
    ensures multiset([a, b, c]) == multiset([c, b, a])
  {
    assert multiset([a, b, c]) == multiset{a, b, c};
    assert multiset([c, b, a]) == multiset{a, b, c};
  }
}
