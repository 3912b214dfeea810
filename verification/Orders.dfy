/** The order of strings, and sorting by a pair of strings. Comparing the characters of two strings
    orders them as comparing the bytes of their UTF-8 encodings does. */
module Orders {

  predicate StrLE(a: string, b: string) {
    |a| == 0 || (|b| > 0 && (a[0] < b[0] || (a[0] == b[0] && StrLE(a[1..], b[1..]))))
  }

  predicate StrLT(a: string, b: string) {
    StrLE(a, b) && a != b
  }

  lemma {:induction false} StrTotal(a: string, b: string)
    ensures StrLE(a, b) || StrLE(b, a)
    decreases |a|
  {
    if |a| > 0 && |b| > 0 && a[0] == b[0] {
      StrTotal(a[1..], b[1..]);
    }
  }

  lemma {:induction false} StrAntisymmetric(a: string, b: string)
    requires StrLE(a, b) && StrLE(b, a)
    ensures a == b
    decreases |a|
  {
    if |a| > 0 {
      StrAntisymmetric(a[1..], b[1..]);
      assert a == [a[0]] + a[1..] && b == [b[0]] + b[1..];
    }
  }

  lemma {:induction false} StrTransitive(a: string, b: string, c: string)
    requires StrLE(a, b) && StrLE(b, c)
    ensures StrLE(a, c)
    decreases |a|
  {
    if |a| > 0 && a[0] == b[0] && b[0] == c[0] {
      StrTransitive(a[1..], b[1..], c[1..]);
    }
  }

  /** `a` ends at `k`, where `b` goes on, or `k` is where they first differ and `a` is smaller there. */
  ghost predicate SmallerAt(a: string, b: string, k: nat) {
    k <= |a| && k < |b| && (forall i :: 0 <= i < k ==> a[i] == b[i]) && (k == |a| || a[k] < b[k])
  }

  ghost predicate ComesFirst(a: string, b: string) {
    exists k: nat :: SmallerAt(a, b, k)
  }

  lemma {:induction false} FirstDifference(a: string, b: string) returns (k: nat)
    requires StrLT(a, b)
    ensures SmallerAt(a, b, k)
    decreases |a|
  {
    if |a| == 0 || a[0] != b[0] {
      k := 0;
    } else {
      assert a == [a[0]] + a[1..] && b == [b[0]] + b[1..];
      var j := FirstDifference(a[1..], b[1..]);
      k := j + 1;
      assert forall i :: 1 <= i < k ==> a[i] == a[1..][i - 1] && b[i] == b[1..][i - 1];
    }
  }

  lemma {:induction false} SmallerIsLess(a: string, b: string, k: nat)
    requires SmallerAt(a, b, k)
    ensures StrLT(a, b)
    decreases k
  {
    if k > 0 {
      SmallerIsLess(a[1..], b[1..], k - 1);
    }
  }

  /** Strings are compared by the first character where they differ. */
  lemma ByFirstDifference(a: string, b: string)
    ensures StrLT(a, b) <==> ComesFirst(a, b)
    ensures StrLE(a, b) <==> a == b || ComesFirst(a, b)
  {
    StrTotal(a, a);
    if StrLT(a, b) {
      var k := FirstDifference(a, b);
    }
    if ComesFirst(a, b) {
      var k: nat :| SmallerAt(a, b, k);
      SmallerIsLess(a, b, k);
    }
  }

  // ----- Pairs -----

  type Key = (string, string)

  /** A name as a key. */
  function Identity(name: string): Key {
    (name, "")
  }

  predicate KeyLE(a: Key, b: Key) {
    if a.0 != b.0 then StrLT(a.0, b.0) else StrLE(a.1, b.1)
  }

  lemma KeyFirst(a: Key, b: Key)
    requires KeyLE(a, b)
    ensures StrLE(a.0, b.0) && (a.0 == b.0 ==> StrLE(a.1, b.1))
  {
    StrTotal(a.0, a.0);
  }

  lemma KeyTotal(a: Key, b: Key)
    ensures KeyLE(a, b) || KeyLE(b, a)
  {
    StrTotal(a.0, b.0);
    StrTotal(a.1, b.1);
  }

  lemma KeyAntisymmetric(a: Key, b: Key)
    requires KeyLE(a, b) && KeyLE(b, a)
    ensures a == b
  {
    if a.0 != b.0 {
      StrAntisymmetric(a.0, b.0);
    } else {
      StrAntisymmetric(a.1, b.1);
    }
  }

  lemma KeyTransitive(a: Key, b: Key, c: Key)
    requires KeyLE(a, b) && KeyLE(b, c)
    ensures KeyLE(a, c)
  {
    if a.0 == b.0 == c.0 {
      StrTransitive(a.1, b.1, c.1);
    } else if a.0 != b.0 && b.0 != c.0 {
      StrTransitive(a.0, b.0, c.0);
      if a.0 == c.0 {
        StrAntisymmetric(a.0, b.0);
      }
    }
  }

  // ----- Sorted sequences -----

  ghost predicate Sorted<T>(key: T -> Key, s: seq<T>) {
    forall i, j :: 0 <= i <= j < |s| ==> KeyLE(key(s[i]), key(s[j]))
  }

  ghost predicate DistinctKeys<T>(key: T -> Key, s: seq<T>) {
    forall i, j :: 0 <= i < j < |s| ==> key(s[i]) != key(s[j])
  }

  /** `r` is what sorting `s` may give, if elements with equal keys may end up in any order. */
  ghost predicate SortOf<T>(key: T -> Key, s: seq<T>, r: seq<T>) {
    Sorted(key, r) && multiset(r) == multiset(s)
  }

  lemma SameHead<T>(key: T -> Key, a: seq<T>, b: seq<T>)
    requires Sorted(key, a) && Sorted(key, b) && multiset(a) == multiset(b) && DistinctKeys(key, a)
    requires |a| > 0 && |b| > 0
    ensures a[0] == b[0]
  {
    assert a[0] in multiset(b) && b[0] in multiset(a);
    var i :| 0 <= i < |b| && b[i] == a[0];
    var j :| 0 <= j < |a| && a[j] == b[0];
    KeyAntisymmetric(key(a[0]), key(b[0]));
  }

  lemma TailMultiset<T>(s: seq<T>)
    requires |s| > 0
    ensures multiset(s[1..]) == multiset(s) - multiset{s[0]}
  {
    assert s == [s[0]] + s[1..];
  }

  lemma SameParts<T>(a: seq<T>, b: seq<T>)
    requires |a| > 0 && |b| > 0 && a[0] == b[0] && a[1..] == b[1..]
    ensures a == b
  {
    assert a == [a[0]] + a[1..] && b == [b[0]] + b[1..];
  }

  /** When the keys are distinct, sorting has one result. */
  lemma {:induction false} SortedUnique<T>(key: T -> Key, a: seq<T>, b: seq<T>)
    requires Sorted(key, a) && Sorted(key, b) && multiset(a) == multiset(b) && DistinctKeys(key, a)
    ensures a == b
    decreases |a|
  {
    assert |a| == |multiset(a)| == |multiset(b)| == |b|;
    if |a| > 0 {
      SameHead(key, a, b);
      TailMultiset(a);
      TailMultiset(b);
      SortedUnique(key, a[1..], b[1..]);
      SameParts(a, b);
    }
  }

  lemma {:induction false} DistinctOnce<T>(key: T -> Key, s: seq<T>, x: T)
    requires DistinctKeys(key, s)
    ensures multiset(s)[x] <= 1
  {
    if |s| != 0 {
      var n := |s| - 1;
      DistinctOnce(key, s[..n], x);
      assert s == s[..n] + [s[n]];
      if s[n] == x {
        assert x !in s[..n];
        assert multiset(s[..n])[x] == 0;
      }
    }
  }

  lemma TwiceInMultiset<T>(s: seq<T>, i: nat, j: nat)
    requires i < j < |s| && s[i] == s[j]
    ensures multiset(s)[s[i]] >= 2
  {
    assert s == s[..i] + [s[i]] + s[i + 1..j] + [s[j]] + s[j + 1..];
  }

  /** A rearrangement keeps keys distinct. */
  lemma SortKeepsDistinct<T>(key: T -> Key, s: seq<T>, r: seq<T>)
    requires DistinctKeys(key, s) && multiset(s) == multiset(r)
    ensures DistinctKeys(key, r)
  {
    forall i, j | 0 <= i < j < |r|
      ensures key(r[i]) != key(r[j])
    {
      assert r[i] in multiset(s) && r[j] in multiset(s);
      if r[i] == r[j] {
        DistinctOnce(key, s, r[i]);
        TwiceInMultiset(r, i, j);
      }
    }
  }

  /** Sorts by the key, equal keys in any order. */
  method SortSlice<T>(s: seq<T>, key: T -> Key) returns (r: seq<T>)
    ensures SortOf(key, s, r)
  {
    r := [];
    for i := 0 to |s|
      invariant Sorted(key, r) && multiset(r) == multiset(s[..i])
    {
      r := Insert(r, s[i], key);
      assert s[..i + 1] == s[..i] + [s[i]];
    }
    assert s[..|s|] == s;
  }

  method Insert<T>(s: seq<T>, x: T, key: T -> Key) returns (r: seq<T>)
    requires Sorted(key, s)
    ensures Sorted(key, r) && multiset(r) == multiset(s) + multiset{x}
  {
    var k := |s|;
    while k > 0 && !KeyLE(key(s[k - 1]), key(x))
      invariant 0 <= k <= |s|
      invariant forall j :: k <= j < |s| ==> KeyLE(key(x), key(s[j]))
    {
      KeyTotal(key(s[k - 1]), key(x));
      k := k - 1;
    }
    InsertedSorted(s, k, x, key);
    assert s == s[..k] + s[k..];
    r := s[..k] + [x] + s[k..];
  }

  lemma InsertedSorted<T>(s: seq<T>, k: nat, x: T, key: T -> Key)
    requires Sorted(key, s) && k <= |s| && (k > 0 ==> KeyLE(key(s[k - 1]), key(x)))
    requires forall j :: k <= j < |s| ==> KeyLE(key(x), key(s[j]))
    ensures Sorted(key, s[..k] + [x] + s[k..])
  {
    var r := s[..k] + [x] + s[k..];
    KeyTotal(key(x), key(x));
    forall j | 0 <= j < k
      ensures KeyLE(key(s[j]), key(x))
    {
      KeyTransitive(key(s[j]), key(s[k - 1]), key(x));
    }
    forall i, j | 0 <= i <= j < |r|
      ensures KeyLE(key(r[i]), key(r[j]))
    {
      assert r[i] == if i < k then s[i] else if i == k then x else s[i - 1];
      assert r[j] == if j < k then s[j] else if j == k then x else s[j - 1];
    }
  }

  // ----- Stable sorting -----

  function InsertStable<T>(s: seq<T>, x: T, key: T -> Key): seq<T> {
    if |s| == 0 || KeyLE(key(s[|s| - 1]), key(x)) then s + [x]
    else InsertStable(s[..|s| - 1], x, key) + [s[|s| - 1]]
  }

  /** Sorts by the key, equal keys in the order they came in. */
  function StableSort<T>(s: seq<T>, key: T -> Key): seq<T> {
    if |s| == 0 then [] else InsertStable(StableSort(s[..|s| - 1], key), s[|s| - 1], key)
  }

  /** The elements with a given key, in order. */
  function WithKey<T>(s: seq<T>, key: T -> Key, k: Key): seq<T> {
    if |s| == 0 then []
    else WithKey(s[..|s| - 1], key, k) + if key(s[|s| - 1]) == k then [s[|s| - 1]] else []
  }

  lemma WithKeyAppend<T>(s: seq<T>, x: T, key: T -> Key, k: Key)
    ensures WithKey(s + [x], key, k) == WithKey(s, key, k) + if key(x) == k then [x] else []
  {
    assert (s + [x])[..|s|] == s;
  }

  lemma {:induction false} InsertStableMultiset<T>(s: seq<T>, x: T, key: T -> Key)
    ensures multiset(InsertStable(s, x, key)) == multiset(s) + multiset{x}
  {
    if |s| != 0 && !KeyLE(key(s[|s| - 1]), key(x)) {
      var n := |s| - 1;
      InsertStableMultiset(s[..n], x, key);
      assert s == s[..n] + [s[n]];
    }
  }

  lemma SortedAppend<T>(s: seq<T>, x: T, key: T -> Key)
    requires Sorted(key, s) && forall i :: 0 <= i < |s| ==> KeyLE(key(s[i]), key(x))
    ensures Sorted(key, s + [x])
  {
    KeyTotal(key(x), key(x));
  }

  lemma {:induction false} InsertStableSorted<T>(s: seq<T>, x: T, key: T -> Key)
    requires Sorted(key, s)
    ensures Sorted(key, InsertStable(s, x, key))
  {
    if |s| == 0 || KeyLE(key(s[|s| - 1]), key(x)) {
      forall i | 0 <= i < |s|
        ensures KeyLE(key(s[i]), key(x))
      {
        KeyTransitive(key(s[i]), key(s[|s| - 1]), key(x));
      }
      SortedAppend(s, x, key);
    } else {
      var n := |s| - 1;
      var r := InsertStable(s[..n], x, key);
      InsertStableSorted(s[..n], x, key);
      InsertStableMultiset(s[..n], x, key);
      KeyTotal(key(s[n]), key(x));
      forall i | 0 <= i < |r|
        ensures KeyLE(key(r[i]), key(s[n]))
      {
        assert r[i] in multiset(r);
      }
      SortedAppend(r, s[n], key);
    }
  }

  lemma {:induction false} InsertStableWithKey<T>(s: seq<T>, x: T, key: T -> Key, k: Key)
    ensures WithKey(InsertStable(s, x, key), key, k) == WithKey(s, key, k) + if key(x) == k then [x] else []
  {
    if |s| == 0 || KeyLE(key(s[|s| - 1]), key(x)) {
      WithKeyAppend(s, x, key, k);
    } else {
      var n := |s| - 1;
      InsertStableWithKey(s[..n], x, key, k);
      WithKeyAppend(InsertStable(s[..n], x, key), s[n], key, k);
      KeyTotal(key(s[n]), key(x));
    }
  }

  /** Stable sorting gives a sorted rearrangement in which equal keys keep their order. */
  lemma StableSortLaws<T>(s: seq<T>, key: T -> Key, k: Key)
    ensures SortOf(key, s, StableSort(s, key))
    ensures WithKey(StableSort(s, key), key, k) == WithKey(s, key, k)
  {
    StableSortSorts(s, key);
    StableSortWithKey(s, key, k);
  }

  lemma {:induction false} StableSortSorts<T>(s: seq<T>, key: T -> Key)
    ensures SortOf(key, s, StableSort(s, key))
  {
    if |s| != 0 {
      var n := |s| - 1;
      StableSortSorts(s[..n], key);
      InsertStableMultiset(StableSort(s[..n], key), s[n], key);
      InsertStableSorted(StableSort(s[..n], key), s[n], key);
      assert s == s[..n] + [s[n]];
    }
  }

  lemma {:induction false} StableSortWithKey<T>(s: seq<T>, key: T -> Key, k: Key)
    ensures WithKey(StableSort(s, key), key, k) == WithKey(s, key, k)
  {
    if |s| != 0 {
      var n := |s| - 1;
      StableSortSorts(s[..n], key);
      StableSortWithKey(s[..n], key, k);
      InsertStableWithKey(StableSort(s[..n], key), s[n], key, k);
    }
  }

  /** A sorted sequence stays as it is. */
  lemma {:induction false} StableSortSorted<T>(s: seq<T>, key: T -> Key)
    requires Sorted(key, s)
    ensures StableSort(s, key) == s
  {
    if |s| != 0 {
      var n := |s| - 1;
      StableSortSorted(s[..n], key);
      assert s == s[..n] + [s[n]];
      if n > 0 {
        assert KeyLE(key(s[n - 1]), key(s[n]));
      }
    }
  }

  method SortSliceStable<T>(s: seq<T>, key: T -> Key) returns (r: seq<T>)
    ensures r == StableSort(s, key)
  {
    r := [];
    for i := 0 to |s|
      invariant r == StableSort(s[..i], key)
    {
      assert s[..i + 1][..i] == s[..i];
      r := InsertInOrder(r, s[i], key);
    }
    assert s[..|s|] == s;
  }

  method InsertInOrder<T>(s: seq<T>, x: T, key: T -> Key) returns (r: seq<T>)
    ensures r == InsertStable(s, x, key)
  {
    var k := |s|;
    assert s[..k] == s && s + [] == s;
    while k > 0 && !KeyLE(key(s[k - 1]), key(x))
      invariant 0 <= k <= |s|
      invariant InsertStable(s[..k], x, key) + s[k..] == InsertStable(s, x, key)
    {
      assert s[..k][..k - 1] == s[..k - 1];
      assert [s[k - 1]] + s[k..] == s[k - 1..];
      k := k - 1;
    }
    r := s[..k] + [x] + s[k..];
  }
}
