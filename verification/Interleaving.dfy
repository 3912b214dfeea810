/** Interleavings: one sequence made of several, the order inside each of them kept. */
module Interleaving {

  /** The elements of `whole` that carry tag `i`, in order. */
  function Tagged<T>(whole: seq<T>, tags: seq<nat>, i: nat): seq<T>
    requires |tags| == |whole|
  {
    if |whole| == 0 then []
    else
      var n := |whole| - 1;
      Tagged(whole[..n], tags[..n], i) + if tags[n] == i then [whole[n]] else []
  }

  ghost predicate Splits<T>(whole: seq<T>, tags: seq<nat>, parts: seq<seq<T>>) {
    && |tags| == |whole|
    && (forall j :: 0 <= j < |tags| ==> tags[j] < |parts|)
    && (forall i :: 0 <= i < |parts| ==> Tagged(whole, tags, i) == parts[i])
  }

  ghost predicate Interleaves<T(!new)>(whole: seq<T>, parts: seq<seq<T>>) {
    exists tags: seq<nat> :: Splits(whole, tags, parts)
  }

  function Concat<T>(parts: seq<seq<T>>): seq<T> {
    if |parts| == 0 then [] else Concat(parts[..|parts| - 1]) + parts[|parts| - 1]
  }

  lemma ConcatNext<T>(parts: seq<seq<T>>, i: nat)
    requires i < |parts|
    ensures Concat(parts[..i + 1]) == Concat(parts[..i]) + parts[i]
  {
    assert parts[..i + 1][..i] == parts[..i];
  }

  lemma {:induction false} ConcatFrom<T>(parts: seq<seq<T>>, x: T) returns (i: nat)
    requires x in Concat(parts)
    ensures i < |parts| && x in parts[i]
  {
    var n := |parts| - 1;
    if x in parts[n] {
      i := n;
    } else {
      i := ConcatFrom(parts[..n], x);
    }
  }

  lemma {:induction false} ConcatTo<T>(parts: seq<seq<T>>, i: nat, x: T)
    requires i < |parts| && x in parts[i]
    ensures x in Concat(parts)
  {
    var n := |parts| - 1;
    if i < n {
      ConcatTo(parts[..n], i, x);
    }
  }

  /** One more element in one of the parts. */
  lemma {:induction false} ConcatMore<T>(parts: seq<seq<T>>, i: nat, x: T, y: T)
    requires i < |parts|
    ensures multiset(Concat(parts[i := parts[i] + [x]]))[y] == multiset(Concat(parts))[y] + if x == y then 1 else 0
  {
    var n := |parts| - 1;
    var more := parts[i := parts[i] + [x]];
    if i < n {
      ConcatMore(parts[..n], i, x, y);
      assert more[..n] == parts[..n][i := parts[i] + [x]];
    } else {
      assert more[..n] == parts[..n];
    }
  }

  /** Without the last element, and without it in its part. */
  lemma SplitsInit<T>(whole: seq<T>, tags: seq<nat>, parts: seq<seq<T>>) returns (shorter: seq<seq<T>>)
    requires Splits(whole, tags, parts) && |whole| > 0
    ensures var m := |whole| - 1;
            && Splits(whole[..m], tags[..m], shorter) && |shorter| == |parts|
            && parts == shorter[tags[m] := shorter[tags[m]] + [whole[m]]]
  {
    var m := |whole| - 1;
    shorter := parts[tags[m] := Tagged(whole[..m], tags[..m], tags[m])];
    forall i | 0 <= i < |parts|
      ensures Tagged(whole[..m], tags[..m], i) == shorter[i]
    {
      assert Tagged(whole, tags, i) == parts[i];
    }
  }

  lemma LastCounts<T>(s: seq<T>, y: T)
    requires |s| > 0
    ensures multiset(s)[y] == multiset(s[..|s| - 1])[y] + if s[|s| - 1] == y then 1 else 0
  {
    assert s == s[..|s| - 1] + [s[|s| - 1]];
  }

  lemma {:induction false} SplitsCount<T>(whole: seq<T>, tags: seq<nat>, parts: seq<seq<T>>, y: T)
    requires Splits(whole, tags, parts)
    ensures multiset(whole)[y] == multiset(Concat(parts))[y]
  {
    if |whole| == 0 {
      AllEmpty(parts);
    } else {
      var m := |whole| - 1;
      var shorter := SplitsInit(whole, tags, parts);
      SplitsCount(whole[..m], tags[..m], shorter, y);
      ConcatMore(shorter, tags[m], whole[m], y);
      LastCounts(whole, y);
    }
  }

  lemma {:induction false} AllEmpty<T>(parts: seq<seq<T>>)
    requires forall i :: 0 <= i < |parts| ==> parts[i] == []
    ensures Concat(parts) == []
  {
    if |parts| != 0 {
      AllEmpty(parts[..|parts| - 1]);
    }
  }

  /** An interleaving neither loses nor duplicates anything. */
  lemma InterleavesMultiset<T(!new)>(whole: seq<T>, parts: seq<seq<T>>)
    requires Interleaves(whole, parts)
    ensures multiset(whole) == multiset(Concat(parts))
  {
    var tags: seq<nat> :| Splits(whole, tags, parts);
    forall y
      ensures multiset(whole)[y] == multiset(Concat(parts))[y]
    {
      SplitsCount(whole, tags, parts, y);
    }
  }

  lemma {:induction false} TaggedAbsent<T>(whole: seq<T>, tags: seq<nat>, i: nat)
    requires |tags| == |whole| && forall j :: 0 <= j < |tags| ==> tags[j] != i
    ensures Tagged(whole, tags, i) == []
  {
    if |whole| != 0 {
      TaggedAbsent(whole[..|whole| - 1], tags[..|whole| - 1], i);
    }
  }

  /** One more element in the last part that is not empty, or after it. */
  lemma {:induction false} ConcatLast<T>(parts: seq<seq<T>>, i: nat, x: T)
    requires i < |parts| && forall j :: i < j < |parts| ==> parts[j] == []
    ensures Concat(parts[i := parts[i] + [x]]) == Concat(parts) + [x]
  {
    var n := |parts| - 1;
    var more := parts[i := parts[i] + [x]];
    if i < n {
      ConcatLast(parts[..n], i, x);
      assert more[..n] == parts[..n][i := parts[i] + [x]];
    } else {
      assert more[..n] == parts[..n];
    }
  }

  /** With ascending tags nothing is reordered at all. */
  lemma {:induction false} InOrderIsConcat<T>(whole: seq<T>, tags: seq<nat>, parts: seq<seq<T>>)
    requires Splits(whole, tags, parts) && forall j, k :: 0 <= j <= k < |tags| ==> tags[j] <= tags[k]
    ensures Concat(parts) == whole
  {
    if |whole| == 0 {
      AllEmpty(parts);
    } else {
      var m := |whole| - 1;
      var shorter := SplitsInit(whole, tags, parts);
      InOrderIsConcat(whole[..m], tags[..m], shorter);
      forall i | tags[m] < i < |shorter|
        ensures shorter[i] == []
      {
        TaggedAbsent(whole[..m], tags[..m], i);
      }
      ConcatLast(shorter, tags[m], whole[m]);
      LastAppended(whole);
    }
  }

  lemma LastAppended<T>(s: seq<T>)
    requires |s| > 0
    ensures s == s[..|s| - 1] + [s[|s| - 1]]
  {
  }

  // ----- Parts by key -----

  ghost function PartsAt<K, T>(f: K -> seq<T>, keys: seq<K>): seq<seq<T>> {
    seq(|keys|, i requires 0 <= i < |keys| => f(keys[i]))
  }

  // Sums over a sequence of keys.

  function Total<K>(weight: K -> nat, keys: seq<K>): nat {
    if |keys| == 0 then 0 else Total(weight, keys[..|keys| - 1]) + weight(keys[|keys| - 1])
  }

  lemma {:induction false} TotalConcat<K>(weight: K -> nat, a: seq<K>, b: seq<K>)
    ensures Total(weight, a + b) == Total(weight, a) + Total(weight, b)
  {
    if |b| == 0 {
      assert a + b == a;
    } else {
      var n := |b| - 1;
      TotalConcat(weight, a, b[..n]);
      assert (a + b)[..|a + b| - 1] == a + b[..n];
    }
  }

  lemma TotalWithout<K>(weight: K -> nat, a: seq<K>, x: K, b: seq<K>)
    ensures Total(weight, a + [x] + b) == Total(weight, a + b) + weight(x)
  {
    TotalConcat(weight, a + [x], b);
    TotalConcat(weight, a, [x]);
    TotalConcat(weight, a, b);
    assert Total(weight, [x]) == weight(x);
  }

  lemma SplitAt<K>(s: seq<K>, x: K) returns (a: seq<K>, b: seq<K>)
    requires x in s
    ensures s == a + [x] + b && multiset(a + b) == multiset(s) - multiset{x}
  {
    var i :| 0 <= i < |s| && s[i] == x;
    a, b := s[..i], s[i + 1..];
    assert s == a + [x] + b;
  }

  lemma {:induction false} TotalPermuted<K>(weight: K -> nat, a: seq<K>, b: seq<K>)
    requires multiset(a) == multiset(b)
    ensures Total(weight, a) == Total(weight, b)
    decreases |a|
  {
    assert |a| == |multiset(a)| == |multiset(b)| == |b|;
    if |a| > 0 {
      var x := a[|a| - 1];
      assert x in multiset(b);
      var a1, a2 := SplitAt(a, x);
      var b1, b2 := SplitAt(b, x);
      TotalPermuted(weight, a1 + a2, b1 + b2);
      TotalWithout(weight, a1, x, a2);
      TotalWithout(weight, b1, x, b2);
    }
  }

  /** How often `y` occurs in the part of each key. */
  ghost function Occurrences<K, T>(f: K -> seq<T>, y: T): K -> nat {
    k => multiset(f(k))[y]
  }

  lemma {:induction false} ConcatTotal<K, T>(f: K -> seq<T>, keys: seq<K>, y: T)
    ensures multiset(Concat(PartsAt(f, keys)))[y] == Total(Occurrences(f, y), keys)
  {
    if |keys| > 0 {
      var n := |keys| - 1;
      ConcatTotal(f, keys[..n], y);
      assert PartsAt(f, keys)[..n] == PartsAt(f, keys[..n]);
    }
  }

  /** The order of the parts does not matter for what is in the concatenation. */
  lemma PartsPermuted<K, T(!new)>(f: K -> seq<T>, a: seq<K>, b: seq<K>)
    requires multiset(a) == multiset(b)
    ensures multiset(Concat(PartsAt(f, a))) == multiset(Concat(PartsAt(f, b)))
  {
    var ca, cb := Concat(PartsAt(f, a)), Concat(PartsAt(f, b));
    forall y: T
      ensures multiset(ca)[y] == multiset(cb)[y]
    {
      ConcatTotal(f, a, y);
      ConcatTotal(f, b, y);
      TotalPermuted(Occurrences(f, y), a, b);
    }
    assert multiset(ca) == multiset(cb);
  }
}
