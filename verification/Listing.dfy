/** Listing the elements of a set, in any order or sorted by a key. */
module Listing {
  import opened Orders

  function Elements<T>(s: seq<T>): set<T> {
    set x | x in s
  }

  ghost predicate Injective<T(!new)>(key: T -> Key, elements: set<T>) {
    forall x, y :: x in elements && y in elements && key(x) == key(y) ==> x == y
  }

  /** `s` has each element once, in some order. */
  ghost predicate Collects<T(!new)>(key: T -> Key, s: seq<T>, elements: set<T>) {
    DistinctKeys(key, s) && forall x :: x in s <==> x in elements
  }

  /** The elements sorted by the key. */
  ghost function Ordered<T(!new)>(key: T -> Key, elements: set<T>): seq<T> {
    if elements == {} then []
    else
      var x :| x in elements;
      InsertStable(Ordered(key, elements - {x}), x, key)
  }

  lemma {:induction false} OrderedSorted<T(!new)>(key: T -> Key, elements: set<T>)
    ensures Sorted(key, Ordered(key, elements))
    ensures multiset(Ordered(key, elements)) == multiset(elements)
  {
    if elements != {} {
      var x :| x in elements && Ordered(key, elements) == InsertStable(Ordered(key, elements - {x}), x, key);
      OrderedSorted(key, elements - {x});
      InsertStableSorted(Ordered(key, elements - {x}), x, key);
      InsertStableMultiset(Ordered(key, elements - {x}), x, key);
      assert multiset(elements - {x}) + multiset{x} == multiset(elements);
    }
  }

  /** Names are listed in ascending order. */
  lemma NamesAscending(names: set<string>)
    ensures var sorted := Ordered(Identity, names);
            forall i, j :: 0 <= i < j < |sorted| ==> StrLE(sorted[i], sorted[j])
    ensures forall name :: name in Ordered(Identity, names) <==> name in names
  {
    OrderedSorted(Identity, names);
    var sorted := Ordered(Identity, names);
    forall i, j | 0 <= i < j < |sorted|
      ensures StrLE(sorted[i], sorted[j])
    {
      KeyFirst(Identity(sorted[i]), Identity(sorted[j]));
    }
    forall name
      ensures name in sorted <==> name in names
    {
      InMultiset(sorted, names, name);
    }
  }

  lemma {:induction false} CollectsMultiset<T(!new)>(key: T -> Key, s: seq<T>, elements: set<T>)
    requires Collects(key, s, elements)
    ensures multiset(s) == multiset(elements)
  {
    forall x
      ensures multiset(s)[x] == multiset(elements)[x]
    {
      DistinctOnce(key, s, x);
      assert x in s <==> x in multiset(s);
    }
  }

  lemma InMultiset<T>(s: seq<T>, elements: set<T>, x: T)
    requires multiset(s) == multiset(elements)
    ensures x in s <==> x in elements
  {
    assert x in s <==> x in multiset(s);
  }

  /** The sorted list has each element once if the key tells them apart. */
  lemma OrderedCollects<T(!new)>(key: T -> Key, elements: set<T>)
    requires Injective(key, elements)
    ensures Collects(key, Ordered(key, elements), elements)
  {
    var s := Ordered(key, elements);
    OrderedSorted(key, elements);
    forall x
      ensures x in s <==> x in elements
    {
      InMultiset(s, elements, x);
    }
    forall i, j | 0 <= i < j < |s|
      ensures key(s[i]) != key(s[j])
    {
      assert s[i] in s && s[j] in s;
      if key(s[i]) == key(s[j]) {
        TwiceInMultiset(s, i, j);
      }
    }
  }

  /** Sorting a list of the elements gives the sorted list. */
  lemma SortIsOrdered<T(!new)>(key: T -> Key, s: seq<T>, elements: set<T>, r: seq<T>)
    requires Collects(key, s, elements) && SortOf(key, s, r)
    ensures r == Ordered(key, elements)
  {
    OrderedSorted(key, elements);
    CollectsMultiset(key, s, elements);
    SortKeepsDistinct(key, s, r);
    SortedUnique(key, r, Ordered(key, elements));
  }

  /** Two lists of different things. */
  lemma CollectsBoth<T(!new)>(key: T -> Key, s: seq<T>, a: set<T>, t: seq<T>, b: set<T>)
    requires Collects(key, s, a) && Collects(key, t, b)
    requires forall x, y :: x in a && y in b ==> key(x) != key(y)
    ensures Collects(key, s + t, a + b)
  {
    var u := s + t;
    forall i, j | 0 <= i < j < |u|
      ensures key(u[i]) != key(u[j])
    {
      if i < |s| <= j {
        assert s[i] in s && t[j - |s|] in t;
      }
    }
  }

  lemma CollectsNext<T(!new)>(key: T -> Key, s: seq<T>, a: set<T>, x: T)
    requires Collects(key, s, a) && forall y :: y in a ==> key(y) != key(x)
    ensures Collects(key, s + [x], a + {x})
  {
    CollectsBoth(key, s, a, [x], {x});
  }

  /** Lists a set in order. */
  method SortedList(s: set<string>) returns (names: seq<string>)
    ensures names == Ordered(Identity, s)
    ensures Sorted(Identity, names) && Collects(Identity, names, s)
  {
    names := [];
    var left := s;
    assert s - left == {};
    while left != {}
      invariant left <= s && Collects(Identity, names, s - left)
      decreases left
    {
      var n :| n in left;
      CollectsNext(Identity, names, s - left, n);
      names := names + [n];
      assert s - (left - {n}) == s - left + {n};
      left := left - {n};
    }
    assert s - left == s;
    var sorted := SortSlice(names, Identity);
    SortIsOrdered(Identity, names, s, sorted);
    names := sorted;
    OrderedSorted(Identity, s);
    OrderedCollects(Identity, s);
  }

  function GroupAt<T>(groups: map<string, seq<T>>, name: string): seq<T> {
    if name in groups then groups[name] else []
  }

  /** Groups things by the name that is their key, keeping their order. */
  method GroupByName<T>(s: seq<T>, key: T -> Key) returns (groups: map<string, seq<T>>)
    requires forall i :: 0 <= i < |s| ==> key(s[i]) == Identity(key(s[i]).0)
    ensures forall name :: GroupAt(groups, name) == WithKey(s, key, Identity(name))
    ensures forall name :: name in groups <==> WithKey(s, key, Identity(name)) != []
  {
    groups := map[];
    for i := 0 to |s|
      invariant forall name :: GroupAt(groups, name) == WithKey(s[..i], key, Identity(name))
      invariant forall name :: name in groups <==> WithKey(s[..i], key, Identity(name)) != []
    {
      assert s[..i + 1] == s[..i] + [s[i]];
      forall name
        ensures WithKey(s[..i + 1], key, Identity(name))
             == WithKey(s[..i], key, Identity(name)) + if key(s[i]) == Identity(name) then [s[i]] else []
      {
        WithKeyAppend(s[..i], s[i], key, Identity(name));
      }
      var name := key(s[i]).0;
      groups := groups[name := GroupAt(groups, name) + [s[i]]];
    }
    assert s[..|s|] == s;
  }
}
