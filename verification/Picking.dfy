/** The elements of a sequence that satisfy a condition, by their places. */
module Picking {

  /** `places` are exactly the places of `s` where the condition holds, in order. */
  ghost predicate Picks<T>(s: seq<T>, holds: T -> bool, places: seq<nat>) {
    && (forall j, k :: 0 <= j < k < |places| ==> places[j] < places[k])
    && (forall k :: 0 <= k < |places| ==> places[k] < |s| && holds(s[places[k]]))
    && (forall i :: 0 <= i < |s| && holds(s[i]) ==> i in places)
  }

  lemma PicksNext<T>(s: seq<T>, x: T, holds: T -> bool, places: seq<nat>)
    requires Picks(s, holds, places) && holds(x)
    ensures Picks(s + [x], holds, places + [|s|])
  {
    var longer, more := s + [x], places + [|s|];
    forall k | 0 <= k < |more|
      ensures more[k] < |longer| && holds(longer[more[k]])
    {
      assert k < |places| ==> longer[places[k]] == s[places[k]];
    }
    forall i | 0 <= i < |longer| && holds(longer[i])
      ensures i in more
    {
      assert i < |s| ==> longer[i] == s[i] && i in places;
      assert more[|places|] == |s|;
    }
  }

  lemma PicksSkip<T>(s: seq<T>, x: T, holds: T -> bool, places: seq<nat>)
    requires Picks(s, holds, places) && !holds(x)
    ensures Picks(s + [x], holds, places)
  {
  }

  /** Without the last element. */
  lemma PicksInit<T>(s: seq<T>, holds: T -> bool, places: seq<nat>)
    requires Picks(s, holds, places) && |s| > 0 && holds(s[|s| - 1])
    ensures |places| > 0 && places[|places| - 1] == |s| - 1
    ensures Picks(s[..|s| - 1], holds, places[..|places| - 1])
  {
    var n := |s| - 1;
    assert n in places;
    var k :| 0 <= k < |places| && places[k] == n;
    assert k == |places| - 1 by {
      assert places[|places| - 1] < |s|;
    }
    var init := places[..k];
    forall j | 0 <= j < |init|
      ensures init[j] < n && holds(s[..n][init[j]])
    {
      assert places[j] < places[k];
    }
    forall i | 0 <= i < n && holds(s[..n][i])
      ensures i in init
    {
      assert holds(s[i]);
      var j :| 0 <= j < |places| && places[j] == i;
      assert init[j] == i;
    }
  }

  lemma PicksInitSkip<T>(s: seq<T>, holds: T -> bool, places: seq<nat>)
    requires Picks(s, holds, places) && |s| > 0 && !holds(s[|s| - 1])
    ensures Picks(s[..|s| - 1], holds, places)
  {
    var n := |s| - 1;
    forall k | 0 <= k < |places|
      ensures places[k] < n && holds(s[..n][places[k]])
    {
      assert places[k] != n;
    }
  }

  lemma PicksNone<T>(s: seq<T>, holds: T -> bool, places: seq<nat>)
    requires Picks(s, holds, places) && |s| == 0
    ensures places == []
  {
    var x := if |places| > 0 then places[0] else 0;
    assert |places| > 0 ==> x < |s|;
  }

  lemma SameEnds(a: seq<nat>, b: seq<nat>)
    requires |a| > 0 && |b| > 0 && a[..|a| - 1] == b[..|b| - 1] && a[|a| - 1] == b[|b| - 1]
    ensures a == b
  {
    assert a == a[..|a| - 1] + [a[|a| - 1]] && b == b[..|b| - 1] + [b[|b| - 1]];
  }

  /** The places are determined. */
  lemma {:induction false} PicksUnique<T>(s: seq<T>, holds: T -> bool, a: seq<nat>, b: seq<nat>)
    requires Picks(s, holds, a) && Picks(s, holds, b)
    ensures a == b
  {
    if |s| == 0 {
      PicksNone(s, holds, a);
      PicksNone(s, holds, b);
    } else {
      if holds(s[|s| - 1]) {
        PicksInit(s, holds, a);
        PicksInit(s, holds, b);
        PicksUnique(s[..|s| - 1], holds, a[..|a| - 1], b[..|b| - 1]);
        SameEnds(a, b);
      } else {
        PicksInitSkip(s, holds, a);
        PicksInitSkip(s, holds, b);
        PicksUnique(s[..|s| - 1], holds, a, b);
      }
    }
  }

  // ----- Filtering and mapping -----

  /** `out` are the images of the elements that hold, in order. */
  ghost predicate Picked<T, U>(s: seq<T>, holds: T -> bool, image: T -> U, out: seq<U>) {
    exists places: seq<nat> :: Picks(s, holds, places) && Images(s, image, places, out)
  }

  ghost predicate Images<T, U>(s: seq<T>, image: T -> U, places: seq<nat>, out: seq<U>) {
    |out| == |places| && forall k :: 0 <= k < |places| ==> places[k] < |s| && out[k] == image(s[places[k]])
  }

  lemma PickedNone<T, U>(holds: T -> bool, image: T -> U)
    ensures Picked([], holds, image, [])
  {
    assert Picks([], holds, []) && Images([], image, [], []);
  }

  lemma PickedNext<T, U>(s: seq<T>, holds: T -> bool, image: T -> U, out: seq<U>)
    requires |s| > 0 && Picked(s[..|s| - 1], holds, image, out)
    ensures Picked(s, holds, image, out + if holds(s[|s| - 1]) then [image(s[|s| - 1])] else [])
  {
    var n := |s| - 1;
    var places: seq<nat> :| Picks(s[..n], holds, places) && Images(s[..n], image, places, out);
    assert s == s[..n] + [s[n]];
    if holds(s[n]) {
      PicksNext(s[..n], s[n], holds, places);
      assert Images(s, image, places + [n], out + [image(s[n])]);
    } else {
      PicksSkip(s[..n], s[n], holds, places);
      assert Images(s, image, places, out + []);
    }
  }
}
