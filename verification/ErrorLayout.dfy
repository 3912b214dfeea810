/** How an error tree is laid out: which lines are printed, in what order, and what is drawn in front of each. */
module ErrorLayout {
  import opened Declcfg
  import opened ValidationError

  /** Where a line belongs: `at` counts the sub-errors on the way from the root, `path` are the validation errors
      on that way. The line is that of the last of them, or of a plain sub-error of it. */
  datatype Place = Place(at: seq<nat>, path: seq<Ref>, plain: bool)

  ghost predicate Distinct(path: seq<Ref>) {
    forall j, k :: 0 <= j < k < |path| ==> path[j] != path[k]
  }

  /** The `k`-th step of the way goes to the next error of the path. */
  ghost predicate StepsTo(g: Graph, p: Place, k: nat) {
    && k + 1 < |p.path| && k < |p.at| && p.path[k] in g && p.at[k] < |g[p.path[k]].subErrors|
    && g[p.path[k]].subErrors[p.at[k]] == Nested(p.path[k + 1])
  }

  /** The way ends at the last error of the path, or at a plain sub-error of it. */
  ghost predicate EndsWell(g: Graph, p: Place) {
    && |p.path| > 0 && |p.at| == (if p.plain then |p.path| else |p.path| - 1)
    && var r := p.path[|p.path| - 1];
       r in g && (p.plain ==> p.at[|p.at| - 1] < |g[r].subErrors| && g[r].subErrors[p.at[|p.at| - 1]].Plain?)
  }

  /** A way through the error graph from `root` that meets no validation error twice. */
  ghost predicate Located(g: Graph, root: Ref, p: Place) {
    && EndsWell(g, p) && p.path[0] == root && Distinct(p.path)
    && forall k: nat :: k < |p.path| - 1 ==> StepsTo(g, p, k)
  }

  // ----- The places, in the order of printing -----

  ghost function Places(g: Graph, r: Ref, at: seq<nat>, seen: seq<Ref>): seq<Place>
    requires Closed(g) && r in g
    decreases Unseen(g, seen), 1, 0
  {
    if r in seen then []
    else
      UnseenShrinks(g, seen, r);
      [Place(at, seen + [r], false)] + SubPlaces(g, r, 0, at, seen + [r])
  }

  ghost function SubPlaces(g: Graph, r: Ref, i: nat, at: seq<nat>, path: seq<Ref>): seq<Place>
    requires Closed(g) && r in g && i <= |g[r].subErrors|
    decreases Unseen(g, path), 2, |g[r].subErrors| - i
  {
    if i == |g[r].subErrors| then []
    else PlacesBelow(g, r, i, at, path) + SubPlaces(g, r, i + 1, at, path)
  }

  ghost function PlacesBelow(g: Graph, r: Ref, i: nat, at: seq<nat>, path: seq<Ref>): seq<Place>
    requires Closed(g) && r in g && i < |g[r].subErrors|
    decreases Unseen(g, path), 2, 0
  {
    match g[r].subErrors[i]
    case Nested(c) => Places(g, c, at + [i], path)
    case Plain(_) => [Place(at + [i], path, true)]
  }

  // ----- Which places there are -----

  /** `p` goes on from `r`, where the way `at` along `seen` has led. */
  ghost predicate GoesOn(g: Graph, r: Ref, at: seq<nat>, seen: seq<Ref>, p: Place) {
    && |p.path| > |seen| && p.path[..|seen|] == seen && p.path[|seen|] == r
    && |p.at| >= |at| && p.at[..|at|] == at
    && EndsWell(g, p) && (forall k: nat :: |seen| <= k < |p.path| - 1 ==> StepsTo(g, p, k))
    && (forall j, k :: 0 <= j < k < |p.path| && |seen| <= k ==> p.path[j] != p.path[k])
  }

  /** It goes on through the `i`-th sub-error of `r`, which `path` has led to. */
  ghost predicate GoesThrough(g: Graph, r: Ref, i: nat, at: seq<nat>, path: seq<Ref>, p: Place)
    requires r in g && i < |g[r].subErrors|
  {
    match g[r].subErrors[i]
    case Nested(c) => GoesOn(g, c, at + [i], path, p)
    case Plain(_) => p == Place(at + [i], path, true)
  }

  lemma EndsThere(g: Graph, r: Ref, at: seq<nat>, seen: seq<Ref>, p: Place)
    requires |at| == |seen| && |p.at| == |at| && GoesOn(g, r, at, seen, p)
    ensures p == Place(at, seen + [r], false)
  {
    assert p.at == p.at[..|at|];
    assert p.path == p.path[..|seen|] + [p.path[|seen|]];
  }

  lemma GoesFurther(g: Graph, r: Ref, at: seq<nat>, seen: seq<Ref>, p: Place) returns (i: nat)
    requires Closed(g) && r in g && |at| == |seen| && GoesOn(g, r, at, seen, p) && p != Place(at, seen + [r], false)
    ensures i < |g[r].subErrors| && GoesThrough(g, r, i, at, seen + [r], p)
  {
    var n := |seen|;
    assert p.path[..n + 1] == seen + [r];
    if |p.at| == n {
      EndsThere(g, r, at, seen, p);
    }
    i := p.at[n];
    assert p.at[..n + 1] == at + [i];
    if |p.path| > n + 1 {
      assert StepsTo(g, p, n);
    } else {
      assert p.path == p.path[..n + 1] && p.at == p.at[..n + 1];
    }
  }

  lemma ComesFrom(g: Graph, r: Ref, i: nat, at: seq<nat>, seen: seq<Ref>, p: Place)
    requires Closed(g) && r in g && r !in seen && |at| == |seen| && i < |g[r].subErrors|
    requires GoesThrough(g, r, i, at, seen + [r], p)
    ensures GoesOn(g, r, at, seen, p)
  {
    var n := |seen|;
    assert p.path[..n + 1] == seen + [r] && p.at[..n + 1] == at + [i];
    assert p.path[..n] == p.path[..n + 1][..n] && p.at[..n] == p.at[..n + 1][..n];
    assert p.path[n] == p.path[..n + 1][n] && p.at[n] == p.at[..n + 1][n];
    if g[r].subErrors[i].Nested? {
      assert StepsTo(g, p, n);
    }
    forall j, k | 0 <= j < k < |p.path| && n <= k
      ensures p.path[j] != p.path[k]
    {
      if k == n {
        assert p.path[j] == seen[j];
      }
    }
  }

  lemma StaysThere(g: Graph, r: Ref, at: seq<nat>, seen: seq<Ref>)
    requires r in g && r !in seen && |at| == |seen|
    ensures GoesOn(g, r, at, seen, Place(at, seen + [r], false))
  {
    assert (seen + [r])[..|seen|] == seen && at[..|at|] == at;
  }

  lemma MeetsTwice(g: Graph, r: Ref, at: seq<nat>, seen: seq<Ref>, p: Place)
    requires r in seen
    ensures !GoesOn(g, r, at, seen, p)
  {
    var j :| 0 <= j < |seen| && seen[j] == r;
    assert |p.path| > |seen| && p.path[..|seen|] == seen ==> p.path[j] == r;
  }

  /** A way that goes on from `r` ends there or goes through one of its sub-errors. */
  lemma GoesOnExactly(g: Graph, r: Ref, at: seq<nat>, seen: seq<Ref>, p: Place)
    requires Closed(g) && r in g && r !in seen && |at| == |seen|
    ensures GoesOn(g, r, at, seen, p)
       <==> p == Place(at, seen + [r], false)
            || exists i: nat :: i < |g[r].subErrors| && GoesThrough(g, r, i, at, seen + [r], p)
  {
    StaysThere(g, r, at, seen);
    if i: nat :| i < |g[r].subErrors| && GoesThrough(g, r, i, at, seen + [r], p) {
      ComesFrom(g, r, i, at, seen, p);
    } else if GoesOn(g, r, at, seen, p) && p != Place(at, seen + [r], false) {
      var i := GoesFurther(g, r, at, seen, p);
    }
  }

  lemma {:induction false} PlacesAre(g: Graph, r: Ref, at: seq<nat>, seen: seq<Ref>, p: Place)
    requires Closed(g) && r in g && |at| == |seen|
    ensures p in Places(g, r, at, seen) <==> GoesOn(g, r, at, seen, p)
    decreases Unseen(g, seen), 1, 0
  {
    if r in seen {
      MeetsTwice(g, r, at, seen, p);
    } else {
      UnseenShrinks(g, seen, r);
      SubPlacesAre(g, r, 0, at, seen + [r], p);
      GoesOnExactly(g, r, at, seen, p);
    }
  }

  lemma {:induction false} SubPlacesAre(g: Graph, r: Ref, i: nat, at: seq<nat>, path: seq<Ref>, p: Place)
    requires Closed(g) && r in g && i <= |g[r].subErrors| && |at| + 1 == |path|
    ensures p in SubPlaces(g, r, i, at, path)
       <==> exists j: nat :: i <= j < |g[r].subErrors| && GoesThrough(g, r, j, at, path, p)
    decreases Unseen(g, path), 2, |g[r].subErrors| - i
  {
    if i < |g[r].subErrors| {
      SubPlacesAre(g, r, i + 1, at, path, p);
      PlacesBelowAre(g, r, i, at, path, p);
      assert p in SubPlaces(g, r, i, at, path)
        <==> p in PlacesBelow(g, r, i, at, path) || p in SubPlaces(g, r, i + 1, at, path);
    }
  }

  lemma {:induction false} PlacesBelowAre(g: Graph, r: Ref, i: nat, at: seq<nat>, path: seq<Ref>, p: Place)
    requires Closed(g) && r in g && i < |g[r].subErrors| && |at| + 1 == |path|
    ensures p in PlacesBelow(g, r, i, at, path) <==> GoesThrough(g, r, i, at, path, p)
    decreases Unseen(g, path), 2, 0
  {
    match g[r].subErrors[i]
    case Nested(c) => PlacesAre(g, c, at + [i], path, p);
    case Plain(_) =>
  }

  /** A line is printed for exactly the ways from the root that meet no validation error twice. */
  lemma PlacedExactly(g: Graph, root: Ref, p: Place)
    requires Closed(g) && root in g
    ensures p in Places(g, root, [], []) <==> Located(g, root, p)
  {
    PlacesAre(g, root, [], [], p);
    assert |p.path| > 0 ==> p.path[..0] == [];
    assert p.at[..0] == [];
  }

  // ----- Their order -----

  /** A way comes before those that go on from it and before those that part from it at a later sub-error. */
  ghost predicate Before(a: seq<nat>, b: seq<nat>) {
    exists m: nat :: m <= |a| && m < |b| && a[..m] == b[..m] && (m == |a| || a[m] < b[m])
  }

  ghost predicate InOrder(places: seq<Place>) {
    forall j, k :: 0 <= j < k < |places| ==> Before(places[j].at, places[k].at)
  }

  /** All ways go on from `at` through a sub-error from the `i`-th on. */
  ghost predicate AllFrom(places: seq<Place>, at: seq<nat>, i: nat) {
    forall k :: 0 <= k < |places| ==> |places[k].at| > |at| && places[k].at[..|at|] == at && places[k].at[|at|] >= i
  }

  ghost predicate AllThrough(places: seq<Place>, at: seq<nat>) {
    forall k :: 0 <= k < |places| ==> |places[k].at| >= |at| && places[k].at[..|at|] == at
  }

  lemma OrderedJoin(a: seq<Place>, b: seq<Place>, at: seq<nat>, i: nat)
    requires InOrder(a) && InOrder(b) && AllThrough(a, at + [i]) && AllFrom(b, at, i + 1)
    ensures InOrder(a + b) && AllFrom(a + b, at, i)
  {
    forall k | 0 <= k < |a|
      ensures |a[k].at| > |at| && a[k].at[..|at|] == at && a[k].at[|at|] == i
    {
      var x := a[k].at;
      assert x[..|at|] == x[..|at| + 1][..|at|] && x[|at|] == x[..|at| + 1][|at|];
    }
    forall j, k | 0 <= j < k < |a + b|
      ensures Before((a + b)[j].at, (a + b)[k].at)
    {
      if j < |a| <= k {
        var x, y := a[j].at, b[k - |a|].at;
        assert x[..|at|] == y[..|at|] && x[|at|] < y[|at|];
      }
    }
  }

  lemma {:induction false} PlacesOrdered(g: Graph, r: Ref, at: seq<nat>, seen: seq<Ref>)
    requires Closed(g) && r in g
    ensures InOrder(Places(g, r, at, seen)) && AllThrough(Places(g, r, at, seen), at)
    decreases Unseen(g, seen), 1, 0
  {
    if r !in seen {
      UnseenShrinks(g, seen, r);
      SubPlacesOrdered(g, r, 0, at, seen + [r]);
      var own, rest := Place(at, seen + [r], false), SubPlaces(g, r, 0, at, seen + [r]);
      forall k | 0 <= k < |rest|
        ensures Before(own.at, rest[k].at)
      {
        assert at[..|at|] == at;
      }
    }
  }

  lemma {:induction false} SubPlacesOrdered(g: Graph, r: Ref, i: nat, at: seq<nat>, path: seq<Ref>)
    requires Closed(g) && r in g && i <= |g[r].subErrors|
    ensures InOrder(SubPlaces(g, r, i, at, path)) && AllFrom(SubPlaces(g, r, i, at, path), at, i)
    decreases Unseen(g, path), 2, |g[r].subErrors| - i
  {
    if i < |g[r].subErrors| {
      SubPlacesOrdered(g, r, i + 1, at, path);
      var rest := SubPlaces(g, r, i + 1, at, path);
      match g[r].subErrors[i]
      case Nested(c) =>
        PlacesOrdered(g, c, at + [i], path);
        OrderedJoin(Places(g, c, at + [i], path), rest, at, i);
      case Plain(_) =>
        OrderedJoin([Place(at + [i], path, true)], rest, at, i);
    }
  }

  // ----- What is drawn in front of them -----

  ghost predicate LastSub(g: Graph, p: Place, k: nat)
    requires k < |p.path| && k < |p.at| && p.path[k] in g
  {
    p.at[k] == |g[p.path[k]].subErrors| - 1
  }

  ghost predicate Known(g: Graph, p: Place) {
    |p.at| <= |p.path| && forall k :: 0 <= k < |p.path| ==> p.path[k] in g
  }

  /** `trunk` has four characters for each of the first `n` steps: nothing under a last sub-error, a line under
      the others. */
  ghost predicate IsTrunk(g: Graph, p: Place, n: nat, trunk: string)
    requires Known(g, p) && n <= |p.at|
  {
    && |trunk| == 4 * n
    && forall k: nat :: k < n ==> trunk[4 * k..4 * k + 4] == (if LastSub(g, p, k) then "    " else "│   ")
  }

  /** What stands in front of a line: nothing at the root, otherwise a trunk and the branch to the sub-error. */
  ghost predicate IsPrefix(g: Graph, p: Place, prefix: string)
    requires Known(g, p)
  {
    if |p.at| == 0 then prefix == ""
    else
      var n := |p.at| - 1;
      && |prefix| == 4 * n + 4 && IsTrunk(g, p, n, prefix[..4 * n])
      && prefix[4 * n..] == (if LastSub(g, p, n) then "└── " else "├── ")
  }

  /** What the line says: the message of a validation error, with a colon if sub-errors follow, or the text of a
      plain one. */
  ghost function Says(g: Graph, p: Place): string
    requires EndsWell(g, p)
  {
    var node := g[p.path[|p.path| - 1]];
    if p.plain then node.subErrors[p.at[|p.at| - 1]].text + "\n"
    else if node.subErrors == [] then node.message + "\n"
    else node.message + ":\n"
  }

  ghost predicate Laid(g: Graph, p: Place, line: Line) {
    && Known(g, p) && EndsWell(g, p) && line.path == p.path && line.plain == p.plain
    && exists prefix :: IsPrefix(g, p, prefix) && line.text == prefix + Says(g, p)
  }

  ghost predicate AllLaid(g: Graph, places: seq<Place>, lines: seq<Line>) {
    |lines| == |places| && forall k :: 0 <= k < |places| ==> Laid(g, places[k], lines[k])
  }

  /** Branching off: the branch to the error becomes part of the trunk. */
  lemma SubPrefixIs(g: Graph, r: Ref, at: seq<nat>, path: seq<Ref>, prefix: string, last: bool, i: nat)
    requires |path| == |at| + 1 && Known(g, Place(at, path, false)) && path[|at|] == r && i < |g[r].subErrors|
    requires IsPrefix(g, Place(at, path, false), prefix)
    requires |at| > 0 ==> (last <==> LastSub(g, Place(at, path, false), |at| - 1))
    ensures IsPrefix(g, Place(at + [i], path, true), SubPrefix(prefix, last, i == |g[r].subErrors| - 1))
  {
    var n := |at|;
    var p, q := Place(at, path, false), Place(at + [i], path, true);
    var trunk := Continuation(prefix, last);
    assert |trunk| == 4 * n;
    forall k: nat | k < n
      ensures trunk[4 * k..4 * k + 4] == (if LastSub(g, q, k) then "    " else "│   ")
    {
      assert LastSub(g, q, k) <==> LastSub(g, p, k);
      if k < n - 1 {
        var old' := prefix[..4 * (n - 1)];
        assert old'[4 * k..4 * k + 4] == (if LastSub(g, p, k) then "    " else "│   ");
        assert trunk[4 * k..4 * k + 4] == old'[4 * k..4 * k + 4];
      } else {
        assert trunk[4 * k..4 * k + 4] == if last then "    " else "│   ";
      }
    }
    var sub := SubPrefix(prefix, last, i == |g[r].subErrors| - 1);
    assert sub[..4 * n] == trunk;
  }

  /** The prefix of a place depends only on the way, not on what is at its end. */
  lemma SamePrefix(g: Graph, at: seq<nat>, path: seq<Ref>, c: Ref, prefix: string)
    requires |path| == |at| && c in g && Known(g, Place(at, path, true)) && IsPrefix(g, Place(at, path, true), prefix)
    ensures IsPrefix(g, Place(at, path + [c], false), prefix)
  {
    var p, q := Place(at, path, true), Place(at, path + [c], false);
    assert forall k: nat :: k < |at| ==> (LastSub(g, p, k) <==> LastSub(g, q, k));
  }

  lemma LaidJoin(g: Graph, a: seq<Place>, x: seq<Line>, b: seq<Place>, y: seq<Line>)
    requires AllLaid(g, a, x) && AllLaid(g, b, y)
    ensures AllLaid(g, a + b, x + y)
  {
    forall k | 0 <= k < |a + b|
      ensures Laid(g, (a + b)[k], (x + y)[k])
    {
    }
  }

  lemma {:induction false} LinesLaid(g: Graph, r: Ref, prefix: string, last: bool, at: seq<nat>, seen: seq<Ref>)
    requires Closed(g) && r in g && |at| == |seen| && Known(g, Place(at, seen + [r], false))
    requires IsPrefix(g, Place(at, seen + [r], false), prefix)
    requires |at| > 0 ==> (last <==> LastSub(g, Place(at, seen + [r], false), |at| - 1))
    ensures AllLaid(g, Places(g, r, at, seen), Lines(g, r, prefix, last, seen))
    decreases Unseen(g, seen), 1, 0
  {
    if r !in seen {
      UnseenShrinks(g, seen, r);
      SubLinesLaid(g, r, 0, prefix, last, at, seen + [r]);
      var own := Place(at, seen + [r], false);
      var head := Line(seen + [r], false, prefix + g[r].message + Separator(g[r]));
      assert head.text == prefix + Says(g, own);
      assert Laid(g, own, head);
      LaidJoin(g, [own], [head], SubPlaces(g, r, 0, at, seen + [r]), SubLines(g, r, 0, prefix, last, seen + [r]));
    }
  }

  lemma {:induction false} SubLinesLaid(g: Graph, r: Ref, i: nat, prefix: string, last: bool, at: seq<nat>,
                                        path: seq<Ref>)
    requires Closed(g) && r in g && i <= |g[r].subErrors| && |path| == |at| + 1 && path[|at|] == r
    requires Known(g, Place(at, path, false)) && IsPrefix(g, Place(at, path, false), prefix)
    requires |at| > 0 ==> (last <==> LastSub(g, Place(at, path, false), |at| - 1))
    ensures AllLaid(g, SubPlaces(g, r, i, at, path), SubLines(g, r, i, prefix, last, path))
    decreases Unseen(g, path), 2, |g[r].subErrors| - i
  {
    if i < |g[r].subErrors| {
      SubPrefixIs(g, r, at, path, prefix, last, i);
      SubLinesLaid(g, r, i + 1, prefix, last, at, path);
      var below := LinesBelow(g, r, i, SubPrefix(prefix, last, i == |g[r].subErrors| - 1), path);
      LinesBelowLaid(g, r, i, SubPrefix(prefix, last, i == |g[r].subErrors| - 1), at, path);
      LaidJoin(g, PlacesBelow(g, r, i, at, path), below,
               SubPlaces(g, r, i + 1, at, path), SubLines(g, r, i + 1, prefix, last, path));
    }
  }

  /** The lines of the `i`-th sub-error of `r`, behind `prefix`. */
  ghost function LinesBelow(g: Graph, r: Ref, i: nat, prefix: string, path: seq<Ref>): seq<Line>
    requires Closed(g) && r in g && i < |g[r].subErrors|
  {
    match g[r].subErrors[i]
    case Nested(c) => Lines(g, c, prefix, i == |g[r].subErrors| - 1, path)
    case Plain(text) => [Line(path, true, prefix + text + "\n")]
  }

  lemma {:induction false} LinesBelowLaid(g: Graph, r: Ref, i: nat, sub: string, at: seq<nat>, path: seq<Ref>)
    requires Closed(g) && r in g && i < |g[r].subErrors| && |path| == |at| + 1 && path[|at|] == r
    requires Known(g, Place(at + [i], path, true)) && IsPrefix(g, Place(at + [i], path, true), sub)
    ensures AllLaid(g, PlacesBelow(g, r, i, at, path), LinesBelow(g, r, i, sub, path))
    decreases Unseen(g, path), 2, 0
  {
    match g[r].subErrors[i]
    case Nested(c) =>
      SamePrefix(g, at + [i], path, c, sub);
      LinesLaid(g, c, sub, i == |g[r].subErrors| - 1, at + [i], path);
    case Plain(text) => SubLaid(g, r, i, sub, at, path);
  }

  lemma SubLaid(g: Graph, r: Ref, i: nat, sub: string, at: seq<nat>, path: seq<Ref>)
    requires Closed(g) && r in g && i < |g[r].subErrors| && |path| == |at| + 1 && path[|at|] == r
    requires Known(g, Place(at + [i], path, true)) && IsPrefix(g, Place(at + [i], path, true), sub)
    ensures g[r].subErrors[i].Plain? ==>
              Laid(g, Place(at + [i], path, true), Line(path, true, sub + g[r].subErrors[i].text + "\n"))
  {
    if g[r].subErrors[i].Plain? {
      var p := Place(at + [i], path, true);
      assert sub + g[r].subErrors[i].text + "\n" == sub + Says(g, p);
    }
  }

  /** The lines printed from a root are exactly those of the ways that meet no validation error twice, each once,
      in order, and each is drawn by its way: four characters for each error above it, then a branch, then what
      it says. */
  lemma LaidOut(g: Graph, root: Ref)
    requires Closed(g) && root in g
    ensures var places := Places(g, root, [], []);
            && AllLaid(g, places, Lines(g, root, "", true, []))
            && InOrder(places)
            && forall p :: p in places <==> Located(g, root, p)
  {
    LinesLaid(g, root, "", true, [], []);
    PlacesOrdered(g, root, [], []);
    forall p
      ensures p in Places(g, root, [], []) <==> Located(g, root, p)
    {
      PlacedExactly(g, root, p);
    }
  }
}
