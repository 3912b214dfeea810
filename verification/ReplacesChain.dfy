/** The upgrade graph of a channel: its head, and the chain of replacements from there. */
module ReplacesChain {
  import opened Declcfg
  import opened Orders
  import opened Listing
  import opened Model

  /** The bundles of a channel by name, as far as upgrades go. */
  type Graph = map<string, ChannelEntry>

  datatype ChainError =
    | NoHead
    | ManyHeads(names: seq<string>)
    | Cycle(path: seq<string>)
    | Stranded(names: seq<string>)

  // ----- The head -----

  /** Some bundle in `done` replaces or skips `n`. */
  ghost predicate Pointed(g: Graph, done: set<string>, n: string) {
    exists m :: m in done && m in g && PointsTo(g[m], n)
  }

  predicate PointsTo(e: ChannelEntry, n: string) {
    (e.replacesName == n && n != "") || n in e.skips
  }

  ghost function Heads(g: Graph): set<string> {
    set n | n in g && !Pointed(g, g.Keys, n)
  }

  /** Counts one more edge to each name that a bundle points to. */
  method CountEdges(incoming0: map<string, nat>, e: ChannelEntry) returns (incoming: map<string, nat>)
    ensures forall n :: n in incoming <==> n in incoming0 || PointsTo(e, n)
  {
    incoming := incoming0;
    if e.replacesName != "" {
      incoming := incoming[e.replacesName := (if e.replacesName in incoming then incoming[e.replacesName] else 0) + 1];
    }
    for i := 0 to |e.skips|
      invariant forall n :: n in incoming <==> n in incoming0 || (e.replacesName == n && n != "") || n in e.skips[..i]
    {
      assert e.skips[..i + 1] == e.skips[..i] + [e.skips[i]];
      incoming := incoming[e.skips[i] := (if e.skips[i] in incoming then incoming[e.skips[i]] else 0) + 1];
    }
    assert e.skips[..|e.skips|] == e.skips;
  }

  method Incoming(g: Graph) returns (incoming: map<string, nat>)
    ensures forall n :: n in incoming <==> Pointed(g, g.Keys, n)
  {
    incoming := map[];
    var left := g.Keys;
    while left != {}
      invariant left <= g.Keys
      invariant forall n :: n in incoming <==> Pointed(g, g.Keys - left, n)
      decreases left
    {
      var m :| m in left;
      incoming := CountEdges(incoming, g[m]);
      DoneNext(g.Keys, left, m);
      left := left - {m};
    }
    assert g.Keys - left == g.Keys;
  }

  method ListHeads(g: Graph, incoming: map<string, nat>) returns (heads: seq<string>)
    requires forall n :: n in incoming <==> Pointed(g, g.Keys, n)
    ensures Collects(Identity, heads, Heads(g))
  {
    heads := [];
    var left := g.Keys;
    assert Heads(g) - left == {};
    while left != {}
      invariant left <= g.Keys
      invariant Collects(Identity, heads, Heads(g) - left)
      decreases left
    {
      var n :| n in left;
      if n !in incoming {
        CollectsNext(Identity, heads, Heads(g) - left, n);
        heads := heads + [n];
        assert Heads(g) - (left - {n}) == Heads(g) - left + {n};
      } else {
        assert Heads(g) - (left - {n}) == Heads(g) - left;
      }
      left := left - {n};
    }
    assert Heads(g) - left == Heads(g);
  }

  /** The one bundle that nothing replaces or skips. */
  method Head(g: Graph) returns (r: Result<string, ChainError>)
    ensures r.Ok? ==> Heads(g) == {r.value}
    ensures r.Err? ==> r.error == if Heads(g) == {} then NoHead else ManyHeads(Ordered(Identity, Heads(g)))
    ensures r.Err? ==> forall h :: Heads(g) != {h}
  {
    var incoming := Incoming(g);
    var heads := ListHeads(g, incoming);
    if |heads| == 0 {
      return Err(NoHead);
    }
    assert heads[0] in Heads(g);
    if |heads| > 1 {
      var names := SortSlice(heads, Identity);
      SortIsOrdered(Identity, heads, Heads(g), names);
      assert heads[1] in Heads(g) && heads[0] != heads[1];
      return Err(ManyHeads(names));
    }
    assert Heads(g) == {heads[0]};
    return Ok(heads[0]);
  }

  // ----- The chain -----

  /** What is `k` replacements below `from`; a name that is not in the channel ends the chain. */
  function Follow(g: Graph, from: string, k: nat): Option<string> {
    if k == 0 then Some(from)
    else
      var above := Follow(g, from, k - 1);
      if above.Some? && above.value in g then Some(g[above.value].replacesName) else None
  }

  ghost predicate Acyclic(g: Graph, from: string) {
    forall i: nat, j: nat :: i < j && Follow(g, from, j).Some? ==> Follow(g, from, i) != Follow(g, from, j)
  }

  ghost predicate OnChain(g: Graph, from: string, n: string) {
    exists k: nat :: Follow(g, from, k) == Some(n)
  }

  ghost predicate Skipped(g: Graph, n: string) {
    exists m :: m in g && n in g[m].skips
  }

  /** The bundles that are neither on the chain nor skipped. */
  ghost function StrandedFrom(g: Graph, from: string): set<string> {
    set n | n in g && !OnChain(g, from, n) && !Skipped(g, n)
  }

  /** A path of replacements that comes back to where it starts, and to nothing else twice. */
  ghost predicate IsCycle(g: Graph, path: seq<string>) {
    && |path| >= 2 && path[0] == path[|path| - 1]
    && (forall i :: 0 <= i < |path| - 1 ==> path[i] in g && g[path[i]].replacesName == path[i + 1])
    && (forall i, j :: 0 <= i < j < |path| - 1 ==> path[i] != path[j])
  }

  /** The chain as far as it has been followed. */
  ghost predicate IsWalk(g: Graph, from: string, walk: seq<string>) {
    && |walk| > 0
    && (forall i :: 0 <= i < |walk| ==> Follow(g, from, i) == Some(walk[i]))
    && (forall i :: 0 <= i < |walk| - 1 ==> walk[i] in g)
    && (forall i, j :: 0 <= i < j < |walk| ==> walk[i] != walk[j])
  }

  lemma WalkNext(g: Graph, from: string, walk: seq<string>)
    requires IsWalk(g, from, walk) && walk[|walk| - 1] in g && g[walk[|walk| - 1]].replacesName !in walk
    ensures IsWalk(g, from, walk + [g[walk[|walk| - 1]].replacesName])
  {
    var n := |walk|;
    assert Follow(g, from, n) == Some(g[walk[n - 1]].replacesName);
  }

  lemma WalkLinks(g: Graph, from: string, walk: seq<string>, i: nat)
    requires IsWalk(g, from, walk) && i + 1 < |walk|
    ensures g[walk[i]].replacesName == walk[i + 1]
  {
    assert Follow(g, from, i + 1) == Some(g[walk[i]].replacesName);
  }

  /** Coming back to the name at `i`. */
  lemma WalkCycle(g: Graph, from: string, walk: seq<string>, i: nat)
    requires IsWalk(g, from, walk) && i < |walk| && walk[|walk| - 1] in g && g[walk[|walk| - 1]].replacesName == walk[i]
    ensures IsCycle(g, walk[i..] + [walk[i]]) && !Acyclic(g, from)
  {
    var path := walk[i..] + [walk[i]];
    forall k | 0 <= k < |path| - 1
      ensures path[k] in g && g[path[k]].replacesName == path[k + 1]
    {
      if i + k + 1 < |walk| {
        WalkLinks(g, from, walk, i + k);
      }
    }
    var n := |walk|;
    assert Follow(g, from, n) == Some(walk[i]) == Follow(g, from, i);
  }

  lemma {:induction false} Ended(g: Graph, from: string, walk: seq<string>, k: nat)
    requires IsWalk(g, from, walk) && walk[|walk| - 1] !in g && k >= |walk|
    ensures Follow(g, from, k) == None
  {
    if k > |walk| {
      Ended(g, from, walk, k - 1);
    } else {
      assert Follow(g, from, |walk| - 1) == Some(walk[|walk| - 1]);
    }
  }

  /** A walk that has come to its end is the whole chain. */
  lemma WalkIsChain(g: Graph, from: string, walk: seq<string>)
    requires IsWalk(g, from, walk) && walk[|walk| - 1] !in g
    ensures Acyclic(g, from) && forall n :: OnChain(g, from, n) <==> n in walk
  {
    forall k: nat | Follow(g, from, k).Some?
      ensures k < |walk| && Follow(g, from, k).value == walk[k]
    {
      if k >= |walk| {
        Ended(g, from, walk, k);
      }
    }
    forall n | n in walk
      ensures OnChain(g, from, n)
    {
      var i :| 0 <= i < |walk| && walk[i] == n;
      assert Follow(g, from, i) == Some(n);
    }
  }

  // ----- Following it -----

  /** For every name on the walk but the last, the walk from there on. */
  ghost predicate Tracked(chainFrom: map<string, seq<string>>, walk: seq<string>) {
    && |walk| > 0
    && (forall n :: n in chainFrom <==> n in walk[..|walk| - 1])
    && forall i :: 0 <= i < |walk| - 1 ==> chainFrom[walk[i]] == walk[i..]
  }

  /** Appends a name to every chain. */
  method AppendToAll(chainFrom0: map<string, seq<string>>, name: string) returns (chainFrom: map<string, seq<string>>)
    ensures chainFrom == map n | n in chainFrom0 :: chainFrom0[n] + [name]
  {
    chainFrom := chainFrom0;
    var left := chainFrom0.Keys;
    while left != {}
      invariant left <= chainFrom0.Keys
      invariant chainFrom == map n | n in chainFrom0 :: if n in left then chainFrom0[n] else chainFrom0[n] + [name]
      decreases left
    {
      var k :| k in left;
      chainFrom := chainFrom[k := chainFrom[k] + [name]];
      left := left - {k};
    }
  }

  method Track(chainFrom0: map<string, seq<string>>, cur: string, below: string, ghost walk: seq<string>)
    returns (chainFrom: map<string, seq<string>>)
    requires Tracked(chainFrom0, walk) && walk[|walk| - 1] == cur && forall i, j :: 0 <= i < j < |walk| ==>
                                                                       walk[i] != walk[j]
    ensures chainFrom.Keys == Elements(walk)
    ensures forall i :: 0 <= i < |walk| ==> chainFrom[walk[i]] == walk[i..] + [below]
  {
    chainFrom := chainFrom0;
    if cur !in chainFrom {
      chainFrom := chainFrom[cur := [cur]];
    }
    forall i | 0 <= i < |walk|
      ensures walk[i] in chainFrom && chainFrom[walk[i]] == walk[i..]
    {
      if i < |walk| - 1 {
        assert walk[i] in walk[..|walk| - 1];
      }
    }
    assert walk == walk[..|walk| - 1] + [cur];
    chainFrom := AppendToAll(chainFrom, below);
  }

  lemma LessLeft(g: Graph, head: string, walk: seq<string>, below: string)
    requires IsWalk(g, head, walk) && walk[|walk| - 1] in g
    ensures Elements(walk + [below]) == Elements(walk) + {below}
    ensures Left(g, walk + [below]) < Left(g, walk)
  {
    var n := |walk| - 1;
    assert (walk + [below])[..|walk|] == walk;
    assert walk == walk[..n] + [walk[n]];
    assert walk[n] !in walk[..n];
    assert Left(g, walk + [below]) == Left(g, walk) - {walk[n]};
  }

  /** The bundles that have not been passed. */
  ghost function Left(g: Graph, walk: seq<string>): set<string>
    requires |walk| > 0
  {
    g.Keys - Elements(walk[..|walk| - 1])
  }

  /** Follows the chain to its end, or finds a cycle. */
  method FollowChain(g: Graph, head: string) returns (r: Result<set<string>, ChainError>)
    requires head in g
    ensures r.Ok? ==> Acyclic(g, head) && forall n :: n in r.value <==> OnChain(g, head, n)
    ensures r.Err? ==> !Acyclic(g, head) && r.error.Cycle? && IsCycle(g, r.error.path)
  {
    var chainFrom: map<string, seq<string>> := map[];
    var chain := {head};
    var cur := head;
    ghost var walk := [head];
    while cur in g
      invariant IsWalk(g, head, walk) && cur == walk[|walk| - 1]
      invariant chain == Elements(walk) && Tracked(chainFrom, walk)
      decreases Left(g, walk)
    {
      var below := g[cur].replacesName;
      chainFrom := Track(chainFrom, cur, below, walk);
      if below in chain {
        ghost var i :| 0 <= i < |walk| && walk[i] == below;
        WalkCycle(g, head, walk, i);
        return Err(Cycle(chainFrom[below]));
      }
      WalkNext(g, head, walk);
      TrackedNext(chainFrom, walk, below);
      LessLeft(g, head, walk, below);
      chain, walk, cur := chain + {below}, walk + [below], below;
    }
    WalkIsChain(g, head, walk);
    r := Ok(chain);
  }

  lemma TrackedNext(chainFrom: map<string, seq<string>>, walk: seq<string>, below: string)
    requires chainFrom.Keys == Elements(walk) && forall i :: 0 <= i < |walk| ==>
                                                   chainFrom[walk[i]] == walk[i..] + [below]
    ensures Tracked(chainFrom, walk + [below])
  {
    var longer := walk + [below];
    assert longer[..|walk|] == walk;
    assert forall i :: 0 <= i < |walk| ==> longer[i..] == walk[i..] + [below];
  }

  // ----- The whole check -----

  method AllSkipped(g: Graph) returns (skipped: set<string>)
    ensures forall n :: n in skipped <==> Skipped(g, n)
  {
    skipped := {};
    var left := g.Keys;
    while left != {}
      invariant left <= g.Keys
      invariant forall n :: n in skipped <==> exists m :: m in g && m !in left && n in g[m].skips
      decreases left
    {
      var m :| m in left;
      skipped := skipped + Elements(g[m].skips);
      left := left - {m};
    }
  }

  /** There is one head, the chain from it has no cycle, and it reaches every bundle that is not skipped. */
  ghost predicate ValidChain(g: Graph) {
    exists h :: Heads(g) == {h} && Acyclic(g, h) && StrandedFrom(g, h) == {}
  }

  /** `path` is the replacements from a bundle down to a name that is not in the channel. */
  ghost predicate IsChain(g: Graph, path: seq<string>) {
    && |path| >= 2 && path[|path| - 1] !in g
    && (forall i :: 0 <= i < |path| - 1 ==> path[i] in g && g[path[i]].replacesName == path[i + 1])
    && (forall i, j :: 0 <= i < j < |path| ==> path[i] != path[j])
  }

  /** Another bundle, or the bundle itself, replaces or skips `n`. */
  ghost predicate Superseded(g: Graph, n: string) {
    exists m :: m in g && ((n != "" && g[m].replacesName == n) || n in g[m].skips)
  }

  lemma {:induction false} WalkToEnd(g: Graph, from: string, walk: seq<string>) returns (path: seq<string>)
    requires IsWalk(g, from, walk) && Acyclic(g, from)
    ensures IsWalk(g, from, path) && path[|path| - 1] !in g
    decreases Left(g, walk)
  {
    var cur := walk[|walk| - 1];
    if cur in g {
      var below := g[cur].replacesName;
      if below in walk {
        var i :| 0 <= i < |walk| && walk[i] == below;
        WalkCycle(g, from, walk, i);
      }
      WalkNext(g, from, walk);
      LessLeft(g, from, walk, below);
      path := WalkToEnd(g, from, walk + [below]);
    } else {
      path := walk;
    }
  }

  lemma {:induction false} ChainFollows(g: Graph, path: seq<string>, k: nat)
    requires IsChain(g, path) && k < |path|
    ensures Follow(g, path[0], k) == Some(path[k])
  {
    if k > 0 {
      ChainFollows(g, path, k - 1);
    }
  }

  lemma ChainIsWalk(g: Graph, path: seq<string>)
    requires IsChain(g, path)
    ensures IsWalk(g, path[0], path)
  {
    forall i | 0 <= i < |path|
      ensures Follow(g, path[0], i) == Some(path[i])
    {
      ChainFollows(g, path, i);
    }
  }

  lemma WalkLinked(g: Graph, from: string, walk: seq<string>)
    requires IsWalk(g, from, walk) && from in g && walk[|walk| - 1] !in g
    ensures IsChain(g, walk) && walk[0] == from
  {
    assert Follow(g, from, 0) == Some(walk[0]);
    forall i | 0 <= i < |walk| - 1
      ensures g[walk[i]].replacesName == walk[i + 1]
    {
      WalkLinks(g, from, walk, i);
    }
  }

  /** The replacements of a channel in order: all bundles that are not skipped are in `path`, and its first is the
      only bundle that nothing supersedes. */
  ghost predicate ChainCovers(g: Graph, path: seq<string>) {
    && IsChain(g, path)
    && (forall n :: n in g ==> (n == path[0] <==> !Superseded(g, n)))
    && (forall n :: n in g ==> n in path || exists m :: m in g && n in g[m].skips)
  }

  /** A channel is valid exactly if there is such a path. */
  lemma ValidChainExactly(g: Graph)
    ensures ValidChain(g) <==> exists path: seq<string> :: ChainCovers(g, path)
  {
    assert forall n :: Pointed(g, g.Keys, n) <==> Superseded(g, n);
    if ValidChain(g) {
      var h :| Heads(g) == {h} && Acyclic(g, h) && StrandedFrom(g, h) == {};
      assert h in Heads(g);
      var path := WalkToEnd(g, h, [h]);
      WalkLinked(g, h, path);
      WalkIsChain(g, h, path);
      ValidCovers(g, h, path);
    }
    if path: seq<string> :| ChainCovers(g, path) {
      ChainIsWalk(g, path);
      WalkIsChain(g, path[0], path);
      assert Heads(g) == {path[0]};
      assert StrandedFrom(g, path[0]) == {};
    }
  }

  lemma ValidCovers(g: Graph, h: string, path: seq<string>)
    requires IsChain(g, path) && path[0] == h && Heads(g) == {h} && StrandedFrom(g, h) == {}
    requires forall n :: OnChain(g, h, n) <==> n in path
    ensures ChainCovers(g, path)
  {
    forall n | n in g
      ensures n == path[0] <==> !Superseded(g, n)
      ensures n in path || exists m :: m in g && n in g[m].skips
    {
      assert n in Heads(g) <==> !Pointed(g, g.Keys, n);
      assert n !in StrandedFrom(g, h);
    }
  }

  method ValidateReplacesChain(g: Graph) returns (err: Option<ChainError>)
    ensures err.None? <==> ValidChain(g)
    ensures err.Some? ==>
              match err.value
              case NoHead => Heads(g) == {}
              case ManyHeads(names) => names == Ordered(Identity, Heads(g)) && |names| > 1
              case Cycle(path) => IsCycle(g, path)
              case Stranded(names) => exists h ::
                                        Heads(g) == {h} && Acyclic(g, h)
                                            && names == Ordered(Identity, StrandedFrom(g, h))
  {
    var head := Head(g);
    if head.Err? {
      err := Some(head.error);
      if Heads(g) != {} {
        ManyInOrder(Heads(g));
      }
      return;
    }
    var h := head.value;
    assert h in Heads(g);
    var chain := FollowChain(g, h);
    if chain.Err? {
      return Some(chain.error);
    }
    var skipped := AllSkipped(g);
    var stranded := g.Keys - chain.value - skipped;
    assert stranded == StrandedFrom(g, h);
    if stranded != {} {
      var names := SortedList(stranded);
      return Some(Stranded(names));
    }
    return None;
  }

  lemma ManyInOrder(s: set<string>)
    requires s != {} && forall h :: s != {h}
    ensures |Ordered(Identity, s)| > 1
  {
    OrderedSorted(Identity, s);
    var x :| x in s;
    assert s != {x};
    var y :| y in s && y != x;
    assert {x, y} <= s;
    assert |multiset(s)| == |Ordered(Identity, s)|;
    assert multiset{x, y} <= multiset(s);
    assert |multiset(s)| == |multiset(s) - multiset{x, y}| + 2;
  }
}
