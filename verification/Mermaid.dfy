/** Drawing the upgrade graph of a catalog, optionally from a floor version up. */
module Mermaid {
  import opened Declcfg
  import opened Interleaving
  import opened Orders
  import opened Picking
  import opened Semver

  type Versions = map<string, Version>

  /** What the user asked for; empty strings stand for "not given". `inRange(r, v)` says that `r` parses
      as a version range and contains `v`. */
  datatype Writer = Writer(minEdgeName: string, specifiedPackage: string, inRange: (string, Version) -> bool)

  /** A name that has no version counts as version 0.0.0. */
  function VersionOf(versions: Versions, name: string): Version {
    if name in versions then versions[name] else ZERO
  }

  predicate AtOrAbove(versions: Versions, name: string, floor: Version) {
    GTE(VersionOf(versions, name), floor)
  }

  // ----- Filtering one channel -----

  predicate NoReferences(ce: ChannelEntry) {
    |ce.replacesName| == 0 && |ce.skips| == 0 && |ce.skipRange| == 0
  }

  /** The skips at or above the floor, in order. */
  function SkipsAbove(versions: Versions, floor: Version, skips: seq<string>): (r: seq<string>)
    ensures forall s :: s in r <==> s in skips && AtOrAbove(versions, s, floor)
  {
    if |skips| == 0 then []
    else
      var n := |skips| - 1;
      assert skips == skips[..n] + [skips[n]];
      SkipsAbove(versions, floor, skips[..n]) + if AtOrAbove(versions, skips[n], floor) then [skips[n]] else []
  }

  /** An entry with the references that survive the floor. */
  function Trim(writer: Writer, versions: Versions, floor: Version, ce: ChannelEntry): ChannelEntry {
    if writer.minEdgeName == "" then ce
    else if ce.name == writer.minEdgeName then ChannelEntry(ce.name, "", [], "")
    else
      ChannelEntry(
        ce.name,
        if AtOrAbove(versions, ce.replacesName, floor) then ce.replacesName else "",
        SkipsAbove(versions, floor, ce.skips),
        if writer.inRange(ce.skipRange, floor) then ce.skipRange else "")
  }

  /** An entry is shown if it is the floor itself, keeps a reference, or never had one and is not below. */
  predicate Shown(writer: Writer, versions: Versions, floor: Version, ce: ChannelEntry) {
    || writer.minEdgeName == ""
    || ce.name == writer.minEdgeName
    || !NoReferences(Trim(writer, versions, floor, ce))
    || (NoReferences(ce) && AtOrAbove(versions, ce.name, floor))
  }

  function FilterEntries(writer: Writer, versions: Versions, floor: Version,
                         entries: seq<ChannelEntry>): seq<ChannelEntry> {
    if |entries| == 0 then []
    else
      var last := entries[|entries| - 1];
      FilterEntries(writer, versions, floor, entries[..|entries| - 1])
      + if Shown(writer, versions, floor, last) then [Trim(writer, versions, floor, last)] else []
  }

  /** No filter is active. */
  predicate Open(writer: Writer) {
    writer.minEdgeName == "" && writer.specifiedPackage == ""
  }

  function FilterSpec(writer: Writer, versions: Versions, floor: Version, minEdgePackage: string,
                      c: Channel): Option<Channel> {
    if Open(writer) then Some(c)
    else if writer.specifiedPackage != "" && c.pkg != writer.specifiedPackage then None
    else if minEdgePackage != "" && c.pkg != minEdgePackage then None
    else
      var entries := FilterEntries(writer, versions, floor, c.entries);
      if |entries| == 0 then None else Some(Channel("", c.name, c.pkg, entries, c.properties))
  }

  method FilterSkips(versions: Versions, floor: Version, skips: seq<string>) returns (kept: seq<string>)
    ensures kept == SkipsAbove(versions, floor, skips)
  {
    kept := [];
    for i := 0 to |skips|
      invariant kept == SkipsAbove(versions, floor, skips[..i])
    {
      assert skips[..i + 1][..i] == skips[..i];
      if GTE(VersionOf(versions, skips[i]), floor) {
        kept := kept + [skips[i]];
      }
    }
    assert skips[..|skips|] == skips;
  }

  method FilterEntry(writer: Writer, versions: Versions, floor: Version, ce: ChannelEntry)
    returns (r: Option<ChannelEntry>)
    requires writer.minEdgeName != "" && ce.name != writer.minEdgeName
    ensures r == if Shown(writer, versions, floor, ce) then Some(Trim(writer, versions, floor, ce)) else None
  {
    var filtered := ChannelEntry(ce.name, "", [], "");
    if |ce.replacesName| > 0 && GTE(VersionOf(versions, ce.replacesName), floor) {
      filtered := filtered.(replacesName := ce.replacesName);
    }
    if |ce.skips| > 0 {
      var skips := FilterSkips(versions, floor, ce.skips);
      if |skips| > 0 {
        filtered := filtered.(skips := skips);
      }
    }
    if |ce.skipRange| > 0 {
      if writer.inRange(ce.skipRange, floor) {
        filtered := filtered.(skipRange := ce.skipRange);
      }
    }
    assert filtered == Trim(writer, versions, floor, ce);
    if |filtered.replacesName| > 0 || |filtered.skips| > 0 || |filtered.skipRange| > 0 {
      return Some(filtered);
    }
    if |ce.replacesName| == 0 && |ce.skipRange| == 0 && |ce.skips| == 0
        && GTE(VersionOf(versions, filtered.name), floor) {
      return Some(filtered);
    }
    return None;
  }

  /** The loop over the entries. */
  method FilterAll(writer: Writer, versions: Versions, floor: Version, given: seq<ChannelEntry>)
    returns (entries: seq<ChannelEntry>)
    ensures entries == FilterEntries(writer, versions, floor, given)
  {
    entries := [];
    for i := 0 to |given|
      invariant entries == FilterEntries(writer, versions, floor, given[..i])
    {
      assert given[..i + 1][..i] == given[..i];
      var ce := given[i];
      if writer.minEdgeName == "" {
        var filtered := ChannelEntry(ce.name, ce.replacesName, ce.skips, ce.skipRange);
        if |filtered.replacesName| > 0 || |filtered.skips| > 0 || |filtered.skipRange| > 0 {
          entries := entries + [filtered];
        } else if |ce.replacesName| == 0 && |ce.skipRange| == 0 && |ce.skips| == 0 {
          entries := entries + [filtered];
        }
      } else if ce.name == writer.minEdgeName {
        entries := entries + [ChannelEntry(ce.name, "", [], "")];
      } else {
        var filtered := FilterEntry(writer, versions, floor, ce);
        if filtered.Some? {
          entries := entries + [filtered.value];
        }
      }
    }
    assert given[..|given|] == given;
  }

  method FilterChannel(writer: Writer, versions: Versions, floor: Version, minEdgePackage: string, c: Channel)
    returns (r: Option<Channel>)
    ensures r == FilterSpec(writer, versions, floor, minEdgePackage, c)
    ensures Filters(writer, versions, floor, minEdgePackage, c, r)
  {
    FilterSpecExactly(writer, versions, floor, minEdgePackage, c);
    if writer.minEdgeName == "" && writer.specifiedPackage == "" {
      return Some(c);
    }
    if writer.specifiedPackage != "" && c.pkg != writer.specifiedPackage {
      return None;
    }
    if minEdgePackage != "" && c.pkg != minEdgePackage {
      return None;
    }
    var entries := FilterAll(writer, versions, floor, c.entries);
    return if |entries| > 0 then Some(Channel("", c.name, c.pkg, entries, c.properties)) else None;
  }

  // ----- Properties of the filter -----

  lemma {:induction false} SkipsAboveAgain(versions: Versions, floor: Version, skips: seq<string>)
    requires forall k :: 0 <= k < |skips| ==> AtOrAbove(versions, skips[k], floor)
    ensures SkipsAbove(versions, floor, skips) == skips
  {
    if |skips| != 0 {
      var n := |skips| - 1;
      SkipsAboveAgain(versions, floor, skips[..n]);
      LastAppended(skips);
    }
  }

  lemma TrimAgain(writer: Writer, versions: Versions, floor: Version, ce: ChannelEntry)
    ensures Trim(writer, versions, floor, Trim(writer, versions, floor, ce)) == Trim(writer, versions, floor, ce)
    ensures Shown(writer, versions, floor, ce) ==> Shown(writer, versions, floor, Trim(writer, versions, floor, ce))
  {
    var skips := SkipsAbove(versions, floor, ce.skips);
    assert forall k :: 0 <= k < |skips| ==> skips[k] in skips;
    SkipsAboveAgain(versions, floor, skips);
  }

  lemma {:induction false} FilterEntriesAgain(writer: Writer, versions: Versions, floor: Version,
                                              entries: seq<ChannelEntry>)
    ensures var once := FilterEntries(writer, versions, floor, entries);
            FilterEntries(writer, versions, floor, once) == once
  {
    if |entries| != 0 {
      var n := |entries| - 1;
      var before := FilterEntries(writer, versions, floor, entries[..n]);
      FilterEntriesAgain(writer, versions, floor, entries[..n]);
      TrimAgain(writer, versions, floor, entries[n]);
      var trimmed := Trim(writer, versions, floor, entries[n]);
      assert (before + [trimmed])[..|before|] == before;
      assert before + [] == before;
    }
  }

  /** Filtering a filtered channel changes nothing. */
  lemma FilterIdempotent(writer: Writer, versions: Versions, floor: Version, minEdgePackage: string, c: Channel)
    requires FilterSpec(writer, versions, floor, minEdgePackage, c).Some?
    ensures var once := FilterSpec(writer, versions, floor, minEdgePackage, c).value;
            FilterSpec(writer, versions, floor, minEdgePackage, once) == Some(once)
  {
    FilterEntriesAgain(writer, versions, floor, c.entries);
  }

  ghost function NotBelow(versions: Versions, floor: Version): string -> bool {
    (name: string) => AtOrAbove(versions, name, floor)
  }

  ghost function Itself(): string -> string {
    (name: string) => name
  }

  lemma {:induction false} SkipsAboveExactly(versions: Versions, floor: Version, skips: seq<string>)
    ensures Picked(skips, NotBelow(versions, floor), Itself(), SkipsAbove(versions, floor, skips))
  {
    if |skips| == 0 {
      PickedNone(NotBelow(versions, floor), Itself());
    } else {
      SkipsAboveExactly(versions, floor, skips[..|skips| - 1]);
      PickedNext(skips, NotBelow(versions, floor), Itself(), SkipsAbove(versions, floor, skips[..|skips| - 1]));
    }
  }

  /** With a floor, an entry carries exactly the references that reach down to it and no further. */
  ghost predicate TrimmedTo(writer: Writer, versions: Versions, floor: Version, ce: ChannelEntry, out: ChannelEntry) {
    && out.name == ce.name
    && (ce.name == writer.minEdgeName ==> NoReferences(out))
    && (ce.name != writer.minEdgeName ==>
          && (out.replacesName != "" <==> ce.replacesName != "" && AtOrAbove(versions, ce.replacesName, floor))
          && (out.replacesName != "" ==> out.replacesName == ce.replacesName)
          && (forall s :: s in out.skips <==> s in ce.skips && AtOrAbove(versions, s, floor))
          && Picked(ce.skips, NotBelow(versions, floor), Itself(), out.skips)
          && (out.skipRange != "" <==> ce.skipRange != "" && writer.inRange(ce.skipRange, floor))
          && (out.skipRange != "" ==> out.skipRange == ce.skipRange))
  }

  /** `out` are those of `entries` that are not hidden, trimmed: `from[k]` is where the `k`-th came from. */
  ghost predicate KeptFrom(writer: Writer, versions: Versions, floor: Version, entries: seq<ChannelEntry>,
                           out: seq<ChannelEntry>, from: seq<nat>)
  {
    && |from| == |out|
    && (forall k :: 0 <= k < |from| ==>
          from[k] < |entries| && TrimmedTo(writer, versions, floor, entries[from[k]], out[k]))
    && (forall j, k :: 0 <= j < k < |from| ==> from[j] < from[k])
    && (forall i :: 0 <= i < |entries| ==> (i !in from <==> Hidden(writer, versions, floor, entries[i])))
  }

  lemma KeptFromNext(writer: Writer, versions: Versions, floor: Version, entries: seq<ChannelEntry>,
                     out: seq<ChannelEntry>, from: seq<nat>, ce: ChannelEntry)
    requires writer.minEdgeName != "" && KeptFrom(writer, versions, floor, entries, out, from)
    ensures if Shown(writer, versions, floor, ce)
            then KeptFrom(writer, versions, floor, entries + [ce], out + [Trim(writer, versions, floor, ce)],
                          from + [|entries|])
            else KeptFrom(writer, versions, floor, entries + [ce], out, from)
  {
    HiddenIsNotShown(writer, versions, floor, ce);
    if Shown(writer, versions, floor, ce) {
      KeptOne(writer, versions, floor, entries, out, from, ce, Trim(writer, versions, floor, ce));
    } else {
      KeptNone(writer, versions, floor, entries, out, from, ce);
    }
  }

  lemma KeptOne(writer: Writer, versions: Versions, floor: Version, entries: seq<ChannelEntry>,
                out: seq<ChannelEntry>, from: seq<nat>, ce: ChannelEntry, trimmed: ChannelEntry)
    requires KeptFrom(writer, versions, floor, entries, out, from) && !Hidden(writer, versions, floor, ce)
    requires TrimmedTo(writer, versions, floor, ce, trimmed)
    ensures KeptFrom(writer, versions, floor, entries + [ce], out + [trimmed], from + [|entries|])
  {
    var more, from' := entries + [ce], from + [|entries|];
    forall i | 0 <= i < |more|
      ensures i !in from' <==> Hidden(writer, versions, floor, more[i])
    {
      assert i in from' <==> i in from || i == |entries|;
    }
  }

  lemma KeptNone(writer: Writer, versions: Versions, floor: Version, entries: seq<ChannelEntry>,
                 out: seq<ChannelEntry>, from: seq<nat>, ce: ChannelEntry)
    requires KeptFrom(writer, versions, floor, entries, out, from) && Hidden(writer, versions, floor, ce)
    ensures KeptFrom(writer, versions, floor, entries + [ce], out, from)
  {
    assert |entries| !in from;
  }

  /** The entries kept are a subsequence of those given. An entry is left out exactly when it is not the floor,
      nothing it refers to survives, and it had references or lies below the floor. */
  lemma {:induction false} FilterExact(writer: Writer, versions: Versions, floor: Version, entries: seq<ChannelEntry>)
    returns (from: seq<nat>)
    requires writer.minEdgeName != ""
    ensures KeptFrom(writer, versions, floor, entries, FilterEntries(writer, versions, floor, entries), from)
  {
    if |entries| == 0 {
      from := [];
    } else {
      var n := |entries| - 1;
      from := FilterExact(writer, versions, floor, entries[..n]);
      KeptFromNext(writer, versions, floor, entries[..n], FilterEntries(writer, versions, floor, entries[..n]), from,
                   entries[n]);
      LastAppended(entries);
      if Shown(writer, versions, floor, entries[n]) {
        from := from + [n];
      }
    }
  }

  ghost predicate Hidden(writer: Writer, versions: Versions, floor: Version, ce: ChannelEntry) {
    && ce.name != writer.minEdgeName
    && !(ce.replacesName != "" && AtOrAbove(versions, ce.replacesName, floor))
    && (forall s :: s in ce.skips ==> !AtOrAbove(versions, s, floor))
    && !(ce.skipRange != "" && writer.inRange(ce.skipRange, floor))
    && (!NoReferences(ce) || !AtOrAbove(versions, ce.name, floor))
  }

  lemma HiddenIsNotShown(writer: Writer, versions: Versions, floor: Version, ce: ChannelEntry)
    requires writer.minEdgeName != ""
    ensures Hidden(writer, versions, floor, ce) <==> !Shown(writer, versions, floor, ce)
    ensures TrimmedTo(writer, versions, floor, ce, Trim(writer, versions, floor, ce))
  {
    var out := SkipsAbove(versions, floor, ce.skips);
    SkipsAboveExactly(versions, floor, ce.skips);
    if |out| > 0 {
      assert out[0] in out;
    }
  }

  lemma {:induction false} FilterWithoutFloor(writer: Writer, versions: Versions, floor: Version,
                                              entries: seq<ChannelEntry>)
    requires writer.minEdgeName == ""
    ensures FilterEntries(writer, versions, floor, entries) == entries
  {
    if |entries| > 0 {
      FilterWithoutFloor(writer, versions, floor, entries[..|entries| - 1]);
      LastAppended(entries);
    }
  }

  /** Without a floor every entry stays, with a floor those that are not hidden. */
  ghost predicate Stays(writer: Writer, versions: Versions, floor: Version, ce: ChannelEntry) {
    writer.minEdgeName == "" || !Hidden(writer, versions, floor, ce)
  }

  /** A channel is left out exactly if a filter is active and it is of another package than the specified one or
      that of the floor, or none of its entries stays. */
  ghost predicate LeftOut(writer: Writer, versions: Versions, floor: Version, minEdgePackage: string, c: Channel) {
    && !(writer.minEdgeName == "" && writer.specifiedPackage == "")
    && (|| (writer.specifiedPackage != "" && c.pkg != writer.specifiedPackage)
        || (minEdgePackage != "" && c.pkg != minEdgePackage)
        || forall i :: 0 <= i < |c.entries| ==> !Stays(writer, versions, floor, c.entries[i]))
  }

  lemma NothingStays(writer: Writer, versions: Versions, floor: Version, entries: seq<ChannelEntry>)
    ensures FilterEntries(writer, versions, floor, entries) == []
       <==> forall i :: 0 <= i < |entries| ==> !Stays(writer, versions, floor, entries[i])
  {
    if writer.minEdgeName == "" {
      FilterWithoutFloor(writer, versions, floor, entries);
      assert |entries| > 0 ==> Stays(writer, versions, floor, entries[0]);
    } else {
      var from := FilterExact(writer, versions, floor, entries);
      assert |from| > 0 ==> from[0] in from && !Hidden(writer, versions, floor, entries[from[0]]);
    }
  }

  /** What the filter makes of a channel: nothing exactly if it is left out; otherwise the channel itself, with all
      its entries if there is no floor, and with those that stay, trimmed to it, if there is one. */
  ghost predicate Filters(writer: Writer, versions: Versions, floor: Version, minEdgePackage: string, c: Channel,
                          r: Option<Channel>) {
    match r
    case None => LeftOut(writer, versions, floor, minEdgePackage, c)
    case Some(shown) =>
      && !LeftOut(writer, versions, floor, minEdgePackage, c)
      && shown.name == c.name && shown.pkg == c.pkg && shown.properties == c.properties
      && if writer.minEdgeName == "" then shown.entries == c.entries
         else exists from: seq<nat> :: KeptFrom(writer, versions, floor, c.entries, shown.entries, from)
  }

  lemma FilterSpecExactly(writer: Writer, versions: Versions, floor: Version, minEdgePackage: string, c: Channel)
    ensures Filters(writer, versions, floor, minEdgePackage, c, FilterSpec(writer, versions, floor, minEdgePackage, c))
  {
    NothingStays(writer, versions, floor, c.entries);
    if writer.minEdgeName == "" {
      FilterWithoutFloor(writer, versions, floor, c.entries);
    } else {
      var from := FilterExact(writer, versions, floor, c.entries);
    }
  }

  // ----- The edges drawn -----

  datatype EdgeKind = ReplaceEdge | SkipEdge | SkipRangeEdge(range: string)

  /** An upgrade from one bundle to another. */
  datatype Edge = Edge(kind: EdgeKind, source: string, target: string)

  /** A drawn channel. */
  datatype Subgraph = Subgraph(pkg: string, channel: string, nodes: seq<string>, edges: seq<Edge>)

  function SkipEdges(skips: seq<string>, target: string): seq<Edge> {
    seq(|skips|, i requires 0 <= i < |skips| => Edge(SkipEdge, skips[i], target))
  }

  /** An edge from every entry of the channel inside the range. */
  function RangeEdges(writer: Writer, versions: Versions, entries: seq<ChannelEntry>, range: string,
                      target: string): seq<Edge> {
    if |entries| == 0 then []
    else
      var e := entries[|entries| - 1];
      RangeEdges(writer, versions, entries[..|entries| - 1], range, target)
      + if writer.inRange(range, VersionOf(versions, e.name)) then [Edge(SkipRangeEdge(range), e.name, target)] else []
  }

  function EntryEdges(writer: Writer, versions: Versions, entries: seq<ChannelEntry>, ce: ChannelEntry): seq<Edge> {
    (if |ce.replacesName| > 0 then [Edge(ReplaceEdge, ce.replacesName, ce.name)] else [])
    + SkipEdges(ce.skips, ce.name)
    + if |ce.skipRange| > 0 then RangeEdges(writer, versions, entries, ce.skipRange, ce.name) else []
  }

  /** For each entry the edges into it, if it is not below the floor. */
  function EdgesByEntry(writer: Writer, versions: Versions, floor: Version,
                        entries: seq<ChannelEntry>): seq<seq<Edge>> {
    seq(|entries|, i requires 0 <= i < |entries| =>
      if AtOrAbove(versions, entries[i].name, floor) then EntryEdges(writer, versions, entries, entries[i]) else [])
  }

  function Edges(writer: Writer, versions: Versions, floor: Version, entries: seq<ChannelEntry>): seq<Edge> {
    Concat(EdgesByEntry(writer, versions, floor, entries))
  }

  function NodesByEntry(versions: Versions, floor: Version, entries: seq<ChannelEntry>): seq<seq<string>> {
    seq(|entries|, i requires 0 <= i < |entries| =>
      if AtOrAbove(versions, entries[i].name, floor) then [entries[i].name] else [])
  }

  function SubgraphOf(writer: Writer, versions: Versions, floor: Version, c: Channel): Subgraph {
    Subgraph(c.pkg, c.name, Concat(NodesByEntry(versions, floor, c.entries)), Edges(writer, versions, floor, c.entries))
  }

  method DrawSkips(skips: seq<string>, target: string) returns (edges: seq<Edge>)
    ensures edges == SkipEdges(skips, target)
  {
    edges := [];
    for i := 0 to |skips|
      invariant edges == SkipEdges(skips[..i], target)
    {
      edges := edges + [Edge(SkipEdge, skips[i], target)];
    }
    assert skips[..|skips|] == skips;
  }

  method DrawRange(writer: Writer, versions: Versions, entries: seq<ChannelEntry>, range: string, target: string)
    returns (edges: seq<Edge>)
    ensures edges == RangeEdges(writer, versions, entries, range, target)
  {
    edges := [];
    for i := 0 to |entries|
      invariant edges == RangeEdges(writer, versions, entries[..i], range, target)
    {
      assert entries[..i + 1][..i] == entries[..i];
      if writer.inRange(range, VersionOf(versions, entries[i].name)) {
        edges := edges + [Edge(SkipRangeEdge(range), entries[i].name, target)];
      }
    }
    assert entries[..|entries|] == entries;
  }

  method DrawEntry(writer: Writer, versions: Versions, entries: seq<ChannelEntry>, ce: ChannelEntry)
    returns (edges: seq<Edge>)
    ensures edges == EntryEdges(writer, versions, entries, ce)
  {
    edges := [];
    if |ce.replacesName| > 0 {
      edges := edges + [Edge(ReplaceEdge, ce.replacesName, ce.name)];
    }
    if |ce.skips| > 0 {
      var skips := DrawSkips(ce.skips, ce.name);
      edges := edges + skips;
    }
    if |ce.skipRange| > 0 {
      var ranged := DrawRange(writer, versions, entries, ce.skipRange, ce.name);
      edges := edges + ranged;
    }
  }

  /** The body of the loop over the entries. */
  method DrawInto(writer: Writer, versions: Versions, floor: Version, entries: seq<ChannelEntry>, i: nat)
    returns (nodes: seq<string>, edges: seq<Edge>)
    requires i < |entries|
    ensures nodes == NodesByEntry(versions, floor, entries)[i]
    ensures edges == EdgesByEntry(writer, versions, floor, entries)[i]
  {
    nodes, edges := [], [];
    if GTE(VersionOf(versions, entries[i].name), floor) {
      nodes := [entries[i].name];
      edges := DrawEntry(writer, versions, entries, entries[i]);
    }
  }

  method DrawChannel(writer: Writer, versions: Versions, floor: Version, c: Channel) returns (g: Subgraph)
    ensures g == SubgraphOf(writer, versions, floor, c)
  {
    var nodes: seq<string>, edges: seq<Edge> := [], [];
    ghost var nodeParts, edgeParts := NodesByEntry(versions, floor, c.entries),
        EdgesByEntry(writer, versions, floor, c.entries);
    for i := 0 to |c.entries|
      invariant nodes == Concat(nodeParts[..i])
      invariant edges == Concat(edgeParts[..i])
    {
      ConcatNext(nodeParts, i);
      ConcatNext(edgeParts, i);
      var ns, es := DrawInto(writer, versions, floor, c.entries, i);
      nodes, edges := nodes + ns, edges + es;
    }
    assert nodeParts[..|c.entries|] == nodeParts && edgeParts[..|c.entries|] == edgeParts;
    g := Subgraph(c.pkg, c.name, nodes, edges);
  }

  lemma {:induction false} RangeEdgeIn(writer: Writer, versions: Versions, entries: seq<ChannelEntry>, range: string,
                                       target: string, e: Edge)
    ensures e in RangeEdges(writer, versions, entries, range, target) <==>
              e.kind == SkipRangeEdge(range) && e.target == target
                  && writer.inRange(range, VersionOf(versions, e.source))
              && exists j :: 0 <= j < |entries| && entries[j].name == e.source
  {
    if |entries| != 0 {
      var n := |entries| - 1;
      RangeEdgeIn(writer, versions, entries[..n], range, target, e);
      assert forall j :: 0 <= j < n ==> entries[..n][j] == entries[j];
    }
  }

  /** An edge drawn into `ce` stands for one of its references. */
  lemma EntryEdgeIn(writer: Writer, versions: Versions, entries: seq<ChannelEntry>, ce: ChannelEntry, e: Edge)
    ensures e in EntryEdges(writer, versions, entries, ce) <==>
              e.target == ce.name
              && match e.kind
                 case ReplaceEdge => ce.replacesName != "" && e.source == ce.replacesName
                 case SkipEdge => e.source in ce.skips
                 case SkipRangeEdge(r) =>
                   r == ce.skipRange != "" && writer.inRange(r, VersionOf(versions, e.source))
                   && exists j :: 0 <= j < |entries| && entries[j].name == e.source
  {
    RangeEdgeIn(writer, versions, entries, ce.skipRange, ce.name, e);
    var skips := SkipEdges(ce.skips, ce.name);
    if e.kind.SkipEdge? && e.target == ce.name && e.source in ce.skips {
      var i :| 0 <= i < |ce.skips| && ce.skips[i] == e.source;
      assert skips[i] == e;
    }
  }

  ghost function EntryNotBelow(versions: Versions, floor: Version): ChannelEntry -> bool {
    (ce: ChannelEntry) => AtOrAbove(versions, ce.name, floor)
  }

  ghost function NodeOf(): ChannelEntry -> string {
    (ce: ChannelEntry) => ce.name
  }

  ghost function EdgesInto(writer: Writer, versions: Versions, entries: seq<ChannelEntry>): ChannelEntry -> seq<Edge> {
    (ce: ChannelEntry) => EntryEdges(writer, versions, entries, ce)
  }

  /** The images of the elements that hold, and nothing for the others. */
  ghost function ByElement<T, U>(s: seq<T>, holds: T -> bool, image: T -> seq<U>): seq<seq<U>> {
    seq(|s|, i requires 0 <= i < |s| => if holds(s[i]) then image(s[i]) else [])
  }

  lemma {:induction false} ByElementPicked<T, U>(s: seq<T>, holds: T -> bool, image: T -> seq<U>)
    returns (parts: seq<seq<U>>)
    ensures Picked(s, holds, image, parts) && Concat(parts) == Concat(ByElement(s, holds, image))
  {
    if |s| == 0 {
      parts := [];
      PickedNone(holds, image);
    } else {
      var n := |s| - 1;
      var before := ByElementPicked(s[..n], holds, image);
      PickedNext(s, holds, image, before);
      ByElementNext(s, holds, image);
      ConcatPush(before, image(s[n]));
      parts := before + if holds(s[n]) then [image(s[n])] else [];
    }
  }

  lemma ByElementNext<T, U>(s: seq<T>, holds: T -> bool, image: T -> seq<U>)
    requires |s| > 0
    ensures Concat(ByElement(s, holds, image))
         == Concat(ByElement(s[..|s| - 1], holds, image)) + if holds(s[|s| - 1]) then image(s[|s| - 1]) else []
  {
    assert ByElement(s[..|s| - 1], holds, image) == ByElement(s, holds, image)[..|s| - 1];
  }

  lemma ConcatPush<U>(parts: seq<seq<U>>, part: seq<U>)
    ensures Concat(parts + [part]) == Concat(parts) + part && Concat(parts + []) == Concat(parts) + []
  {
    assert (parts + [part])[..|parts|] == parts;
    assert parts + [] == parts;
  }

  lemma {:induction false} Singletons<T, U>(s: seq<T>, holds: T -> bool, image: T -> U, parts: seq<seq<U>>)
    requires |parts| == |s| && forall i :: 0 <= i < |s| ==> parts[i] == if holds(s[i]) then [image(s[i])] else []
    ensures Picked(s, holds, image, Concat(parts))
  {
    if |s| == 0 {
      PickedNone(holds, image);
    } else {
      var n := |s| - 1;
      Singletons(s[..n], holds, image, parts[..n]);
      PickedNext(s, holds, image, Concat(parts[..n]));
    }
  }

  /** The entries at or above the floor are drawn, in order: a node for each, and the edges into each. */
  lemma DrawnExactly(writer: Writer, versions: Versions, floor: Version, c: Channel) returns (parts: seq<seq<Edge>>)
    ensures var g := SubgraphOf(writer, versions, floor, c);
            && g.pkg == c.pkg && g.channel == c.name
            && Picked(c.entries, EntryNotBelow(versions, floor), NodeOf(), g.nodes)
            && Picked(c.entries, EntryNotBelow(versions, floor), EdgesInto(writer, versions, c.entries), parts)
            && g.edges == Concat(parts)
  {
    Singletons(c.entries, EntryNotBelow(versions, floor), NodeOf(), NodesByEntry(versions, floor, c.entries));
    parts := ByElementPicked(c.entries, EntryNotBelow(versions, floor), EdgesInto(writer, versions, c.entries));
    EdgesAreByElement(writer, versions, floor, c.entries);
  }

  lemma EdgesAreByElement(writer: Writer, versions: Versions, floor: Version, entries: seq<ChannelEntry>)
    ensures EdgesByEntry(writer, versions, floor, entries)
         == ByElement(entries, EntryNotBelow(versions, floor), EdgesInto(writer, versions, entries))
  {
  }

  ghost function InRange(writer: Writer, versions: Versions, range: string): ChannelEntry -> bool {
    (e: ChannelEntry) => writer.inRange(range, VersionOf(versions, e.name))
  }

  ghost function RangeEdge(range: string, target: string): ChannelEntry -> Edge {
    (e: ChannelEntry) => Edge(SkipRangeEdge(range), e.name, target)
  }

  lemma {:induction false} RangeEdgesPicked(writer: Writer, versions: Versions, entries: seq<ChannelEntry>,
                                            range: string, target: string)
    ensures Picked(entries, InRange(writer, versions, range), RangeEdge(range, target),
                   RangeEdges(writer, versions, entries, range, target))
  {
    if |entries| == 0 {
      PickedNone(InRange(writer, versions, range), RangeEdge(range, target));
    } else {
      RangeEdgesPicked(writer, versions, entries[..|entries| - 1], range, target);
      PickedNext(entries, InRange(writer, versions, range), RangeEdge(range, target),
                 RangeEdges(writer, versions, entries[..|entries| - 1], range, target));
    }
  }

  /** The edges into an entry, in order: from what it replaces, from each of its skips, and from each entry of the
      channel in its range. */
  lemma EntryEdgesExactly(writer: Writer, versions: Versions, entries: seq<ChannelEntry>, ce: ChannelEntry)
    returns (replaced: seq<Edge>, skipped: seq<Edge>, ranged: seq<Edge>)
    ensures EntryEdges(writer, versions, entries, ce) == replaced + skipped + ranged
    ensures replaced == if ce.replacesName == "" then [] else [Edge(ReplaceEdge, ce.replacesName, ce.name)]
    ensures |skipped| == |ce.skips|
    ensures forall k :: 0 <= k < |ce.skips| ==> skipped[k] == Edge(SkipEdge, ce.skips[k], ce.name)
    ensures if ce.skipRange == "" then ranged == []
            else Picked(entries, InRange(writer, versions, ce.skipRange), RangeEdge(ce.skipRange, ce.name), ranged)
  {
    replaced := if |ce.replacesName| > 0 then [Edge(ReplaceEdge, ce.replacesName, ce.name)] else [];
    skipped := SkipEdges(ce.skips, ce.name);
    ranged := if |ce.skipRange| > 0 then RangeEdges(writer, versions, entries, ce.skipRange, ce.name) else [];
    RangeEdgesPicked(writer, versions, entries, ce.skipRange, ce.name);
  }

  /** `e` is drawn into the `i`-th entry. */
  ghost predicate DrawnInto(writer: Writer, versions: Versions, floor: Version, entries: seq<ChannelEntry>, i: nat,
                            e: Edge)
    requires i < |entries|
  {
    AtOrAbove(versions, entries[i].name, floor) && e in EntryEdges(writer, versions, entries, entries[i])
  }

  lemma EdgeFrom(writer: Writer, versions: Versions, floor: Version, entries: seq<ChannelEntry>, e: Edge)
    returns (i: nat)
    requires e in Edges(writer, versions, floor, entries)
    ensures i < |entries| && DrawnInto(writer, versions, floor, entries, i, e)
  {
    i := ConcatFrom(EdgesByEntry(writer, versions, floor, entries), e);
  }

  lemma EdgeTo(writer: Writer, versions: Versions, floor: Version, entries: seq<ChannelEntry>, i: nat, e: Edge)
    requires i < |entries| && DrawnInto(writer, versions, floor, entries, i, e)
    ensures e in Edges(writer, versions, floor, entries)
  {
    ConcatTo(EdgesByEntry(writer, versions, floor, entries), i, e);
  }

  /** With a floor given, every replace and skip edge drawn has both ends at or above it, and every skip-range
      edge its target. */
  lemma DrawnEdgesAbove(writer: Writer, versions: Versions, floor: Version, minEdgePackage: string, c: Channel, e: Edge)
    requires writer.minEdgeName != "" && FilterSpec(writer, versions, floor, minEdgePackage, c).Some?
    requires e in Edges(writer, versions, floor, FilterSpec(writer, versions, floor, minEdgePackage, c).value.entries)
    ensures AtOrAbove(versions, e.target, floor)
    ensures !e.kind.SkipRangeEdge? ==> AtOrAbove(versions, e.source, floor)
  {
    var entries := FilterEntries(writer, versions, floor, c.entries);
    var i := EdgeFrom(writer, versions, floor, entries, e);
    EntryEdgeIn(writer, versions, entries, entries[i], e);
    var from := FilterExact(writer, versions, floor, c.entries);
    assert TrimmedTo(writer, versions, floor, c.entries[from[i]], entries[i]);
  }

  /** A skip-range edge leads from `low`, which is shown although it lies below the floor, to `high`. */
  ghost predicate Leaks(writer: Writer, versions: Versions, floor: Version, low: ChannelEntry, high: ChannelEntry) {
    && !Hidden(writer, versions, floor, low) && !AtOrAbove(versions, low.name, floor)
    && high.name != writer.minEdgeName && AtOrAbove(versions, high.name, floor)
    && high.skipRange != "" && writer.inRange(high.skipRange, floor)
    && writer.inRange(high.skipRange, VersionOf(versions, low.name))
  }

  ghost predicate AllAbove(versions: Versions, floor: Version, edges: seq<Edge>) {
    forall e :: e in edges ==> AtOrAbove(versions, e.source, floor) && AtOrAbove(versions, e.target, floor)
  }

  ghost predicate NoLeak(writer: Writer, versions: Versions, floor: Version, entries: seq<ChannelEntry>) {
    forall i, j :: 0 <= i < |entries| && 0 <= j < |entries| ==> !Leaks(writer, versions, floor, entries[i], entries[j])
  }

  lemma LeakIsDrawn(writer: Writer, versions: Versions, floor: Version, entries: seq<ChannelEntry>, i: nat, j: nat)
    requires writer.minEdgeName != "" && i < |entries| && j < |entries|
             && Leaks(writer, versions, floor, entries[i], entries[j])
    ensures !AllAbove(versions, floor, Edges(writer, versions, floor, FilterEntries(writer, versions, floor, entries)))
  {
    var shown := FilterEntries(writer, versions, floor, entries);
    var from := FilterExact(writer, versions, floor, entries);
    assert i in from && j in from;
    var a :| 0 <= a < |from| && from[a] == i;
    var b :| 0 <= b < |from| && from[b] == j;
    var e := Edge(SkipRangeEdge(shown[b].skipRange), shown[a].name, shown[b].name);
    EntryEdgeIn(writer, versions, shown, shown[b], e);
    EdgeTo(writer, versions, floor, shown, b, e);
  }

  lemma LowEdgeIsLeak(writer: Writer, versions: Versions, floor: Version, entries: seq<ChannelEntry>, e: Edge)
    requires writer.minEdgeName != ""
    requires e in Edges(writer, versions, floor, FilterEntries(writer, versions, floor, entries))
    requires !AtOrAbove(versions, e.source, floor) && e.kind.SkipRangeEdge?
    ensures !NoLeak(writer, versions, floor, entries)
  {
    var shown := FilterEntries(writer, versions, floor, entries);
    var from := FilterExact(writer, versions, floor, entries);
    var b := EdgeFrom(writer, versions, floor, shown, e);
    EntryEdgeIn(writer, versions, shown, shown[b], e);
    var a :| 0 <= a < |shown| && shown[a].name == e.source;
    assert TrimmedTo(writer, versions, floor, entries[from[a]], shown[a]);
    assert TrimmedTo(writer, versions, floor, entries[from[b]], shown[b]);
    assert from[a] in from;
    assert Leaks(writer, versions, floor, entries[from[a]], entries[from[b]]);
  }

  /** All edges drawn have both ends at or above the floor exactly when no entry that stays shown below the
      floor lies in the range of an entry above it that also contains the floor. */
  lemma AllEdgesAboveExactly(writer: Writer, versions: Versions, floor: Version, minEdgePackage: string, c: Channel)
    requires writer.minEdgeName != "" && FilterSpec(writer, versions, floor, minEdgePackage, c).Some?
    ensures AllAbove(versions, floor,
                     Edges(writer, versions, floor,
                           FilterSpec(writer, versions, floor, minEdgePackage, c).value.entries))
       <==> NoLeak(writer, versions, floor, c.entries)
  {
    var edges := Edges(writer, versions, floor, FilterEntries(writer, versions, floor, c.entries));
    if !NoLeak(writer, versions, floor, c.entries) {
      var i, j :| 0 <= i < |c.entries| && 0 <= j < |c.entries|
          && Leaks(writer, versions, floor, c.entries[i], c.entries[j]);
      LeakIsDrawn(writer, versions, floor, c.entries, i, j);
    } else {
      forall e | e in edges
        ensures AtOrAbove(versions, e.source, floor) && AtOrAbove(versions, e.target, floor)
      {
        DrawnEdgesAbove(writer, versions, floor, minEdgePackage, c, e);
        if !AtOrAbove(versions, e.source, floor) {
          LowEdgeIsLeak(writer, versions, floor, c.entries, e);
        }
      }
    }
  }

  // A floor, an entry below it that claims to replace the floor, and one above with a range over both.

  const LEAK_FLOOR := Version(2, 0, 0, [], [])

  const LEAK_VERSIONS: Versions := map["low" := Version(1, 0, 0, [], []), "floor" := LEAK_FLOOR,
                                       "high" := Version(3, 0, 0, [], [])]

  function LeakWriter(): Writer {
    Writer("floor", "", (r: string, v: Version) => r == "<3.0.0" && v.major < 3)
  }

  function LeakChannel(): Channel {
    Channel("", "stable", "p", [ChannelEntry("low", "floor", [], ""), ChannelEntry("high", "", [], "<3.0.0")], [])
  }

  lemma LeakLeaks()
    ensures Leaks(LeakWriter(), LEAK_VERSIONS, LEAK_FLOOR, LeakChannel().entries[0], LeakChannel().entries[1])
  {
  }

  /** The channel is shown, and an edge is drawn that starts below the floor. */
  lemma LeakExample()
    ensures !NoLeak(LeakWriter(), LEAK_VERSIONS, LEAK_FLOOR, LeakChannel().entries)
    ensures var shown := FilterSpec(LeakWriter(), LEAK_VERSIONS, LEAK_FLOOR, "p", LeakChannel());
            shown.Some? && !AllAbove(LEAK_VERSIONS, LEAK_FLOOR,
                                     Edges(LeakWriter(), LEAK_VERSIONS, LEAK_FLOOR, shown.value.entries))
  {
    LeakLeaks();
    LeakIsDrawn(LeakWriter(), LEAK_VERSIONS, LEAK_FLOOR, LeakChannel().entries, 0, 1);
  }

  // ----- Raising the floor -----

  lemma AboveHigher(versions: Versions, name: string, floor: Version, higher: Version)
    requires GTE(higher, floor) && AtOrAbove(versions, name, higher)
    ensures AtOrAbove(versions, name, floor)
  {
    CompareLaws(VersionOf(versions, name), higher, floor);
  }

  /** A reference drawn with the higher floor is also drawn with the lower one. */
  lemma RaisedEntry(writer: Writer, versions: Versions, floor: Version, higher: Version, entries: seq<ChannelEntry>,
                    i: nat, e: Edge)
    requires writer.minEdgeName != "" && GTE(higher, floor) && i < |entries|
    requires AtOrAbove(versions, entries[i].name, higher) && entries[i].name != writer.minEdgeName
             && e.target == entries[i].name
    requires AtOrAbove(versions, e.source, higher)
    requires (e.kind.ReplaceEdge? && e.source == entries[i].replacesName != "")
             || (e.kind.SkipEdge? && e.source in entries[i].skips)
    ensures e in Edges(writer, versions, floor, FilterEntries(writer, versions, floor, entries))
  {
    var ce, shown := entries[i], FilterEntries(writer, versions, floor, entries);
    AboveHigher(versions, ce.name, floor, higher);
    AboveHigher(versions, e.source, floor, higher);
    var from := FilterExact(writer, versions, floor, entries);
    assert !Hidden(writer, versions, floor, ce);
    assert i in from;
    var j :| 0 <= j < |from| && from[j] == i;
    assert TrimmedTo(writer, versions, floor, ce, shown[j]);
    EntryEdgeIn(writer, versions, shown, shown[j], e);
    EdgeTo(writer, versions, floor, shown, j, e);
  }

  /** Raising the floor, from one entry to another at or above it, only removes replace and skip edges, except
      that the entry that was the floor gets its own references back. */
  lemma RaisingTheFloor(writer: Writer, minEdgeName: string, versions: Versions, floor: Version, higher: Version,
                        entries: seq<ChannelEntry>, e: Edge)
    requires writer.minEdgeName != "" && minEdgeName != "" && GTE(higher, floor)
    requires e in Edges(writer.(minEdgeName := minEdgeName), versions, higher,
                        FilterEntries(writer.(minEdgeName := minEdgeName), versions, higher, entries))
    requires !e.kind.SkipRangeEdge? && e.target != writer.minEdgeName
    ensures e in Edges(writer, versions, floor, FilterEntries(writer, versions, floor, entries))
  {
    var raised := writer.(minEdgeName := minEdgeName);
    var shown := FilterEntries(raised, versions, higher, entries);
    var k := EdgeFrom(raised, versions, higher, shown, e);
    EntryEdgeIn(raised, versions, shown, shown[k], e);
    var from := FilterExact(raised, versions, higher, entries);
    assert TrimmedTo(raised, versions, higher, entries[from[k]], shown[k]);
    RaisedEntry(writer, versions, floor, higher, entries, from[k], e);
  }

  // ----- The whole drawing -----

  ghost predicate FirstOfName(bundles: seq<Bundle>, i: nat) {
    i < |bundles| && forall j :: 0 <= j < i ==> bundles[j].name != bundles[i].name
  }

  ghost predicate HasBundle(bundles: seq<Bundle>, name: string) {
    exists k :: 0 <= k < |bundles| && bundles[k].name == name
  }

  /** The versions of the bundles by name. Only the first bundle of each name is looked at. */
  ghost predicate FirstVersions(bundles: seq<Bundle>, parse: Bundle -> Option<Version>, versions: Versions) {
    && (forall name: string :: name in versions <==> HasBundle(bundles, name))
    && (forall i: nat :: FirstOfName(bundles, i) ==>
          bundles[i].name in versions && parse(bundles[i]) == Some(versions[bundles[i].name]))
  }

  lemma HasBundleNext(bundles: seq<Bundle>, b: Bundle, name: string)
    ensures HasBundle(bundles + [b], name) <==> HasBundle(bundles, name) || name == b.name
  {
    var more := bundles + [b];
    if HasBundle(bundles, name) {
      var k :| 0 <= k < |bundles| && bundles[k].name == name;
      assert more[k].name == name;
    }
    assert more[|bundles|] == b;
  }

  lemma FirstOfNameNext(bundles: seq<Bundle>, b: Bundle, i: nat)
    ensures FirstOfName(bundles + [b], i)
            <==> FirstOfName(bundles, i) || (i == |bundles| && !HasBundle(bundles, b.name))
  {
    var more := bundles + [b];
    assert forall j :: 0 <= j < |bundles| ==> more[j] == bundles[j];
    if i == |bundles| && HasBundle(bundles, b.name) {
      var k :| 0 <= k < |bundles| && bundles[k].name == b.name;
      assert more[k].name == more[i].name;
    }
  }

  lemma FirstVersionsNext(bundles: seq<Bundle>, parse: Bundle -> Option<Version>, versions: Versions, b: Bundle)
    requires FirstVersions(bundles, parse, versions) && (b.name !in versions ==> parse(b).Some?)
    ensures FirstVersions(bundles + [b], parse, if b.name in versions then versions
                                                else versions[b.name := parse(b).value])
  {
    var versions' := if b.name in versions then versions else versions[b.name := parse(b).value];
    forall name: string
      ensures name in versions' <==> HasBundle(bundles + [b], name)
    {
      HasBundleNext(bundles, b, name);
    }
    forall i: nat | FirstOfName(bundles + [b], i)
      ensures (bundles + [b])[i].name in versions'
              && parse((bundles + [b])[i]) == Some(versions'[(bundles + [b])[i].name])
    {
      FirstOfNameNext(bundles, b, i);
      if i < |bundles| {
        assert HasBundle(bundles, bundles[i].name);
      }
    }
  }

  /** Some bundle that is the first of its name has no version. */
  ghost predicate LacksVersion(bundles: seq<Bundle>, parse: Bundle -> Option<Version>) {
    exists i: nat :: FirstOfName(bundles, i) && parse(bundles[i]).None?
  }

  method GetBundleVersions(bundles: seq<Bundle>, parse: Bundle -> Option<Version>) returns (r: Option<Versions>)
    ensures r.Some? ==> FirstVersions(bundles, parse, r.value)
    ensures r.None? <==> LacksVersion(bundles, parse)
  {
    var versions: Versions := map[];
    for i := 0 to |bundles|
      invariant FirstVersions(bundles[..i], parse, versions)
    {
      assert bundles[..i + 1] == bundles[..i] + [bundles[i]];
      ghost var before := versions;
      if bundles[i].name !in versions {
        var v := parse(bundles[i]);
        if v.None? {
          assert forall j :: 0 <= j < i ==> bundles[..i][j].name != bundles[i].name;
          assert FirstOfName(bundles, i);
          return None;
        }
        versions := versions[bundles[i].name := v.value];
      }
      FirstVersionsNext(bundles[..i], parse, before, bundles[i]);
    }
    assert bundles[..|bundles|] == bundles;
    return Some(versions);
  }

  ghost predicate HasEntry(c: Channel, name: string) {
    exists k :: 0 <= k < |c.entries| && c.entries[k].name == name
  }

  /** The first channel with the floor entry. */
  ghost predicate FirstWithFloor(writer: Writer, channels: seq<Channel>, i: nat) {
    && i < |channels| && HasEntry(channels[i], writer.minEdgeName)
    && forall j :: 0 <= j < i ==> !HasEntry(channels[j], writer.minEdgeName)
  }

  /** `pkg` is the package of the first channel with the floor entry, and empty if there is none. */
  ghost predicate IsMinEdgePackage(writer: Writer, channels: seq<Channel>, pkg: string) {
    if writer.minEdgeName == "" || forall i :: 0 <= i < |channels| ==> !HasEntry(channels[i], writer.minEdgeName)
    then pkg == ""
    else exists i: nat :: FirstWithFloor(writer, channels, i) && pkg == channels[i].pkg
  }

  method GetMinEdgePackage(writer: Writer, channels: seq<Channel>) returns (pkg: string)
    ensures IsMinEdgePackage(writer, channels, pkg)
  {
    if writer.minEdgeName == "" {
      return "";
    }
    for i := 0 to |channels|
      invariant forall j :: 0 <= j < i ==> !HasEntry(channels[j], writer.minEdgeName)
    {
      for k := 0 to |channels[i].entries|
        invariant forall m :: 0 <= m < k ==> channels[i].entries[m].name != writer.minEdgeName
      {
        if channels[i].entries[k].name == writer.minEdgeName {
          assert HasEntry(channels[i], writer.minEdgeName);
          assert FirstWithFloor(writer, channels, i);
          return channels[i].pkg;
        }
      }
    }
    return "";
  }

  /** What is drawn for a package: its channels that survive the filter, in order. */
  function DrawnFor(writer: Writer, versions: Versions, floor: Version, minEdgePackage: string, channels: seq<Channel>,
                    pkg: string): seq<Subgraph> {
    if |channels| == 0 then []
    else
      var c := channels[|channels| - 1];
      var shown := FilterSpec(writer, versions, floor, minEdgePackage, c);
      DrawnFor(writer, versions, floor, minEdgePackage, channels[..|channels| - 1], pkg)
      + if c.pkg == pkg && shown.Some? then [SubgraphOf(writer, versions, floor, shown.value)] else []
  }

  ghost function ShownOf(writer: Writer, versions: Versions, floor: Version, minEdgePackage: string,
                         pkg: string): Channel -> bool {
    (c: Channel) => c.pkg == pkg && !LeftOut(writer, versions, floor, minEdgePackage, c)
  }

  ghost function Shape(writer: Writer, versions: Versions, floor: Version,
                       minEdgePackage: string): Channel -> Subgraph {
    (c: Channel) =>
      match FilterSpec(writer, versions, floor, minEdgePackage, c)
      case Some(shown) => SubgraphOf(writer, versions, floor, shown)
      case None => Subgraph("", "", [], [])
  }

  /** The channels of the package that are not left out are drawn, in order. */
  lemma {:induction false} DrawnForExactly(writer: Writer, versions: Versions, floor: Version, minEdgePackage: string,
                                           channels: seq<Channel>, pkg: string)
    ensures Picked(channels, ShownOf(writer, versions, floor, minEdgePackage, pkg),
                   Shape(writer, versions, floor, minEdgePackage),
                   DrawnFor(writer, versions, floor, minEdgePackage, channels, pkg))
  {
    var holds, image := ShownOf(writer, versions, floor, minEdgePackage, pkg),
                        Shape(writer, versions, floor, minEdgePackage);
    if |channels| == 0 {
      PickedNone(holds, image);
    } else {
      var n := |channels| - 1;
      DrawnForExactly(writer, versions, floor, minEdgePackage, channels[..n], pkg);
      FilterSpecExactly(writer, versions, floor, minEdgePackage, channels[n]);
      PickedNext(channels, holds, image, DrawnFor(writer, versions, floor, minEdgePackage, channels[..n], pkg));
    }
  }

  type Drawing = map<string, seq<Subgraph>>

  ghost predicate Draws(writer: Writer, versions: Versions, floor: Version, minEdgePackage: string,
                        channels: seq<Channel>, drawing: Drawing) {
    forall pkg: string ::
      (if pkg in drawing then drawing[pkg] else []) == DrawnFor(writer, versions, floor, minEdgePackage, channels, pkg)
  }

  datatype DrawError = BadBundleVersion | UnknownMinEdge

  function ChannelNameKey(c: Channel): Key {
    (c.name, "")
  }

  lemma SortedByName(channels: seq<Channel>)
    requires Sorted(ChannelNameKey, channels)
    ensures forall i, j :: 0 <= i < j < |channels| ==> StrLE(channels[i].name, channels[j].name)
  {
    forall i, j | 0 <= i < j < |channels|
      ensures StrLE(channels[i].name, channels[j].name)
    {
      KeyFirst(ChannelNameKey(channels[i]), ChannelNameKey(channels[j]));
    }
  }

  lemma DrawsNext(writer: Writer, versions: Versions, floor: Version, minEdgePackage: string, channels: seq<Channel>,
                  drawing: Drawing, c: Channel)
    requires Draws(writer, versions, floor, minEdgePackage, channels, drawing)
    ensures var shown := FilterSpec(writer, versions, floor, minEdgePackage, c);
            var before := if c.pkg in drawing then drawing[c.pkg] else [];
            Draws(writer, versions, floor, minEdgePackage, channels + [c],
                  if shown.Some? then drawing[c.pkg := before + [SubgraphOf(writer, versions, floor, shown.value)]]
                  else drawing)
  {
    assert (channels + [c])[..|channels|] == channels;
  }

  method DrawChannels(writer: Writer, versions: Versions, floor: Version, minEdgePackage: string,
                      channels: seq<Channel>) returns (drawing: Drawing)
    ensures Draws(writer, versions, floor, minEdgePackage, channels, drawing)
  {
    drawing := map[];
    for i := 0 to |channels|
      invariant Draws(writer, versions, floor, minEdgePackage, channels[..i], drawing)
    {
      var c := channels[i];
      assert channels[..i + 1] == channels[..i] + [c];
      DrawsNext(writer, versions, floor, minEdgePackage, channels[..i], drawing, c);
      var shown := FilterChannel(writer, versions, floor, minEdgePackage, c);
      if shown.Some? {
        var g := DrawChannel(writer, versions, floor, shown.value);
        var before := if c.pkg in drawing then drawing[c.pkg] else [];
        drawing := drawing[c.pkg := before + [g]];
      }
    }
    assert channels[..|channels|] == channels;
  }

  /** Draws the channels of a catalog, sorted by name, package by package. */
  method WriteChannels(writer: Writer, cfg: Config, parse: Bundle -> Option<Version>)
    returns (r: Result<Drawing, DrawError>, ghost sorted: seq<Channel>, ghost versions: Versions,
             ghost floor: Version, ghost minEdgePackage: string)
    ensures r.Ok? ==> SortOf(ChannelNameKey, cfg.channels, sorted) && FirstVersions(cfg.bundles, parse, versions)
    ensures r.Ok? ==> forall i, j :: 0 <= i < j < |sorted| ==> StrLE(sorted[i].name, sorted[j].name)
    ensures r.Ok? ==> floor == if writer.minEdgeName == "" then ZERO else VersionOf(versions, writer.minEdgeName)
    ensures r.Ok? ==> Draws(writer, versions, floor, minEdgePackage, sorted, r.value)
    ensures r.Ok? ==> IsMinEdgePackage(writer, sorted, minEdgePackage)
    ensures r == Err(BadBundleVersion) <==> LacksVersion(cfg.bundles, parse)
    ensures r == Err(UnknownMinEdge) <==>
              !LacksVersion(cfg.bundles, parse) && writer.minEdgeName != ""
                  && !HasBundle(cfg.bundles, writer.minEdgeName)
  {
    var channels := SortSlice(cfg.channels, ChannelNameKey);
    SortedByName(channels);
    sorted, versions, floor, minEdgePackage := channels, map[], ZERO, "";
    var vs := GetBundleVersions(cfg.bundles, parse);
    if vs.None? {
      r := Err(BadBundleVersion);
      return;
    }
    versions := vs.value;
    var minVersion := ZERO;
    if writer.minEdgeName != "" {
      if writer.minEdgeName !in vs.value {
        r := Err(UnknownMinEdge);
        return;
      }
      minVersion := vs.value[writer.minEdgeName];
    }
    floor := minVersion;
    var pkg := GetMinEdgePackage(writer, channels);
    minEdgePackage := pkg;
    var drawing := DrawChannels(writer, vs.value, minVersion, pkg, channels);
    r := Ok(drawing);
  }

  lemma {:induction false} DrawnFrom(writer: Writer, versions: Versions, floor: Version, minEdgePackage: string,
                                     channels: seq<Channel>, pkg: string, g: Subgraph)
    returns (i: nat)
    requires g in DrawnFor(writer, versions, floor, minEdgePackage, channels, pkg)
    ensures i < |channels| && channels[i].pkg == pkg
    ensures var shown := FilterSpec(writer, versions, floor, minEdgePackage, channels[i]);
            shown.Some? && g == SubgraphOf(writer, versions, floor, shown.value)
  {
    var n := |channels| - 1;
    if g in DrawnFor(writer, versions, floor, minEdgePackage, channels[..n], pkg) {
      i := DrawnFrom(writer, versions, floor, minEdgePackage, channels[..n], pkg, g);
    } else {
      i := n;
    }
  }

  /** In a drawing with a floor every replace and skip edge joins two bundles at or above the floor. */
  lemma DrawingAboveFloor(writer: Writer, versions: Versions, floor: Version, minEdgePackage: string,
                          channels: seq<Channel>,
                          drawing: Drawing, pkg: string, g: Subgraph, e: Edge)
    requires writer.minEdgeName != "" && Draws(writer, versions, floor, minEdgePackage, channels, drawing)
    requires pkg in drawing && g in drawing[pkg] && e in g.edges && !e.kind.SkipRangeEdge?
    ensures AtOrAbove(versions, e.source, floor) && AtOrAbove(versions, e.target, floor)
  {
    var i := DrawnFrom(writer, versions, floor, minEdgePackage, channels, pkg, g);
    DrawnEdgesAbove(writer, versions, floor, minEdgePackage, channels[i], e);
  }
}
