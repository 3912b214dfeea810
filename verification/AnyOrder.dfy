/** When the order in which a graph is visited does not matter. */
module AnyOrder {
  import opened Declcfg
  import opened Listing
  import opened Semver
  import opened Model
  import opened Flattening

  /** The part of a bundle that flattening takes from the copy it meets first. */
  function Shared(v: BundleVal): BundleData {
    v.data.(properties := [], version := ZERO)
  }

  ghost predicate Agrees(v: PackageVal, name: string) {
    forall j, k :: j in v.channels && k in v.channels && name in v.channels[j].bundles && name in v.channels[k].bundles
                   ==> Shared(v.channels[j].bundles[name]) == Shared(v.channels[k].bundles[name])
  }

  /** In every package, the copies of a bundle agree on image, related images, CSV and objects. */
  ghost predicate CopiesAgree(v: ModelVal) {
    forall n, name :: n in v && name in BundleNamesOf(v[n]) ==> Agrees(v[n], name)
  }

  function SharedOf(b: Bundle): BundleData {
    BundleData(b.image, [], b.relatedImages, b.csvJSON, b.objects, ZERO)
  }

  // ----- What merging gives -----

  /** The properties of the copies of a bundle in some channels. */
  ghost function PropertiesIn(v: PackageVal, channels: set<string>, name: string): set<Property> {
    set k, p | k in channels && k in v.channels && name in v.channels[k].bundles
        && p in v.channels[k].bundles[name].data.properties :: p
  }

  lemma {:induction false} MergedProperties(v: PackageVal, order: seq<string>, name: string)
    requires forall k :: k in order ==> k in v.channels
    ensures var b := MergedOver(v, order, name);
            (if b.Some? then Elements(b.value.properties) else {}) == PropertiesIn(v, Elements(order), name)
  {
    if |order| != 0 {
      var n := |order| - 1;
      MergedProperties(v, order[..n], name);
      assert order == order[..n] + [order[n]];
      assert Elements(order) == Elements(order[..n]) + {order[n]};
      var c := v.channels[order[n]];
      assert PropertiesIn(v, Elements(order), name)
          == PropertiesIn(v, Elements(order[..n]), name)
            + if name in c.bundles then Elements(c.bundles[name].data.properties) else {};
    }
  }

  /** The blob takes after some copy. */
  lemma {:induction false} MergedShared(v: PackageVal, order: seq<string>, name: string) returns (k: string)
    requires (forall j :: j in order ==> j in v.channels) && MergedOver(v, order, name).Some?
    ensures k in order && name in v.channels[k].bundles
    ensures SharedOf(MergedOver(v, order, name).value) == Shared(v.channels[k].bundles[name])
    ensures MergedOver(v, order, name).value.schema == SCHEMA_BUNDLE
    ensures name in v.channels[order[0]].bundles ==> k == order[0]
  {
    var n := |order| - 1;
    assert order == order[..n] + [order[n]];
    if MergedOver(v, order[..n], name).Some? {
      k := MergedShared(v, order[..n], name);
    } else {
      k := order[n];
      if n > 0 && name in v.channels[order[0]].bundles {
        HeldIsMerged(v, order[..n], name, 0);
      }
    }
  }

  lemma {:induction false} HeldIsMerged(v: PackageVal, order: seq<string>, name: string, i: nat)
    requires (forall j :: j in order ==> j in v.channels) && i < |order| && name in v.channels[order[i]].bundles
    ensures MergedOver(v, order, name).Some?
  {
    var n := |order| - 1;
    if i < n {
      assert order[..n][i] == order[i];
      HeldIsMerged(v, order[..n], name, i);
    }
  }

  /** When the copies agree, the blob is the same whichever order the channels come in. */
  lemma SameBlob(v: PackageVal, x: seq<string>, y: seq<string>, name: string)
    requires Keyed(v) && IsOrder(v, x) && IsOrder(v, y) && Agrees(v, name)
    ensures BlobOf(v, x, name) == BlobOf(v, y, name)
  {
    MergedProperties(v, x, name);
    MergedProperties(v, y, name);
    assert Elements(x) == Elements(y);
    MergedOverNamed(v, x, name);
    MergedOverNamed(v, y, name);
    assert MergedOver(v, x, name).Some? <==> MergedOver(v, y, name).Some?;
    if MergedOver(v, x, name).Some? {
      var i := MergedShared(v, x, name);
      var j := MergedShared(v, y, name);
      assert Shared(v.channels[i].bundles[name]) == Shared(v.channels[j].bundles[name]);
    }
  }

  lemma SameBundles(v: PackageVal, x: seq<string>, y: seq<string>)
    requires Keyed(v) && IsOrder(v, x) && IsOrder(v, y) && forall n :: n in BundleNamesOf(v) ==> Agrees(v, n)
    ensures BundleSet(v, x, BundleNamesOf(v)) == BundleSet(v, y, BundleNamesOf(v))
  {
    forall n | n in BundleNamesOf(v)
      ensures BlobOf(v, x, n) == BlobOf(v, y, n)
    {
      SameBlob(v, x, y, n);
    }
  }

  lemma AgreeingIsEnough(v: ModelVal, x: Visit, y: Visit)
    requires KeyedModel(v) && CopiesAgree(v) && IsVisit(v, x) && IsVisit(v, y)
    ensures Flat(v, x) == Flat(v, y)
  {
    forall n | n in v
      ensures BundleSet(v[n], x[n], BundleNamesOf(v[n])) == BundleSet(v[n], y[n], BundleNamesOf(v[n]))
    {
      SameBundles(v[n], x[n], y[n]);
    }
    assert AllBundles(v, x, v.Keys) == AllBundles(v, y, v.Keys);
  }

  // ----- When copies disagree -----

  ghost function AsSequence(s: set<string>): (r: seq<string>)
    ensures (forall k :: k in r <==> k in s) && forall i, j :: 0 <= i < j < |r| ==> r[i] != r[j]
  {
    if s == {} then [] else var x :| x in s; [x] + AsSequence(s - {x})
  }

  ghost function OrderFrom(v: PackageVal, k: string): (order: seq<string>)
    requires k in v.channels
    ensures IsOrder(v, order) && |order| > 0 && order[0] == k
  {
    [k] + AsSequence(v.channels.Keys - {k})
  }

  ghost function SomeOrder(v: PackageVal): (order: seq<string>)
    ensures IsOrder(v, order)
  {
    AsSequence(v.channels.Keys)
  }

  /** A visit that comes to the channel `k` of the package `pkg` first. */
  ghost function Starting(v: ModelVal, pkg: string, k: string): (visit: Visit)
    requires pkg in v && k in v[pkg].channels
    ensures IsVisit(v, visit) && |visit[pkg]| > 0 && visit[pkg][0] == k
  {
    map n | n in v :: if n == pkg then OrderFrom(v[n], k) else SomeOrder(v[n])
  }

  /** Starting at a channel that has a bundle, the blob takes after its copy. */
  lemma FirstWins(v: PackageVal, order: seq<string>, name: string)
    requires Keyed(v) && IsOrder(v, order) && |order| > 0 && name in v.channels[order[0]].bundles
    ensures SharedOf(BlobOf(v, order, name)) == Shared(v.channels[order[0]].bundles[name])
  {
    HeldIsMerged(v, order, name, 0);
    var k := MergedShared(v, order, name);
  }

  /** The blob of a bundle can be read off the configuration. */
  lemma SameFlatSameBlob(v: ModelVal, x: Visit, y: Visit, pkg: string, name: string)
    requires KeyedModel(v) && IsVisit(v, x) && IsVisit(v, y) && Flat(v, x) == Flat(v, y)
    requires pkg in v && name in BundleNamesOf(v[pkg])
    ensures BlobOf(v[pkg], x[pkg], name) == BlobOf(v[pkg], y[pkg], name)
  {
    var b := BlobOf(v[pkg], x[pkg], name);
    assert b in BundleSet(v[pkg], x[pkg], BundleNamesOf(v[pkg]));
    BlobsOfPackage(v[pkg], x[pkg], b);
    MergedOverNamed(v[pkg], x[pkg], name);
    OrderedSorted(BundleKey, AllBundles(v, x, v.Keys));
    OrderedSorted(BundleKey, AllBundles(v, y, v.Keys));
    assert multiset(AllBundles(v, x, v.Keys)) == multiset(AllBundles(v, y, v.Keys));
    assert b in multiset(AllBundles(v, x, v.Keys));
    var n :| n in v && b in BundleSet(v[n], y[n], BundleNamesOf(v[n]));
    BlobsOfPackage(v[n], y[n], b);
  }

  lemma DisagreeingShows(v: ModelVal, pkg: string, name: string, j: string, k: string)
    requires KeyedModel(v) && pkg in v && j in v[pkg].channels && k in v[pkg].channels
    requires name in v[pkg].channels[j].bundles && name in v[pkg].channels[k].bundles
    requires Shared(v[pkg].channels[j].bundles[name]) != Shared(v[pkg].channels[k].bundles[name])
    ensures Flat(v, Starting(v, pkg, j)) != Flat(v, Starting(v, pkg, k))
  {
    var x, y := Starting(v, pkg, j), Starting(v, pkg, k);
    FirstWins(v[pkg], x[pkg], name);
    FirstWins(v[pkg], y[pkg], name);
    assert name in BundleNamesOf(v[pkg]);
    if Flat(v, x) == Flat(v, y) {
      SameFlatSameBlob(v, x, y, pkg, name);
    }
  }

  /** A graph flattens to the same configuration in whatever order its maps are visited exactly when the copies
      of each bundle agree. */
  lemma SameInAnyOrder(v: ModelVal)
    requires KeyedModel(v)
    ensures CopiesAgree(v) <==> forall x, y :: IsVisit(v, x) && IsVisit(v, y) ==> Flat(v, x) == Flat(v, y)
  {
    if CopiesAgree(v) {
      forall x, y | IsVisit(v, x) && IsVisit(v, y)
        ensures Flat(v, x) == Flat(v, y)
      {
        AgreeingIsEnough(v, x, y);
      }
    } else {
      var pkg, name :| pkg in v && name in BundleNamesOf(v[pkg]) && !Agrees(v[pkg], name);
      var j, k :| && j in v[pkg].channels && k in v[pkg].channels
                  && name in v[pkg].channels[j].bundles && name in v[pkg].channels[k].bundles
                  && Shared(v[pkg].channels[j].bundles[name]) != Shared(v[pkg].channels[k].bundles[name]);
      DisagreeingShows(v, pkg, name, j, k);
    }
  }

  /** Two copies of a bundle with different images, in a graph that is otherwise in order. */
  lemma OrderExample() returns (v: ModelVal, x: Visit, y: Visit)
    ensures KeyedModel(v) && IsVisit(v, x) && IsVisit(v, y) && Flat(v, x) != Flat(v, y)
  {
    var e := ChannelEntry("e", "", [], "");
    var a := ChannelVal(ChannelInfo("a", [], None), map["e" := BundleVal(e, NO_DATA.(image := "i"), None)]);
    var b := ChannelVal(ChannelInfo("b", [], None), map["e" := BundleVal(e, NO_DATA.(image := "j"), None)]);
    v := map["p" := PackageVal(PackageInfo("p", "", None, None), Some("a"), map["a" := a, "b" := b])];
    assert KeyedModel(v);
    x, y := Starting(v, "p", "a"), Starting(v, "p", "b");
    assert Shared(a.bundles["e"]).image == "i" && Shared(b.bundles["e"]).image == "j";
    DisagreeingShows(v, "p", "e", "a", "b");
  }
}
