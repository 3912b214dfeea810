/** Flattening a package graph to a configuration, ranging over its maps in any order. */
module FromModel {
  import opened Declcfg
  import opened Orders
  import opened Listing
  import opened Model
  import opened Flattening
  import AnyOrder

  function Lookup(m: map<string, Bundle>, name: string): Option<Bundle> {
    if name in m then Some(m[name]) else None
  }

  /** The blobs after one more channel, of which the bundles in `done` have been visited. */
  ghost predicate Updated(m: map<string, Bundle>, m': map<string, Bundle>, v: ChannelVal, done: set<string>,
                          pkg: string) {
    forall n :: Lookup(m', n) == if n in done then Merged(Lookup(m, n), CopyIn(v, n), pkg) else Lookup(m, n)
  }

  lemma UpdatedNext(m: map<string, Bundle>, m': map<string, Bundle>, v: ChannelVal, done: set<string>, pkg: string,
                    n: string)
    requires Updated(m, m', v, done, pkg) && n !in done && n in v.bundles
    ensures Updated(m, m'[n := Merged(Lookup(m', n), Some(v.bundles[n]), pkg).value], v, done + {n}, pkg)
  {
  }

  /** Creates the blob for a copy of a bundle if there is none yet, and adds the properties of the copy. */
  method AddCopy(m: map<string, Bundle>, n: string, v: BundleVal, pkg: string) returns (m': map<string, Bundle>)
    requires v.entry.name == n
    ensures m' == m[n := Merged(Lookup(m, n), Some(v), pkg).value]
  {
    m' := m;
    assert [] + v.data.properties == v.data.properties;
    if n !in m' {
      m' := m'[n := Bundle(SCHEMA_BUNDLE, n, pkg, v.data.image, [], v.data.relatedImages, v.data.csvJSON,
                           v.data.objects)];
    }
    m' := m'[n := m'[n].(properties := m'[n].properties + v.data.properties)];
  }

  lemma EntriesNext(v: ChannelVal, done: set<string>, n: string, entries: seq<ChannelEntry>)
    requires KeyedChannel(v) && n in v.bundles && n !in done
    requires Collects(EntryKey, entries, EntrySet(v, done))
    ensures Collects(EntryKey, entries + [v.bundles[n].entry], EntrySet(v, done + {n}))
  {
    CollectsNext(EntryKey, entries, EntrySet(v, done), v.bundles[n].entry);
    assert EntrySet(v, done + {n}) == EntrySet(v, done) + {v.bundles[n].entry};
  }

  /** Visits the bundles of a channel. */
  method VisitBundles(c: MChannel, m: map<string, Bundle>, ghost p: MPackage, ghost v: ChannelVal,
                      ghost region: set<object>)
    returns (entries: seq<ChannelEntry>, m': map<string, Bundle>)
    requires IsChannel(c, p, v, region)
    ensures Collects(EntryKey, entries, EntrySet(v, v.bundles.Keys))
    ensures Updated(m, m', v, v.bundles.Keys, p.info.name)
  {
    entries, m' := [], m;
    var left := c.bundles.Keys;
    ghost var all := v.bundles.Keys;
    assert all - left == {};
    while left != {}
      invariant left <= all
      invariant Collects(EntryKey, entries, EntrySet(v, all - left))
      invariant Updated(m, m', v, all - left, p.info.name)
      decreases left
    {
      var n :| n in left;
      var b := c.bundles[n];
      assert IsBundle(b, c, p, v.bundles[n], region);
      EntriesNext(v, all - left, n, entries);
      UpdatedNext(m, m', v, all - left, p.info.name, n);
      entries := entries + [b.val.entry];
      m' := AddCopy(m', n, b.val, b.pkg.info.name);
      DoneNext(all, left, n);
      left := left - {n};
    }
    assert all - left == all;
  }

  /** The blobs are what going over the channels in `order` gives. */
  ghost predicate Gathered(m: map<string, Bundle>, v: PackageVal, order: seq<string>)
    requires forall k :: k in order ==> k in v.channels
  {
    forall n :: Lookup(m, n) == MergedOver(v, order, n)
  }

  lemma GatheredNext(m: map<string, Bundle>, m': map<string, Bundle>, v: PackageVal, order: seq<string>, k: string)
    requires k in v.channels && forall j :: j in order ==> j in v.channels
    requires Gathered(m, v, order) && Updated(m, m', v.channels[k], v.channels[k].bundles.Keys, v.info.name)
    ensures Gathered(m', v, order + [k])
  {
    assert (order + [k])[..|order|] == order;
  }

  /** `order` lists `done`. */
  ghost predicate Lists(order: seq<string>, done: set<string>) {
    (forall k :: k in order <==> k in done) && forall i, j :: 0 <= i < j < |order| ==> order[i] != order[j]
  }

  lemma ChannelsNext(v: PackageVal, done: set<string>, k: string, channels: seq<Channel>)
    requires Keyed(v) && k in v.channels && k !in done && Collects(ChannelKey, channels, ChannelSet(v, done))
    ensures Collects(ChannelKey, channels + [FlatChannel(v.info.name, v.channels[k])], ChannelSet(v, done + {k}))
  {
    CollectsNext(ChannelKey, channels, ChannelSet(v, done), FlatChannel(v.info.name, v.channels[k]));
    assert ChannelSet(v, done + {k}) == ChannelSet(v, done) + {FlatChannel(v.info.name, v.channels[k])};
  }

  method VisitChannel(c: MChannel, m: map<string, Bundle>, ghost p: MPackage, ghost v: ChannelVal,
                      ghost region: set<object>)
    returns (channel: Channel, m': map<string, Bundle>)
    requires IsChannel(c, p, v, region)
    ensures channel == FlatChannel(p.info.name, v)
    ensures Updated(m, m', v, v.bundles.Keys, p.info.name)
  {
    var entries;
    entries, m' := VisitBundles(c, m, p, v, region);
    var sorted := SortSlice(entries, EntryKey);
    SortIsOrdered(EntryKey, entries, EntrySet(v, v.bundles.Keys), sorted);
    channel := Channel(SCHEMA_CHANNEL, c.info.name, c.pkg.info.name, sorted, c.info.properties);
  }

  lemma PackageKeyed(p: MPackage, v: PackageVal, region: set<object>)
    requires IsPackage(p, v, region)
    ensures Keyed(v)
  {
    forall k | k in v.channels
      ensures v.channels[k].info.name == k && KeyedChannel(v.channels[k])
    {
      assert IsChannel(p.channels[k], p, v.channels[k], region);
    }
  }

  method VisitChannels(p: MPackage, ghost v: PackageVal, ghost region: set<object>)
    returns (channels: seq<Channel>, m: map<string, Bundle>, ghost order: seq<string>)
    requires IsPackage(p, v, region)
    ensures IsOrder(v, order) && Gathered(m, v, order)
    ensures Collects(ChannelKey, channels, ChannelSet(v, v.channels.Keys))
  {
    PackageKeyed(p, v, region);
    channels, m, order := [], map[], [];
    var left := p.channels.Keys;
    ghost var all := v.channels.Keys;
    assert all - left == {};
    while left != {}
      invariant left <= all && Lists(order, all - left)
      invariant Collects(ChannelKey, channels, ChannelSet(v, all - left))
      invariant Gathered(m, v, order)
      decreases left
    {
      var k :| k in left;
      assert IsChannel(p.channels[k], p, v.channels[k], region);
      var channel, m' := VisitChannel(p.channels[k], m, p, v.channels[k], region);
      GatheredNext(m, m', v, order, k);
      ChannelsNext(v, all - left, k, channels);
      channels, m, order := channels + [channel], m', order + [k];
      DoneNext(all, left, k);
      left := left - {k};
    }
    assert all - left == all;
  }

  // ----- Bundles -----

  /** Keeps the first of equal properties. */
  method Deduplicate(properties: seq<Property>) returns (out: seq<Property>)
    ensures Collects(PropertyKey, out, Elements(properties))
  {
    out := [];
    var seen: set<Property> := {};
    for i := 0 to |properties|
      invariant seen == Elements(properties[..i])
      invariant Collects(PropertyKey, out, seen)
    {
      var p := properties[i];
      assert properties[..i + 1] == properties[..i] + [p];
      if p !in seen {
        CollectsNext(PropertyKey, out, seen, p);
        out := out + [p];
      }
      seen := seen + {p};
    }
    assert properties[..|properties|] == properties;
  }

  method Finish(b: Bundle) returns (b': Bundle)
    ensures b' == Finished(b)
  {
    var properties := Deduplicate(b.properties);
    var sorted := SortSlice(properties, PropertyKey);
    SortIsOrdered(PropertyKey, properties, Elements(b.properties), sorted);
    b' := b.(properties := sorted);
  }

  /** There is a blob for every bundle of the package. */
  lemma GatheredNames(m: map<string, Bundle>, v: PackageVal, order: seq<string>)
    requires Keyed(v) && IsOrder(v, order) && Gathered(m, v, order)
    ensures m.Keys == BundleNamesOf(v)
    ensures forall n :: n in m ==> Finished(m[n]) == BlobOf(v, order, n) && m[n].name == n && m[n].pkg == v.info.name
  {
    forall n
      ensures n in m <==> n in BundleNamesOf(v)
      ensures n in m ==> Finished(m[n]) == BlobOf(v, order, n) && m[n].name == n && m[n].pkg == v.info.name
    {
      MergedOverNamed(v, order, n);
      assert Lookup(m, n) == MergedOver(v, order, n);
    }
  }

  lemma BlobsNext(v: PackageVal, order: seq<string>, done: set<string>, n: string, bundles: seq<Bundle>)
    requires IsOrder(v, order) && n !in done && Collects(BundleKey, bundles, BundleSet(v, order, done))
    requires BlobOf(v, order, n).name == n && forall j :: j in done ==> BlobOf(v, order, j).name == j
    ensures Collects(BundleKey, bundles + [BlobOf(v, order, n)], BundleSet(v, order, done + {n}))
  {
    CollectsNext(BundleKey, bundles, BundleSet(v, order, done), BlobOf(v, order, n));
    assert BundleSet(v, order, done + {n}) == BundleSet(v, order, done) + {BlobOf(v, order, n)};
  }

  method FinishAll(m: map<string, Bundle>, ghost v: PackageVal, ghost order: seq<string>) returns (bundles: seq<Bundle>)
    requires IsOrder(v, order) && m.Keys == BundleNamesOf(v)
    requires forall n :: n in m ==> Finished(m[n]) == BlobOf(v, order, n) && m[n].name == n
    ensures Collects(BundleKey, bundles, BundleSet(v, order, BundleNamesOf(v)))
  {
    bundles := [];
    var left := m.Keys;
    ghost var all := m.Keys;
    assert all - left == {};
    while left != {}
      invariant left <= all && Collects(BundleKey, bundles, BundleSet(v, order, all - left))
      decreases left
    {
      var n :| n in left;
      var b := Finish(m[n]);
      BlobsNext(v, order, all - left, n, bundles);
      bundles := bundles + [b];
      DoneNext(all, left, n);
      left := left - {n};
    }
    assert all - left == all;
  }

  method TraverseModelChannels(p: MPackage, ghost v: PackageVal, ghost region: set<object>)
    returns (channels: seq<Channel>, bundles: seq<Bundle>, ghost order: seq<string>)
    requires IsPackage(p, v, region)
    ensures IsOrder(v, order)
    ensures Collects(ChannelKey, channels, ChannelSet(v, v.channels.Keys))
    ensures Collects(BundleKey, bundles, BundleSet(v, order, BundleNamesOf(v)))
  {
    var m;
    channels, m, order := VisitChannels(p, v, region);
    PackageKeyed(p, v, region);
    GatheredNames(m, v, order);
    bundles := FinishAll(m, v, order);
  }

  // ----- Packages -----

  /** What has been collected from the packages in `done`. */
  ghost predicate Collected(cfg: Config, v: ModelVal, visit: Visit, done: set<string>) {
    && done <= v.Keys && visit.Keys == done && (forall n :: n in done ==> IsOrder(v[n], visit[n]))
    && Collects(PackageKey, cfg.packages, AllPackages(v, done))
    && Collects(ChannelKey, cfg.channels, AllChannels(v, done))
    && Collects(BundleKey, cfg.bundles, AllBundles(v, visit, done))
    && cfg.deprecations == [] && cfg.others == []
  }

  lemma PackagesCollected(v: ModelVal, done: set<string>, n: string, packages: seq<Package>)
    requires KeyedModel(v) && n in v && n !in done && Collects(PackageKey, packages, AllPackages(v, done))
    ensures Collects(PackageKey, packages + [FlatPackage(v[n])], AllPackages(v, done + {n}))
  {
    CollectsNext(PackageKey, packages, AllPackages(v, done), FlatPackage(v[n]));
    assert AllPackages(v, done + {n}) == AllPackages(v, done) + {FlatPackage(v[n])};
  }

  lemma ChannelsCollected(v: ModelVal, done: set<string>, n: string, all: seq<Channel>, channels: seq<Channel>)
    requires KeyedModel(v) && n in v && n !in done && Collects(ChannelKey, all, AllChannels(v, done))
    requires Collects(ChannelKey, channels, ChannelSet(v[n], v[n].channels.Keys))
    ensures Collects(ChannelKey, all + channels, AllChannels(v, done + {n}))
  {
    CollectsBoth(ChannelKey, all, AllChannels(v, done), channels, ChannelSet(v[n], v[n].channels.Keys));
    assert AllChannels(v, done + {n}) == AllChannels(v, done) + ChannelSet(v[n], v[n].channels.Keys);
  }

  lemma BundlesCollected(v: ModelVal, visit: Visit, done: set<string>, n: string, order: seq<string>, all: seq<Bundle>,
                         bundles: seq<Bundle>)
    requires KeyedModel(v) && n in v && n !in done && done <= v.Keys && visit.Keys == done
    requires (forall k :: k in done ==> IsOrder(v[k], visit[k])) && IsOrder(v[n], order)
    requires Collects(BundleKey, all, AllBundles(v, visit, done))
    requires Collects(BundleKey, bundles, BundleSet(v[n], order, BundleNamesOf(v[n])))
    ensures Collects(BundleKey, all + bundles, AllBundles(v, visit[n := order], done + {n}))
  {
    var mine := BundleSet(v[n], order, BundleNamesOf(v[n]));
    forall b, c | b in AllBundles(v, visit, done) && c in mine
      ensures BundleKey(b) != BundleKey(c)
    {
      var k :| k in done && k in v && b in BundleSet(v[k], visit[k], BundleNamesOf(v[k]));
      BlobsOfPackage(v[k], visit[k], b);
      BlobsOfPackage(v[n], order, c);
    }
    CollectsBoth(BundleKey, all, AllBundles(v, visit, done), bundles, mine);
    assert AllBundles(v, visit[n := order], done + {n}) == AllBundles(v, visit, done) + mine;
  }

  lemma ModelKeyed(m: map<string, MPackage>, v: ModelVal, region: set<object>)
    requires IsModel(m, v, region)
    ensures KeyedModel(v)
  {
    forall n | n in v
      ensures v[n].info.name == n && Keyed(v[n])
    {
      PackageKeyed(m[n], v[n], region);
    }
  }

  method VisitPackage(p: MPackage, n: string, cfg: Config, ghost v: ModelVal, ghost visit: Visit,
                      ghost done: set<string>, ghost region: set<object>)
    returns (cfg': Config, ghost visit': Visit)
    requires KeyedModel(v) && n in v && n !in done && IsPackage(p, v[n], region) && Collected(cfg, v, visit, done)
    ensures Collected(cfg', v, visit', done + {n})
  {
    var channels, bundles;
    ghost var order;
    channels, bundles, order := TraverseModelChannels(p, v[n], region);
    var defaultChannel := "";
    if p.defaultChannel != null {
      defaultChannel := p.defaultChannel.info.name;
    }
    var package := Package(SCHEMA_PACKAGE, p.info.name, defaultChannel, p.info.icon, p.info.description, []);
    assert package == FlatPackage(v[n]);
    PackagesCollected(v, done, n, cfg.packages);
    ChannelsCollected(v, done, n, cfg.channels, channels);
    BundlesCollected(v, visit, done, n, order, cfg.bundles, bundles);
    cfg' := Config(cfg.packages + [package], cfg.channels + channels, cfg.bundles + bundles, [], []);
    visit' := visit[n := order];
  }

  /** Flattens a graph. `visit` tells in which order the channels happened to come; if the copies of each bundle
      agree the result is the same as for any other order. */
  method ConvertFromModel(m: map<string, MPackage>, ghost v: ModelVal, ghost region: set<object>)
    returns (cfg: Config, ghost visit: Visit)
    requires IsModel(m, v, region)
    ensures IsVisit(v, visit) && cfg == Flat(v, visit)
    ensures AnyOrder.CopiesAgree(v) ==> forall other :: IsVisit(v, other) ==> cfg == Flat(v, other)
  {
    ModelKeyed(m, v, region);
    cfg, visit := EMPTY_CONFIG, map[];
    var left := m.Keys;
    ghost var all := v.Keys;
    assert all - left == {};
    while left != {}
      invariant left <= all && Collected(cfg, v, visit, all - left)
      decreases left
    {
      var n :| n in left;
      assert IsPackage(m[n], v[n], region);
      cfg, visit := VisitPackage(m[n], n, cfg, v, visit, all - left, region);
      DoneNext(all, left, n);
      left := left - {n};
    }
    assert all - left == all;
    cfg := SortConfig(cfg, v, visit);
    AnyOrder.SameInAnyOrder(v);
  }

  method SortConfig(cfg: Config, ghost v: ModelVal, ghost visit: Visit) returns (cfg': Config)
    requires Collected(cfg, v, visit, v.Keys)
    ensures IsVisit(v, visit) && cfg' == Flat(v, visit)
  {
    var packages := SortSlice(cfg.packages, PackageKey);
    var channels := SortSlice(cfg.channels, ChannelKey);
    var bundles := SortSlice(cfg.bundles, BundleKey);
    SortIsOrdered(PackageKey, cfg.packages, AllPackages(v, v.Keys), packages);
    SortIsOrdered(ChannelKey, cfg.channels, AllChannels(v, v.Keys), channels);
    SortIsOrdered(BundleKey, cfg.bundles, AllBundles(v, visit, v.Keys), bundles);
    cfg' := Config(packages, channels, bundles, [], []);
  }
}
