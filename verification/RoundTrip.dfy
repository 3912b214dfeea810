/** Converting a configuration to a graph and flattening the graph again. */
module RoundTrip {
  import opened Declcfg
  import opened Orders
  import opened Listing
  import opened Model
  import opened Flattening
  import opened AnyOrder
  import opened Conversion
  import opened Acceptance
  import opened Criteria

  // ----- The canonical form -----

  function CanonPackage(p: Package): Package {
    p.(schema := SCHEMA_PACKAGE, properties := [])
  }

  ghost function CanonChannel(c: Channel): Channel {
    c.(schema := SCHEMA_CHANNEL, entries := Ordered(EntryKey, Elements(c.entries)))
  }

  ghost function CanonBundle(b: Bundle): Bundle {
    Finished(b).(schema := SCHEMA_BUNDLE)
  }

  function MissingDefault(p: Package): Channel {
    Channel(SCHEMA_CHANNEL, p.defaultChannel, p.name, [], [])
  }

  ghost predicate LacksDefault(channels: seq<Channel>, p: Package) {
    p.defaultChannel != "" && p.defaultChannel !in ChannelNames(channels, p.name)
  }

  ghost function CanonPackages(packages: seq<Package>): set<Package> {
    set p | p in packages :: CanonPackage(p)
  }

  ghost function CanonChannels(packages: seq<Package>, channels: seq<Channel>): set<Channel> {
    (set c | c in channels :: CanonChannel(c)) + (set p | p in packages && LacksDefault(channels, p) ::
          MissingDefault(p))
  }

  ghost function CanonBundles(bundles: seq<Bundle>): set<Bundle> {
    set b | b in bundles :: CanonBundle(b)
  }

  /** Packages without properties, sorted; channels with sorted entries, and an empty one for each default that is
      missing, sorted; bundles with deduplicated and sorted properties, sorted; nothing else. */
  ghost function Canonical(cfg: Config): Config {
    Config(Ordered(PackageKey, CanonPackages(cfg.packages)),
           Ordered(ChannelKey, CanonChannels(cfg.packages, cfg.channels)),
           Ordered(BundleKey, CanonBundles(cfg.bundles)), [], [])
  }

  /** Every entry of every channel has a blob. */
  ghost predicate Backed(cfg: Config) {
    forall c, n :: c in cfg.channels && n in EntryNames(c.entries) ==> n in BundleNames(cfg.bundles, c.pkg)
  }

  // ----- Finding what is listed -----

  lemma FoundPackage(packages: seq<Package>, p: Package)
    requires DistinctKeys(PackageKey, packages) && p in packages
    ensures FindPackage(packages, p.name) == Some(p)
  {
    PackageNamesAre(packages);
    assert p.name in PackageNames(packages);
    var q := FindPackage(packages, p.name).value;
    SameElement(PackageKey, packages, p, q);
  }

  lemma FoundChannel(channels: seq<Channel>, c: Channel)
    requires DistinctKeys(ChannelKey, channels) && c in channels
    ensures FindChannel(channels, c.pkg, c.name) == Some(c)
  {
    ChannelNamesAre(channels, c.pkg);
    assert c.name in ChannelNames(channels, c.pkg);
    SameElement(ChannelKey, channels, c, FindChannel(channels, c.pkg, c.name).value);
  }

  lemma FoundEntry(entries: seq<ChannelEntry>, e: ChannelEntry)
    requires DistinctKeys(EntryKey, entries) && e in entries
    ensures FindEntry(entries, e.name) == Some(e)
  {
    EntryNamesAre(entries);
    assert e.name in EntryNames(entries);
    SameElement(EntryKey, entries, e, FindEntry(entries, e.name).value);
  }

  lemma {:induction false} FoundSomeBundle(bundles: seq<Bundle>, pkg: string, name: string)
    ensures FindBundle(bundles, pkg, name).Some? <==> name in BundleNames(bundles, pkg)
  {
    if |bundles| != 0 {
      FoundSomeBundle(bundles[..|bundles| - 1], pkg, name);
    }
  }

  lemma FoundBundle(bundles: seq<Bundle>, b: Bundle)
    requires DistinctKeys(BundleKey, bundles) && b in bundles
    ensures FindBundle(bundles, b.pkg, b.name) == Some(b)
  {
    BundleNamesAre(bundles, b.pkg);
    assert b.name in BundleNames(bundles, b.pkg);
    FoundSomeBundle(bundles, b.pkg, b.name);
    SameElement(BundleKey, bundles, b, FindBundle(bundles, b.pkg, b.name).value);
  }

  lemma SameElement<T>(key: T -> Key, s: seq<T>, x: T, y: T)
    requires DistinctKeys(key, s) && x in s && y in s && key(x) == key(y)
    ensures x == y
  {
  }

  // ----- Packages and channels -----

  lemma PackagesThere(view: View, packages: seq<Package>, channels: seq<Channel>)
    requires DistinctKeys(PackageKey, packages)
    ensures var v := ModelWith(view, packages, channels, PackageNames(packages));
            AllPackages(v, v.Keys) == CanonPackages(packages)
  {
    var v := ModelWith(view, packages, channels, PackageNames(packages));
    forall n | n in v
      ensures FlatPackage(v[n]) == CanonPackage(FindPackage(packages, n).value)
    {
    }
    forall p | p in packages
      ensures p.name in v && FindPackage(packages, p.name) == Some(p)
    {
      FoundPackage(packages, p);
    }
  }

  lemma EntriesThere(view: View, c: Channel)
    requires DistinctKeys(EntryKey, c.entries)
    ensures FlatChannel(c.pkg, ChannelAt(view, c)) == CanonChannel(c)
  {
    var v := ChannelAt(view, c);
    forall e | e in c.entries
      ensures e.name in v.bundles && v.bundles[e.name].entry == e
    {
      FoundEntry(c.entries, e);
    }
    assert EntrySet(v, v.bundles.Keys) == Elements(c.entries);
  }

  /** The channel that a package of the graph has under a name. */
  lemma ChannelThere(view: View, packages: seq<Package>, channels: seq<Channel>, p: Package, k: string)
    requires PackagesDistinct(packages, p) && ChannelsFine(packages, channels)
    requires k in ChannelNamesAt(channels, PackageNames(packages), p)
    ensures FlatChannel(p.name, ChannelUnder(view, channels, p.name, k)) in CanonChannels(packages, channels)
  {
    var listed := FindChannel(channels, p.name, k);
    if listed.Some? {
      EntriesThere(view, listed.value);
    } else {
      assert ChannelUnder(view, channels, p.name, k).bundles == map[];
      assert EntrySet(ChannelUnder(view, channels, p.name, k), {}) == {};
      assert LacksDefault(channels, p);
      assert FlatChannel(p.name, ChannelUnder(view, channels, p.name, k)) == MissingDefault(p);
    }
  }

  ghost predicate PackagesDistinct(packages: seq<Package>, p: Package) {
    DistinctKeys(PackageKey, packages) && p in packages
  }

  lemma MissingThere(view: View, packages: seq<Package>, channels: seq<Channel>, p: Package)
    requires PackagesDistinct(packages, p) && LacksDefault(channels, p)
    ensures p.defaultChannel in ChannelNamesAt(channels, PackageNames(packages), p)
    ensures FlatChannel(p.name, ChannelUnder(view, channels, p.name, p.defaultChannel)) == MissingDefault(p)
  {
    FoundPackage(packages, p);
    assert EntrySet(ChannelUnder(view, channels, p.name, p.defaultChannel), {}) == {};
  }

  lemma ChannelsThere(view: View, packages: seq<Package>, channels: seq<Channel>)
    requires DistinctKeys(PackageKey, packages) && ChannelsFine(packages, channels)
    ensures var v := ModelWith(view, packages, channels, PackageNames(packages));
            AllChannels(v, v.Keys) == CanonChannels(packages, channels)
  {
    var v := ModelWith(view, packages, channels, PackageNames(packages));
    forall n, k | n in v && k in v[n].channels
      ensures FlatChannel(v[n].info.name, v[n].channels[k]) in CanonChannels(packages, channels)
    {
      ChannelThere(view, packages, channels, FindPackage(packages, n).value, k);
    }
    forall c | c in channels
      ensures CanonChannel(c) in AllChannels(v, v.Keys)
    {
      FoundChannel(channels, c);
      EntriesThere(view, c);
      assert c.pkg in v && c.name in v[c.pkg].channels;
      assert CanonChannel(c) in ChannelSet(v[c.pkg], v[c.pkg].channels.Keys);
    }
    forall p | p in packages && LacksDefault(channels, p)
      ensures MissingDefault(p) in AllChannels(v, v.Keys)
    {
      FoundPackage(packages, p);
      MissingThere(view, packages, channels, p);
      assert p.name in v && p.defaultChannel in v[p.name].channels;
      assert MissingDefault(p) in ChannelSet(v[p.name], v[p.name].channels.Keys);
    }
  }

  // ----- Bundles -----

  lemma KeyedThere(view: View, packages: seq<Package>, channels: seq<Channel>, defaulted: set<string>)
    ensures KeyedModel(ModelWith(view, packages, channels, defaulted))
  {
  }

  /** All copies of a bundle have the same data. */
  ghost predicate Uniform(v: PackageVal, name: string, data: BundleData) {
    forall k :: k in v.channels && name in v.channels[k].bundles ==> v.channels[k].bundles[name].data == data
  }

  lemma UniformThere(view: View, channels: seq<Channel>, defaulted: set<string>, p: Package, name: string)
    ensures Uniform(PackageAt(view, channels, defaulted, p), name, view.data(p.name, name))
  {
  }

  function BlobWith(pkg: string, name: string, data: BundleData): Bundle {
    Bundle(SCHEMA_BUNDLE, name, pkg, data.image, data.properties, data.relatedImages, data.csvJSON, data.objects)
  }

  lemma UniformProperties(v: PackageVal, name: string, data: BundleData)
    requires Uniform(v, name, data) && name in BundleNamesOf(v)
    ensures PropertiesIn(v, v.channels.Keys, name) == Elements(data.properties)
  {
    var k :| k in v.channels && name in v.channels[k].bundles;
  }

  lemma UniformBlob(v: PackageVal, order: seq<string>, name: string, data: BundleData)
    requires Keyed(v) && IsOrder(v, order) && Uniform(v, name, data) && name in BundleNamesOf(v)
    ensures BlobOf(v, order, name) == Finished(BlobWith(v.info.name, name, data))
  {
    MergedOverNamed(v, order, name);
    MergedProperties(v, order, name);
    assert Elements(order) == v.channels.Keys;
    UniformProperties(v, name, data);
    var k := MergedShared(v, order, name);
  }

  lemma NamesThere(view: View, channels: seq<Channel>, defaulted: set<string>, p: Package, name: string)
    requires DistinctChannels(channels)
    ensures name in BundleNamesOf(PackageAt(view, channels, defaulted, p)) <==> Listed(channels, p.name, name)
  {
    ListedIs(view, channels, defaulted, p, name);
    var v := PackageAt(view, channels, defaulted, p);
    assert name in BundleNamesOf(v) <==> HasBundle(v, name);
  }

  /** The blob for a listed bundle: that of its own blob, or an empty one. */
  lemma BlobThere(lib: Lib, cfg: Config, visit: Visit, n: string, name: string)
    requires IsVisit(ModelOf(lib, cfg), visit) && n in ModelOf(lib, cfg) && name in BundleNamesOf(ModelOf(lib, cfg)[n])
    ensures var blob := FindBundle(cfg.bundles, n, name);
            BlobOf(ModelOf(lib, cfg)[n], visit[n], name)
            == if blob.Some? then CanonBundle(blob.value) else Finished(BlobWith(n, name, NO_DATA))
  {
    var view := ViewOf(lib, cfg.bundles, cfg.deprecations);
    var v := ModelOf(lib, cfg);
    KeyedThere(view, cfg.packages, cfg.channels, PackageNames(cfg.packages));
    UniformThere(view, cfg.channels, PackageNames(cfg.packages), FindPackage(cfg.packages, n).value, name);
    UniformBlob(v[n], visit[n], name, view.data(n, name));
  }

  ghost predicate Fine(lib: Lib, cfg: Config) {
    && PackagesFine(lib, cfg.packages) && ChannelsFine(cfg.packages, cfg.channels)
    && BundlesFine(lib, cfg.packages, cfg.channels, cfg.bundles)
  }

  lemma OwnBlobsThere(lib: Lib, cfg: Config, visit: Visit, b: Bundle)
    requires Fine(lib, cfg) && IsVisit(ModelOf(lib, cfg), visit) && b in cfg.bundles
    ensures CanonBundle(b) in AllBundles(ModelOf(lib, cfg), visit, ModelOf(lib, cfg).Keys)
  {
    var v := ModelOf(lib, cfg);
    DistinctChannelsAre(cfg.channels);
    NamesThere(ViewOf(lib, cfg.bundles, cfg.deprecations), cfg.channels, PackageNames(cfg.packages),
               FindPackage(cfg.packages, b.pkg).value, b.name);
    BlobThere(lib, cfg, visit, b.pkg, b.name);
    FoundBundle(cfg.bundles, b);
    assert CanonBundle(b) in BundleSet(v[b.pkg], visit[b.pkg], BundleNamesOf(v[b.pkg]));
  }

  /** The names in the graph are those of channel entries. */
  lemma EntryOf(lib: Lib, cfg: Config, n: string, name: string) returns (c: Channel)
    requires ChannelsFine(cfg.packages, cfg.channels) && n in ModelOf(lib, cfg)
             && name in BundleNamesOf(ModelOf(lib, cfg)[n])
    ensures c in cfg.channels && c.pkg == n && name in EntryNames(c.entries)
  {
    DistinctChannelsAre(cfg.channels);
    NamesThere(ViewOf(lib, cfg.bundles, cfg.deprecations), cfg.channels, PackageNames(cfg.packages),
               FindPackage(cfg.packages, n).value, name);
    var i :| 0 <= i < |cfg.channels| && cfg.channels[i].pkg == n && name in EntryNames(cfg.channels[i].entries);
    c := cfg.channels[i];
  }

  lemma BundlesThere(lib: Lib, cfg: Config, visit: Visit)
    requires Fine(lib, cfg) && IsVisit(ModelOf(lib, cfg), visit) && Backed(cfg)
    ensures AllBundles(ModelOf(lib, cfg), visit, ModelOf(lib, cfg).Keys) == CanonBundles(cfg.bundles)
  {
    var v := ModelOf(lib, cfg);
    forall b | b in AllBundles(v, visit, v.Keys)
      ensures b in CanonBundles(cfg.bundles)
    {
      var n :| n in v && b in BundleSet(v[n], visit[n], BundleNamesOf(v[n]));
      var name :| name in BundleNamesOf(v[n]) && b == BlobOf(v[n], visit[n], name);
      BlobThere(lib, cfg, visit, n, name);
      var c := EntryOf(lib, cfg, n, name);
      FoundSomeBundle(cfg.bundles, n, name);
    }
    forall b | b in cfg.bundles
      ensures CanonBundle(b) in AllBundles(v, visit, v.Keys)
    {
      OwnBlobsThere(lib, cfg, visit, b);
    }
  }

  /** An entry without a blob gives an empty one. */
  lemma EmptyBlobThere(lib: Lib, cfg: Config, visit: Visit, c: Channel, name: string)
    requires Fine(lib, cfg) && IsVisit(ModelOf(lib, cfg), visit)
    requires c in cfg.channels && name in EntryNames(c.entries) && name !in BundleNames(cfg.bundles, c.pkg)
    ensures Finished(BlobWith(c.pkg, name, NO_DATA)) in AllBundles(ModelOf(lib, cfg), visit, ModelOf(lib, cfg).Keys)
  {
    var v := ModelOf(lib, cfg);
    DistinctChannelsAre(cfg.channels);
    assert Listed(cfg.channels, c.pkg, name);
    NamesThere(ViewOf(lib, cfg.bundles, cfg.deprecations), cfg.channels, PackageNames(cfg.packages),
               FindPackage(cfg.packages, c.pkg).value, name);
    BlobThere(lib, cfg, visit, c.pkg, name);
    FoundSomeBundle(cfg.bundles, c.pkg, name);
    assert Finished(BlobWith(c.pkg, name, NO_DATA)) in BundleSet(v[c.pkg], visit[c.pkg], BundleNamesOf(v[c.pkg]));
  }

  // ----- There and back -----

  lemma ThereAndBack(lib: Lib, cfg: Config, visit: Visit)
    requires Fine(lib, cfg) && IsVisit(ModelOf(lib, cfg), visit) && Backed(cfg)
    ensures Flat(ModelOf(lib, cfg), visit) == Canonical(cfg)
  {
    var view := ViewOf(lib, cfg.bundles, cfg.deprecations);
    PackagesThere(view, cfg.packages, cfg.channels);
    ChannelsThere(view, cfg.packages, cfg.channels);
    BundlesThere(lib, cfg, visit);
  }
}
