/** The configuration that a package graph flattens to. */
module Flattening {
  import opened Declcfg
  import opened Orders
  import opened Listing
  import opened Model

  // ----- Sort keys -----

  function PropertyKey(p: Property): Key { (p.kind, p.value) }

  function EntryKey(e: ChannelEntry): Key { (e.name, "") }

  function PackageKey(p: Package): Key { (p.name, "") }

  function ChannelKey(c: Channel): Key { (c.pkg, c.name) }

  function BundleKey(b: Bundle): Key { (b.pkg, b.name) }

  // ----- Well-formed graphs -----

  /** Everything is held under its own name, and the default channel is one of the channels. */
  ghost predicate Keyed(v: PackageVal) {
    && (forall k :: k in v.channels ==> v.channels[k].info.name == k && KeyedChannel(v.channels[k]))
    && (v.defaultChannel.Some? ==> v.defaultChannel.value in v.channels)
  }

  ghost predicate KeyedChannel(v: ChannelVal) {
    forall n :: n in v.bundles ==> v.bundles[n].entry.name == n
  }

  ghost predicate KeyedModel(v: ModelVal) {
    forall n :: n in v ==> v[n].info.name == n && Keyed(v[n])
  }

  // ----- Channels -----

  function EntrySet(v: ChannelVal, names: set<string>): set<ChannelEntry> {
    set n | n in names && n in v.bundles :: v.bundles[n].entry
  }

  ghost function FlatChannel(pkg: string, v: ChannelVal): Channel {
    Channel(SCHEMA_CHANNEL, v.info.name, pkg, Ordered(EntryKey, EntrySet(v, v.bundles.Keys)), v.info.properties)
  }

  ghost function ChannelSet(v: PackageVal, names: set<string>): set<Channel> {
    set k | k in names && k in v.channels :: FlatChannel(v.info.name, v.channels[k])
  }

  // ----- Bundles -----

  /** The blob for one more copy of a bundle: the first copy gives everything, the next ones add their properties. */
  function Merged(b: Option<Bundle>, copy: Option<BundleVal>, pkg: string): Option<Bundle> {
    if copy.None? then b
    else if b.None? then Some(NewBlob(copy.value, pkg))
    else Some(b.value.(properties := b.value.properties + copy.value.data.properties))
  }

  function NewBlob(v: BundleVal, pkg: string): Bundle {
    Bundle(SCHEMA_BUNDLE, v.entry.name, pkg, v.data.image, v.data.properties, v.data.relatedImages, v.data.csvJSON,
           v.data.objects)
  }

  function CopyIn(v: ChannelVal, name: string): Option<BundleVal> {
    if name in v.bundles then Some(v.bundles[name]) else None
  }

  /** The blob for a bundle after going over some channels of its package. */
  function MergedOver(v: PackageVal, order: seq<string>, name: string): Option<Bundle>
    requires forall k :: k in order ==> k in v.channels
  {
    if |order| == 0 then None
    else Merged(MergedOver(v, order[..|order| - 1], name), CopyIn(v.channels[order[|order| - 1]], name), v.info.name)
  }

  /** The properties deduplicated and sorted. */
  ghost function Finished(b: Bundle): Bundle {
    b.(properties := Ordered(PropertyKey, Elements(b.properties)))
  }

  /** An order in which a package's channels can be visited. */
  ghost predicate IsOrder(v: PackageVal, order: seq<string>) {
    (forall k :: k in order <==> k in v.channels) && forall i, j :: 0 <= i < j < |order| ==> order[i] != order[j]
  }

  ghost function BundleNamesOf(v: PackageVal): set<string> {
    set k, n | k in v.channels && n in v.channels[k].bundles :: n
  }

  ghost function BlobOf(v: PackageVal, order: seq<string>, name: string): Bundle
    requires IsOrder(v, order)
  {
    var b := MergedOver(v, order, name);
    if b.Some? then Finished(b.value) else Bundle(SCHEMA_BUNDLE, name, v.info.name, "", [], [], "", [])
  }

  ghost function BundleSet(v: PackageVal, order: seq<string>, names: set<string>): set<Bundle>
    requires IsOrder(v, order)
  {
    set n | n in names :: BlobOf(v, order, n)
  }

  lemma {:induction false} MergedOverNamed(v: PackageVal, order: seq<string>, name: string)
    requires Keyed(v) && forall k :: k in order ==> k in v.channels
    ensures MergedOver(v, order, name).Some? ==>
              MergedOver(v, order, name).value.name == name && MergedOver(v, order, name).value.pkg == v.info.name
    ensures MergedOver(v, order, name).Some? <==> exists k :: k in order && name in v.channels[k].bundles
  {
    if |order| != 0 {
      var n := |order| - 1;
      MergedOverNamed(v, order[..n], name);
      assert order == order[..n] + [order[n]];
    }
  }

  /** The blobs of a package bear its name. */
  lemma BlobsOfPackage(v: PackageVal, order: seq<string>, b: Bundle)
    requires Keyed(v) && IsOrder(v, order) && b in BundleSet(v, order, BundleNamesOf(v))
    ensures b.pkg == v.info.name && b.name in BundleNamesOf(v) && b == BlobOf(v, order, b.name)
  {
    var n :| n in BundleNamesOf(v) && b == BlobOf(v, order, n);
    MergedOverNamed(v, order, n);
  }

  // ----- Packages -----

  function FlatPackage(v: PackageVal): Package {
    Package(SCHEMA_PACKAGE, v.info.name, if v.defaultChannel.Some? then v.defaultChannel.value
                                         else "", v.info.icon, v.info.description, [])
  }

  /** The order in which the channels of each package are visited. */
  type Visit = map<string, seq<string>>

  ghost predicate IsVisit(v: ModelVal, visit: Visit) {
    visit.Keys == v.Keys && forall n :: n in v ==> IsOrder(v[n], visit[n])
  }

  ghost function AllPackages(v: ModelVal, names: set<string>): set<Package> {
    set n | n in names && n in v :: FlatPackage(v[n])
  }

  ghost function AllChannels(v: ModelVal, names: set<string>): set<Channel> {
    set n, c | n in names && n in v && c in ChannelSet(v[n], v[n].channels.Keys) :: c
  }

  ghost function AllBundles(v: ModelVal, visit: Visit, names: set<string>): set<Bundle>
    requires forall n :: n in names && n in v ==> n in visit && IsOrder(v[n], visit[n])
  {
    set n, b | n in names && n in v && b in BundleSet(v[n], visit[n], BundleNamesOf(v[n])) :: b
  }

  /** What a graph flattens to when its channels are visited in a given order. The order of packages and bundles
      does not matter. */
  ghost function Flat(v: ModelVal, visit: Visit): Config
    requires IsVisit(v, visit)
  {
    Config(Ordered(PackageKey, AllPackages(v, v.Keys)), Ordered(ChannelKey, AllChannels(v, v.Keys)),
           Ordered(BundleKey, AllBundles(v, visit, v.Keys)), [], [])
  }

  // ----- In what order -----

  ghost predicate PropertiesInOrder(properties: seq<Property>) {
    forall i, j :: 0 <= i < j < |properties| ==>
      StrLT(properties[i].kind, properties[j].kind)
      || (properties[i].kind == properties[j].kind && StrLE(properties[i].value, properties[j].value))
  }

  ghost predicate EntriesInOrder(entries: seq<ChannelEntry>) {
    forall i, j :: 0 <= i < j < |entries| ==> StrLE(entries[i].name, entries[j].name)
  }

  /** Packages by name, channels and bundles by package and then name, the entries of each channel by name and the
      properties of each bundle by type and then value. */
  ghost predicate InOrder(cfg: Config) {
    && (forall i, j :: 0 <= i < j < |cfg.packages| ==> StrLE(cfg.packages[i].name, cfg.packages[j].name))
    && (forall i, j :: 0 <= i < j < |cfg.channels| ==>
          StrLT(cfg.channels[i].pkg, cfg.channels[j].pkg)
          || (cfg.channels[i].pkg == cfg.channels[j].pkg && StrLE(cfg.channels[i].name, cfg.channels[j].name)))
    && (forall i, j :: 0 <= i < j < |cfg.bundles| ==>
          StrLT(cfg.bundles[i].pkg, cfg.bundles[j].pkg)
          || (cfg.bundles[i].pkg == cfg.bundles[j].pkg && StrLE(cfg.bundles[i].name, cfg.bundles[j].name)))
    && (forall c :: c in cfg.channels ==> EntriesInOrder(c.entries))
    && (forall b :: b in cfg.bundles ==> PropertiesInOrder(b.properties))
  }

  lemma FinishedInOrder(b: Bundle)
    ensures PropertiesInOrder(Finished(b).properties)
  {
    OrderedSorted(PropertyKey, Elements(b.properties));
    var properties := Finished(b).properties;
    forall i, j | 0 <= i < j < |properties|
      ensures StrLT(properties[i].kind, properties[j].kind)
              || (properties[i].kind == properties[j].kind && StrLE(properties[i].value, properties[j].value))
    {
      KeyFirst(PropertyKey(properties[i]), PropertyKey(properties[j]));
    }
  }

  lemma EntriesOrdered(entries: set<ChannelEntry>)
    ensures EntriesInOrder(Ordered(EntryKey, entries))
  {
    OrderedSorted(EntryKey, entries);
    var sorted := Ordered(EntryKey, entries);
    forall i, j | 0 <= i < j < |sorted|
      ensures StrLE(sorted[i].name, sorted[j].name)
    {
      KeyFirst(EntryKey(sorted[i]), EntryKey(sorted[j]));
    }
  }

  /** What a graph flattens to is in order. */
  lemma FlatInOrder(v: ModelVal, visit: Visit)
    requires IsVisit(v, visit)
    ensures InOrder(Flat(v, visit))
  {
    var cfg := Flat(v, visit);
    OrderedSorted(PackageKey, AllPackages(v, v.Keys));
    OrderedSorted(ChannelKey, AllChannels(v, v.Keys));
    OrderedSorted(BundleKey, AllBundles(v, visit, v.Keys));
    forall i, j | 0 <= i < j < |cfg.packages|
      ensures StrLE(cfg.packages[i].name, cfg.packages[j].name)
    {
      KeyFirst(PackageKey(cfg.packages[i]), PackageKey(cfg.packages[j]));
    }
    forall c | c in cfg.channels
      ensures EntriesInOrder(c.entries)
    {
      FlatChannelOrdered(v, c);
    }
    forall b | b in cfg.bundles
      ensures PropertiesInOrder(b.properties)
    {
      FlatBundleOrdered(v, visit, b);
    }
  }

  lemma FlatChannelOrdered(v: ModelVal, c: Channel)
    requires c in Ordered(ChannelKey, AllChannels(v, v.Keys))
    ensures EntriesInOrder(c.entries)
  {
    OrderedSorted(ChannelKey, AllChannels(v, v.Keys));
    InMultiset(Ordered(ChannelKey, AllChannels(v, v.Keys)), AllChannels(v, v.Keys), c);
    var n :| n in v && c in ChannelSet(v[n], v[n].channels.Keys);
    var k :| k in v[n].channels && c == FlatChannel(v[n].info.name, v[n].channels[k]);
    EntriesOrdered(EntrySet(v[n].channels[k], v[n].channels[k].bundles.Keys));
  }

  lemma FlatBundleOrdered(v: ModelVal, visit: Visit, b: Bundle)
    requires IsVisit(v, visit) && b in Ordered(BundleKey, AllBundles(v, visit, v.Keys))
    ensures PropertiesInOrder(b.properties)
  {
    OrderedSorted(BundleKey, AllBundles(v, visit, v.Keys));
    InMultiset(Ordered(BundleKey, AllBundles(v, visit, v.Keys)), AllBundles(v, visit, v.Keys), b);
    var n :| n in v && b in BundleSet(v[n], visit[n], BundleNamesOf(v[n]));
    var name :| name in BundleNamesOf(v[n]) && b == BlobOf(v[n], visit[n], name);
    var merged := MergedOver(v[n], visit[n], name);
    if merged.Some? {
      FinishedInOrder(merged.value);
    }
  }
}
