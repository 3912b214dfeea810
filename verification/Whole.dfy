/** The whole conversion: after the graph is built it is validated and its properties are normalized. */
module Whole {
  import opened Declcfg
  import opened Orders
  import opened Listing
  import opened Semver
  import opened Model
  import opened Flattening
  import opened Conversion
  import opened Acceptance
  import opened Criteria
  import opened RoundTrip
  import opened FixedPoint
  import opened ReplacesChain
  import opened Validation
  import opened Normalizing

  /** A configuration that the whole conversion accepts. */
  ghost predicate Converts(lib: Lib, show: Version -> string, cfg: Config) {
    Accepted(lib, cfg) && ValidModel(lib, show, ModelOf(lib, cfg))
  }

  // ----- What validation adds -----

  /** Validation rejects an entry without a blob, since it has neither an image nor objects. */
  lemma ValidIsBacked(lib: Lib, show: Version -> string, cfg: Config)
    requires Converts(lib, show, cfg)
    ensures Backed(cfg)
  {
    AcceptedExactly(lib, cfg);
    var v := ModelOf(lib, cfg);
    forall c, n | c in cfg.channels && n in EntryNames(c.entries)
      ensures n in BundleNames(cfg.bundles, c.pkg)
    {
      FoundChannel(cfg.channels, c);
      FoundSomeBundle(cfg.bundles, c.pkg, n);
      assert ValidPackage(lib, show, v[c.pkg]);
      assert ValidChannel(lib, v[c.pkg].channels[c.name]);
      assert ValidBundle(lib, v[c.pkg].channels[c.name].bundles[n]);
    }
  }

  /** It rejects a package without a default channel, and a default channel that was made up, since that is empty. */
  lemma ValidHasDefaults(lib: Lib, show: Version -> string, cfg: Config, p: Package)
    requires Converts(lib, show, cfg) && p in cfg.packages
    ensures p.defaultChannel in ChannelNames(cfg.channels, p.name)
  {
    AcceptedExactly(lib, cfg);
    var v := ModelOf(lib, cfg);
    FoundPackage(cfg.packages, p);
    assert ValidPackage(lib, show, v[p.name]);
    assert v[p.name].defaultChannel == Some(p.defaultChannel);
    assert ValidChannel(lib, v[p.name].channels[p.defaultChannel]);
  }

  /** The example of an entry that the conversion does not look at is rejected in the end. */
  lemma UnbackedRejected(show: Version -> string)
    ensures !Converts(UnbackedLib(), show, UnbackedConfig())
  {
    var c := UnbackedConfig().channels[0];
    UnbackedNames();
    assert c in UnbackedConfig().channels && "x" in EntryNames(c.entries)
           && "x" !in BundleNames(UnbackedConfig().bundles, c.pkg);
    if Converts(UnbackedLib(), show, UnbackedConfig()) {
      ValidIsBacked(UnbackedLib(), show, UnbackedConfig());
    }
  }

  // ----- Normalizing the configuration instead of the graph -----

  /** Encoding a property in a standard way keeps what it says, and doing it again changes nothing. */
  ghost predicate LawfulNorm(lib: Lib, norm: Norm) {
    forall p: Property ::
      && norm(p).kind == p.kind && (lib.valid(norm(p)) <==> lib.valid(p)) && norm(norm(p)) == norm(p)
      && (p.kind == TYPE_PACKAGE && lib.valid(p) ==> lib.packageProp(norm(p).value) == lib.packageProp(p.value))
  }

  function NormBlob(norm: Norm, b: Bundle): Bundle {
    b.(properties := NormProperties(norm, b.properties))
  }

  function NormBlobs(norm: Norm, bundles: seq<Bundle>): seq<Bundle> {
    seq(|bundles|, i requires 0 <= i < |bundles| => NormBlob(norm, bundles[i]))
  }

  function NormConfig(norm: Norm, cfg: Config): Config {
    cfg.(bundles := NormBlobs(norm, cfg.bundles))
  }

  lemma {:induction false} NormPackageProps(lib: Lib, norm: Norm, properties: seq<Property>)
    requires LawfulNorm(lib, norm) && AllValid(lib, properties)
    ensures PackageProps(lib, NormProperties(norm, properties)) == PackageProps(lib, properties)
  {
    if |properties| != 0 {
      var n := |properties| - 1;
      NormPackageProps(lib, norm, properties[..n]);
      assert NormProperties(norm, properties)[..n] == NormProperties(norm, properties[..n]);
    }
  }

  lemma NormAllValid(lib: Lib, norm: Norm, properties: seq<Property>)
    requires LawfulNorm(lib, norm)
    ensures AllValid(lib, NormProperties(norm, properties)) <==> AllValid(lib, properties)
  {
    var normal := NormProperties(norm, properties);
    forall i | 0 <= i < |properties|
      ensures lib.valid(normal[i]) <==> lib.valid(properties[i])
    {
      assert normal[i] == norm(properties[i]);
    }
  }

  lemma NormVersion(lib: Lib, norm: Norm, b: Bundle)
    requires LawfulNorm(lib, norm)
    ensures BundleVersion(lib, NormBlob(norm, b)) == BundleVersion(lib, b)
    ensures DataOf(lib, NormBlob(norm, b)) == NormData(norm, DataOf(lib, b))
  {
    NormAllValid(lib, norm, b.properties);
    if AllValid(lib, b.properties) {
      NormPackageProps(lib, norm, b.properties);
    }
  }

  lemma {:induction false} NormFind(norm: Norm, bundles: seq<Bundle>, pkg: string, name: string)
    ensures var blob := FindBundle(bundles, pkg, name);
            FindBundle(NormBlobs(norm, bundles), pkg, name)
              == if blob.Some? then Some(NormBlob(norm, blob.value)) else None
    ensures BundleNames(NormBlobs(norm, bundles), pkg) == BundleNames(bundles, pkg)
  {
    if |bundles| != 0 {
      var n := |bundles| - 1;
      NormFind(norm, bundles[..n], pkg, name);
      assert NormBlobs(norm, bundles)[..n] == NormBlobs(norm, bundles[..n]);
    }
  }

  /** The second view has the data of the first, normalized. */
  ghost predicate Normalizes(norm: Norm, view: View, view': View) {
    && (forall pkg, name :: view'.data(pkg, name) == NormData(norm, view.data(pkg, name)))
    && forall pkg, target :: view'.note(pkg, target) == view.note(pkg, target)
  }

  lemma ViewNormalizes(lib: Lib, norm: Norm, cfg: Config)
    requires LawfulNorm(lib, norm)
    ensures Normalizes(norm, ViewOf(lib, cfg.bundles, cfg.deprecations),
                       ViewOf(lib, NormBlobs(norm, cfg.bundles), cfg.deprecations))
  {
    forall pkg, name
      ensures DataAt(lib, NormBlobs(norm, cfg.bundles), pkg, name)
              == NormData(norm, DataAt(lib, cfg.bundles, pkg, name))
    {
      NormFind(norm, cfg.bundles, pkg, name);
      var blob := FindBundle(cfg.bundles, pkg, name);
      if blob.Some? {
        NormVersion(lib, norm, blob.value);
      } else {
        assert NormData(norm, NO_DATA) == NO_DATA;
      }
    }
  }

  lemma ChannelNormalized(norm: Norm, view: View, view': View, c: Channel)
    requires Normalizes(norm, view, view')
    ensures ChannelAt(view', c) == NormChannel(norm, ChannelAt(view, c))
  {
  }

  lemma PackageNormalized(norm: Norm, view: View, view': View, channels: seq<Channel>, defaulted: set<string>,
                          p: Package)
    requires Normalizes(norm, view, view')
    ensures PackageAt(view', channels, defaulted, p) == NormPackage(norm, PackageAt(view, channels, defaulted, p))
  {
    forall k
      ensures ChannelUnder(view', channels, p.name, k) == NormChannel(norm, ChannelUnder(view, channels, p.name, k))
    {
      var listed := FindChannel(channels, p.name, k);
      if listed.Some? {
        ChannelNormalized(norm, view, view', listed.value);
      }
    }
  }

  /** Normalizing the graph gives the graph of the normalized configuration. */
  lemma ModelNormalized(lib: Lib, norm: Norm, cfg: Config)
    requires LawfulNorm(lib, norm)
    ensures ModelOf(lib, NormConfig(norm, cfg)) == NormModel(norm, ModelOf(lib, cfg))
  {
    var view, view' := ViewOf(lib, cfg.bundles, cfg.deprecations),
        ViewOf(lib, NormBlobs(norm, cfg.bundles), cfg.deprecations);
    ViewNormalizes(lib, norm, cfg);
    forall p: Package
      ensures PackageAt(view', cfg.channels, PackageNames(cfg.packages), p)
           == NormPackage(norm, PackageAt(view, cfg.channels, PackageNames(cfg.packages), p))
    {
      PackageNormalized(norm, view, view', cfg.channels, PackageNames(cfg.packages), p);
    }
  }

  // ----- Normalizing keeps a configuration acceptable -----

  lemma NormBundlesFine(lib: Lib, norm: Norm, cfg: Config)
    requires LawfulNorm(lib, norm) && BundlesFine(lib, cfg.packages, cfg.channels, cfg.bundles)
    ensures BundlesFine(lib, cfg.packages, cfg.channels, NormBlobs(norm, cfg.bundles))
  {
    var normal := NormBlobs(norm, cfg.bundles);
    forall b | b in normal
      ensures BundleFine(lib, cfg.packages, cfg.channels, b)
    {
      var i :| 0 <= i < |cfg.bundles| && b == NormBlob(norm, cfg.bundles[i]);
      assert cfg.bundles[i] in cfg.bundles;
      NormVersion(lib, norm, cfg.bundles[i]);
      VersionedExactly(lib, cfg.bundles[i]);
      VersionedExactly(lib, b);
    }
  }

  lemma NormFine(lib: Lib, norm: Norm, cfg: Config)
    requires LawfulNorm(lib, norm) && Fine(lib, cfg) && Backed(cfg)
    ensures Fine(lib, NormConfig(norm, cfg)) && Backed(NormConfig(norm, cfg))
  {
    NormBundlesFine(lib, norm, cfg);
    forall c, n | c in cfg.channels && n in EntryNames(c.entries)
      ensures n in BundleNames(NormBlobs(norm, cfg.bundles), c.pkg)
    {
      NormFind(norm, cfg.bundles, c.pkg, n);
    }
  }

  // ----- The graph of the canonical form -----

  ghost function TidyData(data: BundleData): BundleData {
    data.(properties := Ordered(PropertyKey, Elements(data.properties)))
  }

  ghost function TidyBundle(v: BundleVal): BundleVal {
    v.(data := TidyData(v.data), deprecation := None)
  }

  ghost function TidyChannel(v: ChannelVal): ChannelVal {
    ChannelVal(v.info.(deprecation := None), map n | n in v.bundles :: TidyBundle(v.bundles[n]))
  }

  ghost function TidyPackage(v: PackageVal): PackageVal {
    PackageVal(v.info.(deprecation := None), v.defaultChannel, map k | k in v.channels :: TidyChannel(v.channels[k]))
  }

  /** The graph with the properties of bundles deduplicated and sorted, and without deprecations. */
  ghost function TidyModel(v: ModelVal): ModelVal {
    map n | n in v :: TidyPackage(v[n])
  }

  ghost predicate Tidies(view: View, view': View) {
    && (forall pkg, name :: view'.data(pkg, name) == TidyData(view.data(pkg, name)))
    && forall pkg, target :: view'.note(pkg, target) == None
  }

  lemma TidyFind(bundles: seq<Bundle>, pkg: string, name: string)
    requires DistinctKeys(BundleKey, bundles)
    ensures var blob := FindBundle(bundles, pkg, name);
            FindBundle(Ordered(BundleKey, CanonBundles(bundles)), pkg, name)
              == if blob.Some? then Some(CanonBundle(blob.value)) else None
  {
    var out := Ordered(BundleKey, CanonBundles(bundles));
    var blob := FindBundle(bundles, pkg, name);
    FoundSomeBundle(bundles, pkg, name);
    FoundSomeBundle(out, pkg, name);
    CanonBundleNames(bundles, pkg);
    if blob.Some? {
      OrderedElements(BundleKey, CanonBundles(bundles));
      assert CanonBundle(blob.value) in Elements(out);
      CanonBundlesDistinct(bundles);
      FoundBundle(out, CanonBundle(blob.value));
    }
  }

  lemma ViewTidies(lib: Lib, cfg: Config)
    requires BundlesFine(lib, cfg.packages, cfg.channels, cfg.bundles)
    ensures Tidies(ViewOf(lib, cfg.bundles, cfg.deprecations),
                   ViewOf(lib, Ordered(BundleKey, CanonBundles(cfg.bundles)), []))
  {
    var out := Ordered(BundleKey, CanonBundles(cfg.bundles));
    forall pkg, name
      ensures DataAt(lib, out, pkg, name) == TidyData(DataAt(lib, cfg.bundles, pkg, name))
    {
      TidyFind(cfg.bundles, pkg, name);
      var blob := FindBundle(cfg.bundles, pkg, name);
      if blob.Some? {
        assert BundleFine(lib, cfg.packages, cfg.channels, blob.value);
        VersionedExactly(lib, blob.value);
        VersionAgain(lib, blob.value);
      } else {
        EmptyOrdered(PropertyKey);
        assert Elements<Property>([]) == {};
      }
    }
  }

  lemma EntriesTidied(c: Channel)
    requires DistinctKeys(EntryKey, c.entries)
    ensures EntryNames(CanonChannel(c).entries) == EntryNames(c.entries)
    ensures forall n :: n in EntryNames(c.entries) ==> FindEntry(CanonChannel(c).entries, n) == FindEntry(c.entries, n)
  {
    var out := CanonChannel(c).entries;
    OrderedElements(EntryKey, Elements(c.entries));
    DistinctOrdered(EntryKey, c.entries);
    EntryNamesAre(c.entries);
    EntryNamesAre(out);
    assert forall e :: e in c.entries <==> e in Elements(out);
    forall n | n in EntryNames(c.entries)
      ensures FindEntry(out, n) == FindEntry(c.entries, n)
    {
      var e := FindEntry(c.entries, n).value;
      assert e in Elements(out);
      FoundEntry(out, e);
    }
  }

  lemma ChannelTidied(view: View, view': View, c: Channel)
    requires Tidies(view, view') && DistinctKeys(EntryKey, c.entries)
    ensures ChannelAt(view', CanonChannel(c)) == TidyChannel(ChannelAt(view, c))
  {
    EntriesTidied(c);
    var v, w := ChannelAt(view, c), ChannelAt(view', CanonChannel(c));
    forall n | n in EntryNames(c.entries)
      ensures w.bundles[n] == TidyBundle(v.bundles[n])
    {
    }
    assert w.bundles == TidyChannel(v).bundles;
  }

  /** The channel that a package of the canonical form has under a name. */
  lemma ChannelFoundAgain(packages: seq<Package>, channels: seq<Channel>, x: Channel)
    requires DistinctKeys(PackageKey, packages) && ChannelsFine(packages, channels)
             && x in CanonChannels(packages, channels)
    ensures FindChannel(Ordered(ChannelKey, CanonChannels(packages, channels)), x.pkg, x.name) == Some(x)
  {
    var out := Ordered(ChannelKey, CanonChannels(packages, channels));
    ChannelsAgain(packages, channels);
    OrderedElements(ChannelKey, CanonChannels(packages, channels));
    assert x in Elements(out);
    FoundChannel(out, x);
  }

  lemma ChannelUnderTidied(view: View, view': View, packages: seq<Package>, channels: seq<Channel>, p: Package,
                           k: string)
    requires Tidies(view, view') && PackagesDistinct(packages, p) && ChannelsFine(packages, channels)
    requires k in ChannelNamesAt(channels, PackageNames(packages), p)
    ensures ChannelUnder(view', Ordered(ChannelKey, CanonChannels(packages, channels)), p.name, k)
         == TidyChannel(ChannelUnder(view, channels, p.name, k))
    ensures k in ChannelNames(Ordered(ChannelKey, CanonChannels(packages, channels)), p.name)
  {
    var listed := FindChannel(channels, p.name, k);
    if listed.Some? {
      ChannelTidied(view, view', listed.value);
      ChannelFoundAgain(packages, channels, CanonChannel(listed.value));
    } else {
      assert LacksDefault(channels, p);
      ChannelFoundAgain(packages, channels, MissingDefault(p));
      assert ChannelAt(view', MissingDefault(p)).bundles == map[];
    }
  }

  /** The canonical form has the channels that the graph has. */
  lemma ChannelNamesTidied(packages: seq<Package>, channels: seq<Channel>, p: Package, k: string)
    requires PackagesDistinct(packages, p)
             && k in ChannelNames(Ordered(ChannelKey, CanonChannels(packages, channels)), p.name)
    ensures k in ChannelNamesAt(channels, PackageNames(packages), p)
  {
    var out := Ordered(ChannelKey, CanonChannels(packages, channels));
    OrderedElements(ChannelKey, CanonChannels(packages, channels));
    ChannelNamesAre(out, p.name);
    ChannelNamesAre(channels, p.name);
    var x :| x in out && x.pkg == p.name && x.name == k;
    assert x in Elements(out);
    if q :| q in packages && LacksDefault(channels, q) && x == MissingDefault(q) {
      assert MissingDefault(q).pkg == q.name;
      SameElement(PackageKey, packages, p, q);
      FoundPackage(packages, p);
    }
  }

  /** A package whose channels are found again and tidied. */
  lemma PackageTidiedBy(view: View, view': View, channels: seq<Channel>, out: seq<Channel>, defaulted: set<string>,
                        p: Package)
    requires Tidies(view, view') && p.name in defaulted
    requires forall k :: k in ChannelNames(out, p.name) <==> k in ChannelNamesAt(channels, defaulted, p)
    requires forall k :: k in ChannelNamesAt(channels, defaulted, p) ==>
               ChannelUnder(view', out, p.name, k) == TidyChannel(ChannelUnder(view, channels, p.name, k))
    ensures PackageAt(view', out, defaulted, CanonPackage(p)) == TidyPackage(PackageAt(view, channels, defaulted, p))
  {
    assert ChannelNamesAt(out, defaulted, CanonPackage(p)) == ChannelNamesAt(channels, defaulted, p);
  }

  lemma PackageTidied(view: View, view': View, packages: seq<Package>, channels: seq<Channel>, p: Package)
    requires Tidies(view, view') && PackagesDistinct(packages, p) && ChannelsFine(packages, channels)
    ensures PackageAt(view', Ordered(ChannelKey, CanonChannels(packages, channels)), PackageNames(packages),
                      CanonPackage(p))
         == TidyPackage(PackageAt(view, channels, PackageNames(packages), p))
  {
    var out := Ordered(ChannelKey, CanonChannels(packages, channels));
    var names := ChannelNamesAt(channels, PackageNames(packages), p);
    FoundPackage(packages, p);
    forall k
      ensures k in ChannelNames(out, p.name) <==> k in names
      ensures k in names ==> ChannelUnder(view', out, p.name, k) == TidyChannel(ChannelUnder(view, channels, p.name, k))
    {
      if k in names {
        ChannelUnderTidied(view, view', packages, channels, p, k);
      }
      if k in ChannelNames(out, p.name) {
        ChannelNamesTidied(packages, channels, p, k);
      }
    }
    PackageTidiedBy(view, view', channels, out, PackageNames(packages), p);
  }

  lemma PackageFoundAgain(packages: seq<Package>, n: string)
    requires DistinctKeys(PackageKey, packages) && n in PackageNames(packages)
    ensures FindPackage(Ordered(PackageKey, CanonPackages(packages)), n)
            == Some(CanonPackage(FindPackage(packages, n).value))
  {
    var out := Ordered(PackageKey, CanonPackages(packages));
    var p := FindPackage(packages, n).value;
    CanonPackagesDistinct(packages);
    OrderedElements(PackageKey, CanonPackages(packages));
    assert CanonPackage(p) in Elements(out);
    FoundPackage(out, CanonPackage(p));
  }

  lemma PackageOfModel(view: View, packages: seq<Package>, channels: seq<Channel>, defaulted: set<string>)
    ensures var v := ModelWith(view, packages, channels, defaulted);
            && v.Keys == PackageNames(packages)
            && forall n :: n in v ==> v[n] == PackageAt(view, channels, defaulted, FindPackage(packages, n).value)
  {
  }

  lemma TidyModelIs(v: ModelVal, w: ModelVal)
    requires w.Keys == v.Keys && forall n :: n in v ==> w[n] == TidyPackage(v[n])
    ensures w == TidyModel(v)
  {
  }

  /** The graph of the canonical form is the graph of the configuration, tidied. */
  lemma CanonicalModel(lib: Lib, cfg: Config)
    requires Fine(lib, cfg)
    ensures ModelOf(lib, Canonical(cfg)) == TidyModel(ModelOf(lib, cfg))
  {
    var out := Canonical(cfg);
    var v, w := ModelOf(lib, cfg), ModelOf(lib, out);
    ViewTidies(lib, cfg);
    CanonPackageNames(cfg.packages);
    PackageOfModel(ViewOf(lib, cfg.bundles, cfg.deprecations), cfg.packages, cfg.channels, PackageNames(cfg.packages));
    PackageOfModel(ViewOf(lib, out.bundles, []), out.packages, out.channels, PackageNames(out.packages));
    forall n | n in v
      ensures w[n] == TidyPackage(v[n])
    {
      PackageFoundAgain(cfg.packages, n);
      PackageTidied(ViewOf(lib, cfg.bundles, cfg.deprecations), ViewOf(lib, out.bundles, []), cfg.packages,
                    cfg.channels,
                    FindPackage(cfg.packages, n).value);
    }
    TidyModelIs(v, w);
  }

  // ----- Validity is kept -----

  lemma NormBundleValid(lib: Lib, norm: Norm, v: BundleVal)
    requires LawfulNorm(lib, norm) && ValidBundle(lib, v)
    ensures ValidBundle(lib, NormBundle(norm, v))
  {
    NormAllValid(lib, norm, v.data.properties);
    NormPackageProps(lib, norm, v.data.properties);
  }

  lemma TidyBundleValid(lib: Lib, v: BundleVal)
    requires ValidBundle(lib, v)
    ensures ValidBundle(lib, TidyBundle(v))
  {
    var properties := TidyData(v.data).properties;
    OrderedSorted(PropertyKey, Elements(v.data.properties));
    OrderedElements(PropertyKey, Elements(v.data.properties));
    forall i | 0 <= i < |properties|
      ensures lib.valid(properties[i])
    {
      assert properties[i] in Elements(properties);
    }
    PackagePropsAre(lib, v.data.properties);
    PackagePropsAre(lib, properties);
    SinglePackage(v.data.properties, properties);
  }

  /** `w` is `v` but for the properties of bundles, which are still valid, and for deprecations. */
  ghost predicate SameShape(lib: Lib, v: ChannelVal, w: ChannelVal) {
    && w.info.name == v.info.name && w.bundles.Keys == v.bundles.Keys
        && (MessageOk(v.info.deprecation) ==> MessageOk(w.info.deprecation))
    && forall n :: n in v.bundles ==>
         && w.bundles[n].entry == v.bundles[n].entry && w.bundles[n].data.version == v.bundles[n].data.version
         && (ValidBundle(lib, v.bundles[n]) ==> ValidBundle(lib, w.bundles[n]))
  }

  lemma SameShapeValid(lib: Lib, v: ChannelVal, w: ChannelVal)
    requires SameShape(lib, v, w) && ValidChannel(lib, v)
    ensures ValidChannel(lib, w)
  {
    assert GraphOf(w) == GraphOf(v);
    var n :| n in v.bundles;
    assert n in w.bundles;
  }

  ghost predicate SameShapes(lib: Lib, v: PackageVal, w: PackageVal) {
    && w.info.name == v.info.name && w.defaultChannel == v.defaultChannel && w.channels.Keys == v.channels.Keys
    && (MessageOk(v.info.deprecation) ==> MessageOk(w.info.deprecation))
    && forall k :: k in v.channels ==> SameShape(lib, v.channels[k], w.channels[k])
  }

  lemma SameShapesUnique(lib: Lib, show: Version -> string, v: PackageVal, w: PackageVal)
    requires SameShapes(lib, v, w) && UniqueVersions(show, v)
    ensures UniqueVersions(show, w)
  {
    forall written
      ensures WithVersion(show, w, w.channels.Keys, written) <= WithVersion(show, v, v.channels.Keys, written)
    {
      forall n | n in WithVersion(show, w, w.channels.Keys, written)
        ensures n in WithVersion(show, v, v.channels.Keys, written)
      {
        var k :| k in w.channels && n in w.channels[k].bundles
            && show(w.channels[k].bundles[n].data.version) == written;
        assert SameShape(lib, v.channels[k], w.channels[k]);
      }
    }
  }

  lemma SameShapesValid(lib: Lib, show: Version -> string, v: PackageVal, w: PackageVal)
    requires SameShapes(lib, v, w) && ValidPackage(lib, show, v)
    ensures ValidPackage(lib, show, w)
  {
    forall k | k in w.channels
      ensures ValidChannel(lib, w.channels[k])
    {
      SameShapeValid(lib, v.channels[k], w.channels[k]);
    }
    SameShapesUnique(lib, show, v, w);
    var k :| k in v.channels;
    assert k in w.channels;
  }

  lemma NormShape(lib: Lib, norm: Norm, v: ChannelVal)
    requires LawfulNorm(lib, norm)
    ensures SameShape(lib, v, NormChannel(norm, v))
  {
    forall n | n in v.bundles && ValidBundle(lib, v.bundles[n])
      ensures ValidBundle(lib, NormBundle(norm, v.bundles[n]))
    {
      NormBundleValid(lib, norm, v.bundles[n]);
    }
  }

  lemma NormValid(lib: Lib, show: Version -> string, norm: Norm, v: ModelVal)
    requires LawfulNorm(lib, norm) && ValidModel(lib, show, v)
    ensures ValidModel(lib, show, NormModel(norm, v))
  {
    forall n | n in v
      ensures ValidPackage(lib, show, NormPackage(norm, v[n]))
    {
      forall k | k in v[n].channels
        ensures SameShape(lib, v[n].channels[k], NormChannel(norm, v[n].channels[k]))
      {
        NormShape(lib, norm, v[n].channels[k]);
      }
      SameShapesValid(lib, show, v[n], NormPackage(norm, v[n]));
    }
  }

  lemma TidyShape(lib: Lib, v: ChannelVal)
    ensures SameShape(lib, v, TidyChannel(v))
  {
    forall n | n in v.bundles && ValidBundle(lib, v.bundles[n])
      ensures ValidBundle(lib, TidyBundle(v.bundles[n]))
    {
      TidyBundleValid(lib, v.bundles[n]);
    }
  }

  lemma TidyValid(lib: Lib, show: Version -> string, v: ModelVal)
    requires ValidModel(lib, show, v)
    ensures ValidModel(lib, show, TidyModel(v))
  {
    forall n | n in v
      ensures ValidPackage(lib, show, TidyPackage(v[n]))
    {
      forall k | k in v[n].channels
        ensures SameShape(lib, v[n].channels[k], TidyChannel(v[n].channels[k]))
      {
        TidyShape(lib, v[n].channels[k]);
      }
      SameShapesValid(lib, show, v[n], TidyPackage(v[n]));
    }
  }

  // ----- The round trip of the whole conversion -----

  /** No channel was made up: the canonical form has the channels of the configuration. */
  lemma NothingMadeUp(lib: Lib, show: Version -> string, cfg: Config)
    requires Converts(lib, show, cfg)
    ensures CanonChannels(cfg.packages, cfg.channels) == set c | c in cfg.channels :: CanonChannel(c)
  {
    forall p | p in cfg.packages
      ensures !LacksDefault(cfg.channels, p)
    {
      ValidHasDefaults(lib, show, cfg, p);
    }
  }

  /** The canonical form of a normalized configuration is normalized. */
  lemma CanonicalIsNormal(lib: Lib, norm: Norm, cfg: Config)
    requires LawfulNorm(lib, norm)
    ensures NormConfig(norm, Canonical(NormConfig(norm, cfg))) == Canonical(NormConfig(norm, cfg))
  {
    var normal := NormConfig(norm, cfg);
    var out := Canonical(normal);
    OrderedElements(BundleKey, CanonBundles(normal.bundles));
    forall i | 0 <= i < |out.bundles|
      ensures NormBlob(norm, out.bundles[i]) == out.bundles[i]
    {
      assert out.bundles[i] in Elements(out.bundles);
      var b :| b in normal.bundles && out.bundles[i] == CanonBundle(b);
      var j :| 0 <= j < |cfg.bundles| && b == NormBlob(norm, cfg.bundles[j]);
      NormalSorted(lib, norm, cfg.bundles[j].properties);
    }
  }

  lemma NormalSorted(lib: Lib, norm: Norm, properties: seq<Property>)
    requires LawfulNorm(lib, norm)
    ensures var sorted := Ordered(PropertyKey, Elements(NormProperties(norm, properties)));
            NormProperties(norm, sorted) == sorted
  {
    var normal := NormProperties(norm, properties);
    var sorted := Ordered(PropertyKey, Elements(normal));
    OrderedElements(PropertyKey, Elements(normal));
    forall i | 0 <= i < |sorted|
      ensures norm(sorted[i]) == sorted[i]
    {
      assert sorted[i] in Elements(sorted);
      var j :| 0 <= j < |normal| && normal[j] == sorted[i];
      assert normal[j] == norm(properties[j]);
    }
  }

  /** Everything that the whole conversion accepts makes the round trip: flattening the validated and normalized
      graph, in whatever order, gives the canonical form of the normalized configuration, with no channel or blob
      made up. That is accepted again, and the next round trip changes nothing. */
  lemma WholeRoundTrips(lib: Lib, show: Version -> string, norm: Norm, cfg: Config, visit: Visit)
    requires LawfulNorm(lib, norm) && Converts(lib, show, cfg) && IsVisit(ModelOf(lib, NormConfig(norm, cfg)), visit)
    ensures var out := Flat(ModelOf(lib, NormConfig(norm, cfg)), visit);
            && out == Canonical(NormConfig(norm, cfg))
            && out.channels == Ordered(ChannelKey, set c | c in cfg.channels :: CanonChannel(c))
            && Converts(lib, show, out) && NormConfig(norm, out) == out
            && (forall again :: IsVisit(ModelOf(lib, out), again) ==> Flat(ModelOf(lib, out), again) == out)
  {
    var normal := NormConfig(norm, cfg);
    AcceptedExactly(lib, cfg);
    ValidIsBacked(lib, show, cfg);
    NothingMadeUp(lib, show, cfg);
    NormFine(lib, norm, cfg);
    ThereAndBack(lib, normal, visit);
    CanonicalConverts(lib, show, norm, cfg);
    CanonicalIsNormal(lib, norm, cfg);
    CanonicalIdempotent(normal);
    forall again | IsVisit(ModelOf(lib, Canonical(normal)), again)
      ensures Flat(ModelOf(lib, Canonical(normal)), again) == Canonical(normal)
    {
      AcceptedExactly(lib, Canonical(normal));
      ThereAndBack(lib, Canonical(normal), again);
    }
  }

  lemma CanonicalConverts(lib: Lib, show: Version -> string, norm: Norm, cfg: Config)
    requires LawfulNorm(lib, norm) && Converts(lib, show, cfg)
    ensures Converts(lib, show, Canonical(NormConfig(norm, cfg))) && Backed(Canonical(NormConfig(norm, cfg)))
  {
    var normal := NormConfig(norm, cfg);
    AcceptedExactly(lib, cfg);
    ValidIsBacked(lib, show, cfg);
    NormFine(lib, norm, cfg);
    CanonicalAccepted(lib, normal);
    ModelNormalized(lib, norm, cfg);
    NormValid(lib, show, norm, ModelOf(lib, cfg));
    CanonicalModel(lib, normal);
    TidyValid(lib, show, ModelOf(lib, normal));
  }

  // ----- A configuration that converts -----

  /** One package with one channel, one entry and its blob. */
  function SimpleConfig(): Config {
    Config([Package(SCHEMA_PACKAGE, "p", "b", None, "", [])],
           [Channel(SCHEMA_CHANNEL, "b", "p", [ChannelEntry("y", "", [], "")], [])],
           [Bundle(SCHEMA_BUNDLE, "y", "p", "i", [Property(TYPE_PACKAGE, "v")], [], "", [])], [], [])
  }

  lemma SimpleNames()
    ensures var cfg := SimpleConfig();
            && PackageNames(cfg.packages) == {"p"} && EntryNames(cfg.channels[0].entries) == {"y"}
            && ChannelNames(cfg.channels, "p") == {"b"} && BundleNames(cfg.bundles, "p") == {"y"}
  {
    var cfg := SimpleConfig();
    PackageNamesAre(cfg.packages);
    ChannelNamesAre(cfg.channels, "p");
    EntryNamesAre(cfg.channels[0].entries);
    BundleNamesAre(cfg.bundles, "p");
    assert cfg.packages[0].name == "p" && cfg.channels[0].pkg == "p" && cfg.channels[0].name == "b";
    assert cfg.bundles[0].name == "y" && cfg.bundles[0].pkg == "p";
  }

  lemma SimpleAccepted()
    ensures Accepted(UnbackedLib(), SimpleConfig())
  {
    var cfg := SimpleConfig();
    SimpleNames();
    assert PackageProps(UnbackedLib(), cfg.bundles[0].properties) == [PackageProp("p", "0.0.0")];
    assert BundleVersion(UnbackedLib(), cfg.bundles[0]) == Ok(ZERO);
    VersionedExactly(UnbackedLib(), cfg.bundles[0]);
    assert Listed(cfg.channels, "p", "y") by {
      assert cfg.channels[0].pkg == "p" && "y" in EntryNames(cfg.channels[0].entries);
    }
    BackedIsEnough(cfg);
    AcceptedExactly(UnbackedLib(), cfg);
  }

  lemma SimpleChain()
    ensures ValidChain(map["y" := ChannelEntry("y", "", [], "")])
  {
    var g := map["y" := ChannelEntry("y", "", [], "")];
    assert Heads(g) == {"y"};
    var walk := ["y", ""];
    assert Follow(g, "y", 0) == Some("y") && Follow(g, "y", 1) == Some("");
    assert IsWalk(g, "y", walk);
    WalkIsChain(g, "y", walk);
    assert StrandedFrom(g, "y") == {};
  }

  /** It is converted, so the results above are about something. */
  lemma SimpleConverts(show: Version -> string)
    ensures Converts(UnbackedLib(), show, SimpleConfig())
  {
    var lib, cfg := UnbackedLib(), SimpleConfig();
    SimpleAccepted();
    SimpleNames();
    SimpleChain();
    var v := ModelOf(lib, cfg);
    var p := cfg.packages[0];
    FoundPackage(cfg.packages, p);
    FoundChannel(cfg.channels, cfg.channels[0]);
    FoundEntry(cfg.channels[0].entries, cfg.channels[0].entries[0]);
    FoundBundle(cfg.bundles, cfg.bundles[0]);
    var c := v["p"].channels["b"];
    assert v["p"].channels.Keys == {"b"} && c.bundles.Keys == {"y"};
    assert c.bundles["y"].entry == cfg.channels[0].entries[0];
    assert GraphOf(c) == map["y" := ChannelEntry("y", "", [], "")];
    assert PackageProps(lib, cfg.bundles[0].properties) == [PackageProp("p", "0.0.0")];
    assert ValidBundle(lib, c.bundles["y"]);
    assert ValidChannel(lib, c);
    assert ValidPackage(lib, show, v["p"]);
  }
}
