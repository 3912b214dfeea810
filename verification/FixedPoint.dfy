/** The canonical form is accepted again and converts to itself. */
module FixedPoint {
  import opened Declcfg
  import opened Orders
  import opened Listing
  import opened Semver
  import opened Model
  import opened Flattening
  import opened Conversion
  import opened Acceptance
  import opened Criteria
  import opened RoundTrip

  // ----- Lists of the canonical parts -----

  lemma OrderedElements<T(!new)>(key: T -> Key, elements: set<T>)
    ensures Elements(Ordered(key, elements)) == elements
  {
    OrderedSorted(key, elements);
    forall x
      ensures x in Ordered(key, elements) <==> x in elements
    {
      InMultiset(Ordered(key, elements), elements, x);
    }
  }

  lemma DistinctOrdered<T(!new)>(key: T -> Key, s: seq<T>)
    requires DistinctKeys(key, s)
    ensures DistinctKeys(key, Ordered(key, Elements(s)))
  {
    forall x, y | x in Elements(s) && y in Elements(s) && key(x) == key(y)
      ensures x == y
    {
      SameElement(key, s, x, y);
    }
    OrderedCollects(key, Elements(s));
  }

  lemma CanonPackagesDistinct(packages: seq<Package>)
    requires DistinctKeys(PackageKey, packages)
    ensures DistinctKeys(PackageKey, Ordered(PackageKey, CanonPackages(packages)))
  {
    forall x, y | x in CanonPackages(packages) && y in CanonPackages(packages) && PackageKey(x) == PackageKey(y)
      ensures x == y
    {
      var p :| p in packages && x == CanonPackage(p);
      var q :| q in packages && y == CanonPackage(q);
      SameElement(PackageKey, packages, p, q);
    }
    OrderedCollects(PackageKey, CanonPackages(packages));
  }

  lemma CanonPackageNames(packages: seq<Package>)
    ensures PackageNames(Ordered(PackageKey, CanonPackages(packages))) == PackageNames(packages)
  {
    var out := Ordered(PackageKey, CanonPackages(packages));
    OrderedElements(PackageKey, CanonPackages(packages));
    PackageNamesAre(packages);
    PackageNamesAre(out);
    forall p | p in packages
      ensures p.name in PackageNames(out)
    {
      assert CanonPackage(p) in Elements(out);
    }
    forall q | q in out
      ensures q.name in PackageNames(packages)
    {
      assert q in Elements(out);
    }
  }

  lemma PackagesAgain(lib: Lib, packages: seq<Package>)
    requires PackagesFine(lib, packages)
    ensures PackagesFine(lib, Ordered(PackageKey, CanonPackages(packages)))
  {
    CanonPackagesDistinct(packages);
    OrderedElements(PackageKey, CanonPackages(packages));
    forall q | q in Ordered(PackageKey, CanonPackages(packages))
      ensures PackageFine(lib, q)
    {
      assert q in Elements(Ordered(PackageKey, CanonPackages(packages)));
    }
  }

  // ----- Channels -----

  lemma CanonChannelsInjective(packages: seq<Package>, channels: seq<Channel>, x: Channel, y: Channel)
    requires DistinctKeys(PackageKey, packages) && DistinctKeys(ChannelKey, channels)
    requires x in CanonChannels(packages, channels) && y in CanonChannels(packages, channels)
             && ChannelKey(x) == ChannelKey(y)
    ensures x == y
  {
    if c :| c in channels && x == CanonChannel(c) {
      ListedOnce(packages, channels, c, y);
    } else if c :| c in channels && y == CanonChannel(c) {
      ListedOnce(packages, channels, c, x);
    } else {
      var p :| p in packages && x == MissingDefault(p);
      var q :| q in packages && y == MissingDefault(q);
      MissingOnce(packages, p, q);
    }
  }

  lemma MissingOnce(packages: seq<Package>, p: Package, q: Package)
    requires DistinctKeys(PackageKey, packages) && p in packages && q in packages
    requires ChannelKey(MissingDefault(p)) == ChannelKey(MissingDefault(q))
    ensures p == q
  {
    assert MissingDefault(p).pkg == p.name && MissingDefault(q).pkg == q.name;
    SameElement(PackageKey, packages, p, q);
  }

  lemma ListedOnce(packages: seq<Package>, channels: seq<Channel>, c: Channel, y: Channel)
    requires DistinctKeys(ChannelKey, channels) && c in channels
    requires y in CanonChannels(packages, channels) && ChannelKey(y) == ChannelKey(c)
    ensures y == CanonChannel(c)
  {
    if d :| d in channels && y == CanonChannel(d) {
      SameElement(ChannelKey, channels, c, d);
    } else {
      var p :| p in packages && LacksDefault(channels, p) && y == MissingDefault(p);
      ChannelNamesAre(channels, p.name);
      assert false;
    }
  }

  lemma EmptyOrdered<T(!new)>(key: T -> Key)
    ensures Ordered(key, {}) == []
  {
  }

  /** What a canonical channel is like. */
  lemma CanonChannelIs(packages: seq<Package>, channels: seq<Channel>, x: Channel)
    requires ChannelsFine(packages, channels) && x in CanonChannels(packages, channels)
    ensures CanonChannel(x) == x && ChannelFine(packages, x)
    ensures x.entries == [] || exists c ::
                                 c in channels && x == CanonChannel(c) && EntryNames(x.entries) == EntryNames(c.entries)
  {
    if c :| c in channels && x == CanonChannel(c) {
      OrderedElements(EntryKey, Elements(c.entries));
      DistinctOrdered(EntryKey, c.entries);
      EntryNamesAre(c.entries);
      EntryNamesAre(x.entries);
      assert forall e :: e in c.entries <==> e in Elements(x.entries);
      assert EntryNames(x.entries) == EntryNames(c.entries);
    } else {
      var p :| p in packages && LacksDefault(channels, p) && x == MissingDefault(p);
      PackageNamesAre(packages);
      EmptyOrdered(EntryKey);
      assert Elements(x.entries) == {};
    }
  }

  lemma ChannelsAgain(packages: seq<Package>, channels: seq<Channel>)
    requires DistinctKeys(PackageKey, packages) && ChannelsFine(packages, channels)
    ensures ChannelsFine(Ordered(PackageKey, CanonPackages(packages)),
                         Ordered(ChannelKey, CanonChannels(packages, channels)))
  {
    var all := CanonChannels(packages, channels);
    forall x, y | x in all && y in all && ChannelKey(x) == ChannelKey(y)
      ensures x == y
    {
      CanonChannelsInjective(packages, channels, x, y);
    }
    OrderedCollects(ChannelKey, all);
    CanonPackageNames(packages);
    forall x | x in Ordered(ChannelKey, all)
      ensures ChannelFine(Ordered(PackageKey, CanonPackages(packages)), x)
    {
      CanonChannelIs(packages, channels, x);
    }
  }

  /** Every package has its default channel now. */
  lemma NoneLacking(packages: seq<Package>, channels: seq<Channel>, q: Package)
    requires q in CanonPackages(packages)
    ensures !LacksDefault(Ordered(ChannelKey, CanonChannels(packages, channels)), q)
  {
    var p :| p in packages && q == CanonPackage(p);
    var all := CanonChannels(packages, channels);
    var out := Ordered(ChannelKey, all);
    OrderedElements(ChannelKey, all);
    ChannelNamesAre(channels, p.name);
    ChannelNamesAre(out, p.name);
    if p.defaultChannel != "" {
      if p.defaultChannel in ChannelNames(channels, p.name) {
        var c :| c in channels && c.pkg == p.name && c.name == p.defaultChannel;
        assert CanonChannel(c) in Elements(out);
      } else {
        assert MissingDefault(p) in Elements(out);
      }
    }
  }

  lemma CanonChannelsAgain(packages: seq<Package>, channels: seq<Channel>)
    requires ChannelsFine(packages, channels)
    ensures CanonChannels(Ordered(PackageKey, CanonPackages(packages)),
                          Ordered(ChannelKey, CanonChannels(packages, channels)))
         == CanonChannels(packages, channels)
  {
    var all := CanonChannels(packages, channels);
    OrderedElements(ChannelKey, all);
    OrderedElements(PackageKey, CanonPackages(packages));
    forall x | x in all
      ensures CanonChannel(x) == x && x in Ordered(ChannelKey, all)
    {
      CanonChannelIs(packages, channels, x);
      assert x in Elements(Ordered(ChannelKey, all));
    }
    forall x | x in Ordered(ChannelKey, all)
      ensures x in all
    {
      assert x in Elements(Ordered(ChannelKey, all));
    }
    forall q | q in Ordered(PackageKey, CanonPackages(packages))
      ensures !LacksDefault(Ordered(ChannelKey, all), q)
    {
      assert q in Elements(Ordered(PackageKey, CanonPackages(packages)));
      NoneLacking(packages, channels, q);
    }
  }

  // ----- Bundles -----

  /** The `olm.package` properties. */
  function PackageOnly(properties: seq<Property>): seq<Property> {
    if |properties| == 0 then []
    else
      PackageOnly(properties[..|properties| - 1])
      + if properties[|properties| - 1].kind == TYPE_PACKAGE then [properties[|properties| - 1]] else []
  }

  lemma {:induction false} PackagePropsAre(lib: Lib, properties: seq<Property>)
    ensures |PackageProps(lib, properties)| == |PackageOnly(properties)|
    ensures forall i :: 0 <= i < |PackageOnly(properties)| ==>
              PackageProps(lib, properties)[i] == lib.packageProp(PackageOnly(properties)[i].value)
  {
    if |properties| != 0 {
      PackagePropsAre(lib, properties[..|properties| - 1]);
    }
  }

  lemma {:induction false} PackageOnlyCounts(properties: seq<Property>, p: Property)
    ensures multiset(PackageOnly(properties))[p] == if p.kind == TYPE_PACKAGE then multiset(properties)[p] else 0
  {
    if |properties| != 0 {
      var n := |properties| - 1;
      PackageOnlyCounts(properties[..n], p);
      assert properties == properties[..n] + [properties[n]];
    }
  }

  /** A list with the same elements, each once, has the same single `olm.package` property. */
  lemma SinglePackage(properties: seq<Property>, properties': seq<Property>)
    requires |PackageOnly(properties)| == 1 && multiset(properties') == multiset(Elements(properties))
    ensures PackageOnly(properties') == PackageOnly(properties)
  {
    var q := PackageOnly(properties)[0];
    assert PackageOnly(properties) == [q];
    forall p
      ensures multiset(PackageOnly(properties'))[p] == multiset([q])[p]
    {
      PackageOnlyCounts(properties, p);
      PackageOnlyCounts(properties', p);
      assert p in properties <==> p in multiset(properties);
    }
    assert multiset(PackageOnly(properties')) == multiset([q]);
    assert |PackageOnly(properties')| == |multiset(PackageOnly(properties'))| == 1;
    assert PackageOnly(properties')[0] in multiset([q]);
  }

  lemma VersionAgain(lib: Lib, b: Bundle)
    requires BundleVersion(lib, b).Ok?
    ensures BundleVersion(lib, CanonBundle(b)) == BundleVersion(lib, b)
  {
    var properties := CanonBundle(b).properties;
    OrderedSorted(PropertyKey, Elements(b.properties));
    OrderedElements(PropertyKey, Elements(b.properties));
    forall i | 0 <= i < |properties|
      ensures lib.valid(properties[i])
    {
      assert properties[i] in Elements(properties);
    }
    PackagePropsAre(lib, b.properties);
    PackagePropsAre(lib, properties);
    SinglePackage(b.properties, properties);
    assert PackageProps(lib, properties) == PackageProps(lib, b.properties);
  }

  lemma ListedAgain(packages: seq<Package>, channels: seq<Channel>, pkg: string, name: string)
    requires ChannelsFine(packages, channels) && Listed(channels, pkg, name)
    ensures Listed(Ordered(ChannelKey, CanonChannels(packages, channels)), pkg, name)
  {
    var out := Ordered(ChannelKey, CanonChannels(packages, channels));
    var i :| 0 <= i < |channels| && channels[i].pkg == pkg && name in EntryNames(channels[i].entries);
    var x := CanonChannel(channels[i]);
    OrderedElements(ChannelKey, CanonChannels(packages, channels));
    assert x in Elements(out);
    OrderedElements(EntryKey, Elements(channels[i].entries));
    EntryNamesAre(channels[i].entries);
    EntryNamesAre(x.entries);
    var e :| e in channels[i].entries && e.name == name;
    assert e in Elements(x.entries);
    var j :| 0 <= j < |out| && out[j] == x;
  }

  lemma CanonBundlesDistinct(bundles: seq<Bundle>)
    requires DistinctKeys(BundleKey, bundles)
    ensures DistinctKeys(BundleKey, Ordered(BundleKey, CanonBundles(bundles)))
  {
    forall x, y | x in CanonBundles(bundles) && y in CanonBundles(bundles) && BundleKey(x) == BundleKey(y)
      ensures x == y
    {
      var b :| b in bundles && x == CanonBundle(b);
      var c :| c in bundles && y == CanonBundle(c);
      SameElement(BundleKey, bundles, b, c);
    }
    OrderedCollects(BundleKey, CanonBundles(bundles));
  }

  lemma CanonBundleNames(bundles: seq<Bundle>, pkg: string)
    ensures BundleNames(Ordered(BundleKey, CanonBundles(bundles)), pkg) == BundleNames(bundles, pkg)
  {
    var out := Ordered(BundleKey, CanonBundles(bundles));
    OrderedElements(BundleKey, CanonBundles(bundles));
    BundleNamesAre(bundles, pkg);
    BundleNamesAre(out, pkg);
    forall b | b in bundles && b.pkg == pkg
      ensures b.name in BundleNames(out, pkg)
    {
      assert CanonBundle(b) in Elements(out);
    }
    forall q | q in out && q.pkg == pkg
      ensures q.name in BundleNames(bundles, pkg)
    {
      assert q in Elements(out);
    }
  }

  lemma BundlesAgain(lib: Lib, cfg: Config)
    requires ChannelsFine(cfg.packages, cfg.channels) && BundlesFine(lib, cfg.packages, cfg.channels, cfg.bundles)
    ensures BundlesFine(lib, Canonical(cfg).packages, Canonical(cfg).channels, Canonical(cfg).bundles)
  {
    CanonBundlesDistinct(cfg.bundles);
    CanonPackageNames(cfg.packages);
    OrderedElements(BundleKey, CanonBundles(cfg.bundles));
    forall x | x in Canonical(cfg).bundles
      ensures BundleFine(lib, Canonical(cfg).packages, Canonical(cfg).channels, x)
    {
      assert x in Elements(Canonical(cfg).bundles);
      var b :| b in cfg.bundles && x == CanonBundle(b);
      VersionedExactly(lib, b);
      VersionAgain(lib, b);
      VersionedExactly(lib, x);
      ListedAgain(cfg.packages, cfg.channels, b.pkg, b.name);
    }
  }

  lemma CanonBundleAgain(b: Bundle)
    ensures CanonBundle(CanonBundle(b)) == CanonBundle(b)
  {
    OrderedElements(PropertyKey, Elements(b.properties));
  }

  // ----- The whole configuration -----

  /** Making a configuration canonical once is enough. */
  lemma CanonicalIdempotent(cfg: Config)
    requires ChannelsFine(cfg.packages, cfg.channels)
    ensures Canonical(Canonical(cfg)) == Canonical(cfg)
  {
    var out := Canonical(cfg);
    OrderedElements(PackageKey, CanonPackages(cfg.packages));
    assert CanonPackages(out.packages) == CanonPackages(cfg.packages) by {
      assert forall q :: q in out.packages <==> q in Elements(out.packages);
    }
    CanonChannelsAgain(cfg.packages, cfg.channels);
    OrderedElements(BundleKey, CanonBundles(cfg.bundles));
    forall x | x in CanonBundles(cfg.bundles)
      ensures CanonBundle(x) == x
    {
      var b :| b in cfg.bundles && x == CanonBundle(b);
      CanonBundleAgain(b);
    }
    assert CanonBundles(out.bundles) == CanonBundles(cfg.bundles) by {
      assert forall x :: x in out.bundles <==> x in Elements(out.bundles);
    }
  }

  lemma BackedAgain(cfg: Config)
    requires ChannelsFine(cfg.packages, cfg.channels) && Backed(cfg)
    ensures Backed(Canonical(cfg))
  {
    var out := Canonical(cfg);
    OrderedElements(ChannelKey, CanonChannels(cfg.packages, cfg.channels));
    forall x, n | x in out.channels && n in EntryNames(x.entries)
      ensures n in BundleNames(out.bundles, x.pkg)
    {
      assert x in Elements(out.channels);
      CanonChannelIs(cfg.packages, cfg.channels, x);
      CanonBundleNames(cfg.bundles, x.pkg);
    }
  }

  lemma {:induction false} LastEntriesListed(channels: seq<Channel>, pkg: string, n: string) returns (c: Channel)
    requires n in LastEntries(channels, pkg)
    ensures c in channels && c.pkg == pkg && n in EntryNames(c.entries)
  {
    var last := channels[|channels| - 1];
    if last.pkg == pkg {
      c := last;
    } else {
      c := LastEntriesListed(channels[..|channels| - 1], pkg, n);
    }
  }

  lemma BackedIsEnough(cfg: Config)
    requires Backed(cfg)
    ensures !Unbacked(cfg.channels, cfg.bundles)
  {
    if Unbacked(cfg.channels, cfg.bundles) {
      var pkg :| LastEntries(cfg.channels, pkg) - BundleNames(cfg.bundles, pkg) != {};
      var n :| n in LastEntries(cfg.channels, pkg) - BundleNames(cfg.bundles, pkg);
      var c := LastEntriesListed(cfg.channels, pkg, n);
      assert false;
    }
  }

  lemma CanonicalAccepted(lib: Lib, cfg: Config)
    requires Fine(lib, cfg) && Backed(cfg)
    ensures Accepted(lib, Canonical(cfg)) && Backed(Canonical(cfg))
  {
    PackagesAgain(lib, cfg.packages);
    ChannelsAgain(cfg.packages, cfg.channels);
    BundlesAgain(lib, cfg);
    BackedAgain(cfg);
    BackedIsEnough(Canonical(cfg));
    AcceptedExactly(lib, Canonical(cfg));
  }

  // ----- Entries without a blob -----

  lemma EmptyBlobRejected(lib: Lib, cfg: Config, b: Bundle)
    requires b in cfg.bundles && b.properties == []
    ensures !Accepted(lib, cfg)
  {
    AcceptedExactly(lib, cfg);
    assert !exists v :: Declares(lib, b, v);
  }

  /** The empty blob that an entry without a blob is given is no blob of the configuration, and is rejected. */
  lemma UnbackedShows(lib: Lib, cfg: Config, visit: Visit, c: Channel, name: string)
    requires Fine(lib, cfg) && IsVisit(ModelOf(lib, cfg), visit)
    requires c in cfg.channels && name in EntryNames(c.entries) && name !in BundleNames(cfg.bundles, c.pkg)
    ensures !Accepted(lib, Flat(ModelOf(lib, cfg), visit)) && Flat(ModelOf(lib, cfg), visit) != Canonical(cfg)
  {
    var out := Flat(ModelOf(lib, cfg), visit);
    var b := Finished(BlobWith(c.pkg, name, NO_DATA));
    EmptyBlobThere(lib, cfg, visit, c, name);
    OrderedElements(BundleKey, AllBundles(ModelOf(lib, cfg), visit, ModelOf(lib, cfg).Keys));
    assert b in Elements(out.bundles);
    EmptyOrdered(PropertyKey);
    assert Elements<Property>([]) == {};
    EmptyBlobRejected(lib, out, b);
    if out.bundles == Canonical(cfg).bundles {
      OrderedElements(BundleKey, CanonBundles(cfg.bundles));
      var d :| d in cfg.bundles && b == CanonBundle(d);
      BundleNamesAre(cfg.bundles, c.pkg);
      assert false;
    }
  }

  // ----- The round trip -----

  /** Converting an accepted configuration and flattening the graph, in whatever order it is visited, gives the
      canonical form of the configuration exactly when every channel entry has a bundle blob. Exactly then the
      result is accepted again, and converting it once more, in whatever order, changes nothing. */
  lemma RoundTrips(lib: Lib, cfg: Config, visit: Visit)
    requires Accepted(lib, cfg) && IsVisit(ModelOf(lib, cfg), visit)
    ensures var out := Flat(ModelOf(lib, cfg), visit);
            && (Backed(cfg) <==> out == Canonical(cfg))
            && (Backed(cfg) <==> Accepted(lib, out))
            && (Backed(cfg) ==> forall again :: IsVisit(ModelOf(lib, out), again) ==>
                                  Flat(ModelOf(lib, out), again) == out)
  {
    AcceptedExactly(lib, cfg);
    var out := Flat(ModelOf(lib, cfg), visit);
    if Backed(cfg) {
      ThereAndBack(lib, cfg, visit);
      CanonicalAccepted(lib, cfg);
      AcceptedExactly(lib, out);
      CanonicalIdempotent(cfg);
      forall again | IsVisit(ModelOf(lib, out), again)
        ensures Flat(ModelOf(lib, out), again) == out
      {
        ThereAndBack(lib, out, again);
      }
    } else {
      var c, name :| c in cfg.channels && name in EntryNames(c.entries) && name !in BundleNames(cfg.bundles, c.pkg);
      UnbackedShows(lib, cfg, visit, c, name);
    }
  }

  // ----- An entry that is not looked at -----

  /** A package with two channels; the entry of the first has no blob. */
  function UnbackedConfig(): Config {
    Config([Package(SCHEMA_PACKAGE, "p", "a", None, "", [])],
           [Channel(SCHEMA_CHANNEL, "a", "p", [ChannelEntry("x", "", [], "")], []),
            Channel(SCHEMA_CHANNEL, "b", "p", [ChannelEntry("y", "", [], "")], [])],
           [Bundle(SCHEMA_BUNDLE, "y", "p", "i", [Property(TYPE_PACKAGE, "v")], [], "", [])], [], [])
  }

  function UnbackedLib(): Lib {
    Lib(_ => true, _ => true, _ => PackageProp("p", "0.0.0"), _ => Some(ZERO))
  }

  lemma UnbackedNames()
    ensures var cfg := UnbackedConfig();
            && PackageNames(cfg.packages) == {"p"}
            && EntryNames(cfg.channels[0].entries) == {"x"} && EntryNames(cfg.channels[1].entries) == {"y"}
            && LastEntries(cfg.channels, "p") == {"y"} && BundleNames(cfg.bundles, "p") == {"y"}
  {
    var cfg := UnbackedConfig();
    PackageNamesAre(cfg.packages);
    EntryNamesAre(cfg.channels[0].entries);
    EntryNamesAre(cfg.channels[1].entries);
    BundleNamesAre(cfg.bundles, "p");
    assert cfg.packages[0].name == "p" && cfg.bundles[0].name == "y" && cfg.bundles[0].pkg == "p";
  }

  lemma UnbackedFine()
    ensures Fine(UnbackedLib(), UnbackedConfig())
  {
    var cfg := UnbackedConfig();
    UnbackedNames();
    assert PackageProps(UnbackedLib(), cfg.bundles[0].properties) == [PackageProp("p", "0.0.0")];
    assert BundleVersion(UnbackedLib(), cfg.bundles[0]) == Ok(ZERO);
    VersionedExactly(UnbackedLib(), cfg.bundles[0]);
    assert Listed(cfg.channels, "p", "y") by {
      assert cfg.channels[1].pkg == "p" && "y" in EntryNames(cfg.channels[1].entries);
    }
  }

  lemma UnbackedAccepted()
    ensures Accepted(UnbackedLib(), UnbackedConfig())
  {
    var cfg := UnbackedConfig();
    UnbackedFine();
    forall pkg
      ensures LastEntries(cfg.channels, pkg) - BundleNames(cfg.bundles, pkg) == {}
    {
      UnbackedNames();
      forall n | n in LastEntries(cfg.channels, pkg)
        ensures pkg == "p"
      {
        var c := LastEntriesListed(cfg.channels, pkg, n);
      }
    }
    AcceptedExactly(UnbackedLib(), cfg);
  }

  /** The configuration is accepted, but does not survive the round trip. */
  lemma UnbackedExample(visit: Visit)
    requires IsVisit(ModelOf(UnbackedLib(), UnbackedConfig()), visit)
    ensures Accepted(UnbackedLib(), UnbackedConfig())
            && !Accepted(UnbackedLib(), Flat(ModelOf(UnbackedLib(), UnbackedConfig()), visit))
  {
    UnbackedAccepted();
    UnbackedFine();
    UnbackedNames();
    UnbackedShows(UnbackedLib(), UnbackedConfig(), visit, UnbackedConfig().channels[0], "x");
  }
}
