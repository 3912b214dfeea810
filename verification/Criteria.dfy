/** The accepted configurations without reference to the order in which conversion looks at things. */
module Criteria {
  import opened Declcfg
  import opened Orders
  import opened Model
  import opened Flattening
  import opened Conversion
  import opened Acceptance

  // ----- Names -----

  lemma {:induction false} PackageNamesAre(packages: seq<Package>)
    ensures PackageNames(packages) == set p | p in packages :: p.name
  {
    if |packages| != 0 {
      var n := |packages| - 1;
      PackageNamesAre(packages[..n]);
      assert packages == packages[..n] + [packages[n]];
    }
  }

  lemma {:induction false} ChannelNamesAre(channels: seq<Channel>, pkg: string)
    ensures ChannelNames(channels, pkg) == set c | c in channels && c.pkg == pkg :: c.name
  {
    if |channels| != 0 {
      var n := |channels| - 1;
      ChannelNamesAre(channels[..n], pkg);
      assert channels == channels[..n] + [channels[n]];
    }
  }

  lemma {:induction false} EntryNamesAre(entries: seq<ChannelEntry>)
    ensures EntryNames(entries) == set e | e in entries :: e.name
    ensures EntriesVal(entries).Keys == EntryNames(entries)
  {
    if |entries| != 0 {
      var n := |entries| - 1;
      EntryNamesAre(entries[..n]);
      assert entries == entries[..n] + [entries[n]];
    }
  }

  lemma {:induction false} BundleNamesAre(bundles: seq<Bundle>, pkg: string)
    ensures BundleNames(bundles, pkg) == set b | b in bundles && b.pkg == pkg :: b.name
  {
    if |bundles| != 0 {
      var n := |bundles| - 1;
      BundleNamesAre(bundles[..n], pkg);
      assert bundles == bundles[..n] + [bundles[n]];
    }
  }

  // ----- Repeated names -----

  ghost predicate Repeats<T>(key: T -> Key, s: seq<T>, i: nat)
    requires i < |s|
  {
    exists j :: 0 <= j < i && key(s[j]) == key(s[i])
  }

  lemma PackageRepeats(packages: seq<Package>, i: nat)
    requires i < |packages|
    ensures packages[i].name in PackageNames(packages[..i]) <==> Repeats(PackageKey, packages, i)
  {
    PackageNamesAre(packages[..i]);
  }

  lemma ChannelRepeats(channels: seq<Channel>, i: nat)
    requires i < |channels|
    ensures channels[i].name in ChannelNames(channels[..i], channels[i].pkg) <==> Repeats(ChannelKey, channels, i)
  {
    ChannelNamesAre(channels[..i], channels[i].pkg);
  }

  lemma EntryRepeats(entries: seq<ChannelEntry>, i: nat)
    requires i < |entries|
    ensures entries[i].name in EntriesVal(entries[..i]) <==> Repeats(EntryKey, entries, i)
  {
    EntryNamesAre(entries[..i]);
  }

  lemma BundleRepeats(bundles: seq<Bundle>, i: nat)
    requires i < |bundles|
    ensures bundles[i].name in BundleNames(bundles[..i], bundles[i].pkg) <==> Repeats(BundleKey, bundles, i)
  {
    BundleNamesAre(bundles[..i], bundles[i].pkg);
  }

  lemma NoRepeats<T>(key: T -> Key, s: seq<T>)
    ensures DistinctKeys(key, s) <==> forall i: nat :: i < |s| ==> !Repeats(key, s, i)
  {
    forall i, j | 0 <= i < j < |s|
      ensures key(s[i]) == key(s[j]) ==> Repeats(key, s, j)
    {
    }
  }

  lemma DistinctEntriesAre(entries: seq<ChannelEntry>)
    ensures DistinctKeys(EntryKey, entries) <==> DistinctEntries(entries)
  {
    forall i: nat | i < |entries|
      ensures entries[i].name in EntriesVal(entries[..i]) <==> Repeats(EntryKey, entries, i)
    {
      EntryRepeats(entries, i);
    }
    NoRepeats(EntryKey, entries);
  }

  lemma DistinctChannelsAre(channels: seq<Channel>)
    ensures DistinctKeys(ChannelKey, channels) <==> DistinctChannels(channels)
  {
    forall i: nat | i < |channels|
      ensures channels[i].name in ChannelNames(channels[..i], channels[i].pkg) <==> Repeats(ChannelKey, channels, i)
    {
      ChannelRepeats(channels, i);
    }
    NoRepeats(ChannelKey, channels);
  }

  /** There is no error exactly when each element is fine by itself and no two have the same key. */
  lemma NoErrors<T(!new)>(key: T -> Key, s: seq<T>, fine: T -> bool, errors: nat -> Option<ConvertError>)
    requires forall i: nat :: i < |s| ==> (errors(i).None? <==> fine(s[i]) && !Repeats(key, s, i))
    ensures First(|s|, errors).None? <==> DistinctKeys(key, s) && forall x :: x in s ==> fine(x)
  {
    FirstNone(|s|, errors);
    NoRepeats(key, s);
    if forall x :: x in s ==> fine(x) {
      assert forall i: nat :: i < |s| ==> s[i] in s;
    }
  }

  // ----- The criteria -----

  ghost predicate PackageFine(lib: Lib, p: Package) {
    p.name != "" && lib.isLabel(p.name)
  }

  ghost predicate PackagesFine(lib: Lib, packages: seq<Package>) {
    DistinctKeys(PackageKey, packages) && forall p :: p in packages ==> PackageFine(lib, p)
  }

  lemma PackagesAccepted(lib: Lib, packages: seq<Package>)
    ensures First(|packages|, PackageErrors(lib, packages)).None? <==> PackagesFine(lib, packages)
  {
    forall i: nat | i < |packages|
      ensures PackageErrors(lib, packages)(i).None?
              <==> PackageFine(lib, packages[i]) && !Repeats(PackageKey, packages, i)
    {
      PackageRepeats(packages, i);
    }
    NoErrors(PackageKey, packages, p => PackageFine(lib, p), PackageErrors(lib, packages));
  }

  ghost predicate ChannelFine(packages: seq<Package>, c: Channel) {
    c.pkg in PackageNames(packages) && c.name != "" && DistinctKeys(EntryKey, c.entries)
  }

  ghost predicate ChannelsFine(packages: seq<Package>, channels: seq<Channel>) {
    DistinctKeys(ChannelKey, channels) && forall c :: c in channels ==> ChannelFine(packages, c)
  }

  lemma ChannelsAcceptedExactly(packages: seq<Package>, channels: seq<Channel>)
    ensures First(|channels|, ChannelErrors(packages, channels)).None? <==> ChannelsFine(packages, channels)
  {
    forall i: nat | i < |channels|
      ensures ChannelErrors(packages, channels)(i).None?
              <==> ChannelFine(packages, channels[i]) && !Repeats(ChannelKey, channels, i)
    {
      ChannelRepeats(channels, i);
      DistinctEntriesAre(channels[i].entries);
    }
    NoErrors(ChannelKey, channels, c => ChannelFine(packages, c), ChannelErrors(packages, channels));
  }

  lemma VersionedExactly(lib: Lib, b: Bundle)
    ensures (exists v :: Declares(lib, b, v)) <==> BundleVersion(lib, b).Ok?
  {
    BundleVersionExactly(lib, b);
    if BundleVersion(lib, b).Ok? {
      assert Declares(lib, b, BundleVersion(lib, b).value);
    }
  }

  ghost predicate BundleFine(lib: Lib, packages: seq<Package>, channels: seq<Channel>, b: Bundle) {
    && b.pkg != "" && b.pkg in PackageNames(packages)
    && (exists v :: Declares(lib, b, v)) && Listed(channels, b.pkg, b.name)
  }

  ghost predicate BundlesFine(lib: Lib, packages: seq<Package>, channels: seq<Channel>, bundles: seq<Bundle>) {
    DistinctKeys(BundleKey, bundles) && forall b :: b in bundles ==> BundleFine(lib, packages, channels, b)
  }

  lemma BundlesAcceptedExactly(lib: Lib, packages: seq<Package>, channels: seq<Channel>, bundles: seq<Bundle>)
    ensures First(|bundles|, BundleErrors(lib, packages, channels, bundles)).None?
            <==> BundlesFine(lib, packages, channels, bundles)
  {
    forall i: nat | i < |bundles|
      ensures BundleErrors(lib, packages, channels, bundles)(i).None?
              <==> BundleFine(lib, packages, channels, bundles[i]) && !Repeats(BundleKey, bundles, i)
    {
      BundleRepeats(bundles, i);
      VersionedExactly(lib, bundles[i]);
    }
    NoErrors(BundleKey, bundles, b => BundleFine(lib, packages, channels, b),
             BundleErrors(lib, packages, channels, bundles));
  }

  /** A configuration is accepted exactly when its packages, channels, bundles and deprecations are fine and the
      last channel of each package lists only bundles that have a blob. */
  lemma AcceptedExactly(lib: Lib, cfg: Config)
    ensures Accepted(lib, cfg) <==>
              && PackagesFine(lib, cfg.packages) && ChannelsFine(cfg.packages, cfg.channels)
              && BundlesFine(lib, cfg.packages, cfg.channels, cfg.bundles) && !Unbacked(cfg.channels, cfg.bundles)
              && DeprecationsFine(cfg)
  {
    PackagesAccepted(lib, cfg.packages);
    ChannelsAcceptedExactly(cfg.packages, cfg.channels);
    BundlesAcceptedExactly(lib, cfg.packages, cfg.channels, cfg.bundles);
    DeprecationsAccepted(cfg);
  }

  // ----- Deprecations -----

  lemma {:induction false} ReferencesAre(entries: seq<DeprecationEntry>)
    ensures References(entries) == set e | e in entries :: e.reference
  {
    if |entries| != 0 {
      var n := |entries| - 1;
      ReferencesAre(entries[..n]);
      assert entries == entries[..n] + [entries[n]];
    }
  }

  lemma {:induction false} DeprecatedPackagesAre(deprecations: seq<Deprecation>)
    ensures DeprecatedPackages(deprecations) == set d | d in deprecations :: d.pkg
  {
    if |deprecations| != 0 {
      var n := |deprecations| - 1;
      DeprecatedPackagesAre(deprecations[..n]);
      assert deprecations == deprecations[..n] + [deprecations[n]];
    }
  }

  /** The reference names a bundle that has a blob, a channel of the graph, or the package itself. */
  ghost predicate Known(bundles: set<string>, channels: set<string>, r: Reference) {
    || (r.schema == SCHEMA_BUNDLE && r.name in bundles)
    || (r.schema == SCHEMA_CHANNEL && r.name in channels)
    || r == Reference(SCHEMA_PACKAGE, "")
  }

  ghost predicate ReferencesFine(bundles: set<string>, channels: set<string>, entries: seq<DeprecationEntry>) {
    && (forall i, j :: 0 <= i < j < |entries| ==> entries[i].reference != entries[j].reference)
    && forall e :: e in entries ==> Known(bundles, channels, e.reference)
  }

  lemma ReferenceAccepted(bundles: set<string>, channels: set<string>, before: seq<DeprecationEntry>, r: Reference)
    ensures ReferenceProblem(bundles, channels, before, r).None?
            <==> Known(bundles, channels, r) && r !in References(before)
  {
  }

  lemma ReferencesAccepted(bundles: set<string>, channels: set<string>, entries: seq<DeprecationEntry>)
    ensures First(|entries|, ReferenceErrors(bundles, channels, entries)).None?
            <==> ReferencesFine(bundles, channels, entries)
  {
    FirstNone(|entries|, ReferenceErrors(bundles, channels, entries));
    forall i: nat | i < |entries|
      ensures ReferenceErrors(bundles, channels, entries)(i).None?
              <==> && Known(bundles, channels, entries[i].reference)
                   && !exists j :: 0 <= j < i && entries[j].reference == entries[i].reference
    {
      ReferenceAccepted(bundles, channels, entries[..i], entries[i].reference);
      ReferencesAre(entries[..i]);
    }
    assert (forall e :: e in entries ==> Known(bundles, channels, e.reference))
           <==> forall i :: 0 <= i < |entries| ==> Known(bundles, channels, entries[i].reference);
  }

  ghost predicate DeprecationFine(cfg: Config, d: Deprecation) {
    && d.pkg != "" && d.pkg in PackageNames(cfg.packages)
    && ReferencesFine(BundleNames(cfg.bundles, d.pkg),
                      ChannelNamesAt(cfg.channels, PackageNames(cfg.packages),
                                     FindPackage(cfg.packages, d.pkg).value), d.entries)
  }

  ghost predicate DeprecationsFine(cfg: Config) {
    && (forall i, j :: 0 <= i < j < |cfg.deprecations| ==> cfg.deprecations[i].pkg != cfg.deprecations[j].pkg)
    && forall d :: d in cfg.deprecations ==> DeprecationFine(cfg, d)
  }

  lemma DeprecationAccepted(cfg: Config, before: seq<Deprecation>, d: Deprecation)
    ensures DeprecationProblem(cfg.packages, cfg.channels, cfg.bundles, before, d).None?
            <==> DeprecationFine(cfg, d) && d.pkg !in DeprecatedPackages(before)
  {
    var p := FindPackage(cfg.packages, d.pkg);
    if p.Some? {
      ReferencesAccepted(BundleNames(cfg.bundles, d.pkg),
                         ChannelNamesAt(cfg.channels, PackageNames(cfg.packages), p.value), d.entries);
    }
  }

  lemma DeprecationsAccepted(cfg: Config)
    ensures First(|cfg.deprecations|,
                  DeprecationErrors(cfg.packages, cfg.channels, cfg.bundles, cfg.deprecations)).None?
            <==> DeprecationsFine(cfg)
  {
    var all := cfg.deprecations;
    var errors := DeprecationErrors(cfg.packages, cfg.channels, cfg.bundles, all);
    FirstNone(|all|, errors);
    forall i: nat | i < |all|
      ensures errors(i).None? <==> DeprecationFine(cfg, all[i]) && !exists j :: 0 <= j < i && all[j].pkg == all[i].pkg
    {
      DeprecationAccepted(cfg, all[..i], all[i]);
      DeprecatedPackagesAre(all[..i]);
    }
    assert (forall d :: d in all ==> DeprecationFine(cfg, d)) <==> forall i :: 0 <= i < |all| ==>
                                                                     DeprecationFine(cfg, all[i]);
  }
}
