/** What the errors of the conversion mean. */
module Refusals {
  import opened Declcfg
  import opened Orders
  import opened Model
  import opened Flattening
  import opened Conversion
  import opened Acceptance
  import opened Criteria

  /** The reported error is that of the first element that has one. */
  lemma {:induction false} FirstSome(n: nat, at: nat -> Option<ConvertError>) returns (i: nat)
    requires First(n, at).Some?
    ensures i < n && at(i) == First(n, at) && First(i, at).None?
  {
    if First(n - 1, at).Some? {
      i := FirstSome(n - 1, at);
    } else {
      i := n - 1;
    }
  }

  lemma {:induction false} FirstSame(n: nat, a: nat -> Option<ConvertError>, b: nat -> Option<ConvertError>)
    requires forall i: nat :: i < n ==> a(i) == b(i)
    ensures First(n, a) == First(n, b)
  {
    if n > 0 {
      FirstSame(n - 1, a, b);
    }
  }

  // ----- Packages -----

  ghost predicate PackageWrong(lib: Lib, packages: seq<Package>, i: nat, e: ConvertError)
    requires i < |packages|
  {
    match e
    case NoPackageName => packages[i].name == ""
    case DuplicatePackage => exists j :: 0 <= j < i && packages[j].name == packages[i].name
    case InvalidPackageName => !lib.isLabel(packages[i].name)
    case _ => false
  }

  lemma PackageRefused(lib: Lib, packages: seq<Package>) returns (i: nat)
    requires First(|packages|, PackageErrors(lib, packages)).Some?
    ensures i < |packages| && PackagesFine(lib, packages[..i])
    ensures PackageWrong(lib, packages, i, First(|packages|, PackageErrors(lib, packages)).value)
  {
    i := FirstSome(|packages|, PackageErrors(lib, packages));
    assert forall j: nat :: j < i ==> packages[..i][..j] == packages[..j];
    FirstSame(i, PackageErrors(lib, packages), PackageErrors(lib, packages[..i]));
    PackagesAccepted(lib, packages[..i]);
    PackageNamesAre(packages[..i]);
    if packages[i].name in PackageNames(packages[..i]) {
      var p :| p in packages[..i] && p.name == packages[i].name;
      var j :| 0 <= j < i && packages[..i][j] == p;
      assert packages[j].name == packages[i].name;
    }
  }

  // ----- Channels -----

  ghost predicate ChannelWrong(packages: seq<Package>, channels: seq<Channel>, i: nat, e: ConvertError)
    requires i < |channels|
  {
    var c := channels[i];
    match e
    case UnknownPackageForChannel => forall p :: p in packages ==> p.name != c.pkg
    case BadChannel(NoChannelName) => c.name == ""
    case BadChannel(DuplicateChannel) =>
      exists j :: 0 <= j < i && channels[j].pkg == c.pkg && channels[j].name == c.name
    case BadChannel(DuplicateEntryName) =>
      exists j, k :: 0 <= j < k < |c.entries| && c.entries[j].name == c.entries[k].name
    case _ => false
  }

  lemma ChannelRefused(packages: seq<Package>, channels: seq<Channel>) returns (i: nat)
    requires First(|channels|, ChannelErrors(packages, channels)).Some?
    ensures i < |channels| && ChannelsFine(packages, channels[..i])
    ensures ChannelWrong(packages, channels, i, First(|channels|, ChannelErrors(packages, channels)).value)
  {
    i := FirstSome(|channels|, ChannelErrors(packages, channels));
    assert forall j: nat :: j < i ==> channels[..i][..j] == channels[..j];
    FirstSame(i, ChannelErrors(packages, channels), ChannelErrors(packages, channels[..i]));
    ChannelsAcceptedExactly(packages, channels[..i]);
    ChannelMeans(packages, channels, i);
  }

  lemma ChannelMeans(packages: seq<Package>, channels: seq<Channel>, i: nat)
    requires i < |channels| && ChannelProblem(packages, channels[..i], channels[i]).Some?
    ensures ChannelWrong(packages, channels, i, ChannelProblem(packages, channels[..i], channels[i]).value)
  {
    PackageNamesAre(packages);
    ChannelNamesAre(channels[..i], channels[i].pkg);
    DistinctEntriesAre(channels[i].entries);
    if channels[i].name in ChannelNames(channels[..i], channels[i].pkg) {
      var c :| c in channels[..i] && c.pkg == channels[i].pkg && c.name == channels[i].name;
      var j :| 0 <= j < i && channels[..i][j] == c;
      assert channels[j].pkg == channels[i].pkg && channels[j].name == channels[i].name;
    }
  }

  // ----- Bundles -----

  ghost predicate BundleWrong(lib: Lib, packages: seq<Package>, channels: seq<Channel>, bundles: seq<Bundle>, i: nat,
                              e: ConvertError)
    requires i < |bundles|
  {
    var b := bundles[i];
    match e
    case BundleWithoutPackage => b.pkg == ""
    case UnknownPackageForBundle => forall p :: p in packages ==> p.name != b.pkg
    case DuplicateBundle => exists j :: 0 <= j < i && bundles[j].pkg == b.pkg && bundles[j].name == b.name
    case BundleNotInChannel =>
      forall c, entry :: c in channels && c.pkg == b.pkg && entry in c.entries ==> entry.name != b.name
    case _ => Faulty(lib, b, e)
  }

  lemma BundleRefused(lib: Lib, packages: seq<Package>, channels: seq<Channel>, bundles: seq<Bundle>) returns (i: nat)
    requires First(|bundles|, BundleErrors(lib, packages, channels, bundles)).Some?
    ensures i < |bundles| && BundlesFine(lib, packages, channels, bundles[..i])
    ensures BundleWrong(lib, packages, channels, bundles, i,
                        First(|bundles|, BundleErrors(lib, packages, channels, bundles)).value)
  {
    i := FirstSome(|bundles|, BundleErrors(lib, packages, channels, bundles));
    assert forall j: nat :: j < i ==> bundles[..i][..j] == bundles[..j];
    FirstSame(i, BundleErrors(lib, packages, channels, bundles), BundleErrors(lib, packages, channels, bundles[..i]));
    BundlesAcceptedExactly(lib, packages, channels, bundles[..i]);
    BundleMeans(lib, packages, channels, bundles, i);
  }

  lemma BundleMeans(lib: Lib, packages: seq<Package>, channels: seq<Channel>, bundles: seq<Bundle>, i: nat)
    requires i < |bundles| && BundleProblem(lib, packages, channels, bundles[..i], bundles[i]).Some?
    ensures BundleWrong(lib, packages, channels, bundles, i,
                        BundleProblem(lib, packages, channels, bundles[..i], bundles[i]).value)
  {
    var b := bundles[i];
    PackageNamesAre(packages);
    BundleNamesAre(bundles[..i], b.pkg);
    BundleVersionExactly(lib, b);
    if b.name in BundleNames(bundles[..i], b.pkg) {
      var c :| c in bundles[..i] && c.pkg == b.pkg && c.name == b.name;
      var j :| 0 <= j < i && bundles[..i][j] == c;
      assert bundles[j].pkg == b.pkg && bundles[j].name == b.name;
    }
    if !Listed(channels, b.pkg, b.name) {
      NotListed(channels, b.pkg, b.name);
    }
  }

  lemma NotListed(channels: seq<Channel>, pkg: string, name: string)
    requires !Listed(channels, pkg, name)
    ensures forall c, entry :: c in channels && c.pkg == pkg && entry in c.entries ==> entry.name != name
  {
    forall c, entry | c in channels && c.pkg == pkg && entry in c.entries
      ensures entry.name != name
    {
      EntryNamesAre(c.entries);
      var i :| 0 <= i < |channels| && channels[i] == c;
      assert entry.name in EntryNames(channels[i].entries);
    }
  }

  // ----- Entries without a bundle -----

  /** The last channel of some package has an entry that no bundle blob of the package is for. */
  ghost predicate EntryAlone(channels: seq<Channel>, bundles: seq<Bundle>, i: nat, k: nat) {
    && i < |channels| && LastOf(channels, channels[i].pkg, i) && k < |channels[i].entries|
    && forall b :: b in bundles && b.pkg == channels[i].pkg ==> b.name != channels[i].entries[k].name
  }

  lemma UnbackedExactly(channels: seq<Channel>, bundles: seq<Bundle>)
    ensures Unbacked(channels, bundles) <==> exists i: nat, k: nat :: EntryAlone(channels, bundles, i, k)
  {
    if Unbacked(channels, bundles) {
      var i, k := UnbackedAlone(channels, bundles);
    }
    if i: nat, k: nat :| EntryAlone(channels, bundles, i, k) {
      AloneUnbacked(channels, bundles, i, k);
    }
  }

  lemma UnbackedAlone(channels: seq<Channel>, bundles: seq<Bundle>) returns (i: nat, k: nat)
    requires Unbacked(channels, bundles)
    ensures EntryAlone(channels, bundles, i, k)
  {
    var pkg :| LastEntries(channels, pkg) - BundleNames(bundles, pkg) != {};
    var name :| name in LastEntries(channels, pkg) - BundleNames(bundles, pkg);
    LastEntriesExactly(channels, pkg);
    i :| LastOf(channels, pkg, i) && LastEntries(channels, pkg) == EntryNames(channels[i].entries);
    EntryNamesAre(channels[i].entries);
    BundleNamesAre(bundles, pkg);
    k :| k < |channels[i].entries| && channels[i].entries[k].name == name;
  }

  lemma AloneUnbacked(channels: seq<Channel>, bundles: seq<Bundle>, i: nat, k: nat)
    requires EntryAlone(channels, bundles, i, k)
    ensures Unbacked(channels, bundles)
  {
    var pkg := channels[i].pkg;
    LastEntriesExactly(channels, pkg);
    var j: nat :| LastOf(channels, pkg, j) && LastEntries(channels, pkg) == EntryNames(channels[j].entries);
    assert i == j;
    EntryNamesAre(channels[i].entries);
    BundleNamesAre(bundles, pkg);
    assert channels[i].entries[k].name in LastEntries(channels, pkg) - BundleNames(bundles, pkg);
  }

  // ----- Deprecations -----

  ghost predicate ReferenceWrong(bundles: set<string>, channels: set<string>, entries: seq<DeprecationEntry>, j: nat,
                                 e: ConvertError)
    requires j < |entries|
  {
    var r := entries[j].reference;
    match e
    case NoReferenceSchema => r.schema == ""
    case DuplicateReference => exists k :: 0 <= k < j && entries[k].reference == r
    case UnknownBundle => r.schema == "olm.bundle" && r.name !in bundles
    case UnknownChannel => r.schema == "olm.channel" && r.name !in channels
    case PackageReferenceName => r.schema == "olm.package" && r.name != ""
    case UnknownSchema => r.schema !in {"", "olm.package", "olm.channel", "olm.bundle"}
    case _ => false
  }

  /** The bundles of a package that have a blob. */
  ghost function BundlesThere(cfg: Config, pkg: string): set<string> {
    set b | b in cfg.bundles && b.pkg == pkg :: b.name
  }

  /** The channels that a package lists, and its default channel. */
  ghost function ChannelsThere(cfg: Config, p: Package): set<string> {
    (set c | c in cfg.channels && c.pkg == p.name :: c.name)
    + (if p.defaultChannel == "" then {} else {p.defaultChannel})
  }

  ghost predicate EntryWrong(cfg: Config, d: Deprecation, p: Package, j: nat, e: ConvertError) {
    && p in cfg.packages && p.name == d.pkg && j < |d.entries|
    && ReferenceWrong(BundlesThere(cfg, d.pkg), ChannelsThere(cfg, p), d.entries, j, e)
  }

  ghost predicate DeprecationWrong(cfg: Config, i: nat, e: ConvertError)
    requires i < |cfg.deprecations|
  {
    var d := cfg.deprecations[i];
    match e
    case DeprecationWithoutPackage => d.pkg == ""
    case UnknownPackageForDeprecation => forall p :: p in cfg.packages ==> p.name != d.pkg
    case DuplicateDeprecation => exists j :: 0 <= j < i && cfg.deprecations[j].pkg == d.pkg
    case _ => exists p, j: nat :: EntryWrong(cfg, d, p, j, e)
  }

  lemma ReferenceRefused(bundles: set<string>, channels: set<string>, entries: seq<DeprecationEntry>) returns (j: nat)
    requires First(|entries|, ReferenceErrors(bundles, channels, entries)).Some?
    ensures j < |entries|
    ensures ReferenceWrong(bundles, channels, entries, j,
                           First(|entries|, ReferenceErrors(bundles, channels, entries)).value)
  {
    j := FirstSome(|entries|, ReferenceErrors(bundles, channels, entries));
    ReferencesAre(entries[..j]);
  }

  lemma DeprecationMeans(cfg: Config, i: nat)
    requires i < |cfg.deprecations|
    requires DeprecationProblem(cfg.packages, cfg.channels, cfg.bundles, cfg.deprecations[..i],
                                cfg.deprecations[i]).Some?
    ensures DeprecationWrong(cfg, i, DeprecationProblem(cfg.packages, cfg.channels, cfg.bundles, cfg.deprecations[..i],
                                                        cfg.deprecations[i]).value)
  {
    var d := cfg.deprecations[i];
    PackageNamesAre(cfg.packages);
    DeprecatedPackagesAre(cfg.deprecations[..i]);
    var found := FindPackage(cfg.packages, d.pkg);
    if found.Some? && d.pkg !in DeprecatedPackages(cfg.deprecations[..i]) && d.pkg != "" {
      var p := found.value;
      AreThere(cfg, p);
      var j := ReferenceRefused(BundleNames(cfg.bundles, d.pkg),
                                ChannelNamesAt(cfg.channels, PackageNames(cfg.packages), p), d.entries);
      var e := DeprecationProblem(cfg.packages, cfg.channels, cfg.bundles, cfg.deprecations[..i], d).value;
      assert EntryWrong(cfg, d, p, j, e);
    }
  }

  lemma AreThere(cfg: Config, p: Package)
    requires p in cfg.packages
    ensures BundleNames(cfg.bundles, p.name) == BundlesThere(cfg, p.name)
    ensures ChannelNamesAt(cfg.channels, PackageNames(cfg.packages), p) == ChannelsThere(cfg, p)
  {
    PackageNamesAre(cfg.packages);
    BundleNamesAre(cfg.bundles, p.name);
    ChannelNamesAre(cfg.channels, p.name);
  }

  lemma DeprecationRefused(cfg: Config) returns (i: nat)
    requires First(|cfg.deprecations|,
                   DeprecationErrors(cfg.packages, cfg.channels, cfg.bundles, cfg.deprecations)).Some?
    ensures i < |cfg.deprecations| && DeprecationsFine(cfg.(deprecations := cfg.deprecations[..i]))
    ensures DeprecationWrong(cfg, i,
              First(|cfg.deprecations|,
                    DeprecationErrors(cfg.packages, cfg.channels, cfg.bundles, cfg.deprecations)).value)
  {
    var all := cfg.deprecations;
    var errors := DeprecationErrors(cfg.packages, cfg.channels, cfg.bundles, all);
    i := FirstSome(|all|, errors);
    assert forall j: nat :: j < i ==> all[..i][..j] == all[..j];
    FirstSame(i, errors, DeprecationErrors(cfg.packages, cfg.channels, cfg.bundles, all[..i]));
    DeprecationsAccepted(cfg.(deprecations := all[..i]));
    DeprecationMeans(cfg, i);
  }

  // ----- All -----

  ghost predicate RefusedPackage(lib: Lib, cfg: Config, e: ConvertError) {
    exists i: nat :: i < |cfg.packages| && PackagesFine(lib, cfg.packages[..i]) && PackageWrong(lib, cfg.packages, i, e)
  }

  ghost predicate RefusedChannel(cfg: Config, e: ConvertError) {
    exists i: nat :: i < |cfg.channels| && ChannelsFine(cfg.packages, cfg.channels[..i])
                     && ChannelWrong(cfg.packages, cfg.channels, i, e)
  }

  ghost predicate RefusedBundle(lib: Lib, cfg: Config, e: ConvertError) {
    exists i: nat :: i < |cfg.bundles| && BundlesFine(lib, cfg.packages, cfg.channels, cfg.bundles[..i])
                     && BundleWrong(lib, cfg.packages, cfg.channels, cfg.bundles, i, e)
  }

  ghost predicate RefusedDeprecation(cfg: Config, e: ConvertError) {
    exists i: nat :: i < |cfg.deprecations| && DeprecationsFine(cfg.(deprecations := cfg.deprecations[..i]))
                     && DeprecationWrong(cfg, i, e)
  }

  /** An error says what is wrong with the first package, channel, bundle or deprecation, in this order, with which
      something is wrong; that entries lack a blob is reported between the last two. */
  lemma RefusedFor(lib: Lib, cfg: Config)
    requires Outcome(lib, cfg).Some?
    ensures var e := Outcome(lib, cfg).value;
            if !PackagesFine(lib, cfg.packages) then RefusedPackage(lib, cfg, e)
            else if !ChannelsFine(cfg.packages, cfg.channels) then RefusedChannel(cfg, e)
            else if !BundlesFine(lib, cfg.packages, cfg.channels, cfg.bundles) then RefusedBundle(lib, cfg, e)
            else if exists i: nat, k: nat :: EntryAlone(cfg.channels, cfg.bundles, i, k) then e == EntriesWithoutBundle
            else RefusedDeprecation(cfg, e)
  {
    PackagesAccepted(lib, cfg.packages);
    ChannelsAcceptedExactly(cfg.packages, cfg.channels);
    BundlesAcceptedExactly(lib, cfg.packages, cfg.channels, cfg.bundles);
    UnbackedExactly(cfg.channels, cfg.bundles);
    if !PackagesFine(lib, cfg.packages) {
      var i := PackageRefused(lib, cfg.packages);
    } else if !ChannelsFine(cfg.packages, cfg.channels) {
      var i := ChannelRefused(cfg.packages, cfg.channels);
    } else if !BundlesFine(lib, cfg.packages, cfg.channels, cfg.bundles) {
      var i := BundleRefused(lib, cfg.packages, cfg.channels, cfg.bundles);
    } else if !Unbacked(cfg.channels, cfg.bundles) {
      var i := DeprecationRefused(cfg);
    }
  }
}
