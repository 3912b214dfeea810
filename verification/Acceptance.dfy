/** Which configurations convert to a package graph, and what is wrong with the others. */
module Acceptance {
  import opened Declcfg
  import opened Model
  import opened Conversion

  // ----- The first error -----

  ghost function First(n: nat, at: nat -> Option<ConvertError>): Option<ConvertError> {
    if n == 0 then None else Or(First(n - 1, at), at(n - 1))
  }

  function Or(first: Option<ConvertError>, next: Option<ConvertError>): Option<ConvertError> {
    if first.Some? then first else next
  }

  lemma {:induction false} FirstStays(n: nat, m: nat, at: nat -> Option<ConvertError>)
    requires n <= m && First(n, at).Some?
    ensures First(m, at) == First(n, at)
  {
    if n < m {
      FirstStays(n, m - 1, at);
    }
  }

  lemma {:induction false} FirstNone(n: nat, at: nat -> Option<ConvertError>)
    ensures First(n, at).None? <==> forall i: nat :: i < n ==> at(i).None?
  {
    if n > 0 {
      FirstNone(n - 1, at);
    }
  }

  // ----- The errors -----

  ghost function PackageProblem(lib: Lib, before: seq<Package>, p: Package): Option<ConvertError> {
    if p.name == "" then Some(NoPackageName)
    else if p.name in PackageNames(before) then Some(DuplicatePackage)
    else if !lib.isLabel(p.name) then Some(InvalidPackageName)
    else None
  }

  ghost function PackageErrors(lib: Lib, packages: seq<Package>): nat -> Option<ConvertError> {
    (i: nat) => if i < |packages| then PackageProblem(lib, packages[..i], packages[i]) else None
  }

  ghost function ChannelProblem(packages: seq<Package>, before: seq<Channel>, c: Channel): Option<ConvertError> {
    if c.pkg !in PackageNames(packages) then Some(UnknownPackageForChannel)
    else if c.name == "" then Some(BadChannel(NoChannelName))
    else if c.name in ChannelNames(before, c.pkg) then Some(BadChannel(DuplicateChannel))
    else if !DistinctEntries(c.entries) then Some(BadChannel(DuplicateEntryName))
    else None
  }

  ghost function ChannelErrors(packages: seq<Package>, channels: seq<Channel>): nat -> Option<ConvertError> {
    (i: nat) => if i < |channels| then ChannelProblem(packages, channels[..i], channels[i]) else None
  }

  function BundleNames(bundles: seq<Bundle>, pkg: string): set<string> {
    if |bundles| == 0 then {}
    else BundleNames(bundles[..|bundles| - 1], pkg)
         + if bundles[|bundles| - 1].pkg == pkg then {bundles[|bundles| - 1].name} else {}
  }

  /** Some channel of the package has an entry of that name. */
  ghost predicate Listed(channels: seq<Channel>, pkg: string, name: string) {
    exists i :: 0 <= i < |channels| && channels[i].pkg == pkg && name in EntryNames(channels[i].entries)
  }

  ghost function BundleProblem(lib: Lib, packages: seq<Package>, channels: seq<Channel>, before: seq<Bundle>,
                               b: Bundle): Option<ConvertError> {
    if b.pkg == "" then Some(BundleWithoutPackage)
    else if b.pkg !in PackageNames(packages) then Some(UnknownPackageForBundle)
    else if b.name in BundleNames(before, b.pkg) then Some(DuplicateBundle)
    else if BundleVersion(lib, b).Err? then Some(BundleVersion(lib, b).error)
    else if !Listed(channels, b.pkg, b.name) then Some(BundleNotInChannel)
    else None
  }

  ghost function BundleErrors(lib: Lib, packages: seq<Package>, channels: seq<Channel>,
                              bundles: seq<Bundle>): nat -> Option<ConvertError> {
    (i: nat) => if i < |bundles| then BundleProblem(lib, packages, channels, bundles[..i], bundles[i]) else None
  }

  /** The entries of the last channel that a package lists. */
  function LastEntries(channels: seq<Channel>, pkg: string): set<string> {
    if |channels| == 0 then {}
    else if channels[|channels| - 1].pkg == pkg then EntryNames(channels[|channels| - 1].entries)
    else LastEntries(channels[..|channels| - 1], pkg)
  }

  /** The `i`-th channel is of the package, and none after it is. */
  ghost predicate LastOf(channels: seq<Channel>, pkg: string, i: nat) {
    i < |channels| && channels[i].pkg == pkg && forall j :: i < j < |channels| ==> channels[j].pkg != pkg
  }

  /** They are the entries of the channel of the package that comes last in the catalog. */
  lemma {:induction false} LastEntriesExactly(channels: seq<Channel>, pkg: string)
    ensures if exists i: nat :: LastOf(channels, pkg, i)
            then exists i: nat ::
                   LastOf(channels, pkg, i) && LastEntries(channels, pkg) == EntryNames(channels[i].entries)
            else LastEntries(channels, pkg) == {}
  {
    if |channels| > 0 {
      var n := |channels| - 1;
      LastEntriesExactly(channels[..n], pkg);
      if channels[n].pkg == pkg {
        assert LastOf(channels, pkg, n);
      } else {
        forall i: nat
          ensures LastOf(channels, pkg, i) <==> LastOf(channels[..n], pkg, i)
        {
        }
      }
    }
  }

  /** Some entry of the last channel of some package has no blob. Entries of its other channels do not matter. */
  ghost predicate Unbacked(channels: seq<Channel>, bundles: seq<Bundle>) {
    exists pkg :: LastEntries(channels, pkg) - BundleNames(bundles, pkg) != {}
  }

  function References(entries: seq<DeprecationEntry>): set<Reference> {
    if |entries| == 0 then {} else References(entries[..|entries| - 1]) + {entries[|entries| - 1].reference}
  }

  /** `bundles` and `channels` are the names in the package. */
  function ReferenceProblem(bundles: set<string>, channels: set<string>, before: seq<DeprecationEntry>,
                            r: Reference): Option<ConvertError> {
    if r.schema == "" then Some(NoReferenceSchema)
    else if r in References(before) then Some(DuplicateReference)
    else if r.schema == SCHEMA_BUNDLE then (if r.name !in bundles then Some(UnknownBundle) else None)
    else if r.schema == SCHEMA_CHANNEL then (if r.name !in channels then Some(UnknownChannel) else None)
    else if r.schema == SCHEMA_PACKAGE then (if r.name != "" then Some(PackageReferenceName) else None)
    else Some(UnknownSchema)
  }

  ghost function ReferenceErrors(bundles: set<string>, channels: set<string>,
                                 entries: seq<DeprecationEntry>): nat -> Option<ConvertError> {
    (j: nat) => if j < |entries| then ReferenceProblem(bundles, channels, entries[..j], entries[j].reference) else None
  }

  ghost function DeprecationProblem(packages: seq<Package>, channels: seq<Channel>, bundles: seq<Bundle>,
                                    before: seq<Deprecation>, d: Deprecation): Option<ConvertError> {
    if d.pkg == "" then Some(DeprecationWithoutPackage)
    else
      var p := FindPackage(packages, d.pkg);
      if p.None? then Some(UnknownPackageForDeprecation)
      else if d.pkg in DeprecatedPackages(before) then Some(DuplicateDeprecation)
      else First(|d.entries|,
                 ReferenceErrors(BundleNames(bundles, d.pkg),
                                 ChannelNamesAt(channels, PackageNames(packages), p.value), d.entries))
  }

  ghost function DeprecationErrors(packages: seq<Package>, channels: seq<Channel>, bundles: seq<Bundle>,
                                   deprecations: seq<Deprecation>): nat -> Option<ConvertError> {
    (i: nat) => if i < |deprecations|
                then DeprecationProblem(packages, channels, bundles, deprecations[..i], deprecations[i]) else None
  }

  /** What is wrong with a configuration: the first error in the order in which conversion looks. */
  ghost function Outcome(lib: Lib, cfg: Config): Option<ConvertError> {
    Or(First(|cfg.packages|, PackageErrors(lib, cfg.packages)),
    Or(First(|cfg.channels|, ChannelErrors(cfg.packages, cfg.channels)),
    Or(First(|cfg.bundles|, BundleErrors(lib, cfg.packages, cfg.channels, cfg.bundles)),
    Or(if Unbacked(cfg.channels, cfg.bundles) then Some(EntriesWithoutBundle) else None,
       First(|cfg.deprecations|, DeprecationErrors(cfg.packages, cfg.channels, cfg.bundles, cfg.deprecations))))))
  }

  ghost predicate Accepted(lib: Lib, cfg: Config) {
    Outcome(lib, cfg).None?
  }

  // ----- Finding listed channels -----

  ghost predicate DistinctChannels(channels: seq<Channel>) {
    forall i :: 0 <= i < |channels| ==> channels[i].name !in ChannelNames(channels[..i], channels[i].pkg)
  }

  lemma ChannelsAccepted(packages: seq<Package>, channels: seq<Channel>, n: nat)
    requires n <= |channels| && First(n, ChannelErrors(packages, channels)).None?
    ensures DistinctChannels(channels[..n])
  {
    FirstNone(n, ChannelErrors(packages, channels));
    forall i: nat | i < n
      ensures channels[i].name !in ChannelNames(channels[..i], channels[i].pkg) && channels[..n][..i] == channels[..i]
    {
      assert ChannelErrors(packages, channels)(i).None?;
    }
  }

  lemma {:induction false} FindChannelAt(channels: seq<Channel>, i: nat)
    requires DistinctChannels(channels) && i < |channels|
    ensures FindChannel(channels, channels[i].pkg, channels[i].name) == Some(channels[i])
  {
    var n := |channels| - 1;
    if i < n {
      DistinctInit(channels);
      FindChannelAt(channels[..n], i);
    }
  }

  lemma DistinctInit(channels: seq<Channel>)
    requires DistinctChannels(channels) && |channels| != 0
    ensures DistinctChannels(channels[..|channels| - 1])
  {
    var init := channels[..|channels| - 1];
    assert forall j :: 0 <= j < |init| ==> init[j] == channels[j] && init[..j] == channels[..j];
  }

  /** A bundle is in some channel of the graph exactly when some channel of the package lists it. */
  lemma ListedIs(view: View, channels: seq<Channel>, defaulted: set<string>, p: Package, name: string)
    requires DistinctChannels(channels)
    ensures HasBundle(PackageAt(view, channels, defaulted, p), name) <==> Listed(channels, p.name, name)
  {
    var v := PackageAt(view, channels, defaulted, p);
    if HasBundle(v, name) {
      var k :| k in v.channels && name in v.channels[k].bundles;
      var c := FindChannel(channels, p.name, k).value;
      assert c in channels;
    }
    if Listed(channels, p.name, name) {
      var i :| 0 <= i < |channels| && channels[i].pkg == p.name && name in EntryNames(channels[i].entries);
      FindChannelAt(channels, i);
      assert channels[i].name in v.channels && name in v.channels[channels[i].name].bundles;
    }
  }
}
