/** Converting a configuration to a package graph. The loops carry the graph that the part read so far
    stands for. */
module ToModel {
  import opened Declcfg
  import opened Semver
  import opened Model
  import opened Conversion
  import opened Acceptance

  // ----- Packages -----

  /** The default channel name of each package. */
  function Defaults(packages: seq<Package>): map<string, string> {
    map n | n in PackageNames(packages) :: FindPackage(packages, n).value.defaultChannel
  }

  lemma DefaultsNext(packages: seq<Package>, p: Package)
    ensures Defaults(packages + [p]) == Defaults(packages)[p.name := p.defaultChannel]
  {
    assert (packages + [p])[..|packages|] == packages;
  }

  method AddPackages(lib: Lib, packages: seq<Package>, ghost view: View)
    returns (m: map<string, MPackage>, defaults: map<string, string>, err: Option<ConvertError>,
             ghost region: set<object>)
    requires Blank(view)
    ensures fresh(region)
    ensures err == First(|packages|, PackageErrors(lib, packages))
    ensures err.None? ==> defaults == Defaults(packages) && IsModel(m, ModelWith(view, packages, [], {}), region)
  {
    m, defaults, region := map[], map[], {};
    for i := 0 to |packages|
      invariant fresh(region)
      invariant First(i, PackageErrors(lib, packages)) == None
      invariant defaults == Defaults(packages[..i])
      invariant IsModel(m, ModelWith(view, packages[..i], [], {}), region)
    {
      var p := packages[i];
      PrefixNext(packages, i);
      ghost var objects;
      m, err, objects := AddPackageOf(lib, m, p, packages[..i], view, region);
      assert err == PackageErrors(lib, packages)(i);
      if err.Some? {
        FirstStays(i + 1, |packages|, PackageErrors(lib, packages));
        return;
      }
      region := region + objects;
      DefaultsNext(packages[..i], p);
      defaults := defaults[p.name := p.defaultChannel];
    }
    assert packages[..|packages|] == packages;
    err := None;
  }

  method AddPackageOf(lib: Lib, m: map<string, MPackage>, p: Package, ghost before: seq<Package>, ghost view: View,
                      ghost region: set<object>)
    returns (m': map<string, MPackage>, err: Option<ConvertError>, ghost objects: set<object>)
    requires Blank(view) && IsModel(m, ModelWith(view, before, [], {}), region)
    ensures fresh(objects)
    ensures err == PackageProblem(lib, before, p)
    ensures err.None? ==> IsModel(m', ModelWith(view, before + [p], [], {}), region + objects)
  {
    if p.name == "" {
      return m, Some(NoPackageName), {};
    }
    if p.name in m {
      return m, Some(DuplicatePackage), {};
    }
    if !lib.isLabel(p.name) {
      return m, Some(InvalidPackageName), {};
    }
    PackageNext(view, before, p);
    m', objects := AddPackage(m, p, ModelWith(view, before, [], {}), region);
    err := None;
  }

  // ----- Channels -----

  /** The set that a map of sets holds for a key. */
  function At(sets: map<string, set<string>>, key: string): set<string> {
    if key in sets then sets[key] else {}
  }

  /** `defined` has the entries of each package's last channel, without those of the bundles seen. */
  ghost predicate Defined(defined: map<string, set<string>>, channels: seq<Channel>, bundles: seq<Bundle>) {
    forall pkg :: At(defined, pkg) == LastEntries(channels, pkg) - BundleNames(bundles, pkg)
  }

  lemma DefinedNext(defined: map<string, set<string>>, channels: seq<Channel>, c: Channel)
    requires Defined(defined, channels, [])
    ensures Defined(defined[c.pkg := EntryNames(c.entries)], channels + [c], [])
  {
    assert (channels + [c])[..|channels|] == channels;
  }

  /** Adds channels to the packages they name, each with a bundle for every entry. Of a package's entries it
      notes down only those of the channel it saw last. */
  method AddChannels(m: map<string, MPackage>, defaults: map<string, string>, channels: seq<Channel>,
                     ghost packages: seq<Package>, ghost view: View, ghost region: set<object>)
    returns (defined: map<string, set<string>>, err: Option<ConvertError>, ghost region': set<object>)
    requires Blank(view) && defaults == Defaults(packages) && IsModel(m, ModelWith(view, packages, [], {}), region)
    modifies region
    ensures region <= region' && fresh(region' - region)
    ensures err == First(|channels|, ChannelErrors(packages, channels))
    ensures err.None? ==> Defined(defined, channels, []) && IsModel(m, ModelWith(view, packages, channels, {}), region')
  {
    defined, region' := map[], region;
    for i := 0 to |channels|
      invariant region <= region' && fresh(region' - region)
      invariant First(i, ChannelErrors(packages, channels)) == None
      invariant Defined(defined, channels[..i], [])
      invariant IsModel(m, ModelWith(view, packages, channels[..i], {}), region')
    {
      var c := channels[i];
      PrefixNext(channels, i);
      err, region' := AddChannelOf(m, defaults, c, channels[..i], packages, view, region');
      assert err == ChannelErrors(packages, channels)(i);
      if err.Some? {
        FirstStays(i + 1, |channels|, ChannelErrors(packages, channels));
        return;
      }
      DefinedNext(defined, channels[..i], c);
      defined := defined[c.pkg := EntryNames(c.entries)];
    }
    assert channels[..|channels|] == channels;
    err := None;
  }

  method AddChannelOf(m: map<string, MPackage>, defaults: map<string, string>, c: Channel,
                      ghost before: seq<Channel>, ghost packages: seq<Package>, ghost view: View,
                          ghost region: set<object>)
    returns (err: Option<ConvertError>, ghost region': set<object>)
    requires Blank(view) && defaults == Defaults(packages) && IsModel(m, ModelWith(view, packages, before, {}), region)
    modifies region
    ensures region <= region' && fresh(region' - region)
    ensures err == ChannelProblem(packages, before, c)
    ensures err.None? ==> IsModel(m, ModelWith(view, packages, before + [c], {}), region')
  {
    region' := region;
    if c.pkg !in m {
      return Some(UnknownPackageForChannel), region';
    }
    ghost var v := ModelWith(view, packages, before, {});
    assert IsPackage(m[c.pkg], v[c.pkg], region);
    var channelErr;
    ghost var objects;
    channelErr, objects := AddChannelTo(m, c, defaults[c.pkg], v, region);
    region' := region + objects;
    if channelErr.Some? {
      return Some(BadChannel(channelErr.value)), region';
    }
    ChannelNext(view, packages, before, c);
    err := None;
  }

  // ----- Bundles -----

  /** `seen` has the names of the bundles of each package. */
  ghost predicate Seen(seen: map<string, set<string>>, bundles: seq<Bundle>) {
    forall pkg :: At(seen, pkg) == BundleNames(bundles, pkg)
  }

  lemma BundleNamesNext(bundles: seq<Bundle>, b: Bundle, pkg: string)
    ensures BundleNames(bundles + [b], pkg) == BundleNames(bundles, pkg) + if b.pkg == pkg then {b.name} else {}
  {
    assert (bundles + [b])[..|bundles|] == bundles;
  }

  lemma SeenNext(seen: map<string, set<string>>, bundles: seq<Bundle>, b: Bundle)
    requires Seen(seen, bundles)
    ensures Seen(seen[b.pkg := At(seen, b.pkg) + {b.name}], bundles + [b])
  {
    forall pkg
      ensures BundleNames(bundles + [b], pkg) == BundleNames(bundles, pkg) + if b.pkg == pkg then {b.name} else {}
    {
      BundleNamesNext(bundles, b, pkg);
    }
  }

  lemma DefinedLess(defined: map<string, set<string>>, channels: seq<Channel>, bundles: seq<Bundle>, b: Bundle)
    requires Defined(defined, channels, bundles)
    ensures Defined(defined[b.pkg := At(defined, b.pkg) - {b.name}], channels, bundles + [b])
  {
    forall pkg
      ensures BundleNames(bundles + [b], pkg) == BundleNames(bundles, pkg) + if b.pkg == pkg then {b.name} else {}
    {
      BundleNamesNext(bundles, b, pkg);
    }
  }

  /** Gives the data of a blob to every bundle of its name, in whatever channel. */
  method FillBundle(lib: Lib, m: map<string, MPackage>, b: Bundle, version: Version,
                    ghost channels: seq<Channel>, ghost before: seq<Bundle>, ghost packages: seq<Package>,
                        ghost region: set<object>)
    returns (found: bool)
    requires b.pkg in m && BundleVersion(lib, b) == Ok(version) && DistinctChannels(channels)
    requires IsModel(m, ModelWith(ViewOf(lib, before, []), packages, channels, {}), region)
    modifies region
    ensures found <==> Listed(channels, b.pkg, b.name)
    ensures IsModel(m, ModelWith(ViewOf(lib, before + [b], []), packages, channels, {}), region)
  {
    ghost var v := ModelWith(ViewOf(lib, before, []), packages, channels, {});
    ListedIs(ViewOf(lib, before, []), channels, {}, FindPackage(packages, b.pkg).value, b.name);
    BundleFills(lib, before, [], b);
    ModelFilled(ViewOf(lib, before, []), ViewOf(lib, before + [b], []), b.pkg, b.name, DataOf(lib, b), packages,
                channels);
    InRegion(m, v, b.pkg, region);
    found := ChangeBundlesOf(m, b.pkg, b.name,
                             SetData(BundleData(b.image, b.properties, b.relatedImages, b.csvJSON, b.objects,
                                                version)), v, region);
  }

  method CheckBlob(lib: Lib, m: map<string, MPackage>, seen: map<string, set<string>>, b: Bundle)
    returns (r: Result<Version, ConvertError>)
    ensures r == if b.pkg == "" then Err(BundleWithoutPackage)
                 else if b.pkg !in m then Err(UnknownPackageForBundle)
                 else if b.name in At(seen, b.pkg) then Err(DuplicateBundle)
                 else BundleVersion(lib, b)
  {
    if b.pkg == "" {
      return Err(BundleWithoutPackage);
    }
    if b.pkg !in m {
      return Err(UnknownPackageForBundle);
    }
    if b.name in At(seen, b.pkg) {
      return Err(DuplicateBundle);
    }
    r := CheckBundle(lib, b);
  }

  /** Checks one blob and gives its data to its bundles. */
  method AddBundle(lib: Lib, m: map<string, MPackage>, seen: map<string, set<string>>, b: Bundle,
                   ghost channels: seq<Channel>, ghost before: seq<Bundle>, ghost packages: seq<Package>,
                       ghost region: set<object>)
    returns (err: Option<ConvertError>)
    requires DistinctChannels(channels) && Seen(seen, before)
    requires IsModel(m, ModelWith(ViewOf(lib, before, []), packages, channels, {}), region)
    modifies region
    ensures err == BundleProblem(lib, packages, channels, before, b)
    ensures err.None? ==> IsModel(m, ModelWith(ViewOf(lib, before + [b], []), packages, channels, {}), region)
  {
    var version := CheckBlob(lib, m, seen, b);
    if version.Err? {
      return Some(version.error);
    }
    var found := FillBundle(lib, m, b, version.value, channels, before, packages, region);
    err := if found then None else Some(BundleNotInChannel);
  }

  method FillBundles(lib: Lib, m: map<string, MPackage>, defined0: map<string, set<string>>, bundles: seq<Bundle>,
                     ghost channels: seq<Channel>, ghost packages: seq<Package>, ghost region: set<object>)
    returns (seen: map<string, set<string>>, defined: map<string, set<string>>, err: Option<ConvertError>)
    requires DistinctChannels(channels) && Defined(defined0, channels, [])
    requires IsModel(m, ModelWith(ViewOf(lib, [], []), packages, channels, {}), region)
    modifies region
    ensures err == First(|bundles|, BundleErrors(lib, packages, channels, bundles))
    ensures err.None? ==> Seen(seen, bundles) && Defined(defined, channels, bundles)
    ensures err.None? ==> IsModel(m, ModelWith(ViewOf(lib, bundles, []), packages, channels, {}), region)
  {
    seen, defined := map[], defined0;
    for i := 0 to |bundles|
      invariant First(i, BundleErrors(lib, packages, channels, bundles)) == None
      invariant Seen(seen, bundles[..i]) && Defined(defined, channels, bundles[..i])
      invariant IsModel(m, ModelWith(ViewOf(lib, bundles[..i], []), packages, channels, {}), region)
    {
      var b := bundles[i];
      PrefixNext(bundles, i);
      err := AddBundle(lib, m, seen, b, channels, bundles[..i], packages, region);
      assert err == BundleErrors(lib, packages, channels, bundles)(i);
      if err.Some? {
        FirstStays(i + 1, |bundles|, BundleErrors(lib, packages, channels, bundles));
        return;
      }
      SeenNext(seen, bundles[..i], b);
      DefinedLess(defined, channels, bundles[..i], b);
      seen := seen[b.pkg := At(seen, b.pkg) + {b.name}];
      defined := defined[b.pkg := At(defined, b.pkg) - {b.name}];
    }
    assert bundles[..|bundles|] == bundles;
    err := None;
  }

  /** Whether some set is not empty, looking at them in any order. */
  method AnyLeft(defined: map<string, set<string>>) returns (any: bool)
    ensures any <==> exists pkg :: At(defined, pkg) != {}
  {
    var left := defined.Keys;
    while left != {}
      invariant left <= defined.Keys
      invariant forall pkg :: pkg in defined && pkg !in left ==> defined[pkg] == {}
      decreases left
    {
      var pkg :| pkg in left;
      if defined[pkg] != {} {
        assert At(defined, pkg) != {};
        return true;
      }
      left := left - {pkg};
    }
    return false;
  }

  // ----- Default channels -----

  /** Adds an empty default channel where the named one is missing, taking the packages in any order. */
  method AddDefaults(m: map<string, MPackage>, defaults: map<string, string>,
                     ghost packages: seq<Package>, ghost channels: seq<Channel>, ghost view: View,
                         ghost region: set<object>)
    returns (ghost region': set<object>)
    requires forall pkg, target :: view.note(pkg, target) == None
    requires defaults == Defaults(packages) && IsModel(m, ModelWith(view, packages, channels, {}), region)
    modifies region
    ensures region <= region' && fresh(region' - region)
    ensures IsModel(m, ModelWith(view, packages, channels, PackageNames(packages)), region')
  {
    region' := region;
    ghost var all := PackageNames(packages);
    var left := m.Keys;
    assert all - left == {};
    while left != {}
      invariant left <= all && region <= region' && fresh(region' - region)
      invariant IsModel(m, ModelWith(view, packages, channels, all - left), region')
      decreases left
    {
      var n :| n in left;
      region' := AddDefaultOf(m, n, defaults[n], packages, channels, all - left, view, region');
      DoneNext(all, left, n);
      left := left - {n};
    }
    assert all - left == all;
  }

  method AddDefaultOf(m: map<string, MPackage>, n: string, name: string,
                      ghost packages: seq<Package>, ghost channels: seq<Channel>, ghost done: set<string>,
                          ghost view: View, ghost region: set<object>)
    returns (ghost region': set<object>)
    requires forall pkg, target :: view.note(pkg, target) == None
    requires n in m && n !in done && IsModel(m, ModelWith(view, packages, channels, done), region)
    requires name == FindPackage(packages, n).value.defaultChannel
    modifies region
    ensures region <= region' && fresh(region' - region)
    ensures IsModel(m, ModelWith(view, packages, channels, done + {n}), region')
  {
    region' := region;
    DefaultNext(view, packages, channels, done, n);
    ghost var v := ModelWith(view, packages, channels, done);
    assert IsPackage(m[n], v[n], region);
    if name != "" && m[n].defaultChannel == null {
      ghost var objects := AddDefaultTo(m, n, name, v, region);
      region' := region + objects;
    }
  }

  // ----- Deprecations -----

  /** What a reference is to, if its schema is known. */
  function TargetOf(r: Reference): Target {
    if r.schema == SCHEMA_BUNDLE then OfBundle(r.name)
    else if r.schema == SCHEMA_CHANNEL then OfChannel(r.name)
    else OfPackage
  }

  /** Sets the deprecation of what `target` names. */
  method Deprecate(m: map<string, MPackage>, pkg: string, target: Target, message: string, ghost v: ModelVal,
                   ghost region: set<object>)
    requires IsModel(m, v, region) && pkg in m && (target.OfChannel? ==> target.name in v[pkg].channels)
    modifies region
    ensures IsModel(m, v[pkg := DeprecatedIn(v[pkg], target, message)], region)
  {
    match target
    case OfBundle(name) =>
      InRegion(m, v, pkg, region);
      var _ := ChangeBundlesOf(m, pkg, name, SetDeprecation(message), v, region);
    case OfChannel(name) =>
      assert IsPackage(m[pkg], v[pkg], region);
      assert IsChannel(m[pkg].channels[name], m[pkg], v[pkg].channels[name], region);
      DeprecateChannelOf(m, pkg, name, message, v, region);
    case OfPackage =>
      assert IsPackage(m[pkg], v[pkg], region);
      DeprecatePackageOf(m, pkg, message, v, region);
  }

  method CheckReference(bundles: set<string>, channels: set<string>, references: set<Reference>, r: Reference,
                        ghost before: seq<DeprecationEntry>)
    returns (err: Option<ConvertError>)
    requires references == References(before)
    ensures err == ReferenceProblem(bundles, channels, before, r)
    ensures err.None? ==> r == ReferenceTo(TargetOf(r)) && (TargetOf(r).OfChannel? ==> r.name in channels)
  {
    if r.schema == "" {
      return Some(NoReferenceSchema);
    }
    if r in references {
      return Some(DuplicateReference);
    }
    if r.schema == SCHEMA_BUNDLE {
      return if r.name !in bundles then Some(UnknownBundle) else None;
    } else if r.schema == SCHEMA_CHANNEL {
      return if r.name !in channels then Some(UnknownChannel) else None;
    } else if r.schema == SCHEMA_PACKAGE {
      return if r.name != "" then Some(PackageReferenceName) else None;
    }
    return Some(UnknownSchema);
  }

  /** The part of a deprecation that has been read. */
  function Upto(d: Deprecation, j: nat): Deprecation
    requires j <= |d.entries|
  {
    d.(entries := d.entries[..j])
  }

  /** The graph when the deprecations `before` and `d` have been read. */
  ghost function ModelDeprecating(lib: Lib, cfg: Config, before: seq<Deprecation>, d: Deprecation): ModelVal {
    ModelOf(lib, cfg.(deprecations := before + [d]))
  }

  lemma EntryStep(lib: Lib, cfg: Config, before: seq<Deprecation>, d: Deprecation, j: nat, target: Target)
    requires j < |d.entries| && d.entries[j].reference == ReferenceTo(target) && d.pkg in PackageNames(cfg.packages)
    requires target.OfChannel? ==> target.name in ModelDeprecating(lib, cfg, before, Upto(d, j))[d.pkg].channels
    ensures var v := ModelDeprecating(lib, cfg, before, Upto(d, j));
            ModelDeprecating(lib, cfg, before, Upto(d, j + 1))
                == v[d.pkg := DeprecatedIn(v[d.pkg], target, d.entries[j].message)]
  {
    assert d.entries[..j + 1] == d.entries[..j] + [d.entries[j]];
    EntryDeprecates(lib, cfg.bundles, before, Upto(d, j), d.entries[j], target);
    assert Upto(d, j).(entries := Upto(d, j).entries + [d.entries[j]]) == Upto(d, j + 1);
    ModelDeprecated(ViewOf(lib, cfg.bundles, before + [Upto(d, j)]),
                    ViewOf(lib, cfg.bundles, before + [Upto(d, j + 1)]),
                    d.pkg, target, d.entries[j].message, cfg.packages, cfg.channels, PackageNames(cfg.packages));
  }

  /** Checks one deprecation entry and applies it. */
  method DeprecateEntry(m: map<string, MPackage>, bundles: set<string>, references: set<Reference>, d: Deprecation,
                        j: nat,
                        ghost v: ModelVal, ghost region: set<object>)
    returns (err: Option<ConvertError>)
    requires j < |d.entries| && references == References(d.entries[..j]) && d.pkg in m && IsModel(m, v, region)
    modifies region
    ensures err == ReferenceProblem(bundles, v[d.pkg].channels.Keys, d.entries[..j], d.entries[j].reference)
    ensures err.None? ==>
              var target := TargetOf(d.entries[j].reference);
              && d.entries[j].reference == ReferenceTo(target)
                  && (target.OfChannel? ==> target.name in v[d.pkg].channels)
              && IsModel(m, v[d.pkg := DeprecatedIn(v[d.pkg], target, d.entries[j].message)], region)
  {
    var r := d.entries[j].reference;
    assert IsPackage(m[d.pkg], v[d.pkg], region);
    err := CheckReference(bundles, m[d.pkg].channels.Keys, references, r, d.entries[..j]);
    if err.None? {
      Deprecate(m, d.pkg, TargetOf(r), d.entries[j].message, v, region);
    }
  }

  lemma ReferencesNext(entries: seq<DeprecationEntry>, j: nat)
    requires j < |entries|
    ensures References(entries[..j + 1]) == References(entries[..j]) + {entries[j].reference}
  {
    assert entries[..j + 1][..j] == entries[..j];
  }

  /** The graphs that applying the entries of a deprecation one by one goes through, and what is wrong with each. */
  ghost predicate Applies(d: Deprecation, bundles: set<string>, models: nat -> ModelVal,
                          errors: nat -> Option<ConvertError>) {
    forall j: nat :: j < |d.entries| ==>
      && d.pkg in models(j)
      && errors(j) == ReferenceProblem(bundles, models(j)[d.pkg].channels.Keys, d.entries[..j], d.entries[j].reference)
      && var target := TargetOf(d.entries[j].reference);
         d.entries[j].reference == ReferenceTo(target)
             && (target.OfChannel? ==> target.name in models(j)[d.pkg].channels)
         ==> models(j + 1) == models(j)[d.pkg := DeprecatedIn(models(j)[d.pkg], target, d.entries[j].message)]
  }

  lemma UptoAll(d: Deprecation)
    ensures Upto(d, |d.entries|) == d
  {
  }

  method DeprecateEntries(m: map<string, MPackage>, bundles: set<string>, d: Deprecation,
                          ghost models: nat -> ModelVal, ghost errors: nat -> Option<ConvertError>,
                              ghost region: set<object>)
    returns (err: Option<ConvertError>)
    requires Applies(d, bundles, models, errors) && IsModel(m, models(0), region)
    modifies region
    ensures err == First(|d.entries|, errors)
    ensures err.None? ==> IsModel(m, models(|d.entries|), region)
  {
    var references: set<Reference> := {};
    for j := 0 to |d.entries|
      invariant First(j, errors) == None && references == References(d.entries[..j])
      invariant IsModel(m, models(j), region)
    {
      ReferencesNext(d.entries, j);
      err := DeprecateEntry(m, bundles, references, d, j, models(j), region);
      if err.Some? {
        FirstStays(j + 1, |d.entries|, errors);
        return;
      }
      references := references + {d.entries[j].reference};
    }
    err := None;
  }

  /** What is wrong with the entries of a deprecation of a known package. */
  ghost function EntryErrors(cfg: Config, d: Deprecation): nat -> Option<ConvertError>
    requires d.pkg in PackageNames(cfg.packages)
  {
    ReferenceErrors(BundleNames(cfg.bundles, d.pkg),
                    ChannelNamesAt(cfg.channels, PackageNames(cfg.packages), FindPackage(cfg.packages, d.pkg).value),
                        d.entries)
  }

  ghost function EntryModels(lib: Lib, cfg: Config, before: seq<Deprecation>, d: Deprecation): nat -> ModelVal {
    (j: nat) => if j <= |d.entries| then ModelDeprecating(lib, cfg, before, Upto(d, j)) else map[]
  }

  lemma EntryErrorAt(lib: Lib, cfg: Config, before: seq<Deprecation>, d: Deprecation, j: nat)
    requires j < |d.entries| && d.pkg in PackageNames(cfg.packages)
    ensures EntryErrors(cfg, d)(j)
         == ReferenceProblem(BundleNames(cfg.bundles, d.pkg),
                             ModelDeprecating(lib, cfg, before, Upto(d, j))[d.pkg].channels.Keys,
                             d.entries[..j], d.entries[j].reference)
  {
    var p := FindPackage(cfg.packages, d.pkg).value;
    assert ModelDeprecating(lib, cfg, before, Upto(d, j))[d.pkg].channels.Keys
        == ChannelNamesAt(cfg.channels, PackageNames(cfg.packages), p);
  }

  lemma EntriesApply(lib: Lib, cfg: Config, before: seq<Deprecation>, d: Deprecation)
    requires d.pkg in PackageNames(cfg.packages)
    ensures Applies(d, BundleNames(cfg.bundles, d.pkg), EntryModels(lib, cfg, before, d), EntryErrors(cfg, d))
  {
    var models := EntryModels(lib, cfg, before, d);
    forall j: nat | j < |d.entries|
      ensures d.pkg in models(j)
      ensures EntryErrors(cfg, d)(j)
           == ReferenceProblem(BundleNames(cfg.bundles, d.pkg), models(j)[d.pkg].channels.Keys, d.entries[..j],
                               d.entries[j].reference)
      ensures var target := TargetOf(d.entries[j].reference);
              d.entries[j].reference == ReferenceTo(target)
                  && (target.OfChannel? ==> target.name in models(j)[d.pkg].channels)
              ==> models(j + 1) == models(j)[d.pkg := DeprecatedIn(models(j)[d.pkg], target, d.entries[j].message)]
    {
      EntryErrorAt(lib, cfg, before, d, j);
      var target := TargetOf(d.entries[j].reference);
      if d.entries[j].reference == ReferenceTo(target)
          && (target.OfChannel? ==> target.name in models(j)[d.pkg].channels) {
        EntryStep(lib, cfg, before, d, j, target);
      }
    }
  }

  lemma DeprecationErrorAt(cfg: Config, deprecations: seq<Deprecation>, i: nat)
    requires i < |deprecations|
    ensures DeprecationErrors(cfg.packages, cfg.channels, cfg.bundles, deprecations)(i)
         == DeprecationProblem(cfg.packages, cfg.channels, cfg.bundles, deprecations[..i], deprecations[i])
    ensures DeprecatedPackages(deprecations[..i + 1]) == DeprecatedPackages(deprecations[..i]) + {deprecations[i].pkg}
  {
    assert deprecations[..i + 1][..i] == deprecations[..i];
  }

  method DeprecateAll(lib: Lib, m: map<string, MPackage>, seen: map<string, set<string>>,
                      deprecations: seq<Deprecation>,
                      ghost cfg: Config, ghost region: set<object>)
    returns (err: Option<ConvertError>)
    requires Seen(seen, cfg.bundles) && IsModel(m, ModelOf(lib, cfg.(deprecations := [])), region)
    modifies region
    ensures err == First(|deprecations|, DeprecationErrors(cfg.packages, cfg.channels, cfg.bundles, deprecations))
    ensures err.None? ==> IsModel(m, ModelOf(lib, cfg.(deprecations := deprecations)), region)
  {
    var byPackage: set<string> := {};
    for i := 0 to |deprecations|
      invariant First(i, DeprecationErrors(cfg.packages, cfg.channels, cfg.bundles, deprecations)) == None
      invariant byPackage == DeprecatedPackages(deprecations[..i])
      invariant IsModel(m, ModelOf(lib, cfg.(deprecations := deprecations[..i])), region)
    {
      var d := deprecations[i];
      PrefixNext(deprecations, i);
      err := DeprecateOne(lib, m, seen, byPackage, d, deprecations[..i], cfg, region);
      DeprecationErrorAt(cfg, deprecations, i);
      if err.Some? {
        FirstStays(i + 1, |deprecations|, DeprecationErrors(cfg.packages, cfg.channels, cfg.bundles, deprecations));
        return;
      }
      byPackage := byPackage + {d.pkg};
    }
    assert deprecations[..|deprecations|] == deprecations;
    err := None;
  }

  method DeprecateOne(lib: Lib, m: map<string, MPackage>, seen: map<string, set<string>>, byPackage: set<string>,
                      d: Deprecation,
                      ghost before: seq<Deprecation>, ghost cfg: Config, ghost region: set<object>)
    returns (err: Option<ConvertError>)
    requires byPackage == DeprecatedPackages(before) && Seen(seen, cfg.bundles)
    requires IsModel(m, ModelOf(lib, cfg.(deprecations := before)), region)
    modifies region
    ensures err == DeprecationProblem(cfg.packages, cfg.channels, cfg.bundles, before, d)
    ensures err.None? ==> IsModel(m, ModelOf(lib, cfg.(deprecations := before + [d])), region)
  {
    if d.pkg == "" {
      return Some(DeprecationWithoutPackage);
    }
    if d.pkg !in m {
      return Some(UnknownPackageForDeprecation);
    }
    if d.pkg in byPackage {
      return Some(DuplicateDeprecation);
    }
    EntriesApply(lib, cfg, before, d);
    DeprecationNext(lib, cfg.bundles, before, Upto(d, 0), cfg.packages, cfg.channels, PackageNames(cfg.packages));
    UptoAll(d);
    err := DeprecateEntries(m, At(seen, d.pkg), d, EntryModels(lib, cfg, before, d), EntryErrors(cfg, d), region);
  }

  // ----- The whole conversion -----

  /** The last two steps. */
  method Complete(lib: Lib, m: map<string, MPackage>, defaults: map<string, string>, seen: map<string, set<string>>,
                  cfg: Config, ghost region0: set<object>)
    returns (err: Option<ConvertError>, ghost region: set<object>)
    requires defaults == Defaults(cfg.packages) && Seen(seen, cfg.bundles)
    requires IsModel(m, ModelWith(ViewOf(lib, cfg.bundles, []), cfg.packages, cfg.channels, {}), region0)
    modifies region0
    ensures region0 <= region && fresh(region - region0)
    ensures err == First(|cfg.deprecations|,
                         DeprecationErrors(cfg.packages, cfg.channels, cfg.bundles, cfg.deprecations))
    ensures err.None? ==> IsModel(m, ModelOf(lib, cfg), region)
  {
    region := AddDefaults(m, defaults, cfg.packages, cfg.channels, ViewOf(lib, cfg.bundles, []), region0);
    err := DeprecateAll(lib, m, seen, cfg.deprecations, cfg, region);
  }

  /** The steps after the channels: `Or` of what each of them finds. */
  method Fill(lib: Lib, m: map<string, MPackage>, defaults: map<string, string>, defined0: map<string, set<string>>,
              cfg: Config, ghost region0: set<object>)
    returns (err: Option<ConvertError>, ghost region: set<object>)
    requires defaults == Defaults(cfg.packages) && DistinctChannels(cfg.channels) && Defined(defined0, cfg.channels, [])
    requires IsModel(m, ModelWith(ViewOf(lib, [], []), cfg.packages, cfg.channels, {}), region0)
    modifies region0
    ensures region0 <= region && fresh(region - region0)
    ensures err == Or(First(|cfg.bundles|, BundleErrors(lib, cfg.packages, cfg.channels, cfg.bundles)),
                   Or(if Unbacked(cfg.channels, cfg.bundles) then Some(EntriesWithoutBundle) else None,
                      First(|cfg.deprecations|,
                            DeprecationErrors(cfg.packages, cfg.channels, cfg.bundles, cfg.deprecations))))
    ensures err.None? ==> IsModel(m, ModelOf(lib, cfg), region)
  {
    region := region0;
    var seen, defined;
    seen, defined, err := FillBundles(lib, m, defined0, cfg.bundles, cfg.channels, cfg.packages, region);
    if err.Some? {
      return;
    }
    var any := AnyLeft(defined);
    assert any <==> Unbacked(cfg.channels, cfg.bundles);
    if any {
      return Some(EntriesWithoutBundle), region;
    }
    err, region := Complete(lib, m, defaults, seen, cfg, region);
  }

  /** Converts a configuration, up to the validation of the graph. It fails exactly for what `Outcome` says is
      wrong, and otherwise builds new objects, properly linked, that stand for what the configuration says. */
  method ConvertToModel(lib: Lib, cfg: Config)
    returns (r: Result<map<string, MPackage>, ConvertError>, ghost region: set<object>)
    ensures fresh(region)
    ensures r.Err? ==> Outcome(lib, cfg) == Some(r.error)
    ensures r.Ok? ==> Accepted(lib, cfg) && IsModel(r.value, ModelOf(lib, cfg), region)
  {
    var m, defaults, err;
    m, defaults, err, region := AddPackages(lib, cfg.packages, ViewOf(lib, [], []));
    if err.Some? {
      return Err(err.value), region;
    }
    var defined;
    defined, err, region := AddChannels(m, defaults, cfg.channels, cfg.packages, ViewOf(lib, [], []), region);
    if err.Some? {
      return Err(err.value), region;
    }
    ChannelsAccepted(cfg.packages, cfg.channels, |cfg.channels|);
    assert cfg.channels[..|cfg.channels|] == cfg.channels;
    err, region := Fill(lib, m, defaults, defined, cfg, region);
    r := if err.Some? then Err(err.value) else Ok(m);
  }
}
