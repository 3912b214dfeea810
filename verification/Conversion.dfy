/** What converting a configuration to a package graph is to give: each part of the graph said directly in
    terms of the configuration, whatever order the conversion fills it in. */
module Conversion {
  import opened Declcfg
  import opened Semver
  import opened Model
  import opened Picking

  // ----- Properties of a bundle -----

  datatype PackageProp = PackageProp(packageName: string, version: string)

  /** The libraries: whether a name is a DNS label, whether the value of a property parses, what an
      `olm.package` property says, and parsing of versions. */
  datatype Lib = Lib(
    isLabel: string -> bool, valid: Property -> bool, packageProp: string -> PackageProp,
        parseVersion: string -> Option<Version>)

  function PackageProps(lib: Lib, properties: seq<Property>): seq<PackageProp> {
    if |properties| == 0 then []
    else
      var p := properties[|properties| - 1];
      PackageProps(lib, properties[..|properties| - 1])
        + if p.kind == TYPE_PACKAGE then [lib.packageProp(p.value)] else []
  }

  predicate AllValid(lib: Lib, properties: seq<Property>) {
    forall i :: 0 <= i < |properties| ==> lib.valid(properties[i])
  }

  method ParseProperties(lib: Lib, properties: seq<Property>) returns (r: Option<seq<PackageProp>>)
    ensures r.Some? <==> AllValid(lib, properties)
    ensures r.Some? ==> r.value == PackageProps(lib, properties)
  {
    var props: seq<PackageProp> := [];
    for i := 0 to |properties|
      invariant AllValid(lib, properties[..i]) && props == PackageProps(lib, properties[..i])
    {
      assert properties[..i + 1][..i] == properties[..i];
      if !lib.valid(properties[i]) {
        return None;
      }
      if properties[i].kind == TYPE_PACKAGE {
        props := props + [lib.packageProp(properties[i].value)];
      }
    }
    assert properties[..|properties|] == properties;
    return Some(props);
  }

  predicate IsPackageProperty(p: Property) {
    p.kind == TYPE_PACKAGE
  }

  /** The package properties are those at some places, in that order. */
  lemma {:induction false} PackagePropsExactly(lib: Lib, properties: seq<Property>) returns (places: seq<nat>)
    ensures Picks(properties, IsPackageProperty, places) && |places| == |PackageProps(lib, properties)|
    ensures forall k :: 0 <= k < |places| ==>
              PackageProps(lib, properties)[k] == lib.packageProp(properties[places[k]].value)
  {
    if |properties| == 0 {
      places := [];
    } else {
      var n := |properties| - 1;
      places := PackagePropsExactly(lib, properties[..n]);
      assert properties == properties[..n] + [properties[n]];
      if IsPackageProperty(properties[n]) {
        PicksNext(properties[..n], properties[n], IsPackageProperty, places);
        places := places + [n];
      } else {
        PicksSkip(properties[..n], properties[n], IsPackageProperty, places);
      }
    }
  }

  datatype ConvertError =
    | NoPackageName | DuplicatePackage | InvalidPackageName
    | UnknownPackageForChannel | BadChannel(error: ChannelError)
    | BundleWithoutPackage | UnknownPackageForBundle | DuplicateBundle
    | BadProperties | PackagePropertyCount | PackageMismatch | BadVersion | BundleNotInChannel
    | EntriesWithoutBundle
    | DeprecationWithoutPackage | UnknownPackageForDeprecation | DuplicateDeprecation
    | NoReferenceSchema | DuplicateReference | UnknownBundle | UnknownChannel | PackageReferenceName | UnknownSchema

  /** The version of a bundle, or what is wrong with its properties. */
  function BundleVersion(lib: Lib, b: Bundle): Result<Version, ConvertError> {
    if !AllValid(lib, b.properties) then Err(BadProperties)
    else
      var props := PackageProps(lib, b.properties);
      if |props| != 1 then Err(PackagePropertyCount)
      else if b.pkg != props[0].packageName then Err(PackageMismatch)
      else
        match lib.parseVersion(props[0].version)
        case None => Err(BadVersion)
        case Some(v) => Ok(v)
  }

  /** The `i`-th property is the only package property. */
  ghost predicate OnlyPackage(properties: seq<Property>, i: nat) {
    && i < |properties| && properties[i].kind == TYPE_PACKAGE
    && forall j :: 0 <= j < |properties| && properties[j].kind == TYPE_PACKAGE ==> j == i
  }

  /** The bundle's properties parse, and its only package property names its package and has version `v`. */
  ghost predicate Declares(lib: Lib, b: Bundle, v: Version) {
    && (forall i :: 0 <= i < |b.properties| ==> lib.valid(b.properties[i]))
    && exists i: nat :: OnlyPackage(b.properties, i)
                        && lib.packageProp(b.properties[i].value).packageName == b.pkg
                        && lib.parseVersion(lib.packageProp(b.properties[i].value).version) == Some(v)
  }

  /** What is wrong with the properties of a bundle. */
  ghost predicate Faulty(lib: Lib, b: Bundle, e: ConvertError) {
    var parses := forall i :: 0 <= i < |b.properties| ==> lib.valid(b.properties[i]);
    match e
    case BadProperties => !parses
    case PackagePropertyCount => parses && !exists i: nat :: OnlyPackage(b.properties, i)
    case PackageMismatch =>
      && parses
      && exists i: nat :: OnlyPackage(b.properties, i) && lib.packageProp(b.properties[i].value).packageName != b.pkg
    case BadVersion =>
      && parses
      && exists i: nat :: OnlyPackage(b.properties, i)
                          && lib.packageProp(b.properties[i].value).packageName == b.pkg
                          && lib.parseVersion(lib.packageProp(b.properties[i].value).version) == None
    case _ => false
  }

  lemma OnePackage(lib: Lib, properties: seq<Property>, i: nat)
    ensures OnlyPackage(properties, i) ==> PackageProps(lib, properties) == [lib.packageProp(properties[i].value)]
    ensures |PackageProps(lib, properties)| == 1 ==> exists j: nat :: OnlyPackage(properties, j)
  {
    var places := PackagePropsExactly(lib, properties);
    if OnlyPackage(properties, i) {
      assert Picks(properties, IsPackageProperty, [i]);
      PicksUnique(properties, IsPackageProperty, places, [i]);
    }
    if |places| == 1 {
      assert OnlyPackage(properties, places[0]) by {
        assert forall j :: 0 <= j < |properties| && IsPackageProperty(properties[j]) ==> j in places;
      }
    }
  }

  /** The version of a bundle is the one its only package property gives, and each error has its condition. */
  lemma BundleVersionExactly(lib: Lib, b: Bundle)
    ensures forall v :: BundleVersion(lib, b) == Ok(v) <==> Declares(lib, b, v)
    ensures forall e :: BundleVersion(lib, b) == Err(e) <==> Faulty(lib, b, e)
  {
    OnePackage(lib, b.properties, 0);
    if i: nat :| OnlyPackage(b.properties, i) {
      OnePackage(lib, b.properties, i);
    }
  }

  /** Checks the properties of a bundle, in the order of the errors. */
  method CheckBundle(lib: Lib, b: Bundle) returns (r: Result<Version, ConvertError>)
    ensures r.Ok? ==> Declares(lib, b, r.value)
    ensures r.Err? ==> Faulty(lib, b, r.error)
    ensures r == BundleVersion(lib, b)
  {
    BundleVersionExactly(lib, b);
    var props := ParseProperties(lib, b.properties);
    if props.None? {
      return Err(BadProperties);
    }
    if |props.value| != 1 {
      return Err(PackagePropertyCount);
    }
    if b.pkg != props.value[0].packageName {
      return Err(PackageMismatch);
    }
    var v := lib.parseVersion(props.value[0].version);
    return if v.None? then Err(BadVersion) else Ok(v.value);
  }

  /** The related images and the rest of a blob, as the graph holds them. */
  function DataOf(lib: Lib, b: Bundle): BundleData {
    var v := BundleVersion(lib, b);
    BundleData(b.image, b.properties, b.relatedImages, b.csvJSON, b.objects, if v.Ok? then v.value else ZERO)
  }

  // ----- Looking things up -----

  function PackageNames(packages: seq<Package>): set<string> {
    if |packages| == 0 then {} else PackageNames(packages[..|packages| - 1]) + {packages[|packages| - 1].name}
  }

  function FindPackage(packages: seq<Package>, name: string): (r: Option<Package>)
    ensures r.Some? <==> name in PackageNames(packages)
    ensures r.Some? ==> r.value.name == name && r.value in packages
  {
    if |packages| == 0 then None
    else if packages[|packages| - 1].name == name then Some(packages[|packages| - 1])
    else FindPackage(packages[..|packages| - 1], name)
  }

  function ChannelNames(channels: seq<Channel>, pkg: string): set<string> {
    if |channels| == 0 then {}
    else ChannelNames(channels[..|channels| - 1], pkg)
         + if channels[|channels| - 1].pkg == pkg then {channels[|channels| - 1].name} else {}
  }

  function FindChannel(channels: seq<Channel>, pkg: string, name: string): (r: Option<Channel>)
    ensures r.Some? <==> name in ChannelNames(channels, pkg)
    ensures r.Some? ==> r.value.pkg == pkg && r.value.name == name && r.value in channels
  {
    if |channels| == 0 then None
    else
      var c := channels[|channels| - 1];
      if c.pkg == pkg && c.name == name then Some(c) else FindChannel(channels[..|channels| - 1], pkg, name)
  }

  function EntryNames(entries: seq<ChannelEntry>): set<string> {
    if |entries| == 0 then {} else EntryNames(entries[..|entries| - 1]) + {entries[|entries| - 1].name}
  }

  function FindEntry(entries: seq<ChannelEntry>, name: string): (r: Option<ChannelEntry>)
    ensures r.Some? <==> name in EntryNames(entries)
    ensures r.Some? ==> r.value.name == name && r.value in entries
  {
    if |entries| == 0 then None
    else if entries[|entries| - 1].name == name then Some(entries[|entries| - 1])
    else FindEntry(entries[..|entries| - 1], name)
  }

  function FindBundle(bundles: seq<Bundle>, pkg: string, name: string): (r: Option<Bundle>)
    ensures r.Some? ==> r.value.pkg == pkg && r.value.name == name && r.value in bundles
  {
    if |bundles| == 0 then None
    else
      var b := bundles[|bundles| - 1];
      if b.pkg == pkg && b.name == name then Some(b) else FindBundle(bundles[..|bundles| - 1], pkg, name)
  }

  /** What a deprecation can be about. */
  datatype Target = OfBundle(name: string) | OfChannel(name: string) | OfPackage

  function ReferenceTo(target: Target): Reference {
    match target
    case OfBundle(name) => Reference(SCHEMA_BUNDLE, name)
    case OfChannel(name) => Reference(SCHEMA_CHANNEL, name)
    case OfPackage => Reference(SCHEMA_PACKAGE, "")
  }

  function FindMessage(entries: seq<DeprecationEntry>, reference: Reference): Option<string> {
    if |entries| == 0 then None
    else if entries[|entries| - 1].reference == reference then Some(entries[|entries| - 1].message)
    else FindMessage(entries[..|entries| - 1], reference)
  }

  /** The deprecation message for something in a package, from the deprecation entry that names it. */
  function Message(deprecations: seq<Deprecation>, pkg: string, reference: Reference): Option<string> {
    if |deprecations| == 0 then None
    else if deprecations[|deprecations| - 1].pkg == pkg
         then FindMessage(deprecations[|deprecations| - 1].entries, reference)
    else Message(deprecations[..|deprecations| - 1], pkg, reference)
  }

  // ----- The graph -----

  /** What the bundle blobs and the deprecations say: the data of each bundle and each message, by package. */
  datatype View = View(data: (string, string) -> BundleData, note: (string, Target) -> Option<string>)

  function BundleAt(view: View, pkg: string, e: ChannelEntry): BundleVal {
    BundleVal(e, view.data(pkg, e.name), view.note(pkg, OfBundle(e.name)))
  }

  function ChannelAt(view: View, c: Channel): ChannelVal {
    ChannelVal(ChannelInfo(c.name, c.properties, view.note(c.pkg, OfChannel(c.name))),
               map n | n in EntryNames(c.entries) :: BundleAt(view, c.pkg, FindEntry(c.entries, n).value))
  }

  /** The channel a package has under a name: the one listed, or an empty one. */
  function ChannelUnder(view: View, channels: seq<Channel>, pkg: string, name: string): ChannelVal {
    var listed := FindChannel(channels, pkg, name);
    if listed.Some? then ChannelAt(view, listed.value)
    else ChannelVal(ChannelInfo(name, [], view.note(pkg, OfChannel(name))), map[])
  }

  /** The names of a package's channels: those listed, and the default channel once that was made up for. */
  function ChannelNamesAt(channels: seq<Channel>, defaulted: set<string>, p: Package): set<string> {
    ChannelNames(channels, p.name) + if p.defaultChannel != "" && p.name in defaulted then {p.defaultChannel} else {}
  }

  function PackageAt(view: View, channels: seq<Channel>, defaulted: set<string>, p: Package): PackageVal {
    PackageVal(
      PackageInfo(p.name, p.description, p.icon, view.note(p.name, OfPackage)),
      if p.defaultChannel in ChannelNamesAt(channels, defaulted, p) then Some(p.defaultChannel) else None,
      map n | n in ChannelNamesAt(channels, defaulted, p) :: ChannelUnder(view, channels, p.name, n))
  }

  function ModelWith(view: View, packages: seq<Package>, channels: seq<Channel>, defaulted: set<string>): ModelVal {
    map n | n in PackageNames(packages) :: PackageAt(view, channels, defaulted, FindPackage(packages, n).value)
  }

  function DataAt(lib: Lib, bundles: seq<Bundle>, pkg: string, name: string): BundleData {
    var blob := FindBundle(bundles, pkg, name);
    if blob.Some? then DataOf(lib, blob.value) else NO_DATA
  }

  function ViewOf(lib: Lib, bundles: seq<Bundle>, deprecations: seq<Deprecation>): View {
    View((pkg, name) => DataAt(lib, bundles, pkg, name),
         (pkg, target) => Message(deprecations, pkg, ReferenceTo(target)))
  }

  /** The graph of a whole configuration. */
  function ModelOf(lib: Lib, cfg: Config): ModelVal {
    ModelWith(ViewOf(lib, cfg.bundles, cfg.deprecations), cfg.packages, cfg.channels, PackageNames(cfg.packages))
  }

  /** Two graphs over the same packages, of which only `pkg` changes. */
  lemma ModelStep(view: View, view': View, packages: seq<Package>, channels: seq<Channel>, channels': seq<Channel>,
                  defaulted: set<string>, defaulted': set<string>, pkg: string, pv: PackageVal)
    requires pkg in PackageNames(packages)
    requires forall n :: n in PackageNames(packages) ==>
               PackageAt(view', channels', defaulted', FindPackage(packages, n).value)
               == if n == pkg then pv else PackageAt(view, channels, defaulted, FindPackage(packages, n).value)
    ensures ModelWith(view', packages, channels', defaulted')
            == ModelWith(view, packages, channels, defaulted)[pkg := pv]
  {
  }

  // ----- One more package -----

  ghost predicate Blank(view: View) {
    (forall pkg, name :: view.data(pkg, name) == NO_DATA) && forall pkg, target :: view.note(pkg, target) == None
  }

  lemma PackageNext(view: View, packages: seq<Package>, p: Package)
    requires p.name !in PackageNames(packages) && Blank(view)
    ensures ModelWith(view, packages + [p], [], {}) == ModelWith(view, packages, [], {})[p.name := PackageOf(p)]
  {
    assert (packages + [p])[..|packages|] == packages;
    assert PackageNames(packages + [p]) == PackageNames(packages) + {p.name};
    assert PackageAt(view, [], {}, p) == PackageOf(p);
  }

  // ----- One more channel -----

  lemma {:induction false} EntriesValIs(view: View, pkg: string, entries: seq<ChannelEntry>)
    requires Blank(view)
    ensures EntriesVal(entries) == map n | n in EntryNames(entries) :: BundleAt(view, pkg, FindEntry(entries, n).value)
  {
    if |entries| != 0 {
      EntriesValIs(view, pkg, entries[..|entries| - 1]);
    }
  }

  lemma ChannelOfIs(view: View, c: Channel)
    requires Blank(view)
    ensures ChannelAt(view, c) == ChannelOf(c)
  {
    EntriesValIs(view, c.pkg, c.entries);
  }

  lemma ChannelUnderNext(view: View, channels: seq<Channel>, c: Channel, pkg: string, n: string)
    requires Blank(view)
    ensures ChannelUnder(view, channels + [c], pkg, n)
         == if c.pkg == pkg && c.name == n then ChannelOf(c) else ChannelUnder(view, channels, pkg, n)
  {
    assert (channels + [c])[..|channels|] == channels;
    ChannelOfIs(view, c);
  }

  lemma PackagePut(v: PackageVal, v': PackageVal, c: ChannelVal, defaultName: string)
    requires v'.info == v.info && v'.channels.Keys == v.channels.Keys + {c.info.name}
    requires v'.channels[c.info.name] == c
    requires forall n :: n in v.channels && n != c.info.name ==> v'.channels[n] == v.channels[n]
    requires v'.defaultChannel == if c.info.name == defaultName then Some(defaultName) else v.defaultChannel
    ensures v' == PutChannel(v, c, defaultName)
  {
  }

  /** A package and one more channel: its own, which it did not have yet, or another package's. */
  lemma PackageChannelNext(view: View, channels: seq<Channel>, p: Package, c: Channel)
    requires Blank(view) && (c.pkg == p.name ==> c.name !in ChannelNames(channels, p.name))
    ensures PackageAt(view, channels + [c], {}, p)
         == if c.pkg == p.name then PutChannel(PackageAt(view, channels, {}, p), ChannelOf(c), p.defaultChannel)
            else PackageAt(view, channels, {}, p)
  {
    var v, v' := PackageAt(view, channels, {}, p), PackageAt(view, channels + [c], {}, p);
    ChannelNamesNext(channels, c, p.name);
    forall n
      ensures ChannelUnder(view, channels + [c], p.name, n)
           == if c.pkg == p.name && c.name == n then ChannelOf(c) else ChannelUnder(view, channels, p.name, n)
    {
      ChannelUnderNext(view, channels, c, p.name, n);
    }
    if c.pkg == p.name {
      PackagePut(v, v', ChannelOf(c), p.defaultChannel);
    }
  }

  lemma ChannelNamesNext(channels: seq<Channel>, c: Channel, pkg: string)
    ensures ChannelNames(channels + [c], pkg) == ChannelNames(channels, pkg) + if c.pkg == pkg then {c.name} else {}
  {
    assert (channels + [c])[..|channels|] == channels;
  }

  lemma ChannelNext(view: View, packages: seq<Package>, channels: seq<Channel>, c: Channel)
    requires Blank(view) && c.pkg in PackageNames(packages) && c.name !in ChannelNames(channels, c.pkg)
    ensures var v := ModelWith(view, packages, channels, {});
            ModelWith(view, packages, channels + [c], {})
            == v[c.pkg := PutChannel(v[c.pkg], ChannelOf(c), FindPackage(packages, c.pkg).value.defaultChannel)]
  {
    var p := FindPackage(packages, c.pkg).value;
    var pv := PutChannel(PackageAt(view, channels, {}, p), ChannelOf(c), p.defaultChannel);
    forall n | n in PackageNames(packages)
      ensures PackageAt(view, channels + [c], {}, FindPackage(packages, n).value)
           == if n == c.pkg then pv else PackageAt(view, channels, {}, FindPackage(packages, n).value)
    {
      PackageChannelNext(view, channels, FindPackage(packages, n).value, c);
    }
    ModelStep(view, view, packages, channels, channels + [c], {}, {}, c.pkg, pv);
  }

  // ----- One more bundle -----

  /** The second view has the data of one bundle that the first lacks. */
  ghost predicate Fills(view: View, view': View, pkg: string, name: string, data: BundleData) {
    && view'.note == view.note
    && forall q, n :: view'.data(q, n) == if q == pkg && n == name then data else view.data(q, n)
  }

  lemma BundleFills(lib: Lib, bundles: seq<Bundle>, deprecations: seq<Deprecation>, b: Bundle)
    ensures Fills(ViewOf(lib, bundles, deprecations), ViewOf(lib, bundles + [b], deprecations), b.pkg, b.name,
                  DataOf(lib, b))
  {
    assert (bundles + [b])[..|bundles|] == bundles;
    assert forall q, n :: DataAt(lib, bundles + [b], q, n)
                          == if q == b.pkg && n == b.name then DataOf(lib, b) else DataAt(lib, bundles, q, n);
  }

  lemma ChannelFilled(view: View, view': View, pkg: string, name: string, data: BundleData, c: Channel)
    requires Fills(view, view', pkg, name, data)
    ensures ChannelAt(view', c)
         == if c.pkg == pkg then ChangedChannel(ChannelAt(view, c), name, SetData(data)) else ChannelAt(view, c)
  {
  }

  lemma PackageFilled(view: View, view': View, pkg: string, name: string, data: BundleData, channels: seq<Channel>,
                      p: Package)
    requires Fills(view, view', pkg, name, data)
    ensures PackageAt(view', channels, {}, p)
         == if p.name == pkg then ChangedPackage(PackageAt(view, channels, {}, p), name, SetData(data))
            else PackageAt(view, channels, {}, p)
  {
    forall n
      ensures ChannelUnder(view', channels, p.name, n)
           == if p.name == pkg then ChangedChannel(ChannelUnder(view, channels, p.name, n), name, SetData(data))
              else ChannelUnder(view, channels, p.name, n)
    {
      var listed := FindChannel(channels, p.name, n);
      if listed.Some? {
        ChannelFilled(view, view', pkg, name, data, listed.value);
      }
    }
  }

  lemma ModelFilled(view: View, view': View, pkg: string, name: string, data: BundleData, packages: seq<Package>,
                    channels: seq<Channel>)
    requires Fills(view, view', pkg, name, data) && pkg in PackageNames(packages)
    ensures var v := ModelWith(view, packages, channels, {});
            ModelWith(view', packages, channels, {}) == v[pkg := ChangedPackage(v[pkg], name, SetData(data))]
  {
    var pv := ChangedPackage(PackageAt(view, channels, {}, FindPackage(packages, pkg).value), name, SetData(data));
    forall n | n in PackageNames(packages)
      ensures PackageAt(view', channels, {}, FindPackage(packages, n).value)
           == if n == pkg then pv else PackageAt(view, channels, {}, FindPackage(packages, n).value)
    {
      PackageFilled(view, view', pkg, name, data, channels, FindPackage(packages, n).value);
    }
    ModelStep(view, view', packages, channels, channels, {}, {}, pkg, pv);
  }

  // ----- One more default channel -----

  /** `n` is added to the packages that have their default channel, after giving it one if it lacks it. */
  lemma PackageDefaultNext(view: View, channels: seq<Channel>, defaulted: set<string>, p: Package, n: string)
    requires n !in defaulted && view.note(p.name, OfChannel(p.defaultChannel)) == None
    ensures PackageAt(view, channels, defaulted + {n}, p)
         == if p.name == n && p.defaultChannel != "" && p.defaultChannel !in ChannelNames(channels, n)
            then PutChannel(PackageAt(view, channels, defaulted, p), EmptyChannel(p.defaultChannel), p.defaultChannel)
            else PackageAt(view, channels, defaulted, p)
  {
    var v, v' := PackageAt(view, channels, defaulted, p), PackageAt(view, channels, defaulted + {n}, p);
    if p.name == n && p.defaultChannel != "" && p.defaultChannel !in ChannelNames(channels, n) {
      PackagePut(v, v', EmptyChannel(p.defaultChannel), p.defaultChannel);
    } else {
      assert ChannelNamesAt(channels, defaulted + {n}, p) == ChannelNamesAt(channels, defaulted, p);
    }
  }

  lemma DefaultNext(view: View, packages: seq<Package>, channels: seq<Channel>, defaulted: set<string>, n: string)
    requires n in PackageNames(packages) && n !in defaulted && forall pkg, target :: view.note(pkg, target) == None
    ensures var name := FindPackage(packages, n).value.defaultChannel;
            var v := ModelWith(view, packages, channels, defaulted);
            && ModelWith(view, packages, channels, defaulted + {n})
               == (if name != "" && v[n].defaultChannel.None? then v[n := PutChannel(v[n], EmptyChannel(name), name)]
                   else v)
            && (v[n].defaultChannel.None? ==> name !in v[n].channels)
  {
    var p := FindPackage(packages, n).value;
    var before := PackageAt(view, channels, defaulted, p);
    var pv := if p.defaultChannel != "" && p.defaultChannel !in ChannelNames(channels, n)
              then PutChannel(before, EmptyChannel(p.defaultChannel), p.defaultChannel) else before;
    forall q | q in PackageNames(packages)
      ensures PackageAt(view, channels, defaulted + {n}, FindPackage(packages, q).value)
           == if q == n then pv else PackageAt(view, channels, defaulted, FindPackage(packages, q).value)
    {
      PackageDefaultNext(view, channels, defaulted, FindPackage(packages, q).value, n);
    }
    ModelStep(view, view, packages, channels, channels, defaulted, defaulted + {n}, n, pv);
    var v := ModelWith(view, packages, channels, defaulted);
    assert v[n := before] == v;
  }

  // ----- One more deprecation -----

  /** The second view has one more message. */
  ghost predicate Deprecates(view: View, view': View, pkg: string, target: Target, message: string) {
    && view'.data == view.data
    && forall q, t :: view'.note(q, t) == if q == pkg && t == target then Some(message) else view.note(q, t)
  }

  lemma ReferencesDiffer(t: Target, t': Target)
    ensures ReferenceTo(t) == ReferenceTo(t') <==> t == t'
  {
    assert SCHEMA_BUNDLE[4] == 'b' && SCHEMA_CHANNEL[4] == 'c' && SCHEMA_PACKAGE[4] == 'p';
  }

  lemma MessageNext(before: seq<Deprecation>, d: Deprecation, e: DeprecationEntry, pkg: string, r: Reference)
    ensures Message(before + [d.(entries := d.entries + [e])], pkg, r)
         == if pkg == d.pkg && r == e.reference then Some(e.message) else Message(before + [d], pkg, r)
  {
    assert (d.entries + [e])[..|d.entries|] == d.entries;
    assert (before + [d])[..|before|] == before;
    assert (before + [d.(entries := d.entries + [e])])[..|before|] == before;
  }

  lemma EntryDeprecates(lib: Lib, bundles: seq<Bundle>, before: seq<Deprecation>, d: Deprecation, e: DeprecationEntry,
                        target: Target)
    requires e.reference == ReferenceTo(target)
    ensures Deprecates(ViewOf(lib, bundles, before + [d]),
                       ViewOf(lib, bundles, before + [d.(entries := d.entries + [e])]),
                       d.pkg, target, e.message)
  {
    forall q, t
      ensures Message(before + [d.(entries := d.entries + [e])], q, ReferenceTo(t))
           == if q == d.pkg && t == target then Some(e.message) else Message(before + [d], q, ReferenceTo(t))
    {
      MessageNext(before, d, e, q, ReferenceTo(t));
      ReferencesDiffer(t, target);
    }
  }

  function DeprecatedPackages(deprecations: seq<Deprecation>): set<string> {
    if |deprecations| == 0 then {}
    else DeprecatedPackages(deprecations[..|deprecations| - 1]) + {deprecations[|deprecations| - 1].pkg}
  }

  lemma {:induction false} NoMessage(deprecations: seq<Deprecation>, pkg: string, reference: Reference)
    requires pkg !in DeprecatedPackages(deprecations)
    ensures Message(deprecations, pkg, reference) == None
  {
    if |deprecations| != 0 {
      NoMessage(deprecations[..|deprecations| - 1], pkg, reference);
    }
  }

  /** A deprecation says nothing before its first entry. */
  lemma DeprecationNext(lib: Lib, bundles: seq<Bundle>, before: seq<Deprecation>, d: Deprecation,
                        packages: seq<Package>, channels: seq<Channel>, defaulted: set<string>)
    requires d.pkg !in DeprecatedPackages(before) && d.entries == []
    ensures ModelWith(ViewOf(lib, bundles, before + [d]), packages, channels, defaulted)
         == ModelWith(ViewOf(lib, bundles, before), packages, channels, defaulted)
  {
    forall q, r
      ensures Message(before + [d], q, r) == Message(before, q, r)
    {
      assert (before + [d])[..|before|] == before;
      if q == d.pkg {
        NoMessage(before, q, r);
      }
    }
    SameView(ViewOf(lib, bundles, before), ViewOf(lib, bundles, before + [d]), packages, channels, defaulted);
  }

  lemma SameView(view: View, view': View, packages: seq<Package>, channels: seq<Channel>, defaulted: set<string>)
    requires view'.data == view.data && forall q, t :: view'.note(q, t) == view.note(q, t)
    ensures ModelWith(view', packages, channels, defaulted) == ModelWith(view, packages, channels, defaulted)
  {
    forall p: Package
      ensures PackageAt(view', channels, defaulted, p) == PackageAt(view, channels, defaulted, p)
    {
      forall c: Channel
        ensures ChannelAt(view', c) == ChannelAt(view, c)
      {
      }
    }
  }

  ghost function DeprecatedInfo(v: ChannelVal, message: string): ChannelVal {
    v.(info := v.info.(deprecation := Some(message)))
  }

  /** What a deprecation in its package does to a channel. */
  ghost function DeprecatedUnder(v: ChannelVal, target: Target, message: string): ChannelVal {
    match target
    case OfBundle(name) => ChangedChannel(v, name, SetDeprecation(message))
    case OfChannel(name) => if name == v.info.name then DeprecatedInfo(v, message) else v
    case OfPackage => v
  }

  lemma BundlesDeprecated(view: View, view': View, pkg: string, target: Target, message: string, c: Channel)
    requires Deprecates(view, view', pkg, target, message)
    ensures ChannelAt(view', c).bundles
         == if c.pkg == pkg && target.OfBundle?
            then ChangedChannel(ChannelAt(view, c), target.name, SetDeprecation(message)).bundles
            else ChannelAt(view, c).bundles
  {
  }

  lemma ChannelDeprecated(view: View, view': View, pkg: string, target: Target, message: string, c: Channel)
    requires Deprecates(view, view', pkg, target, message)
    ensures ChannelAt(view', c)
            == if c.pkg == pkg then DeprecatedUnder(ChannelAt(view, c), target, message) else ChannelAt(view, c)
  {
    BundlesDeprecated(view, view', pkg, target, message, c);
    var v, v' := ChannelAt(view, c), ChannelAt(view', c);
    assert v'.info == if c.pkg == pkg && target == OfChannel(c.name) then v.info.(deprecation := Some(message))
                      else v.info;
  }

  /** What a deprecation does to its package. */
  ghost function DeprecatedIn(v: PackageVal, target: Target, message: string): PackageVal
    requires target.OfChannel? ==> target.name in v.channels
  {
    match target
    case OfBundle(name) => ChangedPackage(v, name, SetDeprecation(message))
    case OfChannel(name) => DeprecatedChannel(v, name, message)
    case OfPackage => v.(info := v.info.(deprecation := Some(message)))
  }

  lemma ChannelUnderDeprecated(view: View, view': View, pkg: string, target: Target, message: string,
                               channels: seq<Channel>, q: string, n: string)
    requires Deprecates(view, view', pkg, target, message)
    ensures ChannelUnder(view', channels, q, n)
         == if q == pkg then DeprecatedUnder(ChannelUnder(view, channels, q, n), target, message)
            else ChannelUnder(view, channels, q, n)
  {
    var listed := FindChannel(channels, q, n);
    if listed.Some? {
      ChannelDeprecated(view, view', pkg, target, message, listed.value);
    }
  }

  /** A deprecation in the package acts on each channel. */
  lemma DeprecatedChannels(v: PackageVal, v': PackageVal, target: Target, message: string)
    requires target.OfChannel? ==> target.name in v.channels
    requires forall k :: k in v.channels ==> v.channels[k].info.name == k
    requires v'.defaultChannel == v.defaultChannel && v'.channels.Keys == v.channels.Keys
    requires forall k :: k in v.channels ==> v'.channels[k] == DeprecatedUnder(v.channels[k], target, message)
    requires v'.info == if target.OfPackage? then v.info.(deprecation := Some(message)) else v.info
    ensures v' == DeprecatedIn(v, target, message)
  {
    assert v'.channels == DeprecatedIn(v, target, message).channels;
  }

  lemma PackageDeprecated(view: View, view': View, pkg: string, target: Target, message: string,
                          channels: seq<Channel>, defaulted: set<string>, p: Package)
    requires Deprecates(view, view', pkg, target, message)
    requires p.name == pkg && target.OfChannel? ==> target.name in ChannelNamesAt(channels, defaulted, p)
    ensures PackageAt(view', channels, defaulted, p)
         == if p.name == pkg then DeprecatedIn(PackageAt(view, channels, defaulted, p), target, message)
            else PackageAt(view, channels, defaulted, p)
  {
    forall n
      ensures ChannelUnder(view', channels, p.name, n)
           == if p.name == pkg then DeprecatedUnder(ChannelUnder(view, channels, p.name, n), target, message)
              else ChannelUnder(view, channels, p.name, n)
    {
      ChannelUnderDeprecated(view, view', pkg, target, message, channels, p.name, n);
    }
    if p.name == pkg {
      DeprecatedChannels(PackageAt(view, channels, defaulted, p), PackageAt(view', channels, defaulted, p), target,
                         message);
    }
  }

  lemma ModelDeprecated(view: View, view': View, pkg: string, target: Target, message: string,
                        packages: seq<Package>, channels: seq<Channel>, defaulted: set<string>)
    requires Deprecates(view, view', pkg, target, message) && pkg in PackageNames(packages)
    requires target.OfChannel? ==> target.name in ModelWith(view, packages, channels, defaulted)[pkg].channels
    ensures var v := ModelWith(view, packages, channels, defaulted);
            ModelWith(view', packages, channels, defaulted) == v[pkg := DeprecatedIn(v[pkg], target, message)]
  {
    var pv := DeprecatedIn(ModelWith(view, packages, channels, defaulted)[pkg], target, message);
    forall n | n in PackageNames(packages)
      ensures PackageAt(view', channels, defaulted, FindPackage(packages, n).value)
           == if n == pkg then pv else PackageAt(view, channels, defaulted, FindPackage(packages, n).value)
    {
      PackageDeprecated(view, view', pkg, target, message, channels, defaulted, FindPackage(packages, n).value);
    }
    ModelStep(view, view', packages, channels, channels, defaulted, defaulted, pkg, pv);
  }
}
