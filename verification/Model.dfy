/** The package graph: packages hold channels, channels hold bundles, and channels and bundles point back. */
module Model {
  import opened Declcfg
  import opened Semver

  // ----- The graph as a value -----

  /** What a bundle blob contributes to each channel entry of its name. */
  datatype BundleData = BundleData(
    image: string, properties: seq<Property>, relatedImages: seq<RelatedImage>, csvJSON: string,
        objects: seq<string>, version: Version)

  const NO_DATA := BundleData("", [], [], "", [], ZERO)

  datatype BundleVal = BundleVal(entry: ChannelEntry, data: BundleData, deprecation: Option<string>)

  datatype ChannelInfo = ChannelInfo(name: string, properties: seq<Property>, deprecation: Option<string>)

  datatype ChannelVal = ChannelVal(info: ChannelInfo, bundles: map<string, BundleVal>)

  datatype PackageInfo = PackageInfo(name: string, description: string, icon: Option<Icon>, deprecation: Option<string>)

  datatype PackageVal = PackageVal(info: PackageInfo, defaultChannel: Option<string>, channels: map<string, ChannelVal>)

  type ModelVal = map<string, PackageVal>

  // ----- The graph in memory -----

  /** `val` holds the fields that are plain values. */
  class MBundle {
    var pkg: MPackage
    var channel: MChannel
    var val: BundleVal

    constructor (pkg: MPackage, channel: MChannel, entry: ChannelEntry)
      ensures this.pkg == pkg && this.channel == channel && val == BundleVal(entry, NO_DATA, None)
    {
      this.pkg, this.channel, val := pkg, channel, BundleVal(entry, NO_DATA, None);
    }
  }

  class MChannel {
    var pkg: MPackage
    var info: ChannelInfo
    var bundles: map<string, MBundle>

    constructor (pkg: MPackage, name: string, properties: seq<Property>)
      ensures this.pkg == pkg && info == ChannelInfo(name, properties, None) && bundles == map[]
    {
      this.pkg, info, bundles := pkg, ChannelInfo(name, properties, None), map[];
    }
  }

  class MPackage {
    var info: PackageInfo
    var defaultChannel: MChannel?
    var channels: map<string, MChannel>

    constructor (name: string, description: string, icon: Option<Icon>)
      ensures info == PackageInfo(name, description, icon, None) && defaultChannel == null && channels == map[]
    {
      info, defaultChannel, channels := PackageInfo(name, description, icon, None), null, map[];
    }
  }

  // ----- What the graph in memory stands for -----

  // Each of these says that the objects stand for a value, point to each other as they should, and belong to
  // `region`.

  ghost predicate IsBundle(b: MBundle, c: MChannel, p: MPackage, v: BundleVal, region: set<object>)
    reads b
  {
    b in region && b.pkg == p && b.channel == c && b.val == v
  }

  ghost predicate IsChannel(c: MChannel, p: MPackage, v: ChannelVal, region: set<object>)
    reads c, c.bundles.Values
  {
    && c in region && c.pkg == p && c.info == v.info
    && c.bundles.Keys == v.bundles.Keys
    && forall n :: n in v.bundles ==> n == v.bundles[n].entry.name && IsBundle(c.bundles[n], c, p, v.bundles[n], region)
  }

  ghost predicate IsPackage(p: MPackage, v: PackageVal, region: set<object>)
    reads p, p.channels.Values, set c, b | c in p.channels.Values && b in c.bundles.Values :: b
  {
    && p in region && p.info == v.info
    && p.channels.Keys == v.channels.Keys
    && (forall n :: n in v.channels ==>
          n == v.channels[n].info.name && IsChannel(p.channels[n], p, v.channels[n], region))
    && (p.defaultChannel == null <==> v.defaultChannel.None?)
    && (v.defaultChannel.Some? ==>
          v.defaultChannel.value in p.channels && p.defaultChannel == p.channels[v.defaultChannel.value])
  }

  ghost predicate IsModel(m: map<string, MPackage>, v: ModelVal, region: set<object>)
    reads m.Values, set p, c | p in m.Values && c in p.channels.Values :: c,
          set p, c, b | p in m.Values && c in p.channels.Values && b in c.bundles.Values :: b
  {
    m.Keys == v.Keys && forall n :: n in v ==> n == v[n].info.name && IsPackage(m[n], v[n], region)
  }

  // ----- The objects a graph is made of -----

  /** The bundles of a package. */
  ghost function BundlesOf(p: MPackage): set<MBundle>
    reads p, p.channels.Values
  {
    set c, b | c in p.channels.Values && b in c.bundles.Values :: b
  }

  // ----- Building it -----

  /** Adds a bundle without data for an entry. */
  method AddEntry(p: MPackage, c: MChannel, e: ChannelEntry, ghost v: ChannelVal, ghost region: set<object>)
    returns (ghost region': set<object>)
    requires IsChannel(c, p, v, region) && e.name !in v.bundles
    modifies c
    ensures region <= region' && fresh(region' - region)
    ensures IsChannel(c, p, v.(bundles := v.bundles[e.name := BundleVal(e, NO_DATA, None)]), region')
  {
    var b := new MBundle(p, c, e);
    c.bundles := c.bundles[e.name := b];
    region' := region + {b};
  }

  function EntriesVal(entries: seq<ChannelEntry>): map<string, BundleVal> {
    if |entries| == 0 then map[]
    else
      var e := entries[|entries| - 1];
      EntriesVal(entries[..|entries| - 1])[e.name := BundleVal(e, NO_DATA, None)]
  }

  /** No entry has the name of an earlier one. */
  ghost predicate DistinctEntries(entries: seq<ChannelEntry>) {
    forall i :: 0 <= i < |entries| ==> entries[i].name !in EntriesVal(entries[..i])
  }

  lemma DistinctEntriesNext(entries: seq<ChannelEntry>, e: ChannelEntry)
    requires DistinctEntries(entries) && e.name !in EntriesVal(entries)
    ensures DistinctEntries(entries + [e])
  {
    forall i | 0 <= i <= |entries|
      ensures (entries + [e])[..i] == entries[..i]
    {
    }
    assert entries[..|entries|] == entries;
  }

  lemma PrefixNext<T>(s: seq<T>, i: nat)
    requires i < |s|
    ensures s[..i + 1] == s[..i] + [s[i]]
  {
  }

  /** Adds a bundle for each entry, unless two have the same name. */
  method AddEntries(p: MPackage, c: MChannel, entries: seq<ChannelEntry>, ghost v: ChannelVal,
                    ghost region: set<object>)
    returns (ok: bool, ghost region': set<object>)
    requires IsChannel(c, p, v, region) && v.bundles == map[]
    modifies c
    ensures ok <==> DistinctEntries(entries)
    ensures region <= region' && fresh(region' - region)
    ensures ok ==> IsChannel(c, p, v.(bundles := EntriesVal(entries)), region')
  {
    region' := region;
    for i := 0 to |entries|
      invariant DistinctEntries(entries[..i])
      invariant region <= region' && fresh(region' - region)
      invariant IsChannel(c, p, v.(bundles := EntriesVal(entries[..i])), region')
    {
      PrefixNext(entries, i);
      if entries[i].name in c.bundles {
        DuplicateEntry(entries, i);
        return false, region';
      }
      DistinctEntriesNext(entries[..i], entries[i]);
      region' := AddEntry(p, c, entries[i], v.(bundles := EntriesVal(entries[..i])), region');
    }
    assert entries[..|entries|] == entries;
    ok := true;
  }

  lemma DuplicateEntry(entries: seq<ChannelEntry>, i: nat)
    requires i < |entries| && entries[i].name in EntriesVal(entries[..i])
    ensures !DistinctEntries(entries)
  {
  }

  function ChannelOf(c: Channel): ChannelVal {
    ChannelVal(ChannelInfo(c.name, c.properties, None), EntriesVal(c.entries))
  }

  /** The package with one more channel, which is its default if it bears that name. */
  function PutChannel(v: PackageVal, c: ChannelVal, defaultName: string): PackageVal {
    v.(channels := v.channels[c.info.name := c],
       defaultChannel := if c.info.name == defaultName then Some(c.info.name) else v.defaultChannel)
  }

  datatype ChannelError = NoChannelName | DuplicateChannel | DuplicateEntryName

  method MakeChannel(p: MPackage, c: Channel) returns (mch: MChannel?, ghost objects: set<object>)
    ensures mch == null <==> !DistinctEntries(c.entries)
    ensures fresh(objects) && (mch != null ==> IsChannel(mch, p, ChannelOf(c), objects))
  {
    mch := new MChannel(p, c.name, c.properties);
    var ok;
    ok, objects := AddEntries(p, mch, c.entries, ChannelVal(ChannelInfo(c.name, c.properties, None), map[]), {mch});
    if !ok {
      mch := null;
    }
  }

  /** Enters a channel into its package. */
  method LinkChannel(p: MPackage, mch: MChannel, defaultName: string, ghost v: PackageVal, ghost cv: ChannelVal,
                     ghost region: set<object>, ghost objects: set<object>)
    requires IsPackage(p, v, region) && IsChannel(mch, p, cv, objects) && cv.info.name !in v.channels
    modifies p
    ensures IsPackage(p, PutChannel(v, cv, defaultName), region + objects)
  {
    p.channels := p.channels[mch.info.name := mch];
    if defaultName == mch.info.name {
      p.defaultChannel := mch;
    }
  }

  method AddChannel(p: MPackage, c: Channel, defaultName: string, ghost v: PackageVal, ghost region: set<object>)
    returns (err: Option<ChannelError>, ghost objects: set<object>)
    requires IsPackage(p, v, region)
    modifies p
    ensures err == if c.name == "" then Some(NoChannelName)
                   else if c.name in v.channels then Some(DuplicateChannel)
                   else if !DistinctEntries(c.entries) then Some(DuplicateEntryName) else None
    ensures fresh(objects)
    ensures err.None? ==> IsPackage(p, PutChannel(v, ChannelOf(c), defaultName), region + objects)
  {
    objects := {};
    if c.name == "" {
      return Some(NoChannelName), objects;
    }
    if c.name in p.channels {
      return Some(DuplicateChannel), objects;
    }
    var mch;
    mch, objects := MakeChannel(p, c);
    if mch == null {
      return Some(DuplicateEntryName), objects;
    }
    LinkChannel(p, mch, defaultName, v, ChannelOf(c), region, objects);
    err := None;
  }

  /** Only the package `name` stands for something else now. */
  lemma ModelUpdated(m: map<string, MPackage>, v: ModelVal, name: string, pv: PackageVal, region: set<object>)
    requires m.Keys == v.Keys && name in v && pv.info.name == name && IsPackage(m[name], pv, region)
    requires forall n :: n in v && n != name ==> n == v[n].info.name && IsPackage(m[n], v[n], region)
    ensures IsModel(m, v[name := pv], region)
  {
  }

  lemma PackageGrows(p: MPackage, v: PackageVal, region: set<object>, objects: set<object>)
    requires IsPackage(p, v, region)
    ensures IsPackage(p, v, region + objects)
  {
  }

  method AddChannelTo(m: map<string, MPackage>, c: Channel, defaultName: string, ghost v: ModelVal,
                      ghost region: set<object>)
    returns (err: Option<ChannelError>, ghost objects: set<object>)
    requires IsModel(m, v, region) && c.pkg in m
    modifies m[c.pkg]
    ensures err == if c.name == "" then Some(NoChannelName)
                   else if c.name in v[c.pkg].channels then Some(DuplicateChannel)
                   else if !DistinctEntries(c.entries) then Some(DuplicateEntryName) else None
    ensures fresh(objects)
    ensures err.None? ==> IsModel(m, v[c.pkg := PutChannel(v[c.pkg], ChannelOf(c), defaultName)], region + objects)
  {
    ghost var q := m[c.pkg];
    assert forall n :: n in v && n != c.pkg ==> m[n] != q;
    err, objects := AddChannel(m[c.pkg], c, defaultName, v[c.pkg], region);
    if err.Some? {
      return;
    }
    forall n | n in v && n != c.pkg
      ensures IsPackage(m[n], v[n], region + objects)
    {
      assert old(IsPackage(m[n], v[n], region));
      PackageGrows(m[n], v[n], region, objects);
    }
    ModelUpdated(m, v, c.pkg, PutChannel(v[c.pkg], ChannelOf(c), defaultName), region + objects);
  }

  // ----- Changing bundles in place -----

  /** Changes the plain values of one bundle. */
  method SetBundle(p: MPackage, k: string, name: string, val: BundleVal, ghost v: PackageVal, ghost region: set<object>)
    requires IsPackage(p, v, region) && k in v.channels && name in v.channels[k].bundles
             && val.entry == v.channels[k].bundles[name].entry
    modifies p.channels[k].bundles[name]
    ensures var c := v.channels[k].(bundles := v.channels[k].bundles[name := val]);
            IsPackage(p, v.(channels := v.channels[k := c]), region)
  {
    var c := p.channels[k];
    var b := c.bundles[name];
    assert IsChannel(c, p, v.channels[k], region);
    b.val := val;
    ghost var cv := v.channels[k].(bundles := v.channels[k].bundles[name := val]);
    assert IsChannel(c, p, cv, region);
    forall n | n in v.channels && n != k
      ensures IsChannel(p.channels[n], p, v.channels[n], region)
    {
      assert old(IsChannel(p.channels[n], p, v.channels[n], region));
    }
  }

  /** What a conversion changes in a bundle after creating it. */
  datatype Change = SetData(data: BundleData) | SetDeprecation(message: string)

  function Changed(v: BundleVal, change: Change): BundleVal {
    match change
    case SetData(data) => v.(data := data)
    case SetDeprecation(message) => v.(deprecation := Some(message))
  }

  function ChangedChannel(v: ChannelVal, name: string, change: Change): ChannelVal {
    if name in v.bundles then v.(bundles := v.bundles[name := Changed(v.bundles[name], change)]) else v
  }

  /** The change to the bundle `name`, made in those channels that are in `done`. */
  function ChangedChannels(channels: map<string, ChannelVal>, done: set<string>, name: string,
                           change: Change): map<string, ChannelVal> {
    map k | k in channels :: if k in done then ChangedChannel(channels[k], name, change) else channels[k]
  }

  function ChangedPackage(v: PackageVal, name: string, change: Change): PackageVal {
    v.(channels := ChangedChannels(v.channels, v.channels.Keys, name, change))
  }

  ghost predicate HasBundle(v: PackageVal, name: string) {
    FoundIn(v.channels, v.channels.Keys, name)
  }

  ghost predicate FoundIn(channels: map<string, ChannelVal>, done: set<string>, name: string) {
    exists k :: k in done && k in channels && name in channels[k].bundles
  }

  lemma FoundNext(channels: map<string, ChannelVal>, done: set<string>, name: string, k: string)
    requires k in channels
    ensures FoundIn(channels, done + {k}, name) <==> FoundIn(channels, done, name) || name in channels[k].bundles
  {
  }

  /** Taking one element off what is left. */
  lemma DoneNext<T>(all: set<T>, left: set<T>, k: T)
    requires left <= all && k in left
    ensures all - (left - {k}) == all - left + {k}
  {
  }

  /** The body of the loop below. */
  method ChangeBundleIn(p: MPackage, k: string, name: string, change: Change, ghost v: PackageVal,
                        ghost region: set<object>) returns (found: bool)
    requires IsPackage(p, v, region) && k in v.channels
    modifies BundlesOf(p)
    ensures found <==> name in v.channels[k].bundles
    ensures BundlesOf(p) == old(BundlesOf(p))
    ensures IsPackage(p, v.(channels := v.channels[k := ChangedChannel(v.channels[k], name, change)]), region)
  {
    assert IsChannel(p.channels[k], p, v.channels[k], region);
    found := name in p.channels[k].bundles;
    if found {
      var b := p.channels[k].bundles[name];
      assert p.channels[k] in p.channels.Values && b in p.channels[k].bundles.Values;
      SetBundle(p, k, name, Changed(b.val, change), v, region);
    } else {
      assert v.channels[k := v.channels[k]] == v.channels;
    }
  }

  lemma ChangedChannelsNext(channels: map<string, ChannelVal>, done: set<string>, name: string, change: Change,
                            k: string)
    requires k in channels && k !in done
    ensures ChangedChannels(channels, done + {k}, name, change)
         == ChangedChannels(channels, done, name,
                            change)[k := ChangedChannel(ChangedChannels(channels, done, name, change)[k], name, change)]
  {
  }

  /** Makes a change to the bundle `name` in every channel that has it, ranging over the channels in any order. */
  method ChangeBundles(p: MPackage, name: string, change: Change, ghost v: PackageVal, ghost region: set<object>)
    returns (found: bool)
    requires IsPackage(p, v, region)
    modifies BundlesOf(p)
    ensures IsPackage(p, ChangedPackage(v, name, change), region)
    ensures found <==> HasBundle(v, name)
  {
    found := false;
    var left := p.channels.Keys;
    ghost var all := v.channels.Keys;
    assert ChangedChannels(v.channels, all - left, name, change) == v.channels;
    while left != {}
      invariant left <= all
      invariant BundlesOf(p) == old(BundlesOf(p))
      invariant IsPackage(p, v.(channels := ChangedChannels(v.channels, all - left, name, change)), region)
      invariant found <==> FoundIn(v.channels, all - left, name)
      decreases left
    {
      var k :| k in left;
      ChangedChannelsNext(v.channels, all - left, name, change, k);
      var here := ChangeBundleIn(p, k, name, change,
                                 v.(channels := ChangedChannels(v.channels, all - left, name, change)), region);
      found := found || here;
      DoneNext(all, left, k);
      FoundNext(v.channels, all - left, name, k);
      left := left - {k};
    }
    assert all - left == all;
  }

  method ChangeBundlesOf(m: map<string, MPackage>, pkg: string, name: string, change: Change, ghost v: ModelVal,
                         ghost region: set<object>) returns (found: bool)
    requires IsModel(m, v, region) && pkg in m
    modifies BundlesOf(m[pkg])
    ensures found <==> HasBundle(v[pkg], name)
    ensures IsModel(m, v[pkg := ChangedPackage(v[pkg], name, change)], region)
  {
    BundlesApart(m, v, pkg, region);
    found := ChangeBundles(m[pkg], name, change, v[pkg], region);
    forall n | n in v && n != pkg
      ensures IsPackage(m[n], v[n], region)
    {
      assert old(IsPackage(m[n], v[n], region));
    }
    ModelUpdated(m, v, pkg, ChangedPackage(v[pkg], name, change), region);
  }

  /** Packages share no bundles. */
  lemma BundlesApart(m: map<string, MPackage>, v: ModelVal, pkg: string, region: set<object>)
    requires IsModel(m, v, region) && pkg in v
    ensures forall n :: n in v && n != pkg ==> BundlesOf(m[n]) !! BundlesOf(m[pkg])
  {
    forall n, b | n in v && b in BundlesOf(m[n])
      ensures b.pkg == m[n]
    {
      BundleOwner(m[n], v[n], b, region);
    }
  }

  lemma BundleOwner(p: MPackage, v: PackageVal, b: MBundle, region: set<object>)
    requires IsPackage(p, v, region) && b in BundlesOf(p)
    ensures b.pkg == p && b in region
  {
    var c :| c in p.channels.Values && b in c.bundles.Values;
    var k :| k in p.channels && p.channels[k] == c;
    assert IsChannel(c, p, v.channels[k], region);
    var n :| n in c.bundles && c.bundles[n] == b;
    assert IsBundle(b, c, p, v.channels[k].bundles[n], region);
  }

  lemma InRegion(m: map<string, MPackage>, v: ModelVal, pkg: string, region: set<object>)
    requires IsModel(m, v, region) && pkg in m
    ensures BundlesOf(m[pkg]) <= region
  {
    forall b | b in BundlesOf(m[pkg])
      ensures b in region
    {
      BundleOwner(m[pkg], v[pkg], b, region);
    }
  }

  // ----- Changing channels and packages in place -----

  /** Adds an empty channel as the default. */
  method AddDefault(p: MPackage, name: string, ghost v: PackageVal, ghost region: set<object>)
    returns (ghost objects: set<object>)
    requires IsPackage(p, v, region) && name !in v.channels
    modifies p
    ensures fresh(objects) && IsPackage(p, PutChannel(v, EmptyChannel(name), name), region + objects)
  {
    var dch := new MChannel(p, name, []);
    objects := {dch};
    LinkChannel(p, dch, name, v, EmptyChannel(name), region, objects);
  }

  method AddDefaultTo(m: map<string, MPackage>, pkg: string, name: string, ghost v: ModelVal, ghost region: set<object>)
    returns (ghost objects: set<object>)
    requires IsModel(m, v, region) && pkg in m && name !in v[pkg].channels
    modifies m[pkg]
    ensures fresh(objects)
    ensures IsModel(m, v[pkg := PutChannel(v[pkg], EmptyChannel(name), name)], region + objects)
  {
    ghost var q := m[pkg];
    assert forall n :: n in v && n != pkg ==> m[n] != q;
    objects := AddDefault(m[pkg], name, v[pkg], region);
    forall n | n in v && n != pkg
      ensures IsPackage(m[n], v[n], region + objects)
    {
      assert old(IsPackage(m[n], v[n], region));
      PackageGrows(m[n], v[n], region, objects);
    }
    ModelUpdated(m, v, pkg, PutChannel(v[pkg], EmptyChannel(name), name), region + objects);
  }

  function EmptyChannel(name: string): ChannelVal {
    ChannelVal(ChannelInfo(name, [], None), map[])
  }

  function DeprecatedChannel(v: PackageVal, name: string, message: string): PackageVal
    requires name in v.channels
  {
    v.(channels := v.channels[name := v.channels[name].(info := v.channels[name].info.(deprecation := Some(message)))])
  }

  /** Only the channel `name` stands for something else now. */
  lemma PackageUpdated(p: MPackage, v: PackageVal, name: string, cv: ChannelVal, region: set<object>)
    requires p in region && p.info == v.info && p.channels.Keys == v.channels.Keys
    requires (p.defaultChannel == null <==> v.defaultChannel.None?)
    requires v.defaultChannel.Some? ==>
          v.defaultChannel.value in p.channels && p.defaultChannel == p.channels[v.defaultChannel.value]
    requires name in v.channels && cv.info.name == name && IsChannel(p.channels[name], p, cv, region)
    requires forall n :: n in v.channels && n != name ==>
               n == v.channels[n].info.name && IsChannel(p.channels[n], p, v.channels[n], region)
    ensures IsPackage(p, v.(channels := v.channels[name := cv]), region)
  {
  }

  method DeprecateChannel(p: MPackage, name: string, message: string, ghost v: PackageVal, ghost region: set<object>)
    requires IsPackage(p, v, region) && name in v.channels
    modifies p.channels[name]
    ensures IsPackage(p, DeprecatedChannel(v, name, message), region)
  {
    var c := p.channels[name];
    assert IsChannel(c, p, v.channels[name], region);
    c.info := c.info.(deprecation := Some(message));
    forall n | n in v.channels && n != name
      ensures IsChannel(p.channels[n], p, v.channels[n], region)
    {
      assert old(IsChannel(p.channels[n], p, v.channels[n], region));
    }
    PackageUpdated(p, v, name, v.channels[name].(info := v.channels[name].info.(deprecation := Some(message))), region);
  }

  method DeprecateChannelOf(m: map<string, MPackage>, pkg: string, name: string, message: string,
                            ghost v: ModelVal, ghost region: set<object>)
    requires IsModel(m, v, region) && pkg in m && name in v[pkg].channels
    modifies m[pkg].channels[name]
    ensures IsModel(m, v[pkg := DeprecatedChannel(v[pkg], name, message)], region)
  {
    ChannelsApart(m, v, pkg, region);
    assert m[pkg].channels[name] in m[pkg].channels.Values;
    DeprecateOnly(m, pkg, name, message, v, region);
    ModelUpdated(m, v, pkg, DeprecatedChannel(v[pkg], name, message), region);
  }

  /** Deprecates a channel; no other package notices. */
  method DeprecateOnly(m: map<string, MPackage>, pkg: string, name: string, message: string,
                       ghost v: ModelVal, ghost region: set<object>)
    requires IsModel(m, v, region) && pkg in m && name in v[pkg].channels
    requires forall n :: n in v && n != pkg ==> m[pkg].channels[name] !in m[n].channels.Values
    modifies m[pkg].channels[name]
    ensures IsPackage(m[pkg], DeprecatedChannel(v[pkg], name, message), region)
    ensures forall n :: n in v && n != pkg ==> IsPackage(m[n], v[n], region)
  {
    DeprecateChannel(m[pkg], name, message, v[pkg], region);
    forall n | n in v && n != pkg
      ensures IsPackage(m[n], v[n], region)
    {
      assert old(IsPackage(m[n], v[n], region));
    }
  }

  /** Packages share no channels. */
  lemma ChannelsApart(m: map<string, MPackage>, v: ModelVal, pkg: string, region: set<object>)
    requires IsModel(m, v, region) && pkg in v
    ensures forall n :: n in v && n != pkg ==> m[n].channels.Values !! m[pkg].channels.Values
  {
    forall n, c | n in v && c in m[n].channels.Values
      ensures c.pkg == m[n]
    {
      var k :| k in m[n].channels && m[n].channels[k] == c;
      assert IsChannel(c, m[n], v[n].channels[k], region);
    }
  }

  method DeprecatePackageOf(m: map<string, MPackage>, pkg: string, message: string, ghost v: ModelVal,
                            ghost region: set<object>)
    requires IsModel(m, v, region) && pkg in m
    modifies m[pkg]
    ensures IsModel(m, v[pkg := v[pkg].(info := v[pkg].info.(deprecation := Some(message)))], region)
  {
    ghost var q := m[pkg];
    assert forall n :: n in v && n != pkg ==> m[n] != q;
    assert IsPackage(m[pkg], v[pkg], region);
    m[pkg].info := m[pkg].info.(deprecation := Some(message));
    forall n | n in v && n != pkg
      ensures IsPackage(m[n], v[n], region)
    {
      assert old(IsPackage(m[n], v[n], region));
    }
    ModelUpdated(m, v, pkg, v[pkg].(info := v[pkg].info.(deprecation := Some(message))), region);
  }

  function PackageOf(p: Package): PackageVal {
    PackageVal(PackageInfo(p.name, p.description, p.icon, None), None, map[])
  }

  method AddPackage(m: map<string, MPackage>, p: Package, ghost v: ModelVal, ghost region: set<object>)
    returns (m': map<string, MPackage>, ghost objects: set<object>)
    requires IsModel(m, v, region) && p.name !in m
    ensures fresh(objects)
    ensures IsModel(m', v[p.name := PackageOf(p)], region + objects)
  {
    var mpkg := new MPackage(p.name, p.description, p.icon);
    m', objects := m[p.name := mpkg], {mpkg};
    forall n | n in v
      ensures IsPackage(m[n], v[n], region + objects)
    {
      assert old(IsPackage(m[n], v[n], region));
      PackageGrows(m[n], v[n], region, objects);
    }
  }
}
