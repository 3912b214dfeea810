/** Encoding the properties of every bundle in a standard way. */
module Normalizing {
  import opened Declcfg
  import opened Model

  /** How a property is encoded; one that cannot be encoded stays as it is. */
  type Norm = Property -> Property

  function NormProperties(norm: Norm, properties: seq<Property>): seq<Property> {
    seq(|properties|, i requires 0 <= i < |properties| => norm(properties[i]))
  }

  function NormData(norm: Norm, data: BundleData): BundleData {
    data.(properties := NormProperties(norm, data.properties))
  }

  function NormBundle(norm: Norm, v: BundleVal): BundleVal {
    v.(data := NormData(norm, v.data))
  }

  /** The bundles in `done` are normalized. */
  function NormBundles(norm: Norm, v: ChannelVal, done: set<string>): ChannelVal {
    v.(bundles := map n | n in v.bundles :: if n in done then NormBundle(norm, v.bundles[n]) else v.bundles[n])
  }

  function NormChannel(norm: Norm, v: ChannelVal): ChannelVal {
    NormBundles(norm, v, v.bundles.Keys)
  }

  function NormChannels(norm: Norm, v: PackageVal, done: set<string>): PackageVal {
    v.(channels := map k | k in v.channels :: if k in done then NormChannel(norm, v.channels[k]) else v.channels[k])
  }

  function NormPackage(norm: Norm, v: PackageVal): PackageVal {
    NormChannels(norm, v, v.channels.Keys)
  }

  function NormPackages(norm: Norm, v: ModelVal, done: set<string>): ModelVal {
    map n | n in v :: if n in done then NormPackage(norm, v[n]) else v[n]
  }

  function NormModel(norm: Norm, v: ModelVal): ModelVal {
    NormPackages(norm, v, v.Keys)
  }

  /** Every property of every bundle is encoded, in its place, and nothing else changes. */
  lemma NormalizedExactly(norm: Norm, v: ModelVal)
    ensures NormModel(norm, v).Keys == v.Keys
    ensures forall n :: n in v ==>
              && NormModel(norm, v)[n].info == v[n].info && NormModel(norm, v)[n].defaultChannel == v[n].defaultChannel
              && NormModel(norm, v)[n].channels.Keys == v[n].channels.Keys
    ensures forall n, k :: n in v && k in v[n].channels ==>
              && NormModel(norm, v)[n].channels[k].info == v[n].channels[k].info
              && NormModel(norm, v)[n].channels[k].bundles.Keys == v[n].channels[k].bundles.Keys
    ensures forall n, k, b :: n in v && k in v[n].channels && b in v[n].channels[k].bundles ==>
              NormalizedTo(norm, v[n].channels[k].bundles[b], NormModel(norm, v)[n].channels[k].bundles[b])
  {
  }

  ghost predicate NormalizedTo(norm: Norm, v: BundleVal, w: BundleVal) {
    && w == v.(data := v.data.(properties := w.data.properties)) && |w.data.properties| == |v.data.properties|
    && forall i :: 0 <= i < |v.data.properties| ==> w.data.properties[i] == norm(v.data.properties[i])
  }

  // ----- In place -----

  method NormalizeProperties(norm: Norm, properties0: seq<Property>) returns (properties: seq<Property>)
    ensures properties == NormProperties(norm, properties0)
  {
    properties := properties0;
    for i := 0 to |properties0|
      invariant |properties| == |properties0|
      invariant forall j :: 0 <= j < |properties| ==>
                  properties[j] == if j < i then norm(properties0[j]) else properties0[j]
    {
      properties := properties[i := norm(properties[i])];
    }
  }

  lemma NormBundlesNext(norm: Norm, v: ChannelVal, done: set<string>, n: string)
    requires n in v.bundles && n !in done
    ensures NormBundles(norm, v, done + {n})
         == NormBundles(norm, v,
                        done).(bundles := NormBundles(norm, v, done).bundles[n := NormBundle(norm, v.bundles[n])])
  {
  }

  /** The package with one channel changed. */
  function Put(v: PackageVal, k: string, c: ChannelVal): PackageVal {
    v.(channels := v.channels[k := c])
  }

  method NormalizeBundle(norm: Norm, p: MPackage, k: string, n: string, ghost v: PackageVal, ghost c: ChannelVal,
                         ghost done: set<string>, ghost region: set<object>)
    requires k in v.channels && IsPackage(p, Put(v, k, NormBundles(norm, c, done)), region) && n in c.bundles
             && n !in done
    modifies BundlesOf(p)
    ensures BundlesOf(p) == old(BundlesOf(p))
    ensures IsPackage(p, Put(v, k, NormBundles(norm, c, done + {n})), region)
  {
    ghost var pv := Put(v, k, NormBundles(norm, c, done));
    assert IsChannel(p.channels[k], p, pv.channels[k], region);
    assert IsBundle(p.channels[k].bundles[n], p.channels[k], p, c.bundles[n], region);
    var b := p.channels[k].bundles[n];
    assert p.channels[k] in p.channels.Values && b in p.channels[k].bundles.Values;
    var properties := NormalizeProperties(norm, b.val.data.properties);
    NormBundlesNext(norm, c, done, n);
    SetBundle(p, k, n, b.val.(data := b.val.data.(properties := properties)), pv, region);
    assert pv.(channels := pv.channels[k := NormBundles(norm, c, done + {n})])
           == Put(v, k, NormBundles(norm, c, done + {n}));
  }

  method NormalizeChannel(norm: Norm, p: MPackage, k: string, ghost v: PackageVal, ghost region: set<object>)
    requires IsPackage(p, v, region) && k in v.channels
    modifies BundlesOf(p)
    ensures BundlesOf(p) == old(BundlesOf(p))
    ensures IsPackage(p, Put(v, k, NormChannel(norm, v.channels[k])), region)
  {
    ghost var c := v.channels[k];
    assert IsChannel(p.channels[k], p, c, region);
    var left := p.channels[k].bundles.Keys;
    ghost var all := c.bundles.Keys;
    assert NormBundles(norm, c, all - left) == c && Put(v, k, c) == v;
    while left != {}
      invariant left <= all && BundlesOf(p) == old(BundlesOf(p))
      invariant IsPackage(p, Put(v, k, NormBundles(norm, c, all - left)), region)
      decreases left
    {
      var n :| n in left;
      NormalizeBundle(norm, p, k, n, v, c, all - left, region);
      DoneNext(all, left, n);
      left := left - {n};
    }
    assert all - left == all;
  }

  lemma NormChannelsNext(norm: Norm, v: PackageVal, done: set<string>, k: string)
    requires k in v.channels && k !in done
    ensures NormChannels(norm, v, done + {k})
         == Put(NormChannels(norm, v, done), k, NormChannel(norm, NormChannels(norm, v, done).channels[k]))
  {
  }

  method NormalizePackage(norm: Norm, p: MPackage, ghost v: PackageVal, ghost region: set<object>)
    requires IsPackage(p, v, region)
    modifies BundlesOf(p)
    ensures IsPackage(p, NormPackage(norm, v), region)
  {
    var left := p.channels.Keys;
    ghost var all := v.channels.Keys;
    assert NormChannels(norm, v, all - left) == v;
    while left != {}
      invariant left <= all && BundlesOf(p) == old(BundlesOf(p))
      invariant IsPackage(p, NormChannels(norm, v, all - left), region)
      decreases left
    {
      var k :| k in left;
      NormChannelsNext(norm, v, all - left, k);
      NormalizeChannel(norm, p, k, NormChannels(norm, v, all - left), region);
      DoneNext(all, left, k);
      left := left - {k};
    }
    assert all - left == all;
  }

  method NormalizePackageOf(norm: Norm, m: map<string, MPackage>, pkg: string, ghost v: ModelVal,
                            ghost region: set<object>)
    requires IsModel(m, v, region) && pkg in m
    modifies BundlesOf(m[pkg])
    ensures IsModel(m, v[pkg := NormPackage(norm, v[pkg])], region)
  {
    BundlesApart(m, v, pkg, region);
    NormalizePackage(norm, m[pkg], v[pkg], region);
    forall n | n in v && n != pkg
      ensures IsPackage(m[n], v[n], region)
    {
      assert old(IsPackage(m[n], v[n], region));
    }
    ModelUpdated(m, v, pkg, NormPackage(norm, v[pkg]), region);
  }

  lemma NormPackagesNext(norm: Norm, v: ModelVal, done: set<string>, n: string)
    requires n in v && n !in done
    ensures NormPackages(norm, v, done + {n})
         == NormPackages(norm, v, done)[n := NormPackage(norm, NormPackages(norm, v, done)[n])]
  {
  }

  /** Normalizes all bundles in place, ranging over the maps in any order. */
  method Normalize(norm: Norm, m: map<string, MPackage>, ghost v: ModelVal, ghost region: set<object>)
    requires IsModel(m, v, region)
    modifies region
    ensures IsModel(m, NormModel(norm, v), region)
  {
    var left := m.Keys;
    ghost var all := v.Keys;
    assert NormPackages(norm, v, all - left) == v;
    while left != {}
      invariant left <= all && IsModel(m, NormPackages(norm, v, all - left), region)
      decreases left
    {
      var n :| n in left;
      ghost var w := NormPackages(norm, v, all - left);
      NormPackagesNext(norm, v, all - left, n);
      InRegion(m, w, n, region);
      NormalizePackageOf(norm, m, n, w, region);
      DoneNext(all, left, n);
      left := left - {n};
    }
    assert all - left == all;
  }
}
