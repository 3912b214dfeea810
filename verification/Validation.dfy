/** Validation of a package graph. Every check is made and the errors are collected, so a graph is valid when no
    check fails. */
module Validation {
  import opened Declcfg
  import opened Semver
  import opened Model
  import opened Conversion
  import opened ReplacesChain

  // ----- What is valid -----

  /** A deprecation needs a message. */
  predicate MessageOk(deprecation: Option<string>) {
    deprecation != Some("")
  }

  predicate ValidBundle(lib: Lib, v: BundleVal) {
    && v.entry.name != "" && "" !in v.entry.skips
    && AllValid(lib, v.data.properties) && |PackageProps(lib, v.data.properties)| == 1
    && (v.data.image != "" || v.data.objects != [])
    && MessageOk(v.deprecation)
  }

  /** The upgrade graph of a channel. */
  function GraphOf(v: ChannelVal): Graph {
    map n | n in v.bundles :: v.bundles[n].entry
  }

  ghost predicate ValidBundles(lib: Lib, v: ChannelVal, done: set<string>) {
    forall n :: n in v.bundles && n in done ==> ValidBundle(lib, v.bundles[n])
  }

  ghost predicate ValidChannel(lib: Lib, v: ChannelVal) {
    && v.info.name != "" && v.bundles != map[] && ValidChain(GraphOf(v))
    && ValidBundles(lib, v, v.bundles.Keys) && MessageOk(v.info.deprecation)
  }

  /** The names of the bundles with a version in some channels. Versions are compared as they are written. */
  ghost function WithVersion(show: Version -> string, v: PackageVal, done: set<string>, written: string): set<string> {
    set k, n | k in done && k in v.channels && n in v.channels[k].bundles
               && show(v.channels[k].bundles[n].data.version) == written :: n
  }

  /** No two bundles of a package have the same version. */
  ghost predicate UniqueVersions(show: Version -> string, v: PackageVal) {
    forall written, a, b ::
      a in WithVersion(show, v, v.channels.Keys, written) && b in WithVersion(show, v, v.channels.Keys, written) ==>
        a == b
  }

  ghost predicate ValidChannels(lib: Lib, v: PackageVal, done: set<string>) {
    forall k :: k in v.channels && k in done ==> ValidChannel(lib, v.channels[k])
  }

  ghost predicate ValidPackage(lib: Lib, show: Version -> string, v: PackageVal) {
    && v.info.name != "" && v.defaultChannel.Some? && v.channels != map[]
    && ValidChannels(lib, v, v.channels.Keys) && UniqueVersions(show, v) && MessageOk(v.info.deprecation)
  }

  ghost predicate ValidPackages(lib: Lib, show: Version -> string, v: ModelVal, done: set<string>) {
    forall n :: n in v && n in done ==> ValidPackage(lib, show, v[n])
  }

  ghost predicate ValidModel(lib: Lib, show: Version -> string, v: ModelVal) {
    ValidPackages(lib, show, v, v.Keys)
  }

  // ----- What is wrong with an invalid graph -----

  ghost predicate BundleDefect(lib: Lib, v: BundleVal) {
    || v.entry.name == ""
    || (exists i :: 0 <= i < |v.entry.skips| && v.entry.skips[i] == "")
    || (exists i :: 0 <= i < |v.data.properties| && !lib.valid(v.data.properties[i]))
    || (forall i: nat :: !OnlyPackage(v.data.properties, i))
    || (v.data.image == "" && v.data.objects == [])
    || v.deprecation == Some("")
  }

  ghost predicate ChannelDefect(lib: Lib, v: ChannelVal) {
    || v.info.name == "" || v.bundles == map[] || v.info.deprecation == Some("")
    || (forall path: seq<string> :: !ChainCovers(GraphOf(v), path))
    || exists n :: n in v.bundles && BundleDefect(lib, v.bundles[n])
  }

  /** Bundles of different names in two channels, or in one, whose versions are written alike. */
  ghost predicate SameVersion(show: Version -> string, v: PackageVal, j: string, a: string, k: string, b: string) {
    && j in v.channels && a in v.channels[j].bundles && k in v.channels && b in v.channels[k].bundles && a != b
    && show(v.channels[j].bundles[a].data.version) == show(v.channels[k].bundles[b].data.version)
  }

  ghost predicate PackageDefect(lib: Lib, show: Version -> string, v: PackageVal) {
    || v.info.name == "" || v.defaultChannel == None || v.channels == map[] || v.info.deprecation == Some("")
    || (exists j, a, k, b :: SameVersion(show, v, j, a, k, b))
    || exists k :: k in v.channels && ChannelDefect(lib, v.channels[k])
  }

  lemma BundleDefectExactly(lib: Lib, v: BundleVal)
    ensures BundleDefect(lib, v) <==> !ValidBundle(lib, v)
  {
    OnePackage(lib, v.data.properties, 0);
    forall i: nat | OnlyPackage(v.data.properties, i)
      ensures |PackageProps(lib, v.data.properties)| == 1
    {
      OnePackage(lib, v.data.properties, i);
    }
  }

  lemma ChannelDefectExactly(lib: Lib, v: ChannelVal)
    ensures ChannelDefect(lib, v) <==> !ValidChannel(lib, v)
  {
    ValidChainExactly(GraphOf(v));
    forall n | n in v.bundles
      ensures BundleDefect(lib, v.bundles[n]) <==> !ValidBundle(lib, v.bundles[n])
    {
      BundleDefectExactly(lib, v.bundles[n]);
    }
  }

  lemma UniqueExactly(show: Version -> string, v: PackageVal)
    ensures UniqueVersions(show, v) <==> !exists j, a, k, b :: SameVersion(show, v, j, a, k, b)
  {
    if j, a, k, b :| SameVersion(show, v, j, a, k, b) {
      var written := show(v.channels[j].bundles[a].data.version);
      assert a in WithVersion(show, v, v.channels.Keys, written);
      assert b in WithVersion(show, v, v.channels.Keys, written);
    }
    if !UniqueVersions(show, v) {
      var written, a, b :| a in WithVersion(show, v, v.channels.Keys, written)
                           && b in WithVersion(show, v, v.channels.Keys, written) && a != b;
      var j :| j in v.channels && a in v.channels[j].bundles
               && show(v.channels[j].bundles[a].data.version) == written;
      var k :| k in v.channels && b in v.channels[k].bundles
               && show(v.channels[k].bundles[b].data.version) == written;
      assert SameVersion(show, v, j, a, k, b);
    }
  }

  lemma PackageDefectExactly(lib: Lib, show: Version -> string, v: PackageVal)
    ensures PackageDefect(lib, show, v) <==> !ValidPackage(lib, show, v)
  {
    UniqueExactly(show, v);
    forall k | k in v.channels
      ensures ChannelDefect(lib, v.channels[k]) <==> !ValidChannel(lib, v.channels[k])
    {
      ChannelDefectExactly(lib, v.channels[k]);
    }
  }

  /** A graph is invalid exactly if one of its packages has a defect. */
  lemma InvalidExactly(lib: Lib, show: Version -> string, v: ModelVal)
    ensures !ValidModel(lib, show, v) <==> exists n :: n in v && PackageDefect(lib, show, v[n])
  {
    forall n | n in v
      ensures PackageDefect(lib, show, v[n]) <==> !ValidPackage(lib, show, v[n])
    {
      PackageDefectExactly(lib, show, v[n]);
    }
  }

  // ----- Deprecations -----

  ghost function PlainBundle(v: BundleVal): BundleVal {
    v.(deprecation := None)
  }

  ghost function PlainChannel(v: ChannelVal): ChannelVal {
    ChannelVal(v.info.(deprecation := None), map n | n in v.bundles :: PlainBundle(v.bundles[n]))
  }

  ghost function PlainPackage(v: PackageVal): PackageVal {
    PackageVal(v.info.(deprecation := None), v.defaultChannel, map k | k in v.channels :: PlainChannel(v.channels[k]))
  }

  /** The graph without its deprecations. */
  ghost function PlainModel(v: ModelVal): ModelVal {
    map n | n in v :: PlainPackage(v[n])
  }

  ghost predicate SaysWhyChannel(v: ChannelVal) {
    v.info.deprecation != Some("") && forall n :: n in v.bundles ==> v.bundles[n].deprecation != Some("")
  }

  /** No deprecation of the package, its channels or its bundles has an empty message. */
  ghost predicate SaysWhy(v: PackageVal) {
    v.info.deprecation != Some("") && forall k :: k in v.channels ==> SaysWhyChannel(v.channels[k])
  }

  lemma MessagesOfChannel(lib: Lib, v: ChannelVal)
    ensures ValidChannel(lib, v) <==> ValidChannel(lib, PlainChannel(v)) && SaysWhyChannel(v)
  {
    var w := PlainChannel(v);
    assert GraphOf(w) == GraphOf(v);
    assert (v.bundles == map[]) <==> (w.bundles == map[]) by {
      assert v.bundles.Keys == w.bundles.Keys;
      assert v.bundles == map[] <==> v.bundles.Keys == {};
      assert w.bundles == map[] <==> w.bundles.Keys == {};
    }
    forall n | n in v.bundles
      ensures ValidBundle(lib, v.bundles[n]) <==> ValidBundle(lib, w.bundles[n]) && v.bundles[n].deprecation != Some("")
    {
    }
  }

  lemma MessagesOfPackage(lib: Lib, show: Version -> string, v: PackageVal)
    ensures ValidPackage(lib, show, v) <==> ValidPackage(lib, show, PlainPackage(v)) && SaysWhy(v)
  {
    var w := PlainPackage(v);
    assert v.channels.Keys == w.channels.Keys;
    assert (v.channels == map[] <==> v.channels.Keys == {}) && (w.channels == map[] <==> w.channels.Keys == {});
    MessagesOfChannels(lib, v);
    SameVersions(show, v);
  }

  lemma MessagesOfChannels(lib: Lib, v: PackageVal)
    ensures ValidChannels(lib, v, v.channels.Keys)
       <==> ValidChannels(lib, PlainPackage(v), v.channels.Keys)
            && forall k :: k in v.channels ==> SaysWhyChannel(v.channels[k])
  {
    var w := PlainPackage(v);
    forall k | k in v.channels
      ensures ValidChannel(lib, v.channels[k]) <==> ValidChannel(lib, w.channels[k]) && SaysWhyChannel(v.channels[k])
    {
      MessagesOfChannel(lib, v.channels[k]);
    }
  }

  lemma SameVersions(show: Version -> string, v: PackageVal)
    ensures UniqueVersions(show, v) <==> UniqueVersions(show, PlainPackage(v))
  {
    var w := PlainPackage(v);
    forall written
      ensures WithVersion(show, w, w.channels.Keys, written) == WithVersion(show, v, v.channels.Keys, written)
    {
      assert v.channels.Keys == w.channels.Keys;
      assert forall k, n :: k in v.channels && n in v.channels[k].bundles ==>
                              w.channels[k].bundles[n].data == v.channels[k].bundles[n].data;
    }
  }

  lemma ValidIsPlain(lib: Lib, show: Version -> string, v: ModelVal)
    requires ValidModel(lib, show, v)
    ensures ValidModel(lib, show, PlainModel(v)) && forall n :: n in v ==> SaysWhy(v[n])
  {
    forall n | n in v
      ensures ValidPackage(lib, show, PlainModel(v)[n]) && SaysWhy(v[n])
    {
      assert ValidPackage(lib, show, v[n]);
      MessagesOfPackage(lib, show, v[n]);
    }
  }

  lemma PlainIsValid(lib: Lib, show: Version -> string, v: ModelVal)
    requires ValidModel(lib, show, PlainModel(v)) && forall n :: n in v ==> SaysWhy(v[n])
    ensures ValidModel(lib, show, v)
  {
    forall n | n in v
      ensures ValidPackage(lib, show, v[n])
    {
      assert ValidPackage(lib, show, PlainModel(v)[n]);
      MessagesOfPackage(lib, show, v[n]);
    }
  }

  /** A deprecation makes a graph invalid exactly if its message is empty. */
  lemma MessagesDecide(lib: Lib, show: Version -> string, v: ModelVal)
    ensures ValidModel(lib, show, v)
       <==> ValidModel(lib, show, PlainModel(v)) && forall n :: n in v ==> SaysWhy(v[n])
  {
    if ValidModel(lib, show, v) {
      ValidIsPlain(lib, show, v);
    } else if ValidModel(lib, show, PlainModel(v)) && forall n :: n in v ==> SaysWhy(v[n]) {
      PlainIsValid(lib, show, v);
    }
  }

  // ----- Bundles -----

  method NoEmptySkips(skips: seq<string>) returns (ok: bool)
    ensures ok <==> "" !in skips
  {
    ok := true;
    for i := 0 to |skips|
      invariant ok <==> "" !in skips[..i]
    {
      assert skips[..i + 1] == skips[..i] + [skips[i]];
      if skips[i] == "" {
        ok := false;
      }
    }
    assert skips[..|skips|] == skips;
  }

  method ValidateBundle(lib: Lib, b: MBundle, ghost c: MChannel, ghost p: MPackage, ghost v: BundleVal,
                        ghost region: set<object>)
    returns (ok: bool)
    requires IsBundle(b, c, p, v, region) && c.pkg == p
    ensures ok <==> ValidBundle(lib, v)
  {
    ok := true;
    if b.val.entry.name == "" {
      ok := false;
    }
    if b.pkg != b.channel.pkg {
      ok := false;
    }
    var props := ParseProperties(lib, b.val.data.properties);
    if props.None? {
      ok := false;
    }
    var skipsOk := NoEmptySkips(b.val.entry.skips);
    if !skipsOk {
      ok := false;
    }
    if props.Some? && |props.value| != 1 {
      ok := false;
    }
    if b.val.data.image == "" && |b.val.data.objects| == 0 {
      ok := false;
    }
    if !MessageOk(b.val.deprecation) {
      ok := false;
    }
  }

  // ----- Channels -----

  method ValidateBundles(lib: Lib, c: MChannel, ghost p: MPackage, ghost v: ChannelVal, ghost region: set<object>)
    returns (ok: bool)
    requires IsChannel(c, p, v, region)
    ensures ok <==> ValidBundles(lib, v, v.bundles.Keys)
  {
    ok := true;
    var left := c.bundles.Keys;
    ghost var all := v.bundles.Keys;
    while left != {}
      invariant left <= all && (ok <==> ValidBundles(lib, v, all - left))
      decreases left
    {
      var n :| n in left;
      var b := c.bundles[n];
      assert IsBundle(b, c, p, v.bundles[n], region);
      if n != b.val.entry.name {
        ok := false;
      }
      var valid := ValidateBundle(lib, b, c, p, v.bundles[n], region);
      if !valid {
        ok := false;
      }
      if b.channel != c {
        ok := false;
      }
      left := left - {n};
    }
    assert all - left == all;
  }

  method ValidateChannel(lib: Lib, c: MChannel, ghost p: MPackage, ghost v: ChannelVal, ghost region: set<object>)
    returns (ok: bool)
    requires IsChannel(c, p, v, region)
    ensures ok <==> ValidChannel(lib, v)
  {
    ok := true;
    if c.info.name == "" {
      ok := false;
    }
    if |c.bundles| == 0 {
      ok := false;
    } else {
      var g := map n | n in c.bundles :: c.bundles[n].val.entry;
      assert g == GraphOf(v);
      var err := ValidateReplacesChain(g);
      if err.Some? {
        ok := false;
      }
    }
    var bundlesOk := ValidateBundles(lib, c, p, v, region);
    if !bundlesOk {
      ok := false;
    }
    if !MessageOk(c.info.deprecation) {
      ok := false;
    }
    assert |c.bundles| == |c.bundles.Keys| == |v.bundles.Keys|;
  }

  // ----- Versions -----

  function NamesAt(names: map<string, set<string>>, written: string): set<string> {
    if written in names then names[written] else {}
  }

  /** The names by version in the channels of `done`, and among the bundles `some` of the channel `k`. */
  ghost predicate Recorded(names: map<string, set<string>>, show: Version -> string, v: PackageVal, done: set<string>,
                           k: string, some: set<string>)
  {
    forall written ::
      NamesAt(names, written) == WithVersion(show, v, done, written) + InChannel(show, v, k, some, written)
  }

  ghost function InChannel(show: Version -> string, v: PackageVal, k: string, some: set<string>,
                           written: string): set<string> {
    set n | n in some && k in v.channels && n in v.channels[k].bundles
        && show(v.channels[k].bundles[n].data.version) == written
  }

  lemma RecordedNext(names: map<string, set<string>>, show: Version -> string, v: PackageVal, done: set<string>,
                     k: string,
                     some: set<string>, n: string)
    requires Recorded(names, show, v, done, k, some) && k in v.channels && n in v.channels[k].bundles
    ensures var written := show(v.channels[k].bundles[n].data.version);
            Recorded(names[written := NamesAt(names, written) + {n}], show, v, done, k, some + {n})
  {
    forall written
      ensures InChannel(show, v, k, some + {n}, written)
           == InChannel(show, v, k, some, written)
              + if show(v.channels[k].bundles[n].data.version) == written then {n} else {}
    {
    }
  }

  lemma RecordedChannel(names: map<string, set<string>>, show: Version -> string, v: PackageVal, done: set<string>,
                        k: string, j: string)
    requires k in v.channels && Recorded(names, show, v, done, k, v.channels[k].bundles.Keys)
    ensures Recorded(names, show, v, done + {k}, j, {})
  {
    forall written
      ensures WithVersion(show, v, done + {k}, written)
           == WithVersion(show, v, done, written) + InChannel(show, v, k, v.channels[k].bundles.Keys, written)
      ensures InChannel(show, v, j, {}, written) == {}
    {
    }
  }

  method RecordChannel(names0: map<string, set<string>>, show: Version -> string, c: MChannel, ghost p: MPackage,
                       ghost v: PackageVal,
                       ghost done: set<string>, ghost k: string, ghost region: set<object>)
    returns (names: map<string, set<string>>)
    requires k in v.channels && IsChannel(c, p, v.channels[k], region) && Recorded(names0, show, v, done, k, {})
    ensures Recorded(names, show, v, done, k, v.channels[k].bundles.Keys)
  {
    names := names0;
    var left := c.bundles.Keys;
    ghost var all := v.channels[k].bundles.Keys;
    assert all - left == {};
    while left != {}
      invariant left <= all && Recorded(names, show, v, done, k, all - left)
      decreases left
    {
      var n :| n in left;
      assert IsBundle(c.bundles[n], c, p, v.channels[k].bundles[n], region);
      RecordedNext(names, show, v, done, k, all - left, n);
      var written := show(c.bundles[n].val.data.version);
      names := names[written := NamesAt(names, written) + {c.bundles[n].val.entry.name}];
      DoneNext(all, left, n);
      left := left - {n};
    }
    assert all - left == all;
  }

  method AllSingle(names: map<string, set<string>>) returns (ok: bool)
    ensures ok <==> forall written, a, b :: a in NamesAt(names, written) && b in NamesAt(names, written) ==> a == b
  {
    var left := names.Keys;
    while left != {}
      invariant left <= names.Keys
      invariant forall written, a, b ::
                  written !in left && a in NamesAt(names, written) && b in NamesAt(names, written) ==> a == b
      decreases left
    {
      var written :| written in left;
      if |names[written]| > 1 {
        TwoElements(names[written]);
        ghost var a, b :| a in names[written] && b in names[written] && a != b;
        assert a in NamesAt(names, written) && b in NamesAt(names, written);
        return false;
      }
      AtMostOne(names[written]);
      left := left - {written};
    }
    return true;
  }

  lemma TwoElements(s: set<string>)
    requires |s| > 1
    ensures exists a, b :: a in s && b in s && a != b
  {
    var a :| a in s;
    assert |s - {a}| > 0;
    var b :| b in s - {a};
  }

  lemma AtMostOne(s: set<string>)
    requires |s| <= 1
    ensures forall a, b :: a in s && b in s ==> a == b
  {
    forall a, b | a in s && b in s
      ensures a == b
    {
      assert |s - {a}| == |s| - 1;
      assert b !in s - {a};
    }
  }

  method ValidateUniqueBundleVersions(show: Version -> string, p: MPackage, ghost v: PackageVal,
                                      ghost region: set<object>)
    returns (ok: bool)
    requires IsPackage(p, v, region)
    ensures ok <==> UniqueVersions(show, v)
  {
    var names: map<string, set<string>> := map[];
    var left := p.channels.Keys;
    ghost var all := v.channels.Keys;
    assert all - left == {};
    while left != {}
      invariant left <= all && forall k :: Recorded(names, show, v, all - left, k, {})
      decreases left
    {
      var k :| k in left;
      assert IsChannel(p.channels[k], p, v.channels[k], region);
      names := RecordChannel(names, show, p.channels[k], p, v, all - left, k, region);
      forall j
        ensures Recorded(names, show, v, all - left + {k}, j, {})
      {
        RecordedChannel(names, show, v, all - left, k, j);
      }
      DoneNext(all, left, k);
      left := left - {k};
    }
    assert all - left == all;
    assert Recorded(names, show, v, all, "", {});
    assert forall written :: NamesAt(names, written) == WithVersion(show, v, all, written);
    ok := AllSingle(names);
  }

  // ----- Packages -----

  method ValidateChannels(lib: Lib, p: MPackage, ghost v: PackageVal, ghost region: set<object>) returns (ok: bool)
    requires IsPackage(p, v, region)
    ensures ok <==> v.defaultChannel.Some? && ValidChannels(lib, v, v.channels.Keys)
  {
    ok := p.defaultChannel != null;
    var foundDefault := false;
    var left := p.channels.Keys;
    ghost var all := v.channels.Keys;
    while left != {}
      invariant left <= all
      invariant ok <==> v.defaultChannel.Some? && ValidChannels(lib, v, all - left)
      invariant foundDefault <==> exists k :: k in all - left && p.channels[k] == p.defaultChannel
      decreases left
    {
      var k :| k in left;
      var c := p.channels[k];
      assert IsChannel(c, p, v.channels[k], region);
      if k != c.info.name {
        ok := false;
      }
      var valid := ValidateChannel(lib, c, p, v.channels[k], region);
      if !valid {
        ok := false;
      }
      if c == p.defaultChannel {
        foundDefault := true;
      }
      if c.pkg != p {
        ok := false;
      }
      left := left - {k};
    }
    assert all - left == all;
    assert v.defaultChannel.Some? ==> foundDefault by {
      assert v.defaultChannel.Some? ==>
            v.defaultChannel.value in all && p.channels[v.defaultChannel.value] == p.defaultChannel;
    }
    if p.defaultChannel != null && !foundDefault {
      ok := false;
    }
  }

  method ValidatePackage(lib: Lib, show: Version -> string, p: MPackage, ghost v: PackageVal, ghost region: set<object>)
    returns (ok: bool)
    requires IsPackage(p, v, region)
    ensures ok <==> ValidPackage(lib, show, v)
  {
    ok := p.info.name != "" && |p.channels| != 0;
    assert |p.channels| == |p.channels.Keys| == |v.channels.Keys|;
    var channelsOk := ValidateChannels(lib, p, v, region);
    var versionsOk := ValidateUniqueBundleVersions(show, p, v, region);
    ok := ok && channelsOk && versionsOk && MessageOk(p.info.deprecation);
  }

  /** Validates a graph, ranging over its maps in any order. */
  method Validate(lib: Lib, show: Version -> string, m: map<string, MPackage>, ghost v: ModelVal,
                  ghost region: set<object>)
    returns (ok: bool)
    requires IsModel(m, v, region)
    ensures ok <==> ValidModel(lib, show, v)
  {
    ok := true;
    var left := m.Keys;
    ghost var all := v.Keys;
    while left != {}
      invariant left <= all && (ok <==> ValidPackages(lib, show, v, all - left))
      decreases left
    {
      var n :| n in left;
      assert IsPackage(m[n], v[n], region);
      if n != m[n].info.name {
        ok := false;
      }
      var valid := ValidatePackage(lib, show, m[n], v[n], region);
      if !valid {
        ok := false;
      }
      left := left - {n};
    }
    assert all - left == all;
  }
}
