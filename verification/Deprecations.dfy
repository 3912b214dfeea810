/** When the deprecations of a configuration keep it from being converted. */
module Deprecations {
  import opened Declcfg
  import opened Semver
  import opened Model
  import opened Conversion
  import opened Acceptance
  import opened Criteria
  import opened Consequences
  import opened Validation
  import opened Whole

  lemma PlainChannelAt(lib: Lib, cfg: Config, channels: seq<Channel>, pkg: string, name: string)
    ensures ChannelUnder(ViewOf(lib, cfg.bundles, []), channels, pkg, name)
         == PlainChannel(ChannelUnder(ViewOf(lib, cfg.bundles, cfg.deprecations), channels, pkg, name))
  {
    var listed := FindChannel(channels, pkg, name);
    if listed.Some? {
      var a := ChannelAt(ViewOf(lib, cfg.bundles, []), listed.value);
      var b := PlainChannel(ChannelAt(ViewOf(lib, cfg.bundles, cfg.deprecations), listed.value));
      assert a.bundles == b.bundles;
    }
  }

  lemma PlainPackageAt(lib: Lib, cfg: Config, p: Package)
    ensures PackageAt(ViewOf(lib, cfg.bundles, []), cfg.channels, PackageNames(cfg.packages), p)
         == PlainPackage(PackageAt(ViewOf(lib, cfg.bundles, cfg.deprecations), cfg.channels,
                                   PackageNames(cfg.packages), p))
  {
    var names := PackageNames(cfg.packages);
    var a := PackageAt(ViewOf(lib, cfg.bundles, []), cfg.channels, names, p);
    var b := PlainPackage(PackageAt(ViewOf(lib, cfg.bundles, cfg.deprecations), cfg.channels, names, p));
    forall k | k in a.channels
      ensures a.channels[k] == b.channels[k]
    {
      PlainChannelAt(lib, cfg, cfg.channels, p.name, k);
    }
    assert a.channels == b.channels;
  }

  lemma PlainModelOf(lib: Lib, cfg: Config)
    ensures ModelOf(lib, cfg.(deprecations := [])) == PlainModel(ModelOf(lib, cfg))
  {
    var a, b := ModelOf(lib, cfg.(deprecations := [])), PlainModel(ModelOf(lib, cfg));
    forall n | n in PackageNames(cfg.packages)
      ensures a[n] == b[n]
    {
      PlainPackageAt(lib, cfg, FindPackage(cfg.packages, n).value);
    }
    assert a == b;
  }

  /** Every deprecation entry says why. */
  ghost predicate AllSayWhy(deprecations: seq<Deprecation>) {
    forall d, e :: d in deprecations && e in d.entries ==> e.message != ""
  }

  /** Something that an accepted deprecation entry refers to is in the graph. */
  lemma ReferredExists(lib: Lib, cfg: Config, d: Deprecation, e: DeprecationEntry)
    returns (target: Target, channel: string)
    requires Accepted(lib, cfg) && d in cfg.deprecations && e in d.entries
    ensures d.pkg in ModelOf(lib, cfg) && Exists(ModelOf(lib, cfg), d.pkg, target, channel)
    ensures e.reference == ReferenceTo(target)
  {
    AcceptedExactly(lib, cfg);
    assert DeprecationFine(cfg, d);
    var p := FindPackage(cfg.packages, d.pkg).value;
    var view := ViewOf(lib, cfg.bundles, cfg.deprecations);
    var names := ChannelNamesAt(cfg.channels, PackageNames(cfg.packages), p);
    assert Known(BundleNames(cfg.bundles, d.pkg), names, e.reference);
    channel := "";
    if e.reference.schema == SCHEMA_BUNDLE {
      target := OfBundle(e.reference.name);
      BundleNamesAre(cfg.bundles, d.pkg);
      var b :| b in cfg.bundles && b.pkg == d.pkg && b.name == e.reference.name;
      assert BundleFine(lib, cfg.packages, cfg.channels, b);
      DistinctChannelsAre(cfg.channels);
      ListedIs(view, cfg.channels, PackageNames(cfg.packages), p, b.name);
      var v := PackageAt(view, cfg.channels, PackageNames(cfg.packages), p);
      channel :| channel in v.channels && b.name in v.channels[channel].bundles;
    } else if e.reference.schema == SCHEMA_CHANNEL {
      target := OfChannel(e.reference.name);
    } else {
      target := OfPackage;
    }
  }

  /** A message in the graph is that of a deprecation entry. */
  lemma MessageFrom(lib: Lib, cfg: Config, pkg: string, target: Target, channel: string)
    requires Accepted(lib, cfg) && pkg in ModelOf(lib, cfg) && Deprecated(ModelOf(lib, cfg), pkg, target, channel, "")
    ensures !AllSayWhy(cfg.deprecations)
  {
    DeprecatedExactly(lib, cfg, pkg, target, channel, "");
    var d, e :| d in cfg.deprecations && d.pkg == pkg && e in d.entries && e.reference == ReferenceTo(target)
                && e.message == "";
  }

  lemma EmptyInGraph(lib: Lib, cfg: Config)
    requires Accepted(lib, cfg)
    ensures AllSayWhy(cfg.deprecations) ==> forall n :: n in ModelOf(lib, cfg) ==> SaysWhy(ModelOf(lib, cfg)[n])
  {
    var v := ModelOf(lib, cfg);
    if n, k, b :| n in v && k in v[n].channels && b in v[n].channels[k].bundles
                  && v[n].channels[k].bundles[b].deprecation == Some("") {
      MessageFrom(lib, cfg, n, OfBundle(b), k);
    }
    if n, k :| n in v && k in v[n].channels && v[n].channels[k].info.deprecation == Some("") {
      MessageFrom(lib, cfg, n, OfChannel(k), "");
    }
    if n :| n in v && v[n].info.deprecation == Some("") {
      MessageFrom(lib, cfg, n, OfPackage, "");
    }
  }

  lemma EmptyFromEntry(lib: Lib, cfg: Config)
    requires Accepted(lib, cfg) && forall n :: n in ModelOf(lib, cfg) ==> SaysWhy(ModelOf(lib, cfg)[n])
    ensures AllSayWhy(cfg.deprecations)
  {
    forall d, e | d in cfg.deprecations && e in d.entries
      ensures e.message != ""
    {
      var target, channel := ReferredExists(lib, cfg, d, e);
      assert Names(cfg.deprecations, d.pkg, ReferenceTo(target), e.message);
      DeprecatedExactly(lib, cfg, d.pkg, target, channel, e.message);
      assert SaysWhy(ModelOf(lib, cfg)[d.pkg]);
    }
  }

  /** A configuration converts exactly if it does so without its deprecations, what these refer to is there, and
      each of their messages says something. */
  lemma DeprecationsConvert(lib: Lib, show: Version -> string, cfg: Config)
    ensures Converts(lib, show, cfg)
       <==> Converts(lib, show, cfg.(deprecations := [])) && DeprecationsFine(cfg) && AllSayWhy(cfg.deprecations)
  {
    AcceptedExactly(lib, cfg);
    AcceptedExactly(lib, cfg.(deprecations := []));
    PlainModelOf(lib, cfg);
    MessagesDecide(lib, show, ModelOf(lib, cfg));
    if Accepted(lib, cfg) {
      EmptyInGraph(lib, cfg);
      if forall n :: n in ModelOf(lib, cfg) ==> SaysWhy(ModelOf(lib, cfg)[n]) {
        EmptyFromEntry(lib, cfg);
      }
    }
  }
}
