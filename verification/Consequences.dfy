/** What a successful conversion promises. */
module Consequences {
  import opened Declcfg
  import opened Orders
  import opened Model
  import opened Flattening
  import opened Conversion
  import opened Acceptance
  import opened Criteria
  import opened RoundTrip

  // ----- Blobs and entries -----

  /** Every entry of the last channel of a package has exactly one blob, and every blob is in some channel. */
  lemma LastChannelBacked(lib: Lib, cfg: Config, pkg: string, name: string)
    requires Accepted(lib, cfg)
    ensures name in LastEntries(cfg.channels, pkg) ==>
              exists b :: b in cfg.bundles && b.pkg == pkg && b.name == name && multiset(cfg.bundles)[b] == 1
                          && forall c :: c in cfg.bundles && c.pkg == pkg && c.name == name ==> c == b
    ensures name in BundleNames(cfg.bundles, pkg) ==> Listed(cfg.channels, pkg, name)
  {
    AcceptedExactly(lib, cfg);
    BundleNamesAre(cfg.bundles, pkg);
    if name in LastEntries(cfg.channels, pkg) {
      assert name in BundleNames(cfg.bundles, pkg) by {
        assert LastEntries(cfg.channels, pkg) - BundleNames(cfg.bundles, pkg) == {};
      }
      var b :| b in cfg.bundles && b.pkg == pkg && b.name == name;
      DistinctOnce(BundleKey, cfg.bundles, b);
      assert b in multiset(cfg.bundles);
      forall c | c in cfg.bundles && c.pkg == pkg && c.name == name
        ensures c == b
      {
        SameElement(BundleKey, cfg.bundles, c, b);
      }
    }
  }

  ghost predicate SingleChannel(channels: seq<Channel>, c: Channel) {
    forall d :: d in channels && d.pkg == c.pkg ==> d == c
  }

  lemma {:induction false} OnlyChannelIsLast(channels: seq<Channel>, c: Channel)
    requires c in channels && SingleChannel(channels, c)
    ensures LastEntries(channels, c.pkg) == EntryNames(c.entries)
  {
    var n := |channels| - 1;
    assert channels == channels[..n] + [channels[n]];
    if channels[n].pkg != c.pkg {
      OnlyChannelIsLast(channels[..n], c);
    }
  }

  /** If no package has more than one channel, every entry has a blob. */
  lemma SingleChannelsBacked(lib: Lib, cfg: Config)
    requires Accepted(lib, cfg) && forall c :: c in cfg.channels ==> SingleChannel(cfg.channels, c)
    ensures Backed(cfg)
  {
    forall c, n | c in cfg.channels && n in EntryNames(c.entries)
      ensures n in BundleNames(cfg.bundles, c.pkg)
    {
      OnlyChannelIsLast(cfg.channels, c);
      LastChannelBacked(lib, cfg, c.pkg, n);
      BundleNamesAre(cfg.bundles, c.pkg);
    }
  }

  // ----- The graph -----

  /** A package has a default channel exactly when one was declared, and then has it under that name. */
  lemma DefaultChannelSet(lib: Lib, cfg: Config, p: Package)
    requires Accepted(lib, cfg) && p in cfg.packages
    ensures p.name in ModelOf(lib, cfg)
    ensures var v := ModelOf(lib, cfg)[p.name];
            && v.defaultChannel == (if p.defaultChannel == "" then None else Some(p.defaultChannel))
            && (p.defaultChannel != "" ==>
                  p.defaultChannel in v.channels && v.channels[p.defaultChannel].info.name == p.defaultChannel)
  {
    AcceptedExactly(lib, cfg);
    FoundPackage(cfg.packages, p);
    if p.defaultChannel == "" {
      ChannelNamesAre(cfg.channels, p.name);
    }
  }

  /** Every copy of a bundle that has a blob carries the data of that blob. */
  lemma CopiesCarryBlob(lib: Lib, cfg: Config, b: Bundle, k: string)
    requires Accepted(lib, cfg) && b in cfg.bundles
    ensures b.pkg in ModelOf(lib, cfg)
    ensures var v := ModelOf(lib, cfg)[b.pkg];
            k in v.channels && b.name in v.channels[k].bundles ==>
              var data := v.channels[k].bundles[b.name].data;
              && data.image == b.image && data.properties == b.properties && data.relatedImages == b.relatedImages
              && data.csvJSON == b.csvJSON && data.objects == b.objects && Declares(lib, b, data.version)
  {
    VersionedExactly(lib, b);
    BundleVersionExactly(lib, b);
    AcceptedExactly(lib, cfg);
    FoundBundle(cfg.bundles, b);
    var view := ViewOf(lib, cfg.bundles, cfg.deprecations);
    UniformThere(view, cfg.channels, PackageNames(cfg.packages), FindPackage(cfg.packages, b.pkg).value, b.name);
    assert view.data(b.pkg, b.name) == DataOf(lib, b);
  }

  // ----- Deprecations -----

  /** Some deprecation of the package has an entry with that reference and message. */
  ghost predicate Names(deprecations: seq<Deprecation>, pkg: string, r: Reference, message: string) {
    exists d, e :: d in deprecations && d.pkg == pkg && e in d.entries && e.reference == r && e.message == message
  }

  lemma {:induction false} FindMessageIs(entries: seq<DeprecationEntry>, r: Reference, message: string)
    requires forall i, j :: 0 <= i < j < |entries| ==> entries[i].reference != entries[j].reference
    ensures FindMessage(entries, r) == Some(message) <==> exists e ::
                                                            e in entries && e.reference == r && e.message == message
  {
    if |entries| != 0 {
      var n := |entries| - 1;
      FindMessageIs(entries[..n], r, message);
      assert entries == entries[..n] + [entries[n]];
    }
  }

  lemma {:induction false} MessageIs(deprecations: seq<Deprecation>, pkg: string, r: Reference, message: string)
    requires forall i, j :: 0 <= i < j < |deprecations| ==> deprecations[i].pkg != deprecations[j].pkg
    requires forall d :: d in deprecations ==> forall i, j :: 0 <= i < j < |d.entries| ==>
                                                 d.entries[i].reference != d.entries[j].reference
    ensures Message(deprecations, pkg, r) == Some(message) <==> Names(deprecations, pkg, r, message)
  {
    if |deprecations| != 0 {
      var n := |deprecations| - 1;
      var last := deprecations[n];
      assert deprecations == deprecations[..n] + [last];
      MessageIs(deprecations[..n], pkg, r, message);
      FindMessageIs(last.entries, r, message);
      if last.pkg == pkg {
        assert Names(deprecations, pkg, r, message) <==> exists e ::
                                                           e in last.entries && e.reference == r
                                                               && e.message == message by {
          assert forall d :: d in deprecations && d.pkg == pkg ==> d == last;
          assert last in deprecations;
        }
      } else {
        assert Names(deprecations, pkg, r, message) <==> Names(deprecations[..n], pkg, r, message);
      }
    }
  }

  /** The deprecation of something in the graph: of a package, of a channel or of a copy of a bundle. */
  ghost predicate Deprecated(v: ModelVal, pkg: string, target: Target, channel: string, message: string)
    requires pkg in v
  {
    match target
    case OfPackage => v[pkg].info.deprecation == Some(message)
    case OfChannel(name) => name in v[pkg].channels && v[pkg].channels[name].info.deprecation == Some(message)
    case OfBundle(name) =>
      && channel in v[pkg].channels && name in v[pkg].channels[channel].bundles
      && v[pkg].channels[channel].bundles[name].deprecation == Some(message)
  }

  /** The target is there: for a bundle, in the given channel. */
  ghost predicate Exists(v: ModelVal, pkg: string, target: Target, channel: string)
    requires pkg in v
  {
    match target
    case OfPackage => true
    case OfChannel(name) => name in v[pkg].channels
    case OfBundle(name) => channel in v[pkg].channels && name in v[pkg].channels[channel].bundles
  }

  lemma NotedInGraph(view: View, packages: seq<Package>, channels: seq<Channel>, defaulted: set<string>, pkg: string,
                     target: Target, channel: string, message: string)
    requires pkg in PackageNames(packages)
    ensures var v := ModelWith(view, packages, channels, defaulted);
            Exists(v, pkg, target, channel) ==>
                  (Deprecated(v, pkg, target, channel, message) <==> view.note(pkg, target) == Some(message))
  {
  }

  /** How a deprecation entry refers to something. */
  ghost predicate RefersTo(r: Reference, target: Target) {
    match target
    case OfPackage => r.schema == "olm.package" && r.name == ""
    case OfChannel(name) => r.schema == "olm.channel" && r.name == name
    case OfBundle(name) => r.schema == "olm.bundle" && r.name == name
  }

  lemma RefersExactly(r: Reference, target: Target)
    ensures RefersTo(r, target) <==> r == ReferenceTo(target)
  {
  }

  /** Something is deprecated with a message exactly when a deprecation entry names it with that message, in every
      channel for a bundle; and there is no other message for it. */
  lemma DeprecatedExactly(lib: Lib, cfg: Config, pkg: string, target: Target, channel: string, message: string)
    requires Accepted(lib, cfg) && pkg in ModelOf(lib, cfg) && Exists(ModelOf(lib, cfg), pkg, target, channel)
    ensures Deprecated(ModelOf(lib, cfg), pkg, target, channel, message)
            <==> Names(cfg.deprecations, pkg, ReferenceTo(target), message)
    ensures Deprecated(ModelOf(lib, cfg), pkg, target, channel, message)
            <==> exists r: Reference :: RefersTo(r, target) && Names(cfg.deprecations, pkg, r, message)
    ensures forall other ::
              Names(cfg.deprecations, pkg, ReferenceTo(target), message)
              && Names(cfg.deprecations, pkg, ReferenceTo(target), other) ==>
                other == message
  {
    AcceptedExactly(lib, cfg);
    NotedInGraph(ViewOf(lib, cfg.bundles, cfg.deprecations), cfg.packages, cfg.channels, PackageNames(cfg.packages),
                 pkg, target, channel, message);
    MessageIs(cfg.deprecations, pkg, ReferenceTo(target), message);
    assert RefersTo(ReferenceTo(target), target);
    forall r | RefersTo(r, target)
      ensures r == ReferenceTo(target)
    {
      RefersExactly(r, target);
    }
    forall other | Names(cfg.deprecations, pkg, ReferenceTo(target), other)
      ensures Message(cfg.deprecations, pkg, ReferenceTo(target)) == Some(other)
    {
      MessageIs(cfg.deprecations, pkg, ReferenceTo(target), other);
    }
  }
}
