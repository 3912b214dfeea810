/** In what order a configuration is printed. */
module PrintOrder {
  import opened Declcfg
  import opened Builder
  import opened Interleaving
  import opened Orders
  import opened Picking
  import opened Writer

  // ----- Which packages -----

  /** A package is printed exactly if it has a name and some item is of it. */
  lemma PrintedPackages(cfg: Config, names: seq<string>, pkg: string)
    requires PackageList(cfg, names)
    ensures pkg in names <==>
              pkg != ""
              && (|| (exists p :: p in cfg.packages && p.name == pkg)
                  || (exists c :: c in cfg.channels && c.pkg == pkg)
                  || (exists b :: b in cfg.bundles && b.pkg == pkg)
                  || (exists d :: d in cfg.deprecations && d.pkg == pkg)
                  || (exists m :: m in cfg.others && m.pkg == pkg))
  {
    MentionedWhere(cfg, pkg);
    PackagesMention(cfg, pkg);
    ChannelsMention(cfg, pkg);
    BundlesMention(cfg, pkg);
    DeprecationsMention(cfg, pkg);
    OthersMention(cfg, pkg);
  }

  lemma PackagesMention(cfg: Config, pkg: string)
    ensures HasPackage(SectionItems(cfg, Packages), pkg) <==> exists p :: p in cfg.packages && p.name == pkg
  {
    var items := SectionItems(cfg, Packages);
    if p :| p in cfg.packages && p.name == pkg {
      var j :| 0 <= j < |cfg.packages| && cfg.packages[j] == p;
      assert PkgOf(items[j]) == pkg;
    }
    if j :| 0 <= j < |items| && PkgOf(items[j]) == pkg {
      assert cfg.packages[j] in cfg.packages && cfg.packages[j].name == pkg;
    }
  }

  lemma ChannelsMention(cfg: Config, pkg: string)
    ensures HasPackage(SectionItems(cfg, Channels), pkg) <==> exists c :: c in cfg.channels && c.pkg == pkg
  {
    var items := SectionItems(cfg, Channels);
    if c :| c in cfg.channels && c.pkg == pkg {
      var j :| 0 <= j < |cfg.channels| && cfg.channels[j] == c;
      assert PkgOf(items[j]) == pkg;
    }
    if j :| 0 <= j < |items| && PkgOf(items[j]) == pkg {
      assert cfg.channels[j] in cfg.channels && cfg.channels[j].pkg == pkg;
    }
  }

  lemma BundlesMention(cfg: Config, pkg: string)
    ensures HasPackage(SectionItems(cfg, Bundles), pkg) <==> exists b :: b in cfg.bundles && b.pkg == pkg
  {
    var items := SectionItems(cfg, Bundles);
    if b :| b in cfg.bundles && b.pkg == pkg {
      var j :| 0 <= j < |cfg.bundles| && cfg.bundles[j] == b;
      assert PkgOf(items[j]) == pkg;
    }
    if j :| 0 <= j < |items| && PkgOf(items[j]) == pkg {
      assert cfg.bundles[j] in cfg.bundles && cfg.bundles[j].pkg == pkg;
    }
  }

  lemma DeprecationsMention(cfg: Config, pkg: string)
    ensures HasPackage(SectionItems(cfg, Deprecations), pkg) <==> exists d :: d in cfg.deprecations && d.pkg == pkg
  {
    var items := SectionItems(cfg, Deprecations);
    if d :| d in cfg.deprecations && d.pkg == pkg {
      var j :| 0 <= j < |cfg.deprecations| && cfg.deprecations[j] == d;
      assert PkgOf(items[j]) == pkg;
    }
    if j :| 0 <= j < |items| && PkgOf(items[j]) == pkg {
      assert cfg.deprecations[j] in cfg.deprecations && cfg.deprecations[j].pkg == pkg;
    }
  }

  lemma OthersMention(cfg: Config, pkg: string)
    ensures HasPackage(SectionItems(cfg, Others), pkg) <==> exists m :: m in cfg.others && m.pkg == pkg
  {
    var items := SectionItems(cfg, Others);
    if m :| m in cfg.others && m.pkg == pkg {
      var j :| 0 <= j < |cfg.others| && cfg.others[j] == m;
      assert PkgOf(items[j]) == pkg;
    }
    if j :| 0 <= j < |items| && PkgOf(items[j]) == pkg {
      assert cfg.others[j] in cfg.others && cfg.others[j].pkg == pkg;
    }
  }

  ghost function UnderPackage(pkg: string): Item -> bool {
    (item: Item) => PkgOf(item) == pkg
  }

  ghost function AsIs(): Item -> Item {
    (item: Item) => item
  }

  /** The items of a package are taken in the order in which they are. */
  lemma {:induction false} OfPackageExactly(items: seq<Item>, pkg: string)
    ensures Picked(items, UnderPackage(pkg), AsIs(), OfPackage(items, pkg))
  {
    if |items| == 0 {
      PickedNone(UnderPackage(pkg), AsIs());
    } else {
      OfPackageExactly(items[..|items| - 1], pkg);
      PickedNext(items, UnderPackage(pkg), AsIs(), OfPackage(items[..|items| - 1], pkg));
    }
  }

  // ----- In what order -----

  /** Packages come before channels, these before bundles, these before other blobs, and deprecations last. */
  ghost function Rank(item: Item): nat {
    match item
    case PackageItem(_) => 0
    case ChannelItem(_) => 1
    case BundleItem(_) => 2
    case OtherItem(_) => 3
    case DeprecationItem(_) => 4
  }

  /** In one package: by kind; channels and bundles by name, other blobs by schema. */
  ghost predicate MayPrecede(x: Item, y: Item) {
    match (x, y)
    case (ChannelItem(c), ChannelItem(d)) => StrLE(c.name, d.name)
    case (BundleItem(b), BundleItem(d)) => StrLE(b.name, d.name)
    case (OtherItem(m), OtherItem(n)) => StrLE(m.schema, n.schema)
    case _ => Rank(x) <= Rank(y)
  }

  /** Packages by name; what has no package comes last, as it came in. */
  ghost predicate Precedes(x: Item, y: Item) {
    if PkgOf(y) == "" then true
    else if PkgOf(x) != PkgOf(y) then PkgOf(x) != "" && StrLE(PkgOf(x), PkgOf(y))
    else MayPrecede(x, y)
  }

  ghost predicate Arranged(items: seq<Item>) {
    forall i, j :: 0 <= i < j < |items| ==> Precedes(items[i], items[j])
  }

  ghost predicate AllOf(items: seq<Item>, pkg: string) {
    forall x :: x in items ==> PkgOf(x) == pkg
  }

  ghost predicate AllRanked(items: seq<Item>, low: nat, high: nat) {
    forall x :: x in items ==> low <= Rank(x) <= high
  }

  lemma ArrangedJoin(a: seq<Item>, b: seq<Item>)
    requires Arranged(a) && Arranged(b) && forall x, y :: x in a && y in b ==> Precedes(x, y)
    ensures Arranged(a + b)
  {
    forall i, j | 0 <= i < j < |a + b|
      ensures Precedes((a + b)[i], (a + b)[j])
    {
      if i < |a| <= j {
        assert (a + b)[i] in a && (a + b)[j] in b;
      }
    }
  }

  lemma SectionsJoin(a: seq<Item>, b: seq<Item>, pkg: string, rank: nat)
    requires Arranged(a) && Arranged(b) && AllOf(a, pkg) && AllOf(b, pkg)
    requires AllRanked(a, 0, rank) && AllRanked(b, rank + 1, rank + 1)
    ensures Arranged(a + b) && AllOf(a + b, pkg) && AllRanked(a + b, 0, rank + 1)
  {
    forall x, y | x in a && y in b
      ensures Precedes(x, y)
    {
      assert Rank(x) < Rank(y);
    }
    ArrangedJoin(a, b);
  }

  /** The items of a section that are of a package are of one rank. */
  lemma SectionRank(cfg: Config, section: Section, rank: nat, pkg: string)
    requires rank == match section
                     case Packages => 0
                     case Channels => 1
                     case Bundles => 2
                     case Others => 3
                     case Deprecations => 4
    ensures AllRanked(OfPackage(SectionItems(cfg, section), pkg), rank, rank)
    ensures AllOf(OfPackage(SectionItems(cfg, section), pkg), pkg)
  {
    OfPackageItems(SectionItems(cfg, section), pkg);
  }

  lemma SameItems(s: seq<Item>, r: seq<Item>)
    requires multiset(r) == multiset(s)
    ensures forall x :: x in r <==> x in s
  {
    forall x
      ensures x in r <==> x in s
    {
      assert (x in r <==> x in multiset(r)) && (x in s <==> x in multiset(s));
    }
  }

  lemma ByName(items: seq<Item>, rank: nat)
    requires Sorted(NameKey, items) && AllRanked(items, rank, rank) && (rank == 1 || rank == 2)
    ensures Arranged(items) || exists x :: x in items && PkgOf(x) != PkgOf(items[0])
  {
    if forall x :: x in items ==> PkgOf(x) == PkgOf(items[0]) {
      forall i, j | 0 <= i < j < |items|
        ensures Precedes(items[i], items[j])
      {
        KeyFirst(NameKey(items[i]), NameKey(items[j]));
        assert items[i] in items && items[j] in items;
      }
    }
  }

  lemma BySchema(items: seq<Item>, pkg: string)
    requires Sorted(SchemaKey, items) && AllRanked(items, 3, 3) && AllOf(items, pkg)
    ensures Arranged(items)
  {
    forall i, j | 0 <= i < j < |items|
      ensures Precedes(items[i], items[j])
    {
      KeyFirst(SchemaKey(items[i]), SchemaKey(items[j]));
      assert items[i] in items && items[j] in items;
    }
  }

  lemma AsItCame(items: seq<Item>, pkg: string, rank: nat)
    requires AllRanked(items, rank, rank) && AllOf(items, pkg) && (rank == 0 || rank == 4)
    ensures Arranged(items)
  {
    forall i, j | 0 <= i < j < |items|
      ensures Precedes(items[i], items[j])
    {
      assert items[i] in items && items[j] in items;
    }
  }

  lemma NamedSection(cfg: Config, section: Section, rank: nat, pkg: string, items: seq<Item>)
    requires (section == Channels && rank == 1) || (section == Bundles && rank == 2)
    requires SortOf(NameKey, OfPackage(SectionItems(cfg, section), pkg), items)
    ensures Arranged(items) && AllOf(items, pkg) && AllRanked(items, rank, rank)
  {
    SectionRank(cfg, section, rank, pkg);
    SameItems(OfPackage(SectionItems(cfg, section), pkg), items);
    if |items| > 0 {
      assert items[0] in items;
    }
    ByName(items, rank);
  }

  lemma PartArranged(cfg: Config, pkg: string, part: Part)
    requires IsPart(cfg, pkg, part)
    ensures Arranged(part.Items()) && AllOf(part.Items(), pkg)
  {
    SectionRank(cfg, Packages, 0, pkg);
    SectionRank(cfg, Others, 3, pkg);
    SectionRank(cfg, Deprecations, 4, pkg);
    NamedSection(cfg, Channels, 1, pkg, part.channels);
    NamedSection(cfg, Bundles, 2, pkg, part.bundles);
    StableSortSorts(OfPackage(SectionItems(cfg, Others), pkg), SchemaKey);
    SameItems(OfPackage(SectionItems(cfg, Others), pkg), part.others);
    AsItCame(part.packages, pkg, 0);
    BySchema(part.others, pkg);
    AsItCame(part.deprecations, pkg, 4);
    SectionsJoin(part.packages, part.channels, pkg, 0);
    SectionsJoin(part.packages + part.channels, part.bundles, pkg, 1);
    SectionsJoin(part.packages + part.channels + part.bundles, part.others, pkg, 2);
    SectionsJoin(part.packages + part.channels + part.bundles + part.others, part.deprecations, pkg, 3);
  }

  lemma {:induction false} PartsArranged(cfg: Config, names: seq<string>, parts: seq<Part>)
    requires |parts| == |names| && forall i :: 0 <= i < |names| ==> names[i] != "" && IsPart(cfg, names[i], parts[i])
    requires forall i, j :: 0 <= i < j < |names| ==> StrLT(names[i], names[j])
    ensures Arranged(Concat(PartItems(parts)))
    ensures forall x :: x in Concat(PartItems(parts)) ==> PkgOf(x) in names && PkgOf(x) != ""
  {
    if |names| > 0 {
      var n := |names| - 1;
      PartsArranged(cfg, names[..n], parts[..n]);
      PartArranged(cfg, names[n], parts[n]);
      assert PartItems(parts)[..n] == PartItems(parts[..n]);
      var before, last := Concat(PartItems(parts[..n])), parts[n].Items();
      assert Concat(PartItems(parts)) == before + last;
      forall x, y | x in before && y in last
        ensures Precedes(x, y)
      {
        var i :| 0 <= i < n && names[i] == PkgOf(x);
        assert StrLT(names[i], names[n]);
      }
      ArrangedJoin(before, last);
    }
  }

  lemma NamesAscend(cfg: Config, names: seq<string>)
    requires PackageList(cfg, names)
    ensures forall i, j :: 0 <= i < j < |names| ==> StrLT(names[i], names[j])
    ensures forall i :: 0 <= i < |names| ==> names[i] != ""
  {
    forall i, j | 0 <= i < j < |names|
      ensures StrLT(names[i], names[j])
    {
      KeyFirst(Identity(names[i]), Identity(names[j]));
      assert Identity(names[i]) != Identity(names[j]);
    }
    assert forall i :: 0 <= i < |names| ==> names[i] in names;
  }

  /** What is printed is in order. */
  lemma PrintedInOrder(cfg: Config, names: seq<string>, parts: seq<Part>, out: seq<Item>)
    requires IsEmission(cfg, names, parts, out)
    ensures Arranged(out)
  {
    NamesAscend(cfg, names);
    PartsArranged(cfg, names, parts);
    var nameless := OfPackage(SectionItems(cfg, Others), "");
    OfPackageItems(SectionItems(cfg, Others), "");
    assert forall i :: 0 <= i < |nameless| ==> nameless[i] in nameless;
    ArrangedJoin(Concat(PartItems(parts)), nameless);
  }
}
