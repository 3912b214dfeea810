/** Reading back what was printed. */
module PrintLoad {
  import opened Declcfg
  import opened Builder
  import opened Interleaving
  import opened Orders
  import opened Writer

  /** `read(item)` is the blob the decoder finds where `item` was encoded. Encoding loses nothing but the derived
      fields of a bundle, which are not persisted. What an other blob reads as is left open: it is printed as
      its JSON text, and its schema, package and name are taken from that text. */
  ghost predicate Lawful(codec: Codec, read: Item -> Meta) {
    && (forall p: Package ::
          read(PackageItem(p)).schema == p.schema && codec.toPackage(read(PackageItem(p)).blob) == Some(p))
    && (forall c: Channel ::
          read(ChannelItem(c)).schema == c.schema && codec.toChannel(read(ChannelItem(c)).blob) == Some(c))
    && (forall b: Bundle :: read(BundleItem(b)).schema == b.schema
                            && codec.toBundle(read(BundleItem(b)).blob) == Some(b.(csvJSON := "", objects := [])))
    && (forall d: Deprecation :: read(DeprecationItem(d)).schema == d.schema
                                 && codec.toDeprecation(read(DeprecationItem(d)).blob) == Some(d))
  }

  /** Printing and reading `item` gives `item` again. */
  ghost predicate Survives(codec: Codec, read: Item -> Meta, item: Item) {
    DecoderOf(codec)(read(item)) == Ok(item)
  }

  predicate Reserved(schema: string) {
    schema == SCHEMA_PACKAGE || schema == SCHEMA_CHANNEL || schema == SCHEMA_BUNDLE || schema == SCHEMA_DEPRECATION
        || schema == ""
  }

  /** An item survives exactly when it carries its own schema and, if it is a bundle, its derived fields are
      those derived from its properties; another blob exactly when its fields agree with its text. */
  lemma SurvivesExactly(codec: Codec, read: Item -> Meta, item: Item)
    requires Lawful(codec, read)
    ensures Survives(codec, read, item) <==>
              match item
              case PackageItem(p) => p.schema == SCHEMA_PACKAGE
              case ChannelItem(c) => c.schema == SCHEMA_CHANNEL
              case BundleItem(b) => b.schema == SCHEMA_BUNDLE
                  && Derives(codec, b.(csvJSON := "", objects := []), b)
              case DeprecationItem(d) => d.schema == SCHEMA_DEPRECATION
              case OtherItem(m) => !Reserved(m.schema) && read(item) == m
  {
    match item
    case PackageItem(p) => assert read(PackageItem(p)).schema == p.schema;
    case ChannelItem(c) => assert read(ChannelItem(c)).schema == c.schema;
    case BundleItem(b) =>
      assert read(BundleItem(b)).schema == b.schema;
      DerivedExactly(codec, b.(csvJSON := "", objects := []), b);
    case DeprecationItem(d) => assert read(DeprecationItem(d)).schema == d.schema;
    case OtherItem(m) =>
  }

  ghost function ReadAll(read: Item -> Meta, out: seq<Item>): seq<Meta> {
    seq(|out|, i requires 0 <= i < |out| => read(out[i]))
  }

  /** What decoding the blobs of a printout and adding them up gives, if all of them decode. */
  ghost function Reload(codec: Codec, read: Item -> Meta, out: seq<Item>): Option<Config> {
    if Decodable(DecoderOf(codec), ReadAll(read, out))
    then Some(Collect(ItemsOf(DecoderOf(codec), ReadAll(read, out)))) else None
  }

  ghost predicate AllSurvive(codec: Codec, read: Item -> Meta, cfg: Config) {
    forall section: Section, x :: x in Kept(SectionItems(cfg, section)) ==> Survives(codec, read, x)
  }

  lemma EmittedSurvives(codec: Codec, read: Item -> Meta, cfg: Config, names: seq<string>, parts: seq<Part>,
                        out: seq<Item>, j: nat)
    requires IsEmission(cfg, names, parts, out) && AllSurvive(codec, read, cfg) && j < |out|
    ensures Survives(codec, read, out[j])
  {
    var section := SectionOf(out[j]);
    EmissionConserves(cfg, names, parts, out, section);
    SelectMember(out, j);
    assert out[j] in multiset(Kept(SectionItems(cfg, section)));
  }

  /** Loading what printing emitted gives every section back, rearranged, without the items that have no
      package name. */
  lemma PrintThenLoad(codec: Codec, read: Item -> Meta, cfg: Config, names: seq<string>, parts: seq<Part>,
                      out: seq<Item>)
    requires IsEmission(cfg, names, parts, out) && AllSurvive(codec, read, cfg)
    ensures Reload(codec, read, out) == Some(Collect(out))
    ensures forall section: Section ::
              multiset(SectionItems(Collect(out), section)) == multiset(Kept(SectionItems(cfg, section)))
  {
    forall j | 0 <= j < |out|
      ensures Survives(codec, read, out[j])
    {
      EmittedSurvives(codec, read, cfg, names, parts, out, j);
    }
    assert ItemsOf(DecoderOf(codec), ReadAll(read, out)) == out;
    forall section: Section
      ensures multiset(SectionItems(Collect(out), section)) == multiset(Kept(SectionItems(cfg, section)))
    {
      SectionItemsCollect(out, section);
      EmissionConserves(cfg, names, parts, out, section);
    }
  }

  // ----- Printing again -----

  /** Channels and bundles have distinct names within each package. */
  ghost predicate DistinctNames(cfg: Config) {
    forall pkg: string :: pkg != "" ==>
      DistinctKeys(NameKey, OfPackage(SectionItems(cfg, Channels), pkg))
      && DistinctKeys(NameKey, OfPackage(SectionItems(cfg, Bundles), pkg))
  }

  lemma {:induction false} OfPackageConcat(a: seq<Item>, b: seq<Item>, pkg: string)
    ensures OfPackage(a + b, pkg) == OfPackage(a, pkg) + OfPackage(b, pkg)
  {
    if |b| == 0 {
      assert a + b == a;
    } else {
      var n := |b| - 1;
      assert (a + b)[..|a + b| - 1] == a + b[..n];
      OfPackageConcat(a, b[..n], pkg);
    }
  }

  lemma {:induction false} OfPackageOne(items: seq<Item>, section: Section, mine: string, pkg: string)
    requires AllIn(items, section, mine)
    ensures OfPackage(items, pkg) == if pkg == mine then items else []
  {
    if |items| != 0 {
      OfPackageOne(items[..|items| - 1], section, mine, pkg);
    }
  }

  ghost predicate GroupsIn(groups: seq<seq<Item>>, section: Section, names: seq<string>) {
    |groups| == |names| && forall i :: 0 <= i < |names| ==> AllIn(groups[i], section, names[i])
  }

  lemma {:induction false} OfPackageAbsent(groups: seq<seq<Item>>, section: Section, names: seq<string>, pkg: string)
    requires GroupsIn(groups, section, names) && pkg !in names
    ensures OfPackage(Concat(groups), pkg) == []
  {
    if |groups| != 0 {
      var n := |groups| - 1;
      OfPackageAbsent(groups[..n], section, names[..n], pkg);
      OfPackageConcat(Concat(groups[..n]), groups[n], pkg);
      OfPackageOne(groups[n], section, names[n], pkg);
    }
  }

  /** Regrouping a concatenation of groups by package gives the groups back. */
  lemma {:induction false} OfPackageGroup(groups: seq<seq<Item>>, section: Section, names: seq<string>, i: nat)
    requires GroupsIn(groups, section, names) && DistinctKeys(Identity, names) && i < |names|
    ensures OfPackage(Concat(groups), names[i]) == groups[i]
  {
    var n := |groups| - 1;
    OfPackageConcat(Concat(groups[..n]), groups[n], names[i]);
    OfPackageOne(groups[n], section, names[n], names[i]);
    if i == n {
      assert forall j :: 0 <= j < n ==> Identity(names[j]) != Identity(names[n]);
      OfPackageAbsent(groups[..n], section, names[..n], names[i]);
    } else {
      assert Identity(names[i]) != Identity(names[n]);
      OfPackageGroup(groups[..n], section, names[..n], i);
    }
  }

  lemma SectionsIn(cfg: Config, names: seq<string>, parts: seq<Part>, out: seq<Item>, section: Section)
    requires IsEmission(cfg, names, parts, out)
    ensures GroupsIn(Sections(parts, section), section, names) && "" !in names
  {
    forall i | 0 <= i < |names|
      ensures AllIn(Sections(parts, section)[i], section, names[i])
    {
      PartSection(cfg, names[i], parts[i], section);
    }
  }

  /** Each section of `cfg` holds the items of that section, in order. */
  ghost predicate LoadedFrom(cfg: Config, items: seq<Item>) {
    forall section: Section :: SectionItems(cfg, section) == Select(items, section)
  }

  lemma CollectLoads(items: seq<Item>)
    ensures LoadedFrom(Collect(items), items)
  {
    forall section: Section
      ensures SectionItems(Collect(items), section) == Select(items, section)
    {
      SectionItemsCollect(items, section);
    }
  }

  /** The items of a package in the reloaded configuration are those of its part. */
  lemma ReloadedPackage(cfg: Config, reloaded: Config, names: seq<string>, parts: seq<Part>, out: seq<Item>,
                        section: Section, i: nat)
    requires IsEmission(cfg, names, parts, out) && LoadedFrom(reloaded, out) && i < |names|
    ensures OfPackage(SectionItems(reloaded, section), names[i]) == parts[i].Get(section)
  {
    SelectEmission(cfg, names, parts, out, section);
    SectionsIn(cfg, names, parts, out, section);
    var groups := Sections(parts, section);
    var tail := if section == Others then OfPackage(SectionItems(cfg, Others), "") else [];
    OfPackageConcat(Concat(groups), tail, names[i]);
    OfPackageGroup(groups, section, names, i);
    OfPackageAllIn(cfg, Others, "");
    assert names[i] in names;
    OfPackageOne(tail, Others, "", names[i]);
  }

  /** A name that is neither empty nor in the list has no items in the reloaded configuration. */
  lemma ReloadedAbsent(cfg: Config, reloaded: Config, names: seq<string>, parts: seq<Part>, out: seq<Item>,
                       section: Section, pkg: string)
    requires IsEmission(cfg, names, parts, out) && LoadedFrom(reloaded, out) && pkg !in names
    ensures OfPackage(SectionItems(reloaded, section), pkg)
         == if section == Others && pkg == "" then OfPackage(SectionItems(cfg, Others), "") else []
  {
    SelectEmission(cfg, names, parts, out, section);
    SectionsIn(cfg, names, parts, out, section);
    var groups := Sections(parts, section);
    var tail := if section == Others then OfPackage(SectionItems(cfg, Others), "") else [];
    OfPackageConcat(Concat(groups), tail, pkg);
    OfPackageAbsent(groups, section, names, pkg);
    OfPackageAllIn(cfg, Others, "");
    OfPackageOne(tail, Others, "", pkg);
  }

  lemma SameMentions(cfg: Config, reloaded: Config, names: seq<string>, parts: seq<Part>, out: seq<Item>, name: string)
    requires IsEmission(cfg, names, parts, out) && LoadedFrom(reloaded, out) && name != ""
    ensures Mentioned(reloaded, name) <==> Mentioned(cfg, name)
  {
    forall section: Section
      ensures HasPackage(SectionItems(reloaded, section), name) <==> HasPackage(SectionItems(cfg, section), name)
    {
      HasPackageItems(SectionItems(reloaded, section), name);
      HasPackageItems(SectionItems(cfg, section), name);
      if i :| 0 <= i < |names| && names[i] == name {
        ReloadedPackage(cfg, reloaded, names, parts, out, section, i);
        PartSection(cfg, name, parts[i], section);
        assert |multiset(parts[i].Get(section))| == |parts[i].Get(section)|;
        assert |multiset(OfPackage(SectionItems(cfg, section), name))| == |OfPackage(SectionItems(cfg, section), name)|;
      } else {
        ReloadedAbsent(cfg, reloaded, names, parts, out, section, name);
      }
    }
  }

  lemma {:induction false} SameElements(a: seq<string>, b: seq<string>)
    requires DistinctKeys(Identity, a) && DistinctKeys(Identity, b) && forall x :: x in a <==> x in b
    ensures multiset(a) == multiset(b)
  {
    forall x: string
      ensures multiset(a)[x] == multiset(b)[x]
    {
      DistinctOnce(Identity, a, x);
      DistinctOnce(Identity, b, x);
      assert x in a <==> x in multiset(a);
      assert x in b <==> x in multiset(b);
    }
  }

  lemma ResortSame(items: seq<Item>, sorted: seq<Item>, resorted: seq<Item>)
    requires DistinctKeys(NameKey, items) && SortOf(NameKey, items, sorted) && SortOf(NameKey, sorted, resorted)
    ensures resorted == sorted
  {
    SortKeepsDistinct(NameKey, items, sorted);
    SortedUnique(NameKey, sorted, resorted);
  }

  lemma RestableSame(items: seq<Item>)
    ensures StableSort(StableSort(items, SchemaKey), SchemaKey) == StableSort(items, SchemaKey)
  {
    StableSortLaws(items, SchemaKey, ("", ""));
    StableSortSorted(StableSort(items, SchemaKey), SchemaKey);
  }

  lemma FiveSections(cfg: Config, pkg: string, part: Part)
    requires forall section: Section :: OfPackage(SectionItems(cfg, section), pkg) == part.Get(section)
    ensures OfPackage(SectionItems(cfg, Packages), pkg) == part.packages
    ensures OfPackage(SectionItems(cfg, Channels), pkg) == part.channels
    ensures OfPackage(SectionItems(cfg, Bundles), pkg) == part.bundles
    ensures OfPackage(SectionItems(cfg, Others), pkg) == part.others
    ensures OfPackage(SectionItems(cfg, Deprecations), pkg) == part.deprecations
  {
    assert OfPackage(SectionItems(cfg, Packages), pkg) == part.Get(Packages);
    assert OfPackage(SectionItems(cfg, Channels), pkg) == part.Get(Channels);
    assert OfPackage(SectionItems(cfg, Bundles), pkg) == part.Get(Bundles);
    assert OfPackage(SectionItems(cfg, Others), pkg) == part.Get(Others);
    assert OfPackage(SectionItems(cfg, Deprecations), pkg) == part.Get(Deprecations);
  }

  lemma SamePart(cfg: Config, reloaded: Config, pkg: string, part: Part, part': Part)
    requires IsPart(cfg, pkg, part) && IsPart(reloaded, pkg, part')
    requires DistinctKeys(NameKey, OfPackage(SectionItems(cfg, Channels), pkg))
    requires DistinctKeys(NameKey, OfPackage(SectionItems(cfg, Bundles), pkg))
    requires OfPackage(SectionItems(reloaded, Packages), pkg) == part.packages
    requires OfPackage(SectionItems(reloaded, Channels), pkg) == part.channels
    requires OfPackage(SectionItems(reloaded, Bundles), pkg) == part.bundles
    requires OfPackage(SectionItems(reloaded, Others), pkg) == part.others
    requires OfPackage(SectionItems(reloaded, Deprecations), pkg) == part.deprecations
    ensures part' == part
  {
    ResortSame(OfPackage(SectionItems(cfg, Channels), pkg), part.channels, part'.channels);
    ResortSame(OfPackage(SectionItems(cfg, Bundles), pkg), part.bundles, part'.bundles);
    RestableSame(OfPackage(SectionItems(cfg, Others), pkg));
  }

  lemma SameParts(cfg: Config, reloaded: Config, names: seq<string>, parts: seq<Part>, out: seq<Item>,
                  parts': seq<Part>)
    requires IsEmission(cfg, names, parts, out) && LoadedFrom(reloaded, out) && DistinctNames(cfg)
    requires |parts'| == |names| && forall i :: 0 <= i < |names| ==> IsPart(reloaded, names[i], parts'[i])
    ensures parts' == parts
  {
    forall i | 0 <= i < |names|
      ensures parts'[i] == parts[i]
    {
      SamePartAt(cfg, reloaded, names, parts, out, parts'[i], i);
    }
  }

  lemma SamePartAt(cfg: Config, reloaded: Config, names: seq<string>, parts: seq<Part>, out: seq<Item>, part: Part,
                   i: nat)
    requires IsEmission(cfg, names, parts, out) && LoadedFrom(reloaded, out) && DistinctNames(cfg)
    requires i < |names| && IsPart(reloaded, names[i], part)
    ensures part == parts[i]
  {
    forall section: Section
      ensures OfPackage(SectionItems(reloaded, section), names[i]) == parts[i].Get(section)
    {
      ReloadedPackage(cfg, reloaded, names, parts, out, section, i);
    }
    FiveSections(reloaded, names[i], parts[i]);
    assert names[i] in names;
    SamePart(cfg, reloaded, names[i], parts[i], part);
  }

  lemma SameNames(cfg: Config, reloaded: Config, names: seq<string>, parts: seq<Part>, out: seq<Item>,
                  names': seq<string>)
    requires IsEmission(cfg, names, parts, out) && LoadedFrom(reloaded, out) && PackageList(reloaded, names')
    ensures names' == names
  {
    forall name: string
      ensures name in names <==> name in names'
    {
      if name != "" {
        SameMentions(cfg, reloaded, names, parts, out, name);
      }
    }
    SameElements(names, names');
    SortedUnique(Identity, names, names');
  }

  /** Printing what a printout collects to gives the same printout. */
  lemma EmitAgain(cfg: Config, names: seq<string>, parts: seq<Part>, out: seq<Item>,
                  names': seq<string>, parts': seq<Part>, out': seq<Item>)
    requires IsEmission(cfg, names, parts, out) && DistinctNames(cfg)
    requires IsEmission(Collect(out), names', parts', out')
    ensures out' == out
  {
    CollectLoads(out);
    SameNames(cfg, Collect(out), names, parts, out, names');
    SameParts(cfg, Collect(out), names, parts, out, parts');
    ReloadedAbsent(cfg, Collect(out), names, parts, out, Others, "");
  }

  /** Printing what was loaded from a printout gives the same printout, if channel and bundle names are distinct
      within each package. */
  lemma PrintAgain(codec: Codec, read: Item -> Meta, cfg: Config, names: seq<string>, parts: seq<Part>, out: seq<Item>,
                   names': seq<string>, parts': seq<Part>, out': seq<Item>)
    requires IsEmission(cfg, names, parts, out) && AllSurvive(codec, read, cfg) && DistinctNames(cfg)
    ensures Reload(codec, read, out).Some?
    ensures IsEmission(Reload(codec, read, out).value, names', parts', out') ==> out' == out
  {
    PrintThenLoad(codec, read, cfg, names, parts, out);
    if IsEmission(Collect(out), names', parts', out') {
      EmitAgain(cfg, names, parts, out, names', parts', out');
    }
  }
}
