/** Printing a configuration, package by package, and reading it back. */
module Writer {
  import opened Declcfg
  import opened Builder
  import opened Interleaving
  import opened Listing
  import opened Orders

  /** The package an item is printed under. */
  function PkgOf(item: Item): string {
    match item
    case PackageItem(p) => p.name
    case ChannelItem(c) => c.pkg
    case BundleItem(b) => b.pkg
    case DeprecationItem(d) => d.pkg
    case OtherItem(m) => m.pkg
  }

  function NameKey(item: Item): Key {
    match item
    case PackageItem(p) => (p.name, "")
    case ChannelItem(c) => (c.name, "")
    case BundleItem(b) => (b.name, "")
    case DeprecationItem(_) => ("", "")
    case OtherItem(m) => (m.name, "")
  }

  function SchemaKey(item: Item): Key {
    match item
    case PackageItem(p) => (p.schema, "")
    case ChannelItem(c) => (c.schema, "")
    case BundleItem(b) => (b.schema, "")
    case DeprecationItem(d) => (d.schema, "")
    case OtherItem(m) => (m.schema, "")
  }

  /** The items of one package, in order. */
  function OfPackage(items: seq<Item>, pkg: string): seq<Item> {
    WithKey(items, PkgKey, Identity(pkg))
  }

  function PkgKey(item: Item): Key {
    Identity(PkgOf(item))
  }

  ghost predicate HasPackage(items: seq<Item>, pkg: string) {
    exists j :: 0 <= j < |items| && PkgOf(items[j]) == pkg
  }

  // ----- What is printed -----

  /** The items printed for one package, section by section. */
  datatype Part = Part(packages: seq<Item>, channels: seq<Item>, bundles: seq<Item>, others: seq<Item>,
                       deprecations: seq<Item>) {
    function Items(): seq<Item> {
      packages + channels + bundles + others + deprecations
    }

    function Get(section: Section): seq<Item> {
      match section
      case Packages => packages
      case Channels => channels
      case Bundles => bundles
      case Others => others
      case Deprecations => deprecations
    }
  }

  /** `part` prints `pkg`: channels and bundles sorted by name, other blobs sorted by schema with equal schemas
      in the order they came in, the rest as it came in. */
  ghost predicate IsPart(cfg: Config, pkg: string, part: Part) {
    && part.packages == OfPackage(SectionItems(cfg, Packages), pkg)
    && SortOf(NameKey, OfPackage(SectionItems(cfg, Channels), pkg), part.channels)
    && SortOf(NameKey, OfPackage(SectionItems(cfg, Bundles), pkg), part.bundles)
    && part.others == StableSort(OfPackage(SectionItems(cfg, Others), pkg), SchemaKey)
    && part.deprecations == OfPackage(SectionItems(cfg, Deprecations), pkg)
  }

  ghost predicate Mentioned(cfg: Config, pkg: string) {
    exists section: Section :: HasPackage(SectionItems(cfg, section), pkg)
  }

  ghost predicate PackageList(cfg: Config, names: seq<string>) {
    && Sorted(Identity, names) && DistinctKeys(Identity, names)
    && forall name: string :: name in names <==> name != "" && Mentioned(cfg, name)
  }

  function PartItems(parts: seq<Part>): seq<seq<Item>> {
    seq(|parts|, i requires 0 <= i < |parts| => parts[i].Items())
  }

  /** What printing `cfg` emits: the parts of the named packages, sorted by name, and then the other blobs
      without a package. */
  ghost predicate IsEmission(cfg: Config, names: seq<string>, parts: seq<Part>, out: seq<Item>) {
    && PackageList(cfg, names)
    && |parts| == |names| && (forall i :: 0 <= i < |names| ==> IsPart(cfg, names[i], parts[i]))
    && out == Concat(PartItems(parts)) + OfPackage(SectionItems(cfg, Others), "")
  }

  // ----- Printing -----

  type Groups = map<string, seq<Item>>

  method GroupByPackage(items: seq<Item>) returns (groups: Groups)
    ensures GroupsItems(items, groups)
  {
    groups := GroupByName(items, PkgKey);
    forall pkg: string
      ensures pkg in groups <==> HasPackage(items, pkg)
    {
      HasPackageItems(items, pkg);
    }
  }

  lemma HasPackageItems(items: seq<Item>, pkg: string)
    ensures HasPackage(items, pkg) <==> OfPackage(items, pkg) != []
  {
    OfPackageItems(items, pkg);
    if HasPackage(items, pkg) {
      var j :| 0 <= j < |items| && PkgOf(items[j]) == pkg;
      assert items[j] in OfPackage(items, pkg);
    }
    if OfPackage(items, pkg) != [] {
      var x := OfPackage(items, pkg)[0];
      assert x in OfPackage(items, pkg);
      assert x in items;
    }
  }

  /** Where encoded items go. Encoding can fail, and then nothing more is written. */
  class Encoder {
    var out: seq<Item>

    method Encode(item: Item) returns (ok: bool)
      modifies this
      ensures out == if ok then old(out) + [item] else old(out)
    {
      ok := *;
      if ok {
        out := out + [item];
      }
    }
  }

  method EncodeAll(enc: Encoder, items: seq<Item>) returns (ok: bool)
    modifies enc
    ensures ok ==> enc.out == old(enc.out) + items
    ensures exists k :: 0 <= k <= |items| && enc.out == old(enc.out) + items[..k]
  {
    ok := true;
    assert items[..0] == [];
    for i := 0 to |items|
      invariant enc.out == old(enc.out) + items[..i]
    {
      var encoded := enc.Encode(items[i]);
      if !encoded {
        return false;
      }
    }
    assert items[..|items|] == items;
  }

  /** The items of each section, by package. */
  datatype ByPackage = ByPackage(packages: Groups, channels: Groups, bundles: Groups, others: Groups,
                                 deprecations: Groups)

  ghost predicate GroupsItems(items: seq<Item>, groups: Groups) {
    && (forall pkg: string :: GroupAt(groups, pkg) == OfPackage(items, pkg))
    && (forall pkg: string :: pkg in groups <==> HasPackage(items, pkg))
  }

  ghost predicate GroupsConfig(cfg: Config, grouped: ByPackage) {
    && GroupsItems(SectionItems(cfg, Packages), grouped.packages)
    && GroupsItems(SectionItems(cfg, Channels), grouped.channels)
    && GroupsItems(SectionItems(cfg, Bundles), grouped.bundles)
    && GroupsItems(SectionItems(cfg, Others), grouped.others)
    && GroupsItems(SectionItems(cfg, Deprecations), grouped.deprecations)
  }

  method GroupConfig(cfg: Config) returns (grouped: ByPackage)
    ensures GroupsConfig(cfg, grouped)
  {
    var packages := GroupByPackage(SectionItems(cfg, Packages));
    var channels := GroupByPackage(SectionItems(cfg, Channels));
    var bundles := GroupByPackage(SectionItems(cfg, Bundles));
    var others := GroupByPackage(SectionItems(cfg, Others));
    var deprecations := GroupByPackage(SectionItems(cfg, Deprecations));
    grouped := ByPackage(packages, channels, bundles, others, deprecations);
  }

  method ListPackages(ghost cfg: Config, grouped: ByPackage) returns (names: seq<string>)
    requires GroupsConfig(cfg, grouped)
    ensures PackageList(cfg, names)
  {
    names := SortedList(grouped.packages.Keys + grouped.channels.Keys + grouped.bundles.Keys
                        + grouped.others.Keys + grouped.deprecations.Keys - {""});
    forall name: string
      ensures name in names <==> name != "" && Mentioned(cfg, name)
    {
      MentionedWhere(cfg, name);
    }
  }

  method MakePart(ghost cfg: Config, grouped: ByPackage, pkg: string) returns (part: Part)
    requires GroupsConfig(cfg, grouped)
    ensures IsPart(cfg, pkg, part)
  {
    var channels := SortSlice(GroupAt(grouped.channels, pkg), NameKey);
    var bundles := SortSlice(GroupAt(grouped.bundles, pkg), NameKey);
    var others := SortSliceStable(GroupAt(grouped.others, pkg), SchemaKey);
    part := Part(GroupAt(grouped.packages, pkg), channels, bundles, others, GroupAt(grouped.deprecations, pkg));
  }

  ghost predicate ArePartsOf(cfg: Config, names: seq<string>, parts: seq<Part>) {
    |parts| <= |names| && forall i :: 0 <= i < |parts| ==> IsPart(cfg, names[i], parts[i])
  }

  lemma PartsNext(cfg: Config, names: seq<string>, parts: seq<Part>, part: Part)
    requires ArePartsOf(cfg, names, parts) && |parts| < |names| && IsPart(cfg, names[|parts|], part)
    ensures ArePartsOf(cfg, names, parts + [part])
  {
  }

  method MakeParts(ghost cfg: Config, grouped: ByPackage, names: seq<string>) returns (parts: seq<Part>)
    requires GroupsConfig(cfg, grouped)
    ensures |parts| == |names| && forall i :: 0 <= i < |names| ==> IsPart(cfg, names[i], parts[i])
  {
    parts := [];
    for i := 0 to |names|
      invariant |parts| == i && ArePartsOf(cfg, names, parts)
    {
      var part := MakePart(cfg, grouped, names[i]);
      PartsNext(cfg, names, parts, part);
      parts := parts + [part];
    }
  }

  /** The items to print, in order. */
  method Arrange(cfg: Config) returns (items: seq<Item>, ghost names: seq<string>, ghost parts: seq<Part>)
    ensures IsEmission(cfg, names, parts, items)
  {
    var grouped := GroupConfig(cfg);
    var list := ListPackages(cfg, grouped);
    var made := MakeParts(cfg, grouped, list);
    items := Concat(PartItems(made)) + GroupAt(grouped.others, "");
    names, parts := list, made;
  }

  /** Prints a configuration. If an item cannot be encoded, what is out is a beginning of what would have been
      printed. */
  method WriteToEncoder(cfg: Config, enc: Encoder)
    returns (ok: bool, ghost names: seq<string>, ghost parts: seq<Part>, ghost all: seq<Item>)
    modifies enc
    ensures IsEmission(cfg, names, parts, all)
    ensures ok ==> enc.out == old(enc.out) + all
    ensures exists k :: 0 <= k <= |all| && enc.out == old(enc.out) + all[..k]
  {
    var items;
    items, names, parts := Arrange(cfg);
    all := items;
    ok := EncodeAll(enc, items);
  }

  lemma MentionedWhere(cfg: Config, name: string)
    ensures Mentioned(cfg, name) <==>
              HasPackage(SectionItems(cfg, Packages), name) || HasPackage(SectionItems(cfg, Channels), name)
              || HasPackage(SectionItems(cfg, Bundles), name) || HasPackage(SectionItems(cfg, Others), name)
              || HasPackage(SectionItems(cfg, Deprecations), name)
  {
    if section: Section :| HasPackage(SectionItems(cfg, section), name) {
      assert section.Packages? || section.Channels? || section.Bundles? || section.Deprecations? || section.Others?;
    }
  }

  // ----- Nothing but nameless items is lost -----

  /** The items whose package is one of `names`, in order. */
  ghost function InNames(items: seq<Item>, names: seq<string>): seq<Item> {
    if |items| == 0 then []
    else InNames(items[..|items| - 1], names) + if PkgOf(items[|items| - 1]) in names then [items[|items| - 1]] else []
  }

  lemma {:induction false} OfPackageItems(items: seq<Item>, pkg: string)
    ensures forall x :: x in OfPackage(items, pkg) <==> x in items && PkgOf(x) == pkg
  {
    if |items| != 0 {
      var n := |items| - 1;
      OfPackageItems(items[..n], pkg);
      assert items == items[..n] + [items[n]];
    }
  }

  lemma {:induction false} InNamesSplit(items: seq<Item>, names: seq<string>, name: string)
    requires name !in names
    ensures multiset(InNames(items, names + [name]))
            == multiset(InNames(items, names)) + multiset(OfPackage(items, name))
  {
    if |items| != 0 {
      InNamesSplit(items[..|items| - 1], names, name);
    }
  }

  lemma {:induction false} InNoNames(items: seq<Item>)
    ensures InNames(items, []) == []
  {
    if |items| != 0 {
      InNoNames(items[..|items| - 1]);
    }
  }

  ghost function GroupsOf(items: seq<Item>, names: seq<string>): seq<seq<Item>> {
    seq(|names|, i requires 0 <= i < |names| => OfPackage(items, names[i]))
  }

  /** Splitting by distinct package names keeps every item of those packages once. */
  lemma {:induction false} GroupsConserve(items: seq<Item>, names: seq<string>)
    requires DistinctKeys(Identity, names)
    ensures multiset(Concat(GroupsOf(items, names))) == multiset(InNames(items, names))
  {
    if |names| == 0 {
      InNoNames(items);
    } else {
      var n := |names| - 1;
      GroupsConserve(items, names[..n]);
      assert names == names[..n] + [names[n]];
      assert names[n] !in names[..n] by {
        assert forall i :: 0 <= i < n ==> Identity(names[i]) != Identity(names[n]);
      }
      InNamesSplit(items, names[..n], names[n]);
      assert GroupsOf(items, names)[..n] == GroupsOf(items, names[..n]);
    }
  }

  lemma {:induction false} ConcatSameMultisets<T>(a: seq<seq<T>>, b: seq<seq<T>>)
    requires |a| == |b| && forall i :: 0 <= i < |a| ==> multiset(a[i]) == multiset(b[i])
    ensures multiset(Concat(a)) == multiset(Concat(b))
  {
    if |a| != 0 {
      var n := |a| - 1;
      ConcatSameMultisets(a[..n], b[..n]);
    }
  }

  /** All items belong to one section and one package. */
  ghost predicate AllIn(items: seq<Item>, section: Section, pkg: string) {
    forall j :: 0 <= j < |items| ==> SectionOf(items[j]) == section && PkgOf(items[j]) == pkg
  }

  lemma SectionOfItems(cfg: Config, section: Section)
    ensures forall j :: 0 <= j < |SectionItems(cfg, section)| ==> SectionOf(SectionItems(cfg, section)[j]) == section
  {
  }

  lemma OfPackageAllIn(cfg: Config, section: Section, pkg: string)
    ensures AllIn(OfPackage(SectionItems(cfg, section), pkg), section, pkg)
  {
    var mine := OfPackage(SectionItems(cfg, section), pkg);
    SectionOfItems(cfg, section);
    OfPackageItems(SectionItems(cfg, section), pkg);
    forall j | 0 <= j < |mine|
      ensures SectionOf(mine[j]) == section && PkgOf(mine[j]) == pkg
    {
      assert mine[j] in mine;
    }
  }

  lemma AllInSameItems(a: seq<Item>, b: seq<Item>, section: Section, pkg: string)
    requires AllIn(a, section, pkg) && multiset(a) == multiset(b)
    ensures AllIn(b, section, pkg)
  {
    forall j | 0 <= j < |b|
      ensures SectionOf(b[j]) == section && PkgOf(b[j]) == pkg
    {
      assert b[j] in multiset(a);
    }
  }

  lemma PartSection(cfg: Config, pkg: string, part: Part, section: Section)
    requires IsPart(cfg, pkg, part)
    ensures multiset(part.Get(section)) == multiset(OfPackage(SectionItems(cfg, section), pkg))
    ensures AllIn(part.Get(section), section, pkg)
  {
    StableSortLaws(OfPackage(SectionItems(cfg, Others), pkg), SchemaKey, ("", ""));
    OfPackageAllIn(cfg, section, pkg);
    AllInSameItems(OfPackage(SectionItems(cfg, section), pkg), part.Get(section), section, pkg);
  }

  lemma PartSections(cfg: Config, pkg: string, part: Part)
    requires IsPart(cfg, pkg, part)
    ensures AllIn(part.packages, Packages, pkg) && AllIn(part.channels, Channels, pkg)
            && AllIn(part.bundles, Bundles, pkg)
    ensures AllIn(part.others, Others, pkg) && AllIn(part.deprecations, Deprecations, pkg)
  {
    PartSection(cfg, pkg, part, Packages);
    PartSection(cfg, pkg, part, Channels);
    PartSection(cfg, pkg, part, Bundles);
    PartSection(cfg, pkg, part, Others);
    PartSection(cfg, pkg, part, Deprecations);
  }

  lemma {:induction false} SelectOne(items: seq<Item>, mine: Section, pkg: string, section: Section)
    requires AllIn(items, mine, pkg)
    ensures Select(items, section) == Only(items, section == mine)
  {
    if |items| != 0 {
      SelectOne(items[..|items| - 1], mine, pkg, section);
    }
  }

  /** The section of a whole part. */
  lemma SelectPart(pkg: string, part: Part, section: Section)
    requires AllIn(part.packages, Packages, pkg) && AllIn(part.channels, Channels, pkg)
             && AllIn(part.bundles, Bundles, pkg)
    requires AllIn(part.others, Others, pkg) && AllIn(part.deprecations, Deprecations, pkg)
    ensures Select(part.Items(), section) == part.Get(section)
  {
    SelectFive(part.packages, part.channels, part.bundles, part.others, part.deprecations, section);
    SelectOne(part.packages, Packages, pkg, section);
    SelectOne(part.channels, Channels, pkg, section);
    SelectOne(part.bundles, Bundles, pkg, section);
    SelectOne(part.others, Others, pkg, section);
    SelectOne(part.deprecations, Deprecations, pkg, section);
    OnlyGet(part, section);
  }

  function Only(items: seq<Item>, here: bool): seq<Item> {
    if here then items else []
  }

  lemma OnlyGet(part: Part, section: Section)
    ensures Only(part.packages, section == Packages) + Only(part.channels, section == Channels)
            + Only(part.bundles, section == Bundles)
            + Only(part.others, section == Others) + Only(part.deprecations, section == Deprecations)
         == part.Get(section)
  {
  }

  lemma SelectFive(p: seq<Item>, c: seq<Item>, b: seq<Item>, o: seq<Item>, d: seq<Item>, section: Section)
    ensures Select(p + c + b + o + d, section)
         == Select(p, section) + Select(c, section) + Select(b, section) + Select(o, section) + Select(d, section)
  {
    SelectConcat(p + c + b + o, d, section);
    SelectConcat(p + c + b, o, section);
    SelectConcat(p + c, b, section);
    SelectConcat(p, c, section);
  }

  lemma {:induction false} SelectConcatAll(parts: seq<seq<Item>>, section: Section)
    ensures Select(Concat(parts), section)
            == Concat(seq(|parts|, i requires 0 <= i < |parts| => Select(parts[i], section)))
  {
    var selected := seq(|parts|, i requires 0 <= i < |parts| => Select(parts[i], section));
    if |parts| != 0 {
      var n := |parts| - 1;
      SelectConcatAll(parts[..n], section);
      SelectConcat(Concat(parts[..n]), parts[n], section);
      assert selected[..n] == seq(n, i requires 0 <= i < n => Select(parts[..n][i], section));
    }
  }

  ghost function Sections(parts: seq<Part>, section: Section): seq<seq<Item>> {
    seq(|parts|, i requires 0 <= i < |parts| => parts[i].Get(section))
  }

  /** A section of what is printed: the sections of the parts, and the nameless other blobs. */
  lemma SelectEmission(cfg: Config, names: seq<string>, parts: seq<Part>, out: seq<Item>, section: Section)
    requires IsEmission(cfg, names, parts, out)
    ensures Select(out, section) == Concat(Sections(parts, section))
                                    + if section == Others then OfPackage(SectionItems(cfg, Others), "") else []
  {
    var tail := OfPackage(SectionItems(cfg, Others), "");
    SelectConcat(Concat(PartItems(parts)), tail, section);
    OfPackageAllIn(cfg, Others, "");
    SelectOne(tail, Others, "", section);
    SelectParts(cfg, names, parts, section);
  }

  lemma SelectParts(cfg: Config, names: seq<string>, parts: seq<Part>, section: Section)
    requires |parts| == |names| && forall i :: 0 <= i < |names| ==> IsPart(cfg, names[i], parts[i])
    ensures Select(Concat(PartItems(parts)), section) == Concat(Sections(parts, section))
  {
    var all := PartItems(parts);
    SelectConcatAll(all, section);
    forall i | 0 <= i < |parts|
      ensures Select(all[i], section) == parts[i].Get(section)
    {
      PartSections(cfg, names[i], parts[i]);
      SelectPart(names[i], parts[i], section);
    }
    SelectedSections(parts, section);
  }

  lemma SelectedSections(parts: seq<Part>, section: Section)
    requires forall i :: 0 <= i < |parts| ==> Select(PartItems(parts)[i], section) == parts[i].Get(section)
    ensures var all := PartItems(parts);
            seq(|all|, i requires 0 <= i < |all| => Select(all[i], section)) == Sections(parts, section)
  {
  }

  /** The items printing keeps: those of a named package, and other blobs in any case. */
  ghost function Kept(items: seq<Item>): seq<Item> {
    if |items| == 0 then []
    else
      var x := items[|items| - 1];
      Kept(items[..|items| - 1]) + if PkgOf(x) != "" || x.OtherItem? then [x] else []
  }

  lemma {:induction false} KeptIsNamed(items: seq<Item>, names: seq<string>)
    requires forall j :: 0 <= j < |items| ==>
               !items[j].OtherItem? && (PkgOf(items[j]) in names <==> PkgOf(items[j]) != "")
    ensures Kept(items) == InNames(items, names)
  {
    if |items| != 0 {
      KeptIsNamed(items[..|items| - 1], names);
    }
  }

  lemma {:induction false} AllKept(items: seq<Item>, names: seq<string>)
    requires forall j :: 0 <= j < |items| ==> items[j].OtherItem? && PkgOf(items[j]) in names
    ensures Kept(items) == items == InNames(items, names)
  {
    if |items| != 0 {
      AllKept(items[..|items| - 1], names);
    }
  }

  lemma KeptMultiset(items: seq<Item>, names: seq<string>, section: Section)
    requires forall j :: 0 <= j < |items| ==>
               SectionOf(items[j]) == section && (PkgOf(items[j]) in names <==> PkgOf(items[j]) != "")
    requires "" !in names
    ensures multiset(Kept(items))
         == multiset(InNames(items, names)) + if section == Others then multiset(OfPackage(items, "")) else multiset{}
  {
    if section == Others {
      AllKept(items, names + [""]);
      InNamesSplit(items, names, "");
    } else {
      KeptIsNamed(items, names);
    }
  }

  /** Printing loses exactly the packages, channels, bundles and deprecations without a package name, and
      duplicates nothing. */
  lemma EmissionConserves(cfg: Config, names: seq<string>, parts: seq<Part>, out: seq<Item>, section: Section)
    requires IsEmission(cfg, names, parts, out)
    ensures multiset(Select(out, section)) == multiset(Kept(SectionItems(cfg, section)))
  {
    var items := SectionItems(cfg, section);
    SelectEmission(cfg, names, parts, out, section);
    forall i | 0 <= i < |parts|
      ensures multiset(Sections(parts, section)[i]) == multiset(GroupsOf(items, names)[i])
    {
      PartSection(cfg, names[i], parts[i], section);
    }
    ConcatSameMultisets(Sections(parts, section), GroupsOf(items, names));
    GroupsConserve(items, names);
    SectionOfItems(cfg, section);
    forall j | 0 <= j < |items|
      ensures PkgOf(items[j]) in names <==> PkgOf(items[j]) != ""
    {
      assert HasPackage(items, PkgOf(items[j]));
      assert Mentioned(cfg, PkgOf(items[j]));
    }
    KeptMultiset(items, names, section);
  }

  lemma {:induction false} SelectMember(items: seq<Item>, j: nat)
    requires j < |items|
    ensures items[j] in Select(items, SectionOf(items[j]))
  {
    var n := |items| - 1;
    if j < n {
      SelectMember(items[..n], j);
    }
  }

  // ----- When nothing is lost -----

  ghost predicate NamedSection(cfg: Config, section: Section) {
    forall x :: x in SectionItems(cfg, section) ==> PkgOf(x) != ""
  }

  /** Every package, channel, bundle and deprecation has a package name. */
  ghost predicate AllNamed(cfg: Config) {
    forall section: Section :: section != Others ==> NamedSection(cfg, section)
  }

  predicate IsKept(x: Item) {
    PkgOf(x) != "" || x.OtherItem?
  }

  lemma {:induction false} KeptLength(items: seq<Item>)
    ensures |Kept(items)| <= |items|
    ensures |Kept(items)| == |items| <==> forall x :: x in items ==> IsKept(x)
    ensures (forall x :: x in items ==> IsKept(x)) ==> Kept(items) == items
  {
    if |items| != 0 {
      var n := |items| - 1;
      KeptLength(items[..n]);
      assert items == items[..n] + [items[n]];
      assert (forall x :: x in items ==> IsKept(x))
             <==> (forall x :: x in items[..n] ==> IsKept(x)) && IsKept(items[n]) by {
        assert items[n] in items && forall x :: x in items[..n] ==> x in items;
      }
    }
  }

  /** A section is kept whole exactly when it is that of other blobs or has names throughout. */
  lemma SectionKept(cfg: Config, names: seq<string>, parts: seq<Part>, out: seq<Item>, section: Section)
    requires IsEmission(cfg, names, parts, out)
    ensures multiset(Select(out, section)) == multiset(SectionItems(cfg, section))
            <==> section == Others || NamedSection(cfg, section)
  {
    var items := SectionItems(cfg, section);
    EmissionConserves(cfg, names, parts, out, section);
    KeptLength(items);
    KeptSection(cfg, section);
    assert |multiset(Kept(items))| == |Kept(items)| && |multiset(items)| == |items|;
  }

  lemma KeptSection(cfg: Config, section: Section)
    ensures (forall x :: x in SectionItems(cfg, section) ==> IsKept(x))
            <==> section == Others || NamedSection(cfg, section)
  {
    SectionOfItems(cfg, section);
    forall x | x in SectionItems(cfg, section)
      ensures x.OtherItem? <==> section == Others
    {
      var j :| 0 <= j < |SectionItems(cfg, section)| && SectionItems(cfg, section)[j] == x;
    }
  }

  /** Printing loses nothing exactly when everything but other blobs has a package name. */
  lemma LosesNothingExactly(cfg: Config, names: seq<string>, parts: seq<Part>, out: seq<Item>)
    requires IsEmission(cfg, names, parts, out)
    ensures (forall section: Section :: multiset(Select(out, section)) == multiset(SectionItems(cfg, section)))
            <==> AllNamed(cfg)
  {
    forall section: Section
      ensures multiset(Select(out, section)) == multiset(SectionItems(cfg, section))
              <==> section == Others || NamedSection(cfg, section)
    {
      SectionKept(cfg, names, parts, out, section);
    }
  }

  /** A channel that names no package. */
  function NamelessConfig(): Config {
    EMPTY_CONFIG.(channels := [Channel(SCHEMA_CHANNEL, "c", "", [], [])])
  }

  /** It is not printed. */
  lemma LossExample(names: seq<string>, parts: seq<Part>, out: seq<Item>)
    requires IsEmission(NamelessConfig(), names, parts, out)
    ensures ChannelItem(NamelessConfig().channels[0]) !in out && !AllNamed(NamelessConfig())
  {
    var items := SectionItems(NamelessConfig(), Channels);
    var x := ChannelItem(NamelessConfig().channels[0]);
    assert items == [x] && Kept(items) == [];
    assert !NamedSection(NamelessConfig(), Channels) by {
      assert x in items && PkgOf(x) == "";
    }
    EmissionConserves(NamelessConfig(), names, parts, out, Channels);
    assert |multiset(Select(out, Channels))| == |Select(out, Channels)|;
    if x in out {
      var j :| 0 <= j < |out| && out[j] == x;
      SelectMember(out, j);
    }
  }
}
