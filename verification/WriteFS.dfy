/** Writing a configuration as one file per package, and loading the files. */
module WriteFS {
  import opened Declcfg
  import opened Builder
  import opened Interleaving
  import opened Listing
  import opened Orders
  import opened PrintLoad
  import opened Writer
  import Loader
  import Pipeline

  function ChannelPkgKey(c: Channel): Key {
    Identity(c.pkg)
  }

  function BundlePkgKey(b: Bundle): Key {
    Identity(b.pkg)
  }

  /** What goes into the file of package `p`: neither deprecations nor other blobs. */
  function PackageConfig(cfg: Config, p: Package): Config {
    Config([p], WithKey(cfg.channels, ChannelPkgKey, Identity(p.name)),
           WithKey(cfg.bundles, BundlePkgKey, Identity(p.name)), [], [])
  }

  ghost predicate Prints(cfg: Config, out: seq<Item>) {
    exists names, parts :: IsEmission(cfg, names, parts, out)
  }

  type Files = map<string, seq<Item>>

  /** No later package is written to the same path. */
  ghost predicate LastAtPath(packages: seq<Package>, pathOf: string -> string, i: nat) {
    i < |packages| && forall j :: i < j < |packages| ==> pathOf(packages[j].name) != pathOf(packages[i].name)
  }

  ghost predicate HasPath(packages: seq<Package>, pathOf: string -> string, path: string) {
    exists i :: 0 <= i < |packages| && pathOf(packages[i].name) == path
  }

  /** The files after writing `contents[i]` for the `i`-th of `packages`. */
  ghost predicate Written(packages: seq<Package>, pathOf: string -> string, contents: seq<seq<Item>>, files: Files) {
    && |contents| == |packages|
    && (forall path :: path in files ==> HasPath(packages, pathOf, path))
    && (forall i: nat :: LastAtPath(packages, pathOf, i) ==>
          pathOf(packages[i].name) in files && files[pathOf(packages[i].name)] == contents[i])
  }

  /** `contents[i]` prints the `i`-th package with its channels and bundles. */
  ghost predicate PrintsEach(cfg: Config, contents: seq<seq<Item>>) {
    |contents| <= |cfg.packages| && forall i :: 0 <= i < |contents| ==>
                                      Prints(PackageConfig(cfg, cfg.packages[i]), contents[i])
  }

  /** Writes each package with its channels and bundles to its own file. Making a directory or writing a file can
      fail, and then the files of the packages before it are there. */
  method WriteFS(cfg: Config, pathOf: string -> string) returns (ok: bool, files: Files, ghost contents: seq<seq<Item>>)
    ensures PrintsEach(cfg, contents) && Written(cfg.packages[..|contents|], pathOf, contents, files)
    ensures ok ==> |contents| == |cfg.packages|
  {
    var channels := GroupByName(cfg.channels, ChannelPkgKey);
    var bundles := GroupByName(cfg.bundles, BundlePkgKey);
    files, ok, contents := map[], true, [];
    for i := 0 to |cfg.packages|
      invariant |contents| == i && PrintsEach(cfg, contents) && Written(cfg.packages[..i], pathOf, contents, files)
    {
      var p := cfg.packages[i];
      var fcfg := Config([p], GroupAt(channels, p.name), GroupAt(bundles, p.name), [], []);
      var items := Print(fcfg);
      var written := *;
      if !written {
        ok := false;
        return;
      }
      PrintsEachNext(cfg, contents, items);
      WrittenNext(cfg.packages, pathOf, contents, files, items);
      files, contents := files[pathOf(p.name) := items], contents + [items];
    }
    assert cfg.packages[..|cfg.packages|] == cfg.packages;
  }

  method Print(cfg: Config) returns (items: seq<Item>)
    ensures Prints(cfg, items)
  {
    ghost var names, parts;
    items, names, parts := Arrange(cfg);
  }

  lemma PrintsEachNext(cfg: Config, contents: seq<seq<Item>>, items: seq<Item>)
    requires PrintsEach(cfg, contents) && |contents| < |cfg.packages|
             && Prints(PackageConfig(cfg, cfg.packages[|contents|]), items)
    ensures PrintsEach(cfg, contents + [items])
  {
    var longer := contents + [items];
    forall i | 0 <= i < |longer|
      ensures Prints(PackageConfig(cfg, cfg.packages[i]), longer[i])
    {
      assert longer[i] == if i < |contents| then contents[i] else items;
    }
  }

  lemma WrittenNext(packages: seq<Package>, pathOf: string -> string, contents: seq<seq<Item>>, files: Files,
                    items: seq<Item>)
    requires |contents| < |packages| && Written(packages[..|contents|], pathOf, contents, files)
    ensures Written(packages[..|contents| + 1], pathOf, contents + [items],
                    files[pathOf(packages[|contents|].name) := items])
  {
    var n := |contents|;
    var files' := files[pathOf(packages[n].name) := items];
    forall path | path in files'
      ensures HasPath(packages[..n + 1], pathOf, path)
    {
      HasPathNext(packages, pathOf, n, path);
    }
    forall i: nat | LastAtPath(packages[..n + 1], pathOf, i)
      ensures pathOf(packages[i].name) in files' && files'[pathOf(packages[i].name)] == (contents + [items])[i]
    {
      if i < n {
        LastAtPathNext(packages, pathOf, n, i);
      }
    }
  }

  lemma HasPathNext(packages: seq<Package>, pathOf: string -> string, n: nat, path: string)
    requires n < |packages| && (HasPath(packages[..n], pathOf, path) || pathOf(packages[n].name) == path)
    ensures HasPath(packages[..n + 1], pathOf, path)
  {
    if HasPath(packages[..n], pathOf, path) {
      var i :| 0 <= i < n && pathOf(packages[..n][i].name) == path;
      assert packages[..n + 1][i] == packages[i];
    } else {
      assert packages[..n + 1][n] == packages[n];
    }
  }

  lemma LastAtPathNext(packages: seq<Package>, pathOf: string -> string, n: nat, i: nat)
    requires n < |packages| && LastAtPath(packages[..n + 1], pathOf, i) && i < n
    ensures LastAtPath(packages[..n], pathOf, i) && pathOf(packages[n].name) != pathOf(packages[i].name)
  {
    var after := packages[..n + 1];
    assert pathOf(after[n].name) != pathOf(after[i].name);
    forall j | i < j < n
      ensures pathOf(packages[j].name) != pathOf(packages[i].name)
    {
      assert pathOf(after[j].name) != pathOf(after[i].name);
    }
  }

  // ----- Loading the files -----

  lemma {:induction false} ChannelsOfItems(channels: seq<Channel>, pkg: string)
    ensures var cfg := EMPTY_CONFIG.(channels := channels);
            SectionItems(cfg.(channels := WithKey(channels, ChannelPkgKey, Identity(pkg))), Channels)
            == OfPackage(SectionItems(cfg, Channels), pkg)
  {
    if |channels| != 0 {
      var n := |channels| - 1;
      ChannelsOfItems(channels[..n], pkg);
      var items := SectionItems(EMPTY_CONFIG.(channels := channels), Channels);
      assert items[..n] == SectionItems(EMPTY_CONFIG.(channels := channels[..n]), Channels);
    }
  }

  lemma {:induction false} BundlesOfItems(bundles: seq<Bundle>, pkg: string)
    ensures var cfg := EMPTY_CONFIG.(bundles := bundles);
            SectionItems(cfg.(bundles := WithKey(bundles, BundlePkgKey, Identity(pkg))), Bundles)
            == OfPackage(SectionItems(cfg, Bundles), pkg)
  {
    if |bundles| != 0 {
      var n := |bundles| - 1;
      BundlesOfItems(bundles[..n], pkg);
      var items := SectionItems(EMPTY_CONFIG.(bundles := bundles), Bundles);
      assert items[..n] == SectionItems(EMPTY_CONFIG.(bundles := bundles[..n]), Bundles);
    }
  }

  /** The sections of a package's file. */
  ghost function FileSection(cfg: Config, p: Package, section: Section): seq<Item> {
    match section
    case Packages => [PackageItem(p)]
    case Channels => OfPackage(SectionItems(cfg, Channels), p.name)
    case Bundles => OfPackage(SectionItems(cfg, Bundles), p.name)
    case Deprecations => []
    case Others => []
  }

  lemma PackageConfigSection(cfg: Config, p: Package, section: Section)
    ensures SectionItems(PackageConfig(cfg, p), section) == FileSection(cfg, p, section)
  {
    ChannelsOfItems(cfg.channels, p.name);
    BundlesOfItems(cfg.bundles, p.name);
    var fcfg := PackageConfig(cfg, p);
    assert SectionItems(EMPTY_CONFIG.(channels := cfg.channels), Channels) == SectionItems(cfg, Channels);
    assert SectionItems(EMPTY_CONFIG.(bundles := cfg.bundles), Bundles) == SectionItems(cfg, Bundles);
    assert SectionItems(EMPTY_CONFIG.(channels := fcfg.channels), Channels) == SectionItems(fcfg, Channels);
    assert SectionItems(EMPTY_CONFIG.(bundles := fcfg.bundles), Bundles) == SectionItems(fcfg, Bundles);
  }

  lemma {:induction false} AllNamedKept(items: seq<Item>)
    requires forall j :: 0 <= j < |items| ==> PkgOf(items[j]) != ""
    ensures Kept(items) == items
  {
    if |items| != 0 {
      AllNamedKept(items[..|items| - 1]);
    }
  }

  /** Loading the file of a named package decodes every blob and gives the package with all its channels and
      bundles. */
  lemma LoadedFile(codec: Codec, read: Item -> Meta, cfg: Config, p: Package, out: seq<Item>)
    requires p.name != "" && Prints(PackageConfig(cfg, p), out) && AllSurvive(codec, read, PackageConfig(cfg, p))
    ensures Reload(codec, read, out) == Some(Collect(out))
    ensures forall section: Section ::
              multiset(SectionItems(Collect(out), section)) == multiset(FileSection(cfg, p, section))
  {
    var fcfg := PackageConfig(cfg, p);
    var names, parts :| IsEmission(fcfg, names, parts, out);
    PrintThenLoad(codec, read, fcfg, names, parts, out);
    forall section: Section
      ensures multiset(SectionItems(Collect(out), section)) == multiset(FileSection(cfg, p, section))
    {
      PackageConfigSection(cfg, p, section);
      FileSectionNamed(cfg, p, section);
      AllNamedKept(FileSection(cfg, p, section));
    }
  }

  lemma FileSectionNamed(cfg: Config, p: Package, section: Section)
    ensures forall j :: 0 <= j < |FileSection(cfg, p, section)| ==> PkgOf(FileSection(cfg, p, section)[j]) == p.name
  {
    OfPackageItems(SectionItems(cfg, section), p.name);
    forall j | 0 <= j < |FileSection(cfg, p, section)|
      ensures PkgOf(FileSection(cfg, p, section)[j]) == p.name
    {
      assert FileSection(cfg, p, section)[j] in FileSection(cfg, p, section);
    }
  }

  ghost function PackageNames(cfg: Config): seq<string> {
    seq(|cfg.packages|, i requires 0 <= i < |cfg.packages| => cfg.packages[i].name)
  }

  ghost predicate DistinctPaths(cfg: Config, pathOf: string -> string) {
    forall i, j :: 0 <= i < j < |cfg.packages| ==> pathOf(cfg.packages[i].name) != pathOf(cfg.packages[j].name)
  }

  /** What is written comes back when it is read. */
  ghost predicate Persists(codec: Codec, read: Item -> Meta, cfg: Config) {
    forall i :: 0 <= i < |cfg.packages| ==> AllSurvive(codec, read, PackageConfig(cfg, cfg.packages[i]))
  }

  /** Everything has its own schema, and the derived fields of bundles are those their properties give. */
  ghost predicate OwnSchemas(codec: Codec, cfg: Config) {
    && (forall p :: p in cfg.packages ==> p.schema == SCHEMA_PACKAGE)
    && (forall c :: c in cfg.channels ==> c.schema == SCHEMA_CHANNEL)
    && (forall b :: b in cfg.bundles ==>
          b.schema == SCHEMA_BUNDLE && Derives(codec, b.(csvJSON := "", objects := []), b))
  }

  /** That is enough to come back. */
  lemma OwnSchemasPersist(codec: Codec, read: Item -> Meta, cfg: Config)
    requires Lawful(codec, read) && OwnSchemas(codec, cfg)
    ensures Persists(codec, read, cfg)
  {
    forall i, section: Section, x | 0 <= i < |cfg.packages|
        && x in Kept(SectionItems(PackageConfig(cfg, cfg.packages[i]), section))
      ensures Survives(codec, read, x)
    {
      WrittenItem(cfg, cfg.packages[i], section, x);
      OwnSchemaSurvives(codec, read, cfg, section, x);
    }
  }

  /** What is written is an item of the configuration. */
  lemma WrittenItem(cfg: Config, p: Package, section: Section, x: Item)
    requires p in cfg.packages && x in Kept(SectionItems(PackageConfig(cfg, p), section))
    ensures x in SectionItems(cfg, section) && section != Deprecations && section != Others
  {
    PackageConfigSection(cfg, p, section);
    KeptItems(SectionItems(PackageConfig(cfg, p), section), x);
    OfPackageItems(SectionItems(cfg, section), p.name);
    if section == Packages {
      var i :| 0 <= i < |cfg.packages| && cfg.packages[i] == p;
      assert SectionItems(cfg, Packages)[i] == x;
    }
  }

  lemma OwnSchemaSurvives(codec: Codec, read: Item -> Meta, cfg: Config, section: Section, x: Item)
    requires Lawful(codec, read) && OwnSchemas(codec, cfg)
    requires x in SectionItems(cfg, section) && section != Deprecations && section != Others
    ensures Survives(codec, read, x)
  {
    SurvivesExactly(codec, read, x);
  }

  lemma {:induction false} KeptItems(items: seq<Item>, x: Item)
    requires x in Kept(items)
    ensures x in items
  {
    var n := |items| - 1;
    if x in Kept(items[..n]) {
      KeptItems(items[..n], x);
    }
  }

  // ----- The whole tree -----

  /** A walk over the files: each path once. */
  ghost predicate IsWalk(files: Files, paths: seq<string>) {
    DistinctKeys(Identity, paths) && forall path :: path in paths <==> path in files
  }

  function Held(files: Files, path: string): seq<Item> {
    if path in files then files[path] else []
  }

  /** The loader's task on the written files, walked in some order. */
  ghost function TreeJob(codec: Codec, read: Item -> Meta, files: Files, paths: seq<string>,
                         concurrency: nat): Pipeline.Job {
    Pipeline.Job(DecoderOf(codec),
                 seq(|paths|, i requires 0 <= i < |paths| => Pipeline.Readable(ReadAll(read, Held(files, paths[i])),
                                                                               true)),
                 true, concurrency)
  }

  /** The path of each package. */
  ghost function PathsOf(cfg: Config, pathOf: string -> string): seq<string> {
    seq(|cfg.packages|, i requires 0 <= i < |cfg.packages| => pathOf(cfg.packages[i].name))
  }

  /** The tree holds what was printed for each package, and nothing else. */
  ghost predicate IsTree(cfg: Config, pathOf: string -> string, contents: seq<seq<Item>>, files: Files) {
    PrintsEach(cfg, contents) && Written(cfg.packages, pathOf, contents, files) && DistinctPaths(cfg, pathOf)
  }

  /** Each package has a file of its own. */
  lemma OwnFile(cfg: Config, pathOf: string -> string, contents: seq<seq<Item>>, files: Files, i: nat)
    requires IsTree(cfg, pathOf, contents, files) && i < |cfg.packages|
    ensures pathOf(cfg.packages[i].name) in files && files[pathOf(cfg.packages[i].name)] == contents[i]
  {
    assert LastAtPath(cfg.packages, pathOf, i);
  }

  lemma WalkIsPaths(cfg: Config, pathOf: string -> string, contents: seq<seq<Item>>, files: Files, paths: seq<string>)
    requires IsTree(cfg, pathOf, contents, files) && IsWalk(files, paths)
    ensures multiset(paths) == multiset(PathsOf(cfg, pathOf))
  {
    var own := PathsOf(cfg, pathOf);
    forall path: string
      ensures path in own <==> path in paths
    {
      if path in paths {
        assert HasPath(cfg.packages, pathOf, path);
        var i :| 0 <= i < |cfg.packages| && pathOf(cfg.packages[i].name) == path;
        assert own[i] == path;
      }
      if path in own {
        var i :| 0 <= i < |own| && own[i] == path;
        OwnFile(cfg, pathOf, contents, files, i);
      }
    }
    assert DistinctKeys(Identity, own);
    SameElements(paths, own);
  }

  /** Every file of the tree loads. */
  lemma TreeLoads(codec: Codec, read: Item -> Meta, cfg: Config, pathOf: string -> string, contents: seq<seq<Item>>,
                  files: Files,
                  path: string)
    requires IsTree(cfg, pathOf, contents, files) && path in files
    requires Persists(codec, read, cfg) && forall i :: 0 <= i < |cfg.packages| ==> cfg.packages[i].name != ""
    ensures Reload(codec, read, files[path]) == Some(Collect(files[path]))
  {
    assert HasPath(cfg.packages, pathOf, path);
    var i :| 0 <= i < |cfg.packages| && pathOf(cfg.packages[i].name) == path;
    OwnFile(cfg, pathOf, contents, files, i);
    LoadedFile(codec, read, cfg, cfg.packages[i], contents[i]);
  }

  /** What the section of a written and reloaded tree should have: the packages, and the channels and bundles of
      listed packages. */
  ghost function Wanted(cfg: Config, section: Section): multiset<Item> {
    match section
    case Packages => multiset(SectionItems(cfg, Packages))
    case Channels => multiset(InNames(SectionItems(cfg, Channels), PackageNames(cfg)))
    case Bundles => multiset(InNames(SectionItems(cfg, Bundles), PackageNames(cfg)))
    case Deprecations => multiset{}
    case Others => multiset{}
  }

  /** The section that a path holds. */
  ghost function SectionAt(files: Files, section: Section): string -> seq<Item> {
    path => SectionItems(Collect(Held(files, path)), section)
  }

  lemma TreeSequential(codec: Codec, read: Item -> Meta, files: Files, paths: seq<string>, concurrency: nat,
                       section: Section)
    requires forall i :: 0 <= i < |paths| ==>
               Reload(codec, read, Held(files, paths[i])) == Some(Collect(Held(files, paths[i])))
    ensures Pipeline.AllLoad(TreeJob(codec, read, files, paths, concurrency))
    ensures SectionItems(Pipeline.Sequential(TreeJob(codec, read, files, paths, concurrency)), section)
         == Concat(PartsAt(SectionAt(files, section), paths))
  {
    var job := TreeJob(codec, read, files, paths, concurrency);
    forall i | 0 <= i < |paths|
      ensures Pipeline.Loads(job.decode, job.files[i])
      ensures Pipeline.FileConfig(job.decode, job.files[i]) == Collect(Held(files, paths[i]))
    {
      assert Reload(codec, read, Held(files, paths[i])).Some?;
    }
    Loader.SequentialSection(job, section);
    assert Loader.FileSections(job, section) == PartsAt(SectionAt(files, section), paths);
  }

  /** Loading the files one after the other and merging gives what is wanted, in whatever order they are walked. */
  lemma SequentialTree(codec: Codec, read: Item -> Meta, cfg: Config, pathOf: string -> string,
                       contents: seq<seq<Item>>, files: Files,
                       paths: seq<string>, concurrency: nat, section: Section)
    requires IsTree(cfg, pathOf, contents, files) && IsWalk(files, paths)
    requires Persists(codec, read, cfg) && forall i :: 0 <= i < |cfg.packages| ==> cfg.packages[i].name != ""
    ensures Pipeline.AllLoad(TreeJob(codec, read, files, paths, concurrency))
    ensures multiset(SectionItems(Pipeline.Sequential(TreeJob(codec, read, files, paths, concurrency)), section))
            == Wanted(cfg, section)
  {
    forall i | 0 <= i < |paths|
      ensures Reload(codec, read, Held(files, paths[i])) == Some(Collect(Held(files, paths[i])))
    {
      assert paths[i] in files;
      TreeLoads(codec, read, cfg, pathOf, contents, files, paths[i]);
    }
    TreeSequential(codec, read, files, paths, concurrency, section);
    WalkIsPaths(cfg, pathOf, contents, files, paths);
    PartsPermuted(SectionAt(files, section), paths, PathsOf(cfg, pathOf));
    TreeSections(codec, read, cfg, pathOf, contents, files, section);
    WantedSections(cfg, pathOf, section);
  }

  /** What the file of each package should hold. */
  ghost function FileSections(cfg: Config, section: Section): seq<seq<Item>> {
    seq(|cfg.packages|, i requires 0 <= i < |cfg.packages| => FileSection(cfg, cfg.packages[i], section))
  }

  lemma TreeSections(codec: Codec, read: Item -> Meta, cfg: Config, pathOf: string -> string, contents: seq<seq<Item>>,
                     files: Files,
                     section: Section)
    requires IsTree(cfg, pathOf, contents, files)
    requires Persists(codec, read, cfg) && forall i :: 0 <= i < |cfg.packages| ==> cfg.packages[i].name != ""
    ensures multiset(Concat(PartsAt(SectionAt(files, section), PathsOf(cfg, pathOf))))
            == multiset(Concat(FileSections(cfg, section)))
  {
    var held := PartsAt(SectionAt(files, section), PathsOf(cfg, pathOf));
    forall i | 0 <= i < |cfg.packages|
      ensures multiset(held[i]) == multiset(FileSections(cfg, section)[i])
    {
      OwnFile(cfg, pathOf, contents, files, i);
      LoadedFile(codec, read, cfg, cfg.packages[i], contents[i]);
    }
    ConcatSameMultisets(held, FileSections(cfg, section));
  }

  lemma {:induction false} ConcatSingletons(parts: seq<seq<Item>>, whole: seq<Item>)
    requires |parts| == |whole| && forall i :: 0 <= i < |whole| ==> parts[i] == [whole[i]]
    ensures Concat(parts) == whole
  {
    if |whole| != 0 {
      ConcatSingletons(parts[..|whole| - 1], whole[..|whole| - 1]);
    }
  }

  lemma WantedSections(cfg: Config, pathOf: string -> string, section: Section)
    requires DistinctPaths(cfg, pathOf)
    ensures multiset(Concat(FileSections(cfg, section))) == Wanted(cfg, section)
  {
    var wanted := FileSections(cfg, section);
    assert DistinctKeys(Identity, PackageNames(cfg));
    match section
    case Packages => ConcatSingletons(wanted, SectionItems(cfg, Packages));
    case Channels =>
      assert wanted == GroupsOf(SectionItems(cfg, Channels), PackageNames(cfg));
      GroupsConserve(SectionItems(cfg, Channels), PackageNames(cfg));
    case Bundles =>
      assert wanted == GroupsOf(SectionItems(cfg, Bundles), PackageNames(cfg));
      GroupsConserve(SectionItems(cfg, Bundles), PackageNames(cfg));
    case Deprecations => AllEmpty(wanted);
    case Others => AllEmpty(wanted);
  }

  /** The concurrent loader over the written tree: unless it is canceled from outside it succeeds in every schedule,
      and then it gives the packages and the channels and bundles of listed packages, and nothing else. */
  lemma WriteThenLoad(codec: Codec, read: Item -> Meta, cfg: Config, pathOf: string -> string,
                      contents: seq<seq<Item>>, files: Files,
                      paths: seq<string>, concurrency: nat, steps: seq<Pipeline.Step>)
    requires IsTree(cfg, pathOf, contents, files) && IsWalk(files, paths) && concurrency >= 1
    requires Persists(codec, read, cfg) && forall i :: 0 <= i < |cfg.packages| ==> cfg.packages[i].name != ""
    requires var job := TreeJob(codec, read, files, paths, concurrency);
             Pipeline.IsRun(job, Pipeline.Init(job), steps)
                 && Pipeline.AllReturned(Pipeline.After(job, Pipeline.Init(job), steps))
    ensures var job := TreeJob(codec, read, files, paths, concurrency);
            var s := Pipeline.After(job, Pipeline.Init(job), steps);
            && (!s.parentCanceled ==> Loader.LoadResult(s).Ok?)
            && (Loader.LoadResult(s).Ok? ==> forall section: Section ::
                  multiset(SectionItems(Loader.LoadResult(s).value, section)) == Wanted(cfg, section))
  {
    var job := TreeJob(codec, read, files, paths, concurrency);
    forall section: Section
      ensures Pipeline.AllLoad(job) && multiset(SectionItems(Pipeline.Sequential(job), section)) == Wanted(cfg, section)
    {
      SequentialTree(codec, read, cfg, pathOf, contents, files, paths, concurrency, section);
    }
    assert Pipeline.AllLoad(job) by {
      SequentialTree(codec, read, cfg, pathOf, contents, files, paths, concurrency, Packages);
    }
    Loader.LoadOutcome(job, steps);
    if Loader.LoadResult(Pipeline.After(job, Pipeline.Init(job), steps)).Ok? {
      Loader.LoadIsInterleaving(job, steps);
    }
  }
}
