# File-based catalogs, their error printer, and the profile collector

This project models three parts of the operator-framework catalog tooling and of the OLM jobs around it, and proves
what they promise.

**File-based catalogs** (`staging/operator-registry/alpha/declcfg` and `alpha/model`). A catalog is a set of files of
blobs: packages, channels, bundles, deprecations and others.

- `Declcfg`, `Builder`, `MetaKeys`: the configuration types, the decoding of one blob, and the lookup of its fields
  under case-insensitive keys.
- `Pipeline`, `Loader`, `Interleaving`: the concurrent loader. One producer, a bounded channel of paths, any number of
  workers, an error group with cancellation and one mutex per section form a step relation in which a worker that
  appends to a slice takes the mutex, reads the slice, writes it back and releases the mutex in separate steps. Every
  run is related to loading the files one after the other.
- `Model`, `Conversion`, `Acceptance`, `ToModel`: the conversion to the package graph. The graph is made of heap objects
  with back references. `ModelOf` says directly what each object holds, `Outcome` says what is wrong with a
  configuration, and the loops of the conversion are proved to give exactly these.
- `Listing`, `Flattening`, `FromModel`, `AnyOrder`: the conversion back, which ranges over maps in any order.
- `Criteria`, `Refusals`, `RoundTrip`, `FixedPoint`, `Consequences`: which configurations convert, what the error of the
  others means, what the round trip gives, and what a successful conversion guarantees, up to the point where the graph is
  validated.
- `ReplacesChain`, `Validation`, `Normalizing`: the check of a channel's upgrade graph, the validation of the whole graph,
  and the standard encoding of its properties, all on the heap objects.
- `Whole`, `BothWays`, `Deprecations`: the whole conversion with validation and normalization, its round trip, and when
  deprecations stand in its way.
- `Orders`, `Picking`, `Writer`, `PrintOrder`, `PrintLoad`, `WriteFS`: printing a configuration and in what order, loading
  what was printed, and writing one file per package. `Picking` says what it means to take some elements of a list in order.
- `Semver`, `Mermaid`: the drawing of upgrade graphs above a version floor.

**The validation error printer** (`alpha/model/error.go`, `ValidationError`, `ErrorLayout`). A recursive printer that appends
to rune slices which share their backing arrays with those of its callers, over error graphs that may have cycles. Slices are
modelled as arrays with spare capacity, so overwriting is part of the model. `ErrorLayout` says which lines are printed, in
what order, and what each of them looks like, from the way that leads to it.

**The profile collector** (`cmd/collect-profiles`, `Profiles`). A job that deletes expired profiles, creates new ones and
deletes those it replaced, against a cluster where any call can fail with or without having taken effect. The calls of a run
are recorded, so what it does is tied to which of them succeeded.

What comes from libraries is a parameter: JSON and YAML decoding (`Codec`), case folding, the DNS label check, property
and version parsing (`Lib`), the encoding of properties (`Norm`), the writing of versions, version ranges, the walk over
the file system (a finite list of files), and argument parsing. The order of a map iteration, the growth of an array and
the failure of a call are nondeterministic choices, so what is proved holds for all of them.

In the conversion "accepted" means accepted up to the validation of the graph (declcfg_to_model.go, lines 14 to 238), and
"converted" means accepted by the whole function, validation included.

Some things that one might expect do not hold of the code, and the results say so:

- The loader hangs when it is given no workers and there is a file; `DeadlockFreedom` gives the exact condition and
  `HangExample` an input.
- Before validation the conversion checks only the entries of the channel of a package that comes last. If an entry of
  another channel has no blob, flattening that graph invents an empty blob; `RoundTrips` gives the exact condition and
  `UnbackedExample` an input. Validation rejects every such graph, and every default channel that was made up, so the round
  trip of what the whole function converts is always canonical (`ValidIsBacked`, `ValidHasDefaults`, `WholeRoundTrips`).
- Flattening depends on the iteration order of maps if copies of a bundle differ; `SameInAnyOrder` gives the exact
  condition and `OrderExample` an input.
- Printing drops packages, channels, bundles and deprecations without a package name; `LosesNothingExactly` gives the exact
  condition and `LossExample` an input.
- With a version floor, skip-range edges can start below the floor; `AllEdgesAboveExactly` gives the exact condition and
  `LeakExample` an input.

`dafny verify dfyconfig.toml` checks the project.

## Model

| member | source | states |
|---|---|---|
| `Builder.CSVOf` | staging/operator-registry/alpha/declcfg/load.go:223-234 | The CSV is the first object that is a ClusterServiceVersion, and empty if there is none |
| `Builder.ReadBundleObjects` | staging/operator-registry/alpha/declcfg/load.go:204-221 | Fails exactly if a bundle-object property does not decode; otherwise the objects are those the bundle had and then one for each bundle-object property, in order, the CSV is the first of them that is one, and nothing else changes |
| `Builder.DerivedExactly` | staging/operator-registry/alpha/declcfg/load.go:204-234 | A bundle is the result exactly if it has the objects that its bundle-object properties carry, in their order, after those it had, and the first CSV among them |
| `Builder.FbcBuilder.AddMeta` | staging/operator-registry/alpha/declcfg/load.go:288-333 | A blob is appended to the section of its schema, or nothing changes and the error is that of the blob |
| `Builder.DecodeExactly` | staging/operator-registry/alpha/declcfg/load.go:288-333 | What a blob decodes to and each error, by its schema: packages, channels, bundles with their objects, deprecations, any other schema as it is, and no schema as an error |
| `Builder.LoadSlice` | staging/operator-registry/alpha/declcfg/load.go:268-276 | Loading succeeds exactly when every blob decodes, gives the blobs sorted into sections in order, and otherwise stops at the first blob that does not decode |
| `Builder.CollectConcat` | staging/operator-registry/alpha/declcfg/declcfg.go:202-208 | Collecting a concatenation is merging what the two halves collect to |
| `Loader.SequentialIsCollect` | staging/operator-registry/alpha/declcfg/declcfg.go:202-208 | Loading the files one after the other and merging them is adding all their blobs as one list |
| `MetaKeys.ExtractUniqueMetaKeys` | staging/operator-registry/alpha/declcfg/declcfg.go:154-200 | Succeeds exactly when folding is injective on the keys and the keys that fold to "schema", "package" or "name" hold strings; schema, package and name are then the strings under these keys or what they were |
| `MetaKeys.SingletonGroups` | staging/operator-registry/alpha/declcfg/declcfg.go:165-173 | Folding is injective on the keys exactly when every group of keys has one element |
| `MetaKeys.ExtractedUnique` | staging/operator-registry/alpha/declcfg/declcfg.go:181-198 | The fields set are the same whatever order the maps are ranged over in |
| `Pipeline.LoadFile` | staging/operator-registry/alpha/declcfg/load.go:237-265 | Sequential loading of one file: succeeds exactly when it opens and all its blobs read and decode, and gives their collection |
| `Pipeline.StepInv` | staging/operator-registry/alpha/declcfg/load.go:32-65 | Every step of the producer, of a worker, of a mutex or of a cancellation keeps the invariant of the loader |
| `Pipeline.StoreInv` | staging/operator-registry/alpha/declcfg/load.go:288-333 | A worker that writes back a slice it read under the mutex loses no element another worker appended |
| `Pipeline.ReceiveInv` | staging/operator-registry/alpha/declcfg/load.go:177-202 | Receiving a path gives its file to one worker and to no other |
| `Loader.ReachableInv` | staging/operator-registry/alpha/declcfg/load.go:32-65 | The invariant holds in every state of every run |
| `Loader.Terminates` | staging/operator-registry/alpha/declcfg/load.go:162-202 | No run has more steps than a bound computed from the files and the number of workers, with or without errors and cancellation |
| `Loader.DeadlockFreedom` | staging/operator-registry/alpha/declcfg/load.go:44-64 | In every reachable state some goroutine can step or all have returned, exactly when there is a worker or there is no file |
| `Loader.HangExample` | staging/operator-registry/alpha/declcfg/load.go:168-172 | With no workers and one file the producer blocks for ever |
| `Loader.LoadIsInterleaving` | staging/operator-registry/alpha/declcfg/load.go:149-202 | If loading succeeds then every file loads, each section is an interleaving of those of the files, and the same multiset as the sequential result |
| `Loader.LoadOutcome` | staging/operator-registry/alpha/declcfg/load.go:149-160 | Loading succeeds only if the walk and every file do, and without outside cancellation exactly then; an error is that of the walk or of a file, never a cancellation the loader caused itself |
| `Loader.SingleWorkerIsSequential` | staging/operator-registry/alpha/declcfg/load.go:138-160 | With one worker the result is the fold of Merge over the files in walk order, exactly |
| `Loader.AllFinished` | staging/operator-registry/alpha/declcfg/load.go:59-64 | When all goroutines returned without error, every path was received and its file read to the end |
| `Interleaving.InterleavesMultiset` | staging/operator-registry/alpha/declcfg/load.go:288-333 | An interleaving neither loses nor duplicates anything |
| `Model.AddPackage` | staging/operator-registry/alpha/declcfg/declcfg_to_model.go:30-42 | Adds a new package object; the graph stands for the old one with that package |
| `Model.AddChannelTo` | staging/operator-registry/alpha/declcfg/declcfg_to_model.go:52-92 | Adds a channel with a bundle object per entry, linked both ways, as the default if it has that name; reports a missing name, a duplicate channel or a duplicate entry |
| `Model.ChangeBundlesOf` | staging/operator-registry/alpha/declcfg/declcfg_to_model.go:139-154 | Changes in place every copy of a bundle in its package and nothing else, ranging over the channels in any order; tells whether there was one |
| `Model.AddDefaultTo` | staging/operator-registry/alpha/declcfg/declcfg_to_model.go:165-173 | Adds an empty channel as the default of a package |
| `Model.DeprecateChannelOf` | staging/operator-registry/alpha/declcfg/declcfg_to_model.go:221-226 | Sets the deprecation of one channel in place; all else stands for what it did |
| `Model.DeprecatePackageOf` | staging/operator-registry/alpha/declcfg/declcfg_to_model.go:228-232 | Sets the deprecation of one package in place; all else stands for what it did |
| `Conversion.ParseProperties` | staging/operator-registry/alpha/property/property.go:114-172 | Succeeds exactly when every property value parses, and gives the package properties in order |
| `Conversion.CheckBundle` | staging/operator-registry/alpha/declcfg/declcfg_to_model.go:118-136 | Gives a version exactly if all properties parse, exactly one is a package property, it names the package of the bundle and its version parses to that; each error exactly if that is the first of these to fail |
| `Conversion.BundleVersionExactly` | staging/operator-registry/alpha/declcfg/declcfg_to_model.go:118-136 | The same of the specification that the graph and the criteria use |
| `Conversion.ChannelNext` | staging/operator-registry/alpha/declcfg/declcfg_to_model.go:46-93 | The graph of a configuration with one more channel is the graph before with that channel put into its package |
| `Conversion.ModelFilled` | staging/operator-registry/alpha/declcfg/declcfg_to_model.go:139-154 | The graph of a configuration with one more blob is the graph before with its data in every copy of the bundle |
| `Conversion.DefaultNext` | staging/operator-registry/alpha/declcfg/declcfg_to_model.go:163-174 | The graph in which one more package was looked at has its default channel added exactly if one was named and is missing |
| `Conversion.ModelDeprecated` | staging/operator-registry/alpha/declcfg/declcfg_to_model.go:211-236 | The graph of a configuration with one more deprecation entry is the graph before with the message on what the entry names |
| `ToModel.AddPackages` | staging/operator-registry/alpha/declcfg/declcfg_to_model.go:15-43 | Builds the packages, or reports the first that has no name, a duplicate name or a name that is no label |
| `ToModel.AddChannels` | staging/operator-registry/alpha/declcfg/declcfg_to_model.go:45-93 | Builds the channels, or reports the first bad one; notes the entries of only the last channel of each package |
| `ToModel.FillBundles` | staging/operator-registry/alpha/declcfg/declcfg_to_model.go:95-155 | Gives every blob to all copies of its bundle, or reports the first bad blob; what is left of the noted entries are those without a blob |
| `ToModel.AnyLeft` | staging/operator-registry/alpha/declcfg/declcfg_to_model.go:157-161 | Finds an entry left over exactly if there is one, in any order of packages |
| `ToModel.AddDefaults` | staging/operator-registry/alpha/declcfg/declcfg_to_model.go:163-174 | Every package that names a default channel has it afterwards, whatever order the packages come in |
| `ToModel.DeprecateEntries` | staging/operator-registry/alpha/declcfg/declcfg_to_model.go:199-237 | Applies the entries of a deprecation one by one, or reports the first bad reference |
| `ToModel.DeprecateAll` | staging/operator-registry/alpha/declcfg/declcfg_to_model.go:176-238 | Applies all deprecations, or reports the first that has no package, an unknown one, a duplicate one or a bad reference |
| `ToModel.ConvertToModel` | staging/operator-registry/alpha/declcfg/declcfg_to_model.go:14-238 | Fails with exactly the first error of the configuration; otherwise builds fresh objects whose keys, back references and default channels are right and that stand for the graph of the configuration |
| `Criteria.AcceptedExactly` | staging/operator-registry/alpha/declcfg/declcfg_to_model.go:14-238 | A configuration converts exactly when names are distinct and known, versions parse, every blob is listed in a channel, the last channel of each package has a blob for each entry, and deprecations name existing things once; apart from which channel is last the order of things does not matter |
| `Criteria.DeprecationsAccepted` | staging/operator-registry/alpha/declcfg/declcfg_to_model.go:176-238 | Deprecations are accepted exactly when there is one per known package and its references are distinct and name a bundle with a blob, a channel of the graph or the package |
| `Refusals.RefusedFor` | staging/operator-registry/alpha/declcfg/declcfg_to_model.go:14-238 | The error of a refused configuration says what is wrong with the first package, else channel, else bundle, else deprecation that is wrong, all before it being fine; entries without a blob come before deprecations |
| `Refusals.UnbackedExactly` | staging/operator-registry/alpha/declcfg/declcfg_to_model.go:157-161 | Entries lack a blob exactly if the last channel of some package has an entry that no blob of the package is for |
| `Refusals.DeprecationMeans` | staging/operator-registry/alpha/declcfg/declcfg_to_model.go:176-238 | What each error of a deprecation means: no package, an unknown or repeated one, or a reference without schema, repeated, of unknown schema, or to a bundle or channel that is not there |
| `Consequences.LastChannelBacked` | staging/operator-registry/alpha/declcfg/declcfg_to_model.go:45-161 | After success every entry of the last channel of a package has exactly one blob and every blob is in some channel |
| `Consequences.SingleChannelsBacked` | staging/operator-registry/alpha/declcfg/declcfg_to_model.go:45-161 | If no package has two channels, success means that every entry has a blob |
| `Consequences.DefaultChannelSet` | staging/operator-registry/alpha/declcfg/declcfg_to_model.go:163-174 | A package has a default channel exactly when one was declared, and holds it under that name |
| `Consequences.CopiesCarryBlob` | staging/operator-registry/alpha/declcfg/declcfg_to_model.go:138-155 | Every channel's copy of a bundle has the image, properties, related images, CSV and objects of its blob, and the version that its package property declares |
| `Consequences.DeprecatedExactly` | staging/operator-registry/alpha/declcfg/declcfg_to_model.go:176-238 | A package, channel or copy of a bundle carries a message exactly when a deprecation entry of its package refers to it, by schema and name, with that message, and no other entry gives it another |
| `FromModel.VisitBundles` | staging/operator-registry/alpha/declcfg/model_to_declcfg.go:73-97 | Visiting the bundles of a channel in any order lists its entries once each and merges each copy into the blob of its name |
| `FromModel.Deduplicate` | staging/operator-registry/alpha/property/property.go:174-192 | Keeps each property once |
| `FromModel.TraverseModelChannels` | staging/operator-registry/alpha/declcfg/model_to_declcfg.go:56-121 | Lists the flattened channels and blobs of a package once each, for some order of its channels |
| `FromModel.ConvertFromModel` | staging/operator-registry/alpha/declcfg/model_to_declcfg.go:10-54 | For a well-formed graph gives the configuration determined by the graph and by the order in which the channels of each package were visited, and the same one for every order if the copies of each bundle agree |
| `Flattening.FlatInOrder` | staging/operator-registry/alpha/declcfg/model_to_declcfg.go:37-121 | The result has packages by name, channels and bundles by package and then name, entries by name, and properties by type and then value |
| `AnyOrder.SameInAnyOrder` | staging/operator-registry/alpha/declcfg/model_to_declcfg.go:12-119 | A graph flattens to the same configuration in every order exactly when the copies of each bundle agree on image, related images, CSV and objects |
| `AnyOrder.OrderExample` | staging/operator-registry/alpha/declcfg/model_to_declcfg.go:82-95 | A well-formed graph with two copies of a bundle that flattens to two configurations |
| `AnyOrder.MergedProperties` | staging/operator-registry/alpha/declcfg/model_to_declcfg.go:96-116 | The merged properties are those of all copies |
| `AnyOrder.DisagreeingShows` | staging/operator-registry/alpha/declcfg/model_to_declcfg.go:82-95 | Two copies that differ give two different configurations, depending on which is met first |
| `RoundTrip.ThereAndBack` | staging/operator-registry/alpha/declcfg/model_to_declcfg.go:10-121 | With a blob for every entry, flattening the graph of a configuration gives its canonical form in any order |
| `FixedPoint.CanonicalIdempotent` | staging/operator-registry/alpha/declcfg/model_to_declcfg.go:10-121 | Making a configuration canonical twice is the same as once |
| `FixedPoint.CanonicalAccepted` | staging/operator-registry/alpha/declcfg/declcfg_to_model.go:14-238 | The canonical form is accepted again |
| `FixedPoint.VersionAgain` | staging/operator-registry/alpha/declcfg/declcfg_to_model.go:118-136 | Deduplicating and sorting the properties of a bundle keeps its version |
| `FixedPoint.RoundTrips` | staging/operator-registry/alpha/declcfg/model_to_declcfg.go:10-121 | Before validation: for an accepted configuration the round trip gives the canonical form exactly when every entry has a blob, the result is accepted again exactly then, and then a second round trip changes nothing |
| `FixedPoint.UnbackedExample` | staging/operator-registry/alpha/declcfg/declcfg_to_model.go:85 | Before validation: a configuration that passes the checks up to line 238 although an entry of its first channel has no blob, and whose graph flattens to one that does not pass them |
| `BothWays.Unvalidated` | staging/operator-registry/alpha/declcfg/declcfg_to_model.go:14-238 | Converting up to validation and flattening fails exactly for what is not accepted, and otherwise gives the canonical form exactly when every entry has a blob |
| `Validation.ValidateBundle` | staging/operator-registry/alpha/model/model.go:332-379 | A bundle passes exactly when it has a name, parsable properties with one package property, no empty skip, an image or objects, and a message if deprecated |
| `Validation.ValidateChannel` | staging/operator-registry/alpha/model/model.go:224-262 | A channel passes exactly when it has a name, bundles that all pass, a valid replaces chain, and a message if deprecated |
| `Validation.ValidateUniqueBundleVersions` | staging/operator-registry/alpha/model/model.go:105-133 | Passes exactly when no two bundles of a package have the same written version, in any order of channels and bundles |
| `Validation.ValidatePackage` | staging/operator-registry/alpha/model/model.go:55-103 | A package passes exactly when it has a name, a default channel, channels that all pass, unique versions, and a message if deprecated |
| `Validation.Validate` | staging/operator-registry/alpha/model/model.go:32-44 | A well-linked graph passes exactly when all its packages do, whatever order its maps are ranged over in |
| `Validation.InvalidExactly` | staging/operator-registry/alpha/model/model.go:32-133 | A graph is invalid exactly if a package, channel or bundle of it has one of the listed defects, each said in terms of its fields |
| `Validation.MessagesDecide` | staging/operator-registry/alpha/model/model.go:435-440 | A deprecation makes a graph invalid exactly if its message is empty |
| `Deprecations.DeprecationsConvert` | staging/operator-registry/alpha/declcfg/declcfg_to_model.go:176-242 | A configuration converts exactly if it does so without its deprecations, what these refer to is there once, and none of their messages is empty |
| `Normalizing.Normalize` | staging/operator-registry/alpha/model/model.go:394-407 | Re-encodes in place every property of every bundle and changes nothing else, in any order |
| `Normalizing.NormalizedExactly` | staging/operator-registry/alpha/model/model.go:394-407 | Each property of each bundle is replaced by its encoding, in its place; names, defaults, entries, other data and deprecations stay |
| `Whole.ValidIsBacked` | staging/operator-registry/alpha/model/model.go:332-379 | In a converted configuration every entry of every channel has a blob |
| `Whole.ValidHasDefaults` | staging/operator-registry/alpha/model/model.go:66-72 | In a converted configuration every package lists its default channel, so none was made up |
| `Whole.UnbackedRejected` | staging/operator-registry/alpha/declcfg/declcfg_to_model.go:240-242 | The example with an entry that has no blob is rejected by validation |
| `Whole.ModelNormalized` | staging/operator-registry/alpha/model/model.go:394-407 | Normalizing the graph of a configuration gives the graph of the configuration with normalized properties |
| `Whole.CanonicalModel` | staging/operator-registry/alpha/declcfg/declcfg_to_model.go:14-238 | The graph of the canonical form is the graph of the configuration with properties deduplicated and sorted and without deprecations |
| `Whole.CanonicalConverts` | staging/operator-registry/alpha/declcfg/declcfg_to_model.go:14-245 | The canonical form of a converted configuration is converted again, validation included |
| `Whole.WholeRoundTrips` | staging/operator-registry/alpha/declcfg/declcfg_to_model_test.go:489-502 | Every converted configuration comes back in canonical form with normalized properties and no channel or blob made up, is converted again, and then comes back unchanged |
| `Whole.SimpleConverts` | staging/operator-registry/alpha/declcfg/declcfg_to_model.go:14-245 | A small configuration that is converted |
| `BothWays.Convert` | staging/operator-registry/alpha/declcfg/declcfg_to_model.go:14-245 | The whole function converts exactly the configurations that are accepted and whose graph is valid, and gives fresh objects that stand for the graph with normalized properties; otherwise it gives the first error, or says that the graph is invalid |
| `BothWays.ThereAndBack` | staging/operator-registry/alpha/declcfg/declcfg_to_model_test.go:489-502 | Running the whole conversion and flattening gives the canonical form of everything that is converted |
| `BothWays.Twice` | staging/operator-registry/alpha/declcfg/declcfg_to_model_test.go:489-502 | The second round trip gives what the first gave |
| `ReplacesChain.Head` | staging/operator-registry/alpha/model/model.go:194-222 | The head is the one bundle that nothing replaces or skips; otherwise there is none, or all of them are listed in order |
| `ReplacesChain.FollowChain` | staging/operator-registry/alpha/model/model.go:283-299 | Following the replacements ends, with exactly the names on the chain if it has no cycle, and otherwise with a path that is a cycle and visits nothing else twice |
| `ReplacesChain.ValidateReplacesChain` | staging/operator-registry/alpha/model/model.go:271-307 | Accepts exactly when there is one head, its chain has no cycle and it reaches every bundle that is not skipped; a reported cycle is one, and the stranded bundles are listed exactly |
| `ReplacesChain.ValidChainExactly` | staging/operator-registry/alpha/model/model.go:271-307 | A channel is valid exactly if there is a path of replacements without repetition that leaves the channel at its end, starts at the only bundle that nothing replaces or skips, and passes every bundle that is not skipped |
| `Orders.SortedUnique` | staging/operator-registry/alpha/declcfg/model_to_declcfg.go:37-51 | Sorting things with distinct keys has one result |
| `Orders.ByFirstDifference` | staging/operator-registry/alpha/declcfg/model_to_declcfg.go:37-51 | Strings are compared by the first character where they differ; a beginning of a string comes before it |
| `Writer.GroupByPackage` | staging/operator-registry/alpha/declcfg/write.go:399-457 | Groups the items of a section by package in order, for the packages it mentions |
| `Writer.Arrange` | staging/operator-registry/alpha/declcfg/write.go:399-499 | The items to print: package by package in order of names, each with its package, its channels and bundles by name, other blobs stably by schema, and deprecations; then other blobs without a package |
| `Writer.WriteToEncoder` | staging/operator-registry/alpha/declcfg/write.go:399-499 | Prints that sequence, or a beginning of it if an item cannot be encoded |
| `PrintOrder.PrintedInOrder` | staging/operator-registry/alpha/declcfg/write.go:438-499 | What is printed has packages by name and, within one, first the package, then channels by name, bundles by name, other blobs by schema and deprecations; what has no package comes last |
| `PrintOrder.PrintedPackages` | staging/operator-registry/alpha/declcfg/write.go:399-436 | A package is printed exactly if it has a name and some package, channel, bundle, deprecation or other blob is of it |
| `PrintOrder.OfPackageExactly` | staging/operator-registry/alpha/declcfg/write.go:399-457 | The items of a package are all that are of it, in the order they came in |
| `Writer.EmissionConserves` | staging/operator-registry/alpha/declcfg/write.go:431-496 | Printing loses exactly the packages, channels, bundles and deprecations without a package name and duplicates nothing |
| `Writer.LosesNothingExactly` | staging/operator-registry/alpha/declcfg/write.go:434-436 | Every section is printed whole exactly when every package, channel, bundle and deprecation has a package name |
| `Writer.LossExample` | staging/operator-registry/alpha/declcfg/write.go:434-436 | A channel without a package name that is not printed |
| `PrintLoad.SurvivesExactly` | staging/operator-registry/alpha/declcfg/load.go:204-234 | An item comes back from printing and loading exactly when it has its own schema and, for a bundle, its CSV and objects are those its properties give |
| `PrintLoad.PrintThenLoad` | staging/operator-registry/alpha/declcfg/load.go:268-333 | Loading what was printed gives every section back, rearranged, without the items that have no package name |
| `PrintLoad.PrintAgain` | staging/operator-registry/alpha/declcfg/write.go:399-499 | What was printed decodes, and printing what was decoded gives the same printout if channel and bundle names are distinct in each package |
| `WriteFS.WriteFS` | staging/operator-registry/alpha/declcfg/write.go:503-544 | Writes each package with its channels and bundles to its file; after a failure the files of the packages before it are there |
| `WriteFS.LoadedFile` | staging/operator-registry/alpha/declcfg/write.go:512-531 | Every blob in the file of a package decodes, and loading it gives the package and all its channels and bundles |
| `WriteFS.OwnSchemasPersist` | staging/operator-registry/alpha/declcfg/load.go:288-333 | What is written is read back as it was if everything has its own schema and bundles have the objects their properties give |
| `WriteFS.SequentialTree` | staging/operator-registry/alpha/declcfg/declcfg.go:202-208 | Loading the written files one after the other, in any walk order, and merging them gives the packages and the channels and bundles of listed packages, and nothing else |
| `WriteFS.WriteThenLoad` | staging/operator-registry/alpha/declcfg/load.go:149-202 | In every schedule of the concurrent loader over the written files, without outside cancellation, loading succeeds; the result has the packages and the channels and bundles of listed packages, and nothing else |
| `Semver.CompareLaws` | vendor/github.com/blang/semver/v4/semver.go:125-176 | Precedence of versions is a total preorder |
| `Semver.CompareExactly` | vendor/github.com/blang/semver/v4/semver.go:125-176 | A version is above another exactly by the rules of precedence: major, minor and patch in this order, a release above its pre-releases, these by the first identifier that differs, numbers below letters, a longer list above its beginning; build metadata does not matter |
| `Mermaid.FilterChannel` | staging/operator-registry/alpha/declcfg/write.go:221-304 | Leaves a channel out exactly if a filter is active and it is of another package than the specified one or that of the floor, or no entry stays; otherwise keeps name, package and properties, all entries as they are without a floor, and with one those that stay, trimmed |
| `Mermaid.FilterSpecExactly` | staging/operator-registry/alpha/declcfg/write.go:221-304 | The same of the specification that the drawing uses |
| `Mermaid.FilterExact` | staging/operator-registry/alpha/declcfg/write.go:239-296 | The entries kept are a subsequence; the floor has no references, others keep exactly the references at or above the floor and a range that contains it; an entry is left out exactly when nothing of it survives and it had references or is below the floor |
| `Mermaid.FilterIdempotent` | staging/operator-registry/alpha/declcfg/write.go:221-304 | Filtering a filtered channel changes nothing |
| `Mermaid.GetBundleVersions` | staging/operator-registry/alpha/declcfg/write.go:322-335 | Each bundle name has the version of the first bundle of that name; fails exactly if one of these has no version |
| `Mermaid.GetMinEdgePackage` | staging/operator-registry/alpha/declcfg/write.go:337-351 | The package of the first channel that lists the floor, if any |
| `Mermaid.DrawChannel` | staging/operator-registry/alpha/declcfg/write.go:151-186 | Draws a node and the replace, skip and skip-range edges for each entry at or above the floor |
| `Mermaid.DrawnExactly` | staging/operator-registry/alpha/declcfg/write.go:151-186 | The nodes are the entries at or above the floor, in order, and the edges are those into these entries, entry by entry |
| `Mermaid.EntryEdgesExactly` | staging/operator-registry/alpha/declcfg/write.go:160-183 | The edges into an entry are one from what it replaces, one from each of its skips and one from each entry of the channel in its range, in this order |
| `Mermaid.DrawnForExactly` | staging/operator-registry/alpha/declcfg/write.go:126-187 | The drawing of a package has one part for each of its channels that is not left out, in order |
| `Mermaid.WriteChannels` | staging/operator-registry/alpha/declcfg/write.go:76-219 | Draws the filtered channels, sorted by name, package by package, only of the package of the first channel with the floor; fails exactly for a bundle without a version or an unknown floor |
| `Mermaid.DrawnEdgesAbove` | staging/operator-registry/alpha/declcfg/write.go:151-185 | With a floor, replace and skip edges have both ends at or above it, and skip-range edges their target |
| `Mermaid.AllEdgesAboveExactly` | staging/operator-registry/alpha/declcfg/write.go:174-178 | All edges have both ends at or above the floor exactly when no entry that stays shown below the floor lies in a range that contains the floor of an entry above it |
| `Mermaid.LeakExample` | staging/operator-registry/alpha/declcfg/write.go:288-289 | A channel that is shown with an edge that starts below the floor |
| `Mermaid.RaisingTheFloor` | staging/operator-registry/alpha/declcfg/write.go:221-304 | Raising the floor only removes replace and skip edges, apart from those into the entry that was the floor |
| `Mermaid.DrawingAboveFloor` | staging/operator-registry/alpha/declcfg/write.go:76-219 | In a whole drawing with a floor every replace and skip edge joins two bundles at or above it |
| `ValidationError.Append` | staging/operator-registry/alpha/model/error.go:47-59 | Appending to a slice keeps its contents and adds to them, in the shared array or in a new one |
| `ValidationError.MakeSubPrefix` | staging/operator-registry/alpha/model/error.go:46-59 | The prefix of a sub-error is the one that a renderer without sharing uses, even after an earlier sub-error overwrote the end of the shared buffer |
| `ValidationError.ErrorPrefix` | staging/operator-registry/alpha/model/error.go:33-69 | Terminates on every finite error graph and prints what a renderer without sharing prints from what the buffers held on entry, leaving to the caller the part that it still needs |
| `ValidationError.Error` | staging/operator-registry/alpha/model/error.go:26-31 | The text of an error is its rendering from the root without the white space around it; a nil error has none |
| `ValidationError.PrintsSimplePaths` | staging/operator-registry/alpha/model/error.go:33-39 | A line is printed for a chain of errors exactly when it is a walk from the root that repeats no error |
| `ErrorLayout.LaidOut` | staging/operator-registry/alpha/model/error.go:33-69 | The lines from a root are those of the ways through the graph that meet no error twice, each once, a parent before its sub-errors and these in order; a line has for each step but the last four spaces under a last sub-error and otherwise a bar, then the branch of a last or of another sub-error, then the message with a colon if sub-errors follow, or the text of a plain error |
| `ErrorLayout.SubPrefixIs` | staging/operator-registry/alpha/model/error.go:46-59 | Going down turns the branch drawn for the error into the part of the trunk under it and adds the branch to the sub-error |
| `ValidationError.ReachablePrinted` | staging/operator-registry/alpha/model/error.go:33-69 | The message of every error that can be reached is printed, cycles or not |
| `Profiles.SeparateNewestAndExpired` | cmd/collect-profiles/main.go:263-282 | Splits the listed profiles into one newest per name, the first listed of the latest, and the rest; nothing is lost or duplicated in any order |
| `Profiles.ParseArguments` | cmd/collect-profiles/main.go:112-120 | Succeeds exactly when every argument parses, and gives their names in order |
| `Profiles.Cluster.Delete` | cmd/collect-profiles/main.go:132-138 | A deletion removes that profile or nothing; success means that it is gone, failure leaves both open |
| `Profiles.Cluster.Create` | cmd/collect-profiles/main.go:191-197 | A creation adds one new profile of the name or nothing; success means that it was added |
| `Profiles.DeleteExpired` | cmd/collect-profiles/main.go:130-143 | One deletion is tried for each expired profile, whatever fails; every state on the way is the start without some of them, and all are gone if every deletion succeeded |
| `Profiles.CreateProfiles` | cmd/collect-profiles/main.go:167-198 | For each argument in order its endpoint is asked and, if that succeeds, a profile is created; every state on the way is the start with at most one new profile per argument |
| `Profiles.MakesScraped` | cmd/collect-profiles/main.go:167-198 | However the calls for the arguments end: the names reported are those of the creations that succeeded, and each name has as many confirmed profiles as creations of it succeeded |
| `Profiles.DeleteReplaced` | cmd/collect-profiles/main.go:200-216 | One deletion is tried for each newest profile whose name was reported created, in order, and for no other; every state on the way lacks only such profiles |
| `Profiles.Run` | cmd/collect-profiles/main.go:93-219 | Stops without a call exactly for no arguments, a configuration error, a disabled job or an argument that does not parse, in this order. Otherwise it lists and makes exactly the calls that its outcome and their success call for. Each name has as many new confirmed profiles as creations of it succeeded, and one per argument naming it if every call succeeds. At every state of a run, however it ends, each name that had a profile has its newest or a new one, and no name exceeds its count or one plus its arguments. After completion a profile of before is there exactly if it was the newest of its name and none of that name was created |
| `Profiles.RotatesRotated` | cmd/collect-profiles/main.go:128-216 | What every way through the deletions and creations amounts to: the calls made and the outcome, the profiles confirmed by name, what outlives a completed run, and one profile per argument if all succeeds |
| `Profiles.ScrapesMention` | cmd/collect-profiles/main.go:167-198 | If every call succeeds, a name is created as often as arguments mention it |
| `Profiles.SurvivorMade` | cmd/collect-profiles/main.go:200-212 | A newest profile is gone only if a new one of its name is there to stay |
| `Profiles.CountAfterReplacing` | cmd/collect-profiles/main.go:128-216 | The exact number of profiles of a name after the deletions |
| `Profiles.ManyRuns` | cmd/collect-profiles/main.go:128-216 | A chain of states that runs may leave never loses the last profile of a name and never exceeds its first count or one plus the most arguments naming it in a run |
| `Profiles.RunMany` | cmd/collect-profiles/main.go:93-219 | Running the job any number of times, whatever fails, keeps these two bounds in every state that any run goes through and at the end |

## Left out

- JSON, YAML and Mermaid text: blobs are decoded by a parameter, printed items and drawn edges are values.
- The error tree that validation builds: only whether it is empty. Its printing is modelled by itself.
- Normalizing.Normalize: each copy of a bundle has its own property list. In the source the copies share one list, which is re-encoded once per copy and is also that of the configuration passed in; for the graph that is the same since encoding again changes nothing, which `LawfulNorm` says of the encoder.
- Conversion.ParseProperties: keeps only the package properties of what parsing returns, and whether it succeeds.
- The parsed properties that a bundle of the graph keeps beside its raw properties, apart from the version; icon validation, which accepts everything.
- Directory walking and `.indexignore` files: the walk is a finite list of files and may fail at its end.
- Builder.ReadBundleObjects: assumes that decoding an object property sets its data, since the variable it decodes into is reused.
- MetaKeys.ExtractUniqueMetaKeys: requires that the three field names fold to different strings, as they do under Unicode case folding.
- WriteFS.WriteThenLoad: package names are not empty and paths are distinct, and what is written is read back as it was (`OwnSchemasPersist`); a file written halfway by a failed write is not modelled.
- Deprecation styles in drawings.
- The certificate and HTTP part of the profile collector: a fetch can fail, and a certificate that does not verify ends the run.
- Rendering, listing and migration commands, the package server manager and the metrics: they would add only easy members.
