/** Building a configuration out of blobs, one at a time. */
module Builder {
  import opened Declcfg
  import opened Interleaving
  import opened Picking

  /** The JSON and YAML libraries, as functions on JSON text; `None` is a decoding error.
      `objectOf` is the manifest carried by the value of a bundle-object property, and
      `isCSV` says whether a manifest is a ClusterServiceVersion. */
  datatype Codec = Codec(
    toPackage: string -> Option<Package>,
    toChannel: string -> Option<Channel>,
    toBundle: string -> Option<Bundle>,
    toDeprecation: string -> Option<Deprecation>,
    objectOf: string -> Option<string>,
    isCSV: string -> bool)

  datatype Item =
    | PackageItem(package: Package)
    | ChannelItem(channel: Channel)
    | BundleItem(bundle: Bundle)
    | DeprecationItem(deprecation: Deprecation)
    | OtherItem(meta: Meta)

  datatype Section = Packages | Channels | Bundles | Deprecations | Others

  function SectionOf(item: Item): Section {
    match item
    case PackageItem(_) => Packages
    case ChannelItem(_) => Channels
    case BundleItem(_) => Bundles
    case DeprecationItem(_) => Deprecations
    case OtherItem(_) => Others
  }

  // ----- Bundle objects -----

  /** The manifests carried by the bundle-object properties, in order. */
  function ObjectsOf(codec: Codec, properties: seq<Property>): Option<seq<string>> {
    if |properties| == 0 then Some([])
    else
      var before := ObjectsOf(codec, properties[..|properties| - 1]);
      var p := properties[|properties| - 1];
      if before.None? || p.kind != TYPE_BUNDLE_OBJECT then before
      else
        match codec.objectOf(p.value)
        case None => None
        case Some(o) => Some(before.value + [o])
  }

  /** The first manifest that is a ClusterServiceVersion, or nothing. */
  function CSVOf(codec: Codec, objects: seq<string>): (csv: string)
    ensures (forall k :: 0 <= k < |objects| ==> !codec.isCSV(objects[k])) ==> csv == ""
    ensures forall k | 0 <= k < |objects| && codec.isCSV(objects[k])
            && (forall j | 0 <= j < k :: !codec.isCSV(objects[j]))
              :: csv == objects[k]
  {
    if |objects| == 0 then ""
    else if codec.isCSV(objects[0]) then objects[0]
    else
      var csv := CSVOf(codec, objects[1..]);
      assert forall k :: 1 <= k < |objects| ==> objects[k] == objects[1..][k - 1];
      csv
  }

  /** `b` with its derived fields filled in. */
  function WithObjects(codec: Codec, b: Bundle): Option<Bundle> {
    match ObjectsOf(codec, b.properties)
    case None => None
    case Some(os) =>
      var objects := b.objects + os;
      Some(b.(objects := objects, csvJSON := CSVOf(codec, objects)))
  }

  predicate CarriesObject(p: Property) {
    p.kind == TYPE_BUNDLE_OBJECT
  }

  /** `objects` are the manifests of the properties at `places`, in that order. */
  ghost predicate Unpacks(codec: Codec, properties: seq<Property>, places: seq<nat>, objects: seq<string>) {
    && |objects| == |places|
    && forall k :: 0 <= k < |places| ==>
         places[k] < |properties| && codec.objectOf(properties[places[k]].value) == Some(objects[k])
  }

  /** The first manifest that is a ClusterServiceVersion is `csv`; if there is none, `csv` is empty. */
  ghost predicate IsFirstCSV(codec: Codec, objects: seq<string>, csv: string) {
    || (csv == "" && forall k :: 0 <= k < |objects| ==> !codec.isCSV(objects[k]))
    || (exists k :: 0 <= k < |objects| && csv == objects[k] && codec.isCSV(objects[k])
                    && forall j :: 0 <= j < k ==> !codec.isCSV(objects[j]))
  }

  /** `r` is `b` with one more object for each bundle-object property, in the order of the properties, and with
      the first ClusterServiceVersion among all objects. */
  ghost predicate Derives(codec: Codec, b: Bundle, r: Bundle) {
    && r == b.(objects := r.objects, csvJSON := r.csvJSON)
    && b.objects <= r.objects && IsFirstCSV(codec, r.objects, r.csvJSON)
    && exists places :: Picks(b.properties, CarriesObject, places)
                        && Unpacks(codec, b.properties, places, r.objects[|b.objects|..])
  }

  /** Some bundle-object property does not decode. */
  ghost predicate BadObject(codec: Codec, properties: seq<Property>) {
    exists i :: 0 <= i < |properties| && CarriesObject(properties[i]) && codec.objectOf(properties[i].value).None?
  }

  lemma {:induction false} ObjectsOfExactly(codec: Codec, properties: seq<Property>) returns (places: seq<nat>)
    ensures ObjectsOf(codec, properties).None? <==> BadObject(codec, properties)
    ensures Picks(properties, CarriesObject, places)
    ensures ObjectsOf(codec, properties).Some? ==>
              Unpacks(codec, properties, places, ObjectsOf(codec, properties).value)
  {
    if |properties| == 0 {
      places := [];
    } else {
      var n := |properties| - 1;
      var init, p := properties[..n], properties[n];
      places := ObjectsOfExactly(codec, init);
      assert properties == init + [p];
      assert BadObject(codec, properties)
        <==> BadObject(codec, init) || (CarriesObject(p) && codec.objectOf(p.value).None?) by {
        assert forall i :: 0 <= i < n ==> init[i] == properties[i];
      }
      if CarriesObject(p) {
        PicksNext(init, p, CarriesObject, places);
        places := places + [n];
      } else {
        PicksSkip(init, p, CarriesObject, places);
      }
    }
  }

  lemma UnpacksUnique(codec: Codec, properties: seq<Property>, places: seq<nat>, a: seq<string>, b: seq<string>)
    requires Unpacks(codec, properties, places, a) && Unpacks(codec, properties, places, b)
    ensures a == b
  {
    forall k | 0 <= k < |places|
      ensures a[k] == b[k]
    {
      assert codec.objectOf(properties[places[k]].value) == Some(a[k]);
    }
  }

  lemma CSVUnique(codec: Codec, objects: seq<string>, csv: string)
    ensures IsFirstCSV(codec, objects, csv) <==> csv == CSVOf(codec, objects)
  {
    if k :| 0 <= k < |objects| && codec.isCSV(objects[k]) && forall j :: 0 <= j < k ==> !codec.isCSV(objects[j]) {
      assert CSVOf(codec, objects) == objects[k];
    } else {
      NoFirst(codec, objects, |objects|);
    }
  }

  lemma {:induction false} NoFirst(codec: Codec, objects: seq<string>, n: nat)
    requires n <= |objects|
    requires !exists k :: 0 <= k < |objects| && codec.isCSV(objects[k])
                          && forall j :: 0 <= j < k ==> !codec.isCSV(objects[j])
    ensures forall k :: 0 <= k < n ==> !codec.isCSV(objects[k])
  {
    if n > 0 {
      NoFirst(codec, objects, n - 1);
    }
  }

  lemma WithObjectsDerives(codec: Codec, b: Bundle)
    ensures WithObjects(codec, b).None? <==> BadObject(codec, b.properties)
    ensures WithObjects(codec, b).Some? ==> Derives(codec, b, WithObjects(codec, b).value)
  {
    var places := ObjectsOfExactly(codec, b.properties);
    if WithObjects(codec, b).Some? {
      var r, os := WithObjects(codec, b).value, ObjectsOf(codec, b.properties).value;
      CSVUnique(codec, r.objects, r.csvJSON);
      assert r.objects[|b.objects|..] == os;
    }
  }

  lemma UnpackedIsGood(codec: Codec, properties: seq<Property>, places: seq<nat>, objects: seq<string>)
    requires Picks(properties, CarriesObject, places) && Unpacks(codec, properties, places, objects)
    ensures ObjectsOf(codec, properties) == Some(objects)
  {
    var own := ObjectsOfExactly(codec, properties);
    PicksUnique(properties, CarriesObject, own, places);
    forall i | 0 <= i < |properties| && CarriesObject(properties[i])
      ensures codec.objectOf(properties[i].value).Some?
    {
      var k :| 0 <= k < |places| && places[k] == i;
      assert codec.objectOf(properties[places[k]].value) == Some(objects[k]);
    }
    UnpacksUnique(codec, properties, places, objects, ObjectsOf(codec, properties).value);
  }

  /** The derived fields are determined. */
  lemma DerivedExactly(codec: Codec, b: Bundle, r: Bundle)
    ensures WithObjects(codec, b) == Some(r) <==> Derives(codec, b, r)
  {
    WithObjectsDerives(codec, b);
    if Derives(codec, b, r) {
      var rest := r.objects[|b.objects|..];
      var places :| Picks(b.properties, CarriesObject, places) && Unpacks(codec, b.properties, places, rest);
      UnpackedIsGood(codec, b.properties, places, rest);
      CSVUnique(codec, r.objects, r.csvJSON);
      assert r.objects == b.objects + rest;
    }
  }

  method ExtractCSV(codec: Codec, objects: seq<string>) returns (csv: string)
    ensures csv == CSVOf(codec, objects)
  {
    for i := 0 to |objects|
      invariant forall j :: 0 <= j < i ==> !codec.isCSV(objects[j])
    {
      if codec.isCSV(objects[i]) {
        return objects[i];
      }
    }
    return "";
  }

  /** Fills in the derived fields, unless an object does not decode. */
  method ReadBundleObjects(codec: Codec, b: Bundle) returns (r: Option<Bundle>)
    ensures r.None? <==> BadObject(codec, b.properties)
    ensures r.Some? ==> Derives(codec, b, r.value)
    ensures r == WithObjects(codec, b)
  {
    var objects := b.objects;
    for i := 0 to |b.properties|
      invariant ObjectsOf(codec, b.properties[..i]).Some?
      invariant objects == b.objects + ObjectsOf(codec, b.properties[..i]).value
    {
      assert b.properties[..i + 1][..i] == b.properties[..i];
      var p := b.properties[i];
      if p.kind == TYPE_BUNDLE_OBJECT {
        match codec.objectOf(p.value) {
          case None =>
            ObjectsOfPrefix(codec, b.properties, i + 1);
            WithObjectsDerives(codec, b);
            return None;
          case Some(o) =>
            objects := objects + [o];
        }
      }
    }
    assert b.properties[..|b.properties|] == b.properties;
    var csv := ExtractCSV(codec, objects);
    r := Some(b.(objects := objects, csvJSON := csv));
    WithObjectsDerives(codec, b);
  }

  lemma {:induction false} ObjectsOfPrefix(codec: Codec, properties: seq<Property>, n: nat)
    requires n <= |properties| && ObjectsOf(codec, properties[..n]).None?
    ensures ObjectsOf(codec, properties).None?
    decreases |properties| - n
  {
    if n == |properties| {
      assert properties[..n] == properties;
    } else {
      assert properties[..n + 1][..n] == properties[..n];
      ObjectsOfPrefix(codec, properties, n + 1);
    }
  }

  // ----- One blob -----

  datatype AddError = ParsePackage | ParseChannel | ParseBundle | ReadObjects | ParseDeprecation | MissingSchema

  /** What one blob contributes: its schema decides how its text is read. */
  function Decode(codec: Codec, meta: Meta): Result<Item, AddError> {
    if meta.schema == SCHEMA_PACKAGE then
      match codec.toPackage(meta.blob)
      case None => Err(ParsePackage)
      case Some(p) => Ok(PackageItem(p))
    else if meta.schema == SCHEMA_CHANNEL then
      match codec.toChannel(meta.blob)
      case None => Err(ParseChannel)
      case Some(c) => Ok(ChannelItem(c))
    else if meta.schema == SCHEMA_BUNDLE then
      match codec.toBundle(meta.blob)
      case None => Err(ParseBundle)
      case Some(b) =>
        match WithObjects(codec, b)
        case None => Err(ReadObjects)
        case Some(full) => Ok(BundleItem(full))
    else if meta.schema == SCHEMA_DEPRECATION then
      match codec.toDeprecation(meta.blob)
      case None => Err(ParseDeprecation)
      case Some(d) => Ok(DeprecationItem(d))
    else if meta.schema == "" then Err(MissingSchema)
    else Ok(OtherItem(meta))
  }

  /** `item` is what the text of the blob says under its schema; a blob of any other schema is kept as it is. */
  ghost predicate Decodes(codec: Codec, meta: Meta, item: Item) {
    match item
    case PackageItem(p) => meta.schema == "olm.package" && codec.toPackage(meta.blob) == Some(p)
    case ChannelItem(c) => meta.schema == "olm.channel" && codec.toChannel(meta.blob) == Some(c)
    case BundleItem(b) =>
      meta.schema == "olm.bundle" && exists raw :: codec.toBundle(meta.blob) == Some(raw) && Derives(codec, raw, b)
    case DeprecationItem(d) => meta.schema == "olm.deprecations" && codec.toDeprecation(meta.blob) == Some(d)
    case OtherItem(m) =>
      m == meta && meta.schema !in {"", "olm.package", "olm.channel", "olm.bundle", "olm.deprecations"}
  }

  ghost predicate Undecodable(codec: Codec, meta: Meta, e: AddError) {
    match e
    case ParsePackage => meta.schema == "olm.package" && codec.toPackage(meta.blob) == None
    case ParseChannel => meta.schema == "olm.channel" && codec.toChannel(meta.blob) == None
    case ParseBundle => meta.schema == "olm.bundle" && codec.toBundle(meta.blob) == None
    case ReadObjects =>
      && meta.schema == "olm.bundle" && codec.toBundle(meta.blob).Some?
      && forall full :: !Derives(codec, codec.toBundle(meta.blob).value, full)
    case ParseDeprecation => meta.schema == "olm.deprecations" && codec.toDeprecation(meta.blob) == None
    case MissingSchema => meta.schema == ""
  }

  lemma DecodeExactly(codec: Codec, meta: Meta)
    ensures forall item :: Decode(codec, meta) == Ok(item) <==> Decodes(codec, meta, item)
    ensures forall e :: Decode(codec, meta) == Err(e) <==> Undecodable(codec, meta, e)
  {
    if meta.schema == SCHEMA_BUNDLE && codec.toBundle(meta.blob).Some? {
      var raw := codec.toBundle(meta.blob).value;
      forall full
        ensures WithObjects(codec, raw) == Some(full) <==> Derives(codec, raw, full)
      {
        DerivedExactly(codec, raw, full);
      }
    }
  }

  /** The same, as a function of the blob. */
  type Decoder = Meta -> Result<Item, AddError>

  function DecoderOf(codec: Codec): Decoder {
    (meta: Meta) => Decode(codec, meta)
  }

  ghost predicate Decodable(decode: Decoder, metas: seq<Meta>) {
    forall k :: 0 <= k < |metas| ==> decode(metas[k]).Ok?
  }

  ghost function ItemsOf(decode: Decoder, metas: seq<Meta>): (items: seq<Item>)
    requires Decodable(decode, metas)
    ensures |items| == |metas|
    ensures forall k :: 0 <= k < |metas| ==> items[k] == decode(metas[k]).value
  {
    seq(|metas|, k requires 0 <= k < |metas| => decode(metas[k]).value)
  }

  // ----- Collecting items into sections -----

  function Append(cfg: Config, item: Item): Config {
    match item
    case PackageItem(p) => cfg.(packages := cfg.packages + [p])
    case ChannelItem(c) => cfg.(channels := cfg.channels + [c])
    case BundleItem(b) => cfg.(bundles := cfg.bundles + [b])
    case DeprecationItem(d) => cfg.(deprecations := cfg.deprecations + [d])
    case OtherItem(m) => cfg.(others := cfg.others + [m])
  }

  /** The configuration that holds `items`, each in its section, in order. */
  function Collect(items: seq<Item>): Config {
    if |items| == 0 then EMPTY_CONFIG
    else Append(Collect(items[..|items| - 1]), items[|items| - 1])
  }

  /** Collecting is a homomorphism: it turns concatenation into `Merge`. */
  lemma {:induction false} CollectConcat(a: seq<Item>, b: seq<Item>)
    ensures Collect(a + b) == Merge(Collect(a), Collect(b))
  {
    if |b| == 0 {
      assert a + b == a;
    } else {
      var n := |b| - 1;
      assert (a + b)[..|a + b| - 1] == a + b[..n];
      CollectConcat(a, b[..n]);
    }
  }

  /** The items of one section, in order. */
  function Select(items: seq<Item>, section: Section): seq<Item> {
    if |items| == 0 then []
    else
      var last := items[|items| - 1];
      Select(items[..|items| - 1], section) + if SectionOf(last) == section then [last] else []
  }

  lemma {:induction false} SelectConcat(a: seq<Item>, b: seq<Item>, section: Section)
    ensures Select(a + b, section) == Select(a, section) + Select(b, section)
  {
    if |b| == 0 {
      assert a + b == a;
    } else {
      var n := |b| - 1;
      assert (a + b)[..|a + b| - 1] == a + b[..n];
      SelectConcat(a, b[..n], section);
    }
  }

  /** A section of a configuration, as items. */
  function SectionItems(cfg: Config, section: Section): seq<Item> {
    match section
    case Packages => seq(|cfg.packages|, j requires 0 <= j < |cfg.packages| => PackageItem(cfg.packages[j]))
    case Channels => seq(|cfg.channels|, j requires 0 <= j < |cfg.channels| => ChannelItem(cfg.channels[j]))
    case Bundles => seq(|cfg.bundles|, j requires 0 <= j < |cfg.bundles| => BundleItem(cfg.bundles[j]))
    case Deprecations => seq(|cfg.deprecations|,
                             j requires 0 <= j < |cfg.deprecations| => DeprecationItem(cfg.deprecations[j]))
    case Others => seq(|cfg.others|, j requires 0 <= j < |cfg.others| => OtherItem(cfg.others[j]))
  }

  lemma SectionItemsAppend(cfg: Config, item: Item, section: Section)
    ensures SectionItems(Append(cfg, item), section)
         == SectionItems(cfg, section) + if SectionOf(item) == section then [item] else []
  {
  }

  lemma {:induction false} SectionItemsCollect(items: seq<Item>, section: Section)
    ensures SectionItems(Collect(items), section) == Select(items, section)
  {
    if |items| != 0 {
      var n := |items| - 1;
      SectionItemsCollect(items[..n], section);
      SectionItemsAppend(Collect(items[..n]), items[n], section);
    }
  }

  lemma SectionItemsMerge(a: Config, b: Config, section: Section)
    ensures SectionItems(Merge(a, b), section) == SectionItems(a, section) + SectionItems(b, section)
  {
  }

  lemma SameSections(a: Config, b: Config)
    requires forall section: Section :: SectionItems(a, section) == SectionItems(b, section)
    ensures a == b
  {
    assert SectionItems(a, Packages) == SectionItems(b, Packages);
    assert SectionItems(a, Channels) == SectionItems(b, Channels);
    assert SectionItems(a, Bundles) == SectionItems(b, Bundles);
    assert SectionItems(a, Deprecations) == SectionItems(b, Deprecations);
    assert SectionItems(a, Others) == SectionItems(b, Others);
    assert forall j :: 0 <= j < |a.packages| ==> SectionItems(a, Packages)[j] == PackageItem(a.packages[j]);
    assert forall j :: 0 <= j < |a.channels| ==> SectionItems(a, Channels)[j] == ChannelItem(a.channels[j]);
    assert forall j :: 0 <= j < |a.bundles| ==> SectionItems(a, Bundles)[j] == BundleItem(a.bundles[j]);
    assert forall j :: 0 <= j < |a.deprecations| ==>
             SectionItems(a, Deprecations)[j] == DeprecationItem(a.deprecations[j]);
    assert forall j :: 0 <= j < |a.others| ==> SectionItems(a, Others)[j] == OtherItem(a.others[j]);
  }

  lemma {:induction false} SectionItemsMergeAll(cfgs: seq<Config>, section: Section)
    ensures SectionItems(MergeAll(cfgs), section)
         == Concat(seq(|cfgs|, i requires 0 <= i < |cfgs| => SectionItems(cfgs[i], section)))
  {
    var parts := seq(|cfgs|, i requires 0 <= i < |cfgs| => SectionItems(cfgs[i], section));
    if |cfgs| != 0 {
      var n := |cfgs| - 1;
      SectionItemsMergeAll(cfgs[..n], section);
      SectionItemsMerge(MergeAll(cfgs[..n]), cfgs[n], section);
      assert parts[..n] == seq(n, i requires 0 <= i < n => SectionItems(cfgs[..n][i], section));
    }
  }

  lemma {:induction false} SelectAll(items: seq<Item>, section: Section)
    requires forall j :: 0 <= j < |items| ==> SectionOf(items[j]) == section
    ensures Select(items, section) == items
  {
    if |items| != 0 {
      SelectAll(items[..|items| - 1], section);
    }
  }

  // ----- The builder -----

  /** Accumulates a configuration in place. */
  class FbcBuilder {
    var cfg: Config

    constructor ()
      ensures cfg == EMPTY_CONFIG
    {
      cfg := EMPTY_CONFIG;
    }

    method AddMeta(codec: Codec, meta: Meta) returns (err: Option<AddError>)
      modifies this
      ensures match DecoderOf(codec)(meta)
        case Ok(item) => err == None && cfg == Append(old(cfg), item)
        case Err(e) => err == Some(e) && cfg == old(cfg)
    {
      if meta.schema == SCHEMA_PACKAGE {
        match codec.toPackage(meta.blob) {
          case None => return Some(ParsePackage);
          case Some(p) => cfg := cfg.(packages := cfg.packages + [p]);
        }
      } else if meta.schema == SCHEMA_CHANNEL {
        match codec.toChannel(meta.blob) {
          case None => return Some(ParseChannel);
          case Some(c) => cfg := cfg.(channels := cfg.channels + [c]);
        }
      } else if meta.schema == SCHEMA_BUNDLE {
        match codec.toBundle(meta.blob) {
          case None => return Some(ParseBundle);
          case Some(b) =>
            var full := ReadBundleObjects(codec, b);
            if full.None? {
              return Some(ReadObjects);
            }
            cfg := cfg.(bundles := cfg.bundles + [full.value]);
        }
      } else if meta.schema == SCHEMA_DEPRECATION {
        match codec.toDeprecation(meta.blob) {
          case None => return Some(ParseDeprecation);
          case Some(d) => cfg := cfg.(deprecations := cfg.deprecations + [d]);
        }
      } else if meta.schema == "" {
        return Some(MissingSchema);
      } else {
        cfg := cfg.(others := cfg.others + [meta]);
      }
      return None;
    }
  }

  lemma CollectNext(decode: Decoder, metas: seq<Meta>, k: nat)
    requires k < |metas| && Decodable(decode, metas[..k]) && decode(metas[k]).Ok?
    ensures Decodable(decode, metas[..k + 1])
    ensures Collect(ItemsOf(decode, metas[..k + 1]))
            == Append(Collect(ItemsOf(decode, metas[..k])), decode(metas[k]).value)
  {
    assert ItemsOf(decode, metas[..k + 1])[..k] == ItemsOf(decode, metas[..k]);
  }

  /** Loads a list of blobs: all of them, or the error of the first one that cannot be added. */
  method LoadSlice(codec: Codec, metas: seq<Meta>) returns (r: Result<Config, AddError>)
    ensures r.Ok? <==> Decodable(DecoderOf(codec), metas)
    ensures r.Ok? ==> r.value == Collect(ItemsOf(DecoderOf(codec), metas))
    ensures r.Err? ==> exists k :: 0 <= k < |metas| && Decodable(DecoderOf(codec), metas[..k])
                                   && DecoderOf(codec)(metas[k]) == Err(r.error)
  {
    var builder := new FbcBuilder();
    ghost var decode := DecoderOf(codec);
    var k := 0;
    while k < |metas|
      invariant k <= |metas| && Decodable(decode, metas[..k])
      invariant builder.cfg == Collect(ItemsOf(decode, metas[..k]))
    {
      var err := builder.AddMeta(codec, metas[k]);
      if err.Some? {
        return Err(err.value);
      }
      CollectNext(decode, metas, k);
      k := k + 1;
    }
    assert metas[..k] == metas;
    return Ok(builder.cfg);
  }
}
