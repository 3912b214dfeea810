/** The entities of a file-based catalog: packages, channels, bundles, deprecations and
    free-form blobs, and the configuration that holds them section by section. */
module Declcfg {

  datatype Option<+T> = None | Some(value: T)

  datatype Result<+T, +E> = Ok(value: T) | Err(error: E)

  const SCHEMA_PACKAGE := "olm.package"
  const SCHEMA_CHANNEL := "olm.channel"
  const SCHEMA_BUNDLE := "olm.bundle"
  const SCHEMA_DEPRECATION := "olm.deprecations"
  const TYPE_PACKAGE := "olm.package"
  const TYPE_BUNDLE_OBJECT := "olm.bundle.object"

  /** `value` is the raw JSON text of the property. */
  datatype Property = Property(kind: string, value: string)

  datatype Icon = Icon(data: seq<bv8>, mediaType: string)

  datatype Package = Package(
    schema: string, name: string, defaultChannel: string, icon: Option<Icon>,
    description: string, properties: seq<Property>)

  datatype ChannelEntry = ChannelEntry(name: string, replacesName: string, skips: seq<string>, skipRange: string)

  datatype Channel = Channel(
    schema: string, name: string, pkg: string, entries: seq<ChannelEntry>, properties: seq<Property>)

  datatype RelatedImage = RelatedImage(name: string, image: string)

  /** `csvJSON` and `objects` are derived from the properties and never persisted. */
  datatype Bundle = Bundle(
    schema: string, name: string, pkg: string, image: string, properties: seq<Property>,
    relatedImages: seq<RelatedImage>, csvJSON: string, objects: seq<string>)

  datatype Reference = Reference(schema: string, name: string)

  datatype DeprecationEntry = DeprecationEntry(reference: Reference, message: string)

  datatype Deprecation = Deprecation(schema: string, pkg: string, entries: seq<DeprecationEntry>)

  /** A blob of any schema: the three keys every blob may carry, and its JSON text. */
  datatype Meta = Meta(schema: string, pkg: string, name: string, blob: string)

  datatype Config = Config(
    packages: seq<Package>, channels: seq<Channel>, bundles: seq<Bundle>,
    deprecations: seq<Deprecation>, others: seq<Meta>)

  const EMPTY_CONFIG := Config([], [], [], [], [])

  /** Appends `src` to `destination`, section by section. */
  function Merge(destination: Config, src: Config): Config {
    Config(destination.packages + src.packages,
           destination.channels + src.channels,
           destination.bundles + src.bundles,
           destination.deprecations + src.deprecations,
           destination.others + src.others)
  }

  /** The fold of `Merge` over a list of configurations. */
  function MergeAll(cfgs: seq<Config>): Config {
    if |cfgs| == 0 then EMPTY_CONFIG
    else Merge(MergeAll(cfgs[..|cfgs| - 1]), cfgs[|cfgs| - 1])
  }
}
