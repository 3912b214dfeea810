/** The conversions run one after the other. */
module BothWays {
  import opened Declcfg
  import opened Semver
  import opened Model
  import opened Conversion
  import opened Acceptance
  import opened Criteria
  import opened RoundTrip
  import opened FixedPoint
  import opened Validation
  import opened Normalizing
  import opened Whole
  import ToModel
  import FromModel

  // ----- Before validation -----

  /** Converts a configuration, up to the validation of the graph, and flattens the graph. */
  method Unvalidated(lib: Lib, cfg: Config) returns (r: Result<Config, ConvertError>)
    ensures r.Err? <==> !Accepted(lib, cfg)
    ensures r.Err? ==> Outcome(lib, cfg) == Some(r.error)
    ensures r.Ok? ==> (r.value == Canonical(cfg) <==> Backed(cfg)) && (Accepted(lib, r.value) <==> Backed(cfg))
  {
    var m;
    ghost var region;
    m, region := ToModel.ConvertToModel(lib, cfg);
    if m.Err? {
      return Err(m.error);
    }
    var out;
    ghost var visit;
    out, visit := FromModel.ConvertFromModel(m.value, ModelOf(lib, cfg), region);
    RoundTrips(lib, cfg, visit);
    r := Ok(out);
  }

  // ----- The whole conversion -----

  datatype WholeError = NotConverted(error: ConvertError) | Invalid

  /** Converts, validates and normalizes. It accepts exactly the configurations that `Converts` says it does, and
      then gives the graph of the configuration with normalized properties. */
  method Convert(lib: Lib, show: Version -> string, norm: Norm, cfg: Config)
    returns (r: Result<map<string, MPackage>, WholeError>, ghost region: set<object>)
    requires LawfulNorm(lib, norm)
    ensures fresh(region)
    ensures r.Ok? <==> Converts(lib, show, cfg)
    ensures r.Ok? ==> IsModel(r.value, ModelOf(lib, NormConfig(norm, cfg)), region)
    ensures r.Err? ==> r.error == if Accepted(lib, cfg) then Invalid else NotConverted(Outcome(lib, cfg).value)
  {
    var m;
    m, region := ToModel.ConvertToModel(lib, cfg);
    if m.Err? {
      return Err(NotConverted(m.error)), region;
    }
    var valid := Validate(lib, show, m.value, ModelOf(lib, cfg), region);
    if !valid {
      return Err(Invalid), region;
    }
    Normalize(norm, m.value, ModelOf(lib, cfg), region);
    ModelNormalized(lib, norm, cfg);
    r := Ok(m.value);
  }

  /** Converts a configuration and flattens the graph: what is accepted comes back in canonical form. */
  method ThereAndBack(lib: Lib, show: Version -> string, norm: Norm, cfg: Config)
    returns (r: Result<Config, WholeError>)
    requires LawfulNorm(lib, norm)
    ensures r.Ok? <==> Converts(lib, show, cfg)
    ensures r.Ok? ==> r.value == Canonical(NormConfig(norm, cfg))
    ensures r.Ok? ==> Converts(lib, show, r.value) && NormConfig(norm, r.value) == r.value
  {
    var m;
    ghost var region;
    m, region := Convert(lib, show, norm, cfg);
    if m.Err? {
      return Err(m.error);
    }
    var out;
    ghost var visit;
    out, visit := FromModel.ConvertFromModel(m.value, ModelOf(lib, NormConfig(norm, cfg)), region);
    WholeRoundTrips(lib, show, norm, cfg, visit);
    r := Ok(out);
  }

  /** Doing it twice is the same as doing it once. */
  method Twice(lib: Lib, show: Version -> string, norm: Norm, cfg: Config)
    returns (once: Result<Config, WholeError>, twice: Result<Config, WholeError>)
    requires LawfulNorm(lib, norm)
    ensures once.Ok? <==> Converts(lib, show, cfg)
    ensures twice == once
  {
    once := ThereAndBack(lib, show, norm, cfg);
    if once.Err? {
      return once, once;
    }
    twice := ThereAndBack(lib, show, norm, once.value);
    Settled(lib, norm, cfg);
  }

  lemma Settled(lib: Lib, norm: Norm, cfg: Config)
    requires LawfulNorm(lib, norm) && Accepted(lib, cfg)
    ensures Canonical(Canonical(NormConfig(norm, cfg))) == Canonical(NormConfig(norm, cfg))
  {
    AcceptedExactly(lib, cfg);
    CanonicalIdempotent(NormConfig(norm, cfg));
  }
}
