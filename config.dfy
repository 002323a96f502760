/**
 * The settings read from `config/blazer.yml` and the switches derived from them:
 * `uploads?`, `uploads_schema`, `maps?` and `slack?`.
 */
module Config {
  import opened Wrappers
  import opened Errors
  import opened Text

  /** A YAML value as `YAML.safe_load` hands it to Ruby (sequences and numbers are not modelled). */
  datatype Yaml =
    | Null
    | Flag(b: bool)
    | Scalar(text: string)
    | Mapping(entries: seq<(string, Yaml)>)

  /** The top-level mapping of the settings file, in file order. */
  type Settings = seq<(string, Yaml)>

  /** `hash[key]` on a mapping loaded from YAML: a key written twice keeps its last value. */
  function Get(entries: seq<(string, Yaml)>, key: string): (r: Option<Yaml>)
    ensures r.None? <==> forall i :: 0 <= i < |entries| ==> entries[i].0 != key
    ensures r.Some? ==> exists i :: 0 <= i < |entries| && entries[i] == (key, r.value) &&
                          forall j :: i < j < |entries| ==> entries[j].0 != key
    decreases |entries|
  {
    if entries == [] then None
    else if entries[|entries| - 1].0 == key then Some(entries[|entries| - 1].1)
    else Get(entries[..|entries| - 1], key)
  }

  /** Ruby truthiness of a looked-up value: only `nil` and `false` are false. */
  predicate Truthy(v: Option<Yaml>) {
    v.Some? && v.value != Null && v.value != Flag(false)
  }

  /** `settings.dig(outer, inner)`: `nil` when `outer` is missing or null, an error when it is a scalar. */
  function Dig(settings: Settings, outer: string, inner: string): (r: Result<Option<Yaml>, Error>)
    ensures r.Failure? <==> Get(settings, outer).Some? &&
                            (Get(settings, outer).value.Scalar? || Get(settings, outer).value.Flag?)
    ensures r.Failure? ==> r.error == NotDiggable(outer)
    ensures Get(settings, outer).Some? && Get(settings, outer).value.Mapping? ==>
              r == Success(Get(Get(settings, outer).value.entries, inner))
    ensures Get(settings, outer).None? || Get(settings, outer) == Some(Null) ==> r == Success(None)
  {
    match Get(settings, outer)
    case None => Success(None)
    case Some(Null) => Success(None)
    case Some(Mapping(section)) => Success(Get(section, inner))
    case Some(_) => Failure(NotDiggable(outer))
  }

  /** `uploads?`: the settings have an `uploads` key. */
  function UploadsEnabled(settings: Settings): (r: bool)
    ensures r <==> exists i :: 0 <= i < |settings| && settings[i].0 == "uploads"
  {
    Get(settings, "uploads").Some?
  }

  /** The schema named under `uploads:` when the section is a mapping with a truthy `schema`. */
  ghost predicate HasUploadsSchema(settings: Settings, schema: Yaml) {
    exists section :: Get(settings, "uploads") == Some(Mapping(section)) &&
      Get(section, "schema") == Some(schema) && Truthy(Some(schema))
  }

  /** `uploads_schema`: the configured schema, or `"uploads"` when none is configured. */
  function UploadsSchema(settings: Settings): (r: Result<Yaml, Error>)
    ensures r.Failure? <==> Get(settings, "uploads").Some? &&
                            (Get(settings, "uploads").value.Scalar? || Get(settings, "uploads").value.Flag?)
    ensures r.Success? ==> HasUploadsSchema(settings, r.value) || r.value == Scalar("uploads")
    ensures forall s :: HasUploadsSchema(settings, s) ==> r == Success(s)
    ensures r.Success? && !(exists s :: HasUploadsSchema(settings, s)) ==> r.value == Scalar("uploads")
  {
    match Dig(settings, "uploads", "schema")
    case Failure(e) => Failure(e)
    case Success(v) => if Truthy(v) then Success(v.value) else Success(Scalar("uploads"))
  }

  /** `maps?`: a Mapbox token is present and is a public token (`pk.`). */
  function MapsEnabled(mapboxAccessToken: Option<string>): (r: bool)
    ensures r <==> mapboxAccessToken.Some? && StartsWith(mapboxAccessToken.value, "pk.")
  {
    // a public token starts with `p`, so it is never blank
    assert mapboxAccessToken.Some? && StartsWith(mapboxAccessToken.value, "pk.") ==>
      mapboxAccessToken.value[..3][0] == mapboxAccessToken.value[0] == 'p';
    Present(mapboxAccessToken) && StartsWith(mapboxAccessToken.value, "pk.")
  }
}
