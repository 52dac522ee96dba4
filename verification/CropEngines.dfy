/**
 * Choosing the crop engine that renders an Image+ value (`ImagePlus::getImageURL`) and the
 * dependency health check of `ImagePlus::checkDependencies`.
 *
 * Engines are PHP classes named by strings; the site setting `imageplus.crop_engine_class`
 * may name one outright. Whether an engine's requirements are met is a probe of the host
 * installation, passed in as `met`; rendering a URL is the engine's own business, passed in
 * as `engineUrl`.
 */
module CropEngines {
  import opened Wrappers

  /** The engine wrapping the phpThumbsUp package. */
  const PhpThumbsUp := "\\ImagePlus\\CropEngines\\PhpThumbsUp"

  /** The engine wrapping the phpThumbOf package. */
  const PhpThumbOf := "\\ImagePlus\\CropEngines\\PhpThumbOf"

  /** What `getImageURL` returns when the chosen engine fails its requirement check. */
  const RequirementsError := "IMAGE+ ERROR - requirements not met for crop engine"

  /**
   * The override as PHP's `!$engineClass` reads it: the setting is `false` when unset,
   * and "" and "0" are falsy too.
   */
  predicate OverrideSet(override: Option<string>) {
    override.Some? && override.value != "" && override.value != "0"
  }

  /** Neither built-in engine can run on this installation. */
  predicate NoEngineAvailable(met: string -> bool) {
    !met(PhpThumbsUp) && !met(PhpThumbOf)
  }

  /**
   * The engine class `getImageURL` instantiates: the override when it is set, else the first
   * built-in engine whose requirements are met, phpThumbsUp before phpThumbOf. `None` is the
   * `false` the PHP code is left holding when nothing qualifies.
   */
  function SelectEngine(override: Option<string>, met: string -> bool): (engine: Option<string>)
    ensures OverrideSet(override) ==> engine == override
    ensures !OverrideSet(override) && met(PhpThumbsUp) ==> engine == Some(PhpThumbsUp)
    ensures !OverrideSet(override) && !met(PhpThumbsUp) && met(PhpThumbOf) ==> engine == Some(PhpThumbOf)
    ensures engine.None? <==> !OverrideSet(override) && NoEngineAvailable(met)
  {
    if OverrideSet(override) then override
    else if met(PhpThumbsUp) then Some(PhpThumbsUp)
    else if met(PhpThumbOf) then Some(PhpThumbOf)
    else None
  }

  /**
   * Without a truthy override, the chosen engine is one of the two built-ins and its
   * requirements are met, so the choice never depends on anything but the probes.
   * A corollary of the contract of `SelectEngine`, stated as a property of its own.
   */
  lemma SniffedEngineIsUsable(override: Option<string>, met: string -> bool)
    requires !OverrideSet(override) && !NoEngineAvailable(met)
    ensures var engine := SelectEngine(override, met);
            engine.Some? && engine.value in {PhpThumbsUp, PhpThumbOf} && met(engine.value)
  {
  }

  /**
   * The URL `getImageURL` returns for the saved `json`, the render options `opts` and the
   * template variable `tv`. `None` is the PHP fault of instantiating `false` when no engine
   * was chosen; otherwise the chosen engine's requirements are checked once more, giving
   * the fixed error text on failure and the engine's own result on success.
   */
  function GetImageUrl<Opts, Tv>(
    json: string,
    opts: Opts,
    tv: Tv,
    override: Option<string>,
    met: string -> bool,
    engineUrl: (string, string, Opts, Tv) -> string): (url: Option<string>)
    ensures url.None? <==> SelectEngine(override, met).None?
    ensures SelectEngine(override, met).Some? ==>
              var engine := SelectEngine(override, met).value;
              url == Some(if met(engine) then engineUrl(engine, json, opts, tv) else RequirementsError)
  {
    match SelectEngine(override, met)
    case None => None
    case Some(engine) =>
      if !met(engine) then Some(RequirementsError)
      else Some(engineUrl(engine, json, opts, tv))
  }

  /**
   * Without an override the requirement re-check cannot fail, since the sniffing only picks
   * an engine whose requirements are met: the URL is delegated to that engine, and the
   * only failure is the fault when no engine is available. In this model the probe and
   * the re-check are the same function `met`. A corollary of the contracts of
   * `SelectEngine` and `GetImageUrl`.
   */
  lemma SniffedUrlIsDelegated<Opts, Tv>(
    json: string, opts: Opts, tv: Tv, override: Option<string>,
    met: string -> bool, engineUrl: (string, string, Opts, Tv) -> string)
    requires !OverrideSet(override)
    ensures var url := GetImageUrl(json, opts, tv, override, met, engineUrl);
            (url.None? <==> NoEngineAvailable(met)) &&
            (met(PhpThumbsUp) ==> url == Some(engineUrl(PhpThumbsUp, json, opts, tv))) &&
            (!met(PhpThumbsUp) && met(PhpThumbOf) ==> url == Some(engineUrl(PhpThumbOf, json, opts, tv)))
  {
  }

  /**
   * A set override is used even when it fails its requirements and a built-in would not.
   * A corollary of the contracts of `SelectEngine` and `GetImageUrl`.
   */
  lemma OverrideWins<Opts, Tv>(
    json: string, opts: Opts, tv: Tv, override: Option<string>,
    met: string -> bool, engineUrl: (string, string, Opts, Tv) -> string)
    requires OverrideSet(override)
    ensures var url := GetImageUrl(json, opts, tv, override, met, engineUrl);
            url == Some(if met(override.value) then engineUrl(override.value, json, opts, tv)
                        else RequirementsError)
  {
  }
}
