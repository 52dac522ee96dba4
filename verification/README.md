# Image+ core, modelled in Dafny

Image+ is a MODX template-variable type. Editors use it to crop an uploaded image in the manager.
The crop is saved as JSON in the field's value. At render time the plugin hands that JSON to one
of two crop engines, which wrap the phpThumbsUp and phpThumbOf packages.

This project models the `ImagePlus` class of `core/components/imageplus/imageplus.class.php`.
It has three parts.

- `TvConfig` (`TvConfig.dfy`) models `loadTvConfig`. It merges the template variable's
  parameters with the saved crop JSON and builds the editor configuration. Each call takes one
  of two paths. On the Fresh path the value is PHP-`empty` (`""` or `"0"`) or does not decode:
  the crop and the source image are zero, the source image's media source is 1, and the alt tag
  is `''` or `false`. On the Restored path the saved crop and source image are copied field for
  field, with no defaulting. The alt tag is tri-state: `AltTagOff` stands for PHP `false`.
  `AltTagText("")` means the feature is on and the tag is empty. `AltTagText(s)` holds the saved
  text.
- `CropEngines` (`CropEngines.dfy`) models how `getImageURL` chooses an engine, and the probe
  that `checkDependencies` runs. A truthy `imageplus.crop_engine_class` setting is used as it
  is. Without one, phpThumbsUp is chosen whenever its requirements are met, else phpThumbOf.
  The chosen engine's requirements are checked again. If that fails, the result is the fixed
  text `IMAGE+ ERROR - requirements not met for crop engine`. Otherwise the engine's own URL is
  returned.
- `ImagePlusFacade` (`ImagePlus.dfy`) holds the `ImagePlus` class. Its constructor runs
  `loadConfig`, `loadLexicon`, `loadSourceMap` and `checkDependencies` in that order, as the
  PHP constructor does. Each step is a method that assigns fields of the object. The source map
  is built by a loop, one media source at a time. Later sources with the same id overwrite
  earlier ones.

Everything the host CMS answers comes in as a parameter: settings, the version number, the
lexicon topic, the media-source list, the engines' requirement probes, `json_decode` and the
engines' `getImageUrl`. The probes are the function `met: string -> bool`, keyed by engine
class name. The sniffing and the later re-check call the same function, so within one call
they agree.

With no truthy override (the setting unset, `""` or `"0"`) and no capable engine,
`$engineClass` stays `false` and `new $engineClass` at line 254 faults.
`CropEngines.GetImageUrl` returns `None` in exactly that case.
`ImagePlusFacade.UnmetDependenciesMeansNoEngine` shows that, for every such setting, this fault
happens exactly when the constructor sets `hasUnmetDependencies`.

## Model

| member | source | states |
|---|---|---|
| `TvConfig.DefaultThumbnailWidth` | core/components/imageplus/imageplus.class.php:161-162 | The default thumbnail width is 400 exactly when the host major version is at least 3, and 150 otherwise. |
| `TvConfig.ThumbnailWidth` | core/components/imageplus/imageplus.class.php:162 | The width is never 0. It is the parameter when the parameter is set and non-zero. It is the version default when the parameter is unset or 0. |
| `TvConfig.ZeroThumbnailWidthIsUnset` | core/components/imageplus/imageplus.class.php:162 | A `thumbnailWidth` of 0 gives the same width as an absent one. |
| `TvConfig.AltTagOn` | core/components/imageplus/imageplus.class.php:164 | The alt-tag feature is on exactly when `allowAltTag` is set and equals `"Yes"`. |
| `TvConfig.Saved` | core/components/imageplus/imageplus.class.php:166 | An empty value (`""` or `"0"`) has no saved record. Any other value has what `json_decode` yields, where `None` stands for `null`. |
| `TvConfig.LoadTvConfig` | core/components/imageplus/imageplus.class.php:144-200 | The media source, the tv id, options and raw value, allowBlank, the target sizes and the ratio are copied. The thumbnail width and the alt-tag switch follow the rules above. The alt tag is off exactly when the switch is off. Fresh path: the crop is (0,0,0,0), the source image is (0,0,"",1) and the alt tag is `""` when the switch is on. Restored path: the crop and source image equal the saved ones, and the alt tag is the saved text when the switch is on (`""` if none was saved). |
| `TvConfig.RestoredIgnoresParams` | core/components/imageplus/imageplus.class.php:182-194 | On the Restored path the crop and source image do not depend on the parameters or on the host version. |
| `TvConfig.AltTagTriState` | core/components/imageplus/imageplus.class.php:181-196 | The alt tag is `false` whenever `allowAltTag` is not `"Yes"`, whatever was saved. It is `""` when the switch is on and no alt tag was saved or there is no saved value. Otherwise it is the saved alt tag. |
| `CropEngines.SelectEngine` | core/components/imageplus/imageplus.class.php:239-249 | A truthy override is chosen unchanged. Without one, phpThumbsUp is chosen whenever its requirements are met, even if phpThumbOf's are too. phpThumbOf is chosen only when phpThumbsUp cannot run. No engine is chosen exactly when there is no override and neither engine can run. |
| `CropEngines.SniffedEngineIsUsable` | core/components/imageplus/imageplus.class.php:243-249 | Without a truthy override, when some engine can run, the chosen engine is one of the two built-ins and its requirements are met. |
| `CropEngines.GetImageUrl` | core/components/imageplus/imageplus.class.php:237-263 | Faults (`None`) exactly when no engine class was chosen. Otherwise it returns the fixed error text when the chosen engine fails its requirement check, and the engine's `getImageUrl` result when it passes. |
| `CropEngines.SniffedUrlIsDelegated` | core/components/imageplus/imageplus.class.php:242-262 | In this model, where the probe and the re-check are one function, the re-check never fails without a truthy override. The URL comes from phpThumbsUp or phpThumbOf in priority order, and the only failure is the fault when neither can run. |
| `CropEngines.OverrideWins` | core/components/imageplus/imageplus.class.php:239-262 | With a truthy override, the URL comes from the overriding engine, or is the fixed error text when that engine fails its requirements. What the built-ins could do makes no difference. |
| `ImagePlusFacade.ComponentPath` | core/components/imageplus/imageplus.class.php:52-61 | The component's own setting wins. Without it, the path is the host path followed by `components/imageplus/`. |
| `ImagePlusFacade.LexiconLanguage` | core/components/imageplus/imageplus.class.php:107-115 | The manager language is used when the topic is translated to it, and `en` otherwise. The result is always an available language or `en`. |
| `ImagePlusFacade.WithSourcesKeys` | core/components/imageplus/imageplus.class.php:125-134 | The source map's ids are the ids it already had plus the id of every listed media source. |
| `ImagePlusFacade.WithSourcesLastWins` | core/components/imageplus/imageplus.class.php:128-133 | Each id maps to the base URL of the last listed media source that has that id. |
| `ImagePlusFacade.WithSourcesKeepsOthers` | core/components/imageplus/imageplus.class.php:125-134 | An id that no listed media source has keeps the URL it had. |
| `ImagePlusFacade.UnmetDependenciesMeansNoEngine` | core/components/imageplus/imageplus.class.php:89-95 | For every override setting that is not truthy (unset, `""` or `"0"`), the health flag's condition (neither built-in engine can run) holds exactly when `getImageURL` faults for want of an engine class. |
| `ImagePlusFacade.ImagePlus.constructor` | core/components/imageplus/imageplus.class.php:38-45 | After construction: the paths and connector URL are the defaulted settings, the lexicon is the topic in the chosen language, the source map is built from every media source, and `hasUnmetDependencies` holds exactly when neither engine can run. |
| `ImagePlusFacade.ImagePlus.LoadConfig` | core/components/imageplus/imageplus.class.php:50-70 | The whole configuration is replaced. Paths are defaulted, the connector URL is the assets URL followed by `mgr/connector.php`, the source map is empty, `hasUnmetDependencies` is false and there is no lexicon entry. |
| `ImagePlusFacade.ImagePlus.LoadLexicon` | core/components/imageplus/imageplus.class.php:103-118 | Only the lexicon entry changes. It becomes the imageplus topic in the language `LexiconLanguage` picks. |
| `ImagePlusFacade.ImagePlus.LoadSourceMap` | core/components/imageplus/imageplus.class.php:125-134 | Only the source map changes. It becomes the old map with each listed media source registered in turn, `id => baseUrl`. |
| `ImagePlusFacade.ImagePlus.CheckDependencies` | core/components/imageplus/imageplus.class.php:75-96 | Only the flag changes. It becomes true when neither phpThumbsUp nor phpThumbOf meets its requirements, and is never cleared. |

## Left out

- The lexicon files (`lexicon/de`, `lexicon/es`, `lexicon/da`) are static string tables. The lexicon topic is a parameter.
- `includeScriptAssets` only registers stylesheets and scripts and emits a script block for the manager page.
- The autoloader closure registered by `checkDependencies` does file-system checks and loads PHP classes. Each engine's requirement probe is a parameter.
- The crop engines (`PhpThumbsUp`, `PhpThumbOf`, `AbstractCropEngine`) are not part of this model. Their `engineRequirementsMet` and `getImageUrl` are parameters.
- The probes are treated as deterministic within one call: the sniffing and the re-check get the same answer. A change of environment between the two is not modelled.
- Engine classes are identified by their exact name string. PHP class names ignore case and may omit the leading `\`, so an override such as `ImagePlus\CropEngines\PhpThumbsUp` names the same class as the built-in constant, but the model lets its probe and its `getImageUrl` answer independently. No proved property relies on this.
- An override naming a class that does not exist is not modelled. PHP would fail on `new`; the model treats every truthy override as an engine class with a requirement probe.
- The host calls `lexicon->load`, `modMediaSource::initialize` and the error `log` at line 258 are side effects on the host. They are not modelled. Their results (language list, base URLs, version) are parameters.
- `json_decode` is a parameter. The model treats its result as either `null` or a well-formed saved record. JSON that decodes to something without `crop` or `sourceImg` fields, which the PHP code reads without checking, is not modelled.
- PHP's loose casts (`(bool)`, `(int)`, `intval`) are not modelled. Parameters come in already typed; an unset `thumbnailWidth` or `allowAltTag` is `None`. `in_array`'s loose comparison of numeric-looking language codes is also not modelled.
- Configuration shapes: the lexicon entry is a `map` from key to string. The source map holds base URLs directly rather than objects with a `url` property.
- The unused `dataStr` property and the stored `modx` reference have no behaviour.
