/**
 * The editor-side configuration of one Image+ template variable: `ImagePlus::loadTvConfig`
 * merges the template variable's input parameters with the crop JSON saved as its value.
 *
 * Exactly one of two paths is taken per call, chosen once from the raw value:
 *  - Fresh: the value is empty (PHP `empty`, so "" and "0") or does not decode;
 *    the crop and source image are all zero and the media source defaults to 1;
 *  - Restored: the decoded crop and source image are copied field for field.
 */
module TvConfig {
  import opened Wrappers

  /** The selected crop rectangle, in source-image pixels. */
  datatype Crop = Crop(width: int, height: int, x: int, y: int)

  /** The uploaded image: its size, its path and the media source it came through. */
  datatype SourceImage = SourceImage(width: int, height: int, src: string, source: int)

  /** The JSON the editor saves as the template variable's value. */
  datatype SavedValue = SavedValue(crop: Crop, sourceImg: SourceImage, altTag: Option<string>)

  /**
   * The tri-state alt tag of the editor configuration: `AltTagOff` is PHP `false`
   * (the feature is switched off for this field), `AltTagText("")` is on but empty.
   */
  datatype AltTag = AltTagOff | AltTagText(text: string)

  /**
   * The template variable's input parameters, already cast as the PHP code casts them:
   * `thumbnailWidth` is `None` when unset and otherwise its `intval`;
   * `allowAltTag` is `None` when unset.
   */
  datatype TvParams = TvParams(
    allowBlank: bool,
    targetWidth: int,
    targetHeight: int,
    targetRatio: string,
    thumbnailWidth: Option<int>,
    allowAltTag: Option<string>)

  /** What the input render knows of the template variable. */
  datatype TvRender = TvRender(source: int, id: int, inputOptions: map<string, string>)

  /** The `tv` member of the editor configuration. */
  datatype TvInfo = TvInfo(id: int, params: map<string, string>, value: string)

  /** The object handed to the editor UI. */
  datatype FieldConfig = FieldConfig(
    mediaSource: int,
    tv: TvInfo,
    allowBlank: bool,
    targetWidth: int,
    targetHeight: int,
    targetRatio: string,
    thumbnailWidth: int,
    altTagOn: bool,
    crop: Crop,
    sourceImg: SourceImage,
    altTag: AltTag)

  /** The media source a fresh field points at. */
  const DefaultSource := 1

  /** The value the PHP `yes` option of `allowAltTag` is stored as. */
  const AltTagEnabled := "Yes"

  /** Thumbnail width of the manager panel when the parameter does not give one. */
  function DefaultThumbnailWidth(majorVersion: int): (w: int)
    ensures w > 0
    ensures majorVersion >= 3 <==> w == 400
    ensures majorVersion < 3 <==> w == 150
  {
    if majorVersion >= 3 then 400 else 150
  }

  /** The thumbnail width: the parameter when it is set and non-zero, else the host default. */
  function ThumbnailWidth(param: Option<int>, majorVersion: int): (w: int)
    ensures w != 0
    ensures param.Some? && param.value != 0 ==> w == param.value
    ensures param.None? || param.value == 0 ==> w == DefaultThumbnailWidth(majorVersion)
  {
    if param.Some? && param.value != 0 then param.value else DefaultThumbnailWidth(majorVersion)
  }

  /**
   * A width parameter of 0 is treated exactly as an absent one.
   * A corollary of the contract of `ThumbnailWidth`.
   */
  lemma ZeroThumbnailWidthIsUnset(majorVersion: int)
    ensures ThumbnailWidth(Some(0), majorVersion) == ThumbnailWidth(None, majorVersion)
  {
  }

  /** The alt-tag feature is on exactly when `allowAltTag` is set to "Yes". */
  function AltTagOn(allowAltTag: Option<string>): (on: bool)
    ensures on <==> allowAltTag == Some(AltTagEnabled)
  {
    allowAltTag.Some? && allowAltTag.value == AltTagEnabled
  }

  /** PHP `empty` on a string: true for "" and for "0". */
  predicate IsEmptyValue(value: string) {
    value == "" || value == "0"
  }

  /**
   * The saved value as the code sees it: nothing for an empty raw value, otherwise
   * what `json_decode` makes of it (`None` standing for its `null`).
   */
  function Saved(value: string, decode: string -> Option<SavedValue>): (s: Option<SavedValue>)
    ensures IsEmptyValue(value) ==> s.None?
    ensures !IsEmptyValue(value) ==> s == decode(value)
  {
    if IsEmptyValue(value) then None else decode(value)
  }

  /** The crop of a field that has no saved value. */
  function FreshCrop(): Crop {
    Crop(0, 0, 0, 0)
  }

  /** The source image of a field that has no saved value. */
  function FreshSourceImage(): SourceImage {
    SourceImage(0, 0, "", DefaultSource)
  }

  /**
   * The editor configuration of a template variable. `decode` stands for `json_decode`
   * and `majorVersion` for the host's major version.
   */
  function LoadTvConfig(
    render: TvRender,
    value: string,
    params: TvParams,
    decode: string -> Option<SavedValue>,
    majorVersion: int): (r: FieldConfig)
    // copied from the render and the parameters
    ensures r.mediaSource == render.source
    ensures r.tv == TvInfo(render.id, render.inputOptions, value)
    ensures r.allowBlank == params.allowBlank
    ensures r.targetWidth == params.targetWidth && r.targetHeight == params.targetHeight
    ensures r.targetRatio == params.targetRatio
    // thumbnail width: set and non-zero parameter, else the version default
    ensures r.thumbnailWidth != 0
    ensures params.thumbnailWidth.Some? && params.thumbnailWidth.value != 0 ==>
              r.thumbnailWidth == params.thumbnailWidth.value
    ensures params.thumbnailWidth.None? || params.thumbnailWidth.value == 0 ==>
              r.thumbnailWidth == DefaultThumbnailWidth(majorVersion)
    // alt tag switch and tri-state
    ensures r.altTagOn <==> params.allowAltTag == Some(AltTagEnabled)
    ensures r.altTag == AltTagOff <==> !r.altTagOn
    // Fresh path
    ensures (IsEmptyValue(value) || decode(value).None?) ==>
              r.crop == Crop(0, 0, 0, 0) && r.sourceImg == SourceImage(0, 0, "", DefaultSource) &&
              (r.altTagOn ==> r.altTag == AltTagText(""))
    // Restored path
    ensures !IsEmptyValue(value) && decode(value).Some? ==>
              var saved := decode(value).value;
              r.crop == saved.crop && r.sourceImg == saved.sourceImg &&
              (r.altTagOn ==> r.altTag == AltTagText(if saved.altTag.Some? then saved.altTag.value else ""))
  {
    var altTagOn := AltTagOn(params.allowAltTag);
    var saved := Saved(value, decode);
    var (crop, sourceImg, altTag) :=
      if saved.None? then
        (FreshCrop(), FreshSourceImage(), if altTagOn then AltTagText("") else AltTagOff)
      else
        (saved.value.crop, saved.value.sourceImg,
         if altTagOn then AltTagText(saved.value.altTag.GetOr("")) else AltTagOff);
    FieldConfig(
      render.source,
      TvInfo(render.id, render.inputOptions, value),
      params.allowBlank,
      params.targetWidth,
      params.targetHeight,
      params.targetRatio,
      ThumbnailWidth(params.thumbnailWidth, majorVersion),
      altTagOn,
      crop,
      sourceImg,
      altTag)
  }

  /**
   * On the Restored path the crop and the source image depend on the saved value only:
   * neither the parameters nor the host version change them.
   * A corollary of the contract of `LoadTvConfig`.
   */
  lemma RestoredIgnoresParams(
    render: TvRender, value: string, decode: string -> Option<SavedValue>,
    params1: TvParams, version1: int, params2: TvParams, version2: int)
    requires !IsEmptyValue(value) && decode(value).Some?
    ensures LoadTvConfig(render, value, params1, decode, version1).crop
         == LoadTvConfig(render, value, params2, decode, version2).crop
    ensures LoadTvConfig(render, value, params1, decode, version1).sourceImg
         == LoadTvConfig(render, value, params2, decode, version2).sourceImg
  {
  }

  /**
   * The alt tag takes exactly three shapes: off when the feature is off, whatever the
   * saved value holds; on and empty when nothing was saved; the saved text otherwise.
   * A corollary of the contract of `LoadTvConfig`, gathered in one place.
   */
  lemma AltTagTriState(
    render: TvRender, value: string, params: TvParams,
    decode: string -> Option<SavedValue>, majorVersion: int)
    ensures var r := LoadTvConfig(render, value, params, decode, majorVersion);
            var saved := Saved(value, decode);
            (params.allowAltTag != Some(AltTagEnabled) ==> r.altTag == AltTagOff) &&
            (params.allowAltTag == Some(AltTagEnabled) && (saved.None? || saved.value.altTag.None?) ==>
               r.altTag == AltTagText("")) &&
            (params.allowAltTag == Some(AltTagEnabled) && saved.Some? && saved.value.altTag.Some? ==>
               r.altTag == AltTagText(saved.value.altTag.value))
  {
  }
}
