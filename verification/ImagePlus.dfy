/**
 * The Image+ facade object: its constructor fills the configuration step by step
 * (`loadConfig`, `loadLexicon`, `loadSourceMap`, `checkDependencies`, in that order).
 * Everything the host CMS answers is gathered in a `Host` value.
 */
module ImagePlusFacade {
  import opened Wrappers
  import CropEngines

  /** A registered media source and the base URL it reports once initialised. */
  datatype MediaSource = MediaSource(id: int, baseUrl: string)

  /** The answers of the host CMS the constructor asks for. */
  datatype Host = Host(
    corePathSetting: Option<string>,   // system setting imageplus.core_path
    hostCorePath: string,              // system setting core_path
    assetsUrlSetting: Option<string>,  // system setting imageplus.assets_url
    hostAssetsUrl: string,             // system setting assets_url
    managerLanguage: string,           // system setting manager_language
    lexiconLanguages: seq<string>,     // languages the imageplus topic is translated to
    lexiconTopic: string -> map<string, string>,  // the imageplus topic in a language
    mediaSources: seq<MediaSource>,    // every media source, in collection order
    requirementsMet: string -> bool)   // the crop engines' requirement probes

  /** Where the component lives below a host path. */
  const ComponentDir := "components/imageplus/"

  /** The connector script below the component's assets URL. */
  const ConnectorScript := "mgr/connector.php"

  /** The lexicon language used when the manager language has no translation. */
  const DefaultLanguage := "en"

  /** A component path: the component's own setting, else the component directory below the host's. */
  function ComponentPath(setting: Option<string>, hostPath: string): (path: string)
    ensures setting.Some? ==> path == setting.value
    ensures setting.None? ==> |path| == |hostPath| + |ComponentDir| && path[..|hostPath|] == hostPath && path[|hostPath|..] == ComponentDir
  {
    setting.GetOr(hostPath + ComponentDir)
  }

  /** The lexicon language: the manager language when the topic is translated to it, else English. */
  function LexiconLanguage(managerLanguage: string, available: seq<string>): (lang: string)
    ensures managerLanguage in available ==> lang == managerLanguage
    ensures managerLanguage !in available ==> lang == DefaultLanguage
    ensures lang in available || lang == DefaultLanguage
  {
    if managerLanguage in available then managerLanguage else DefaultLanguage
  }

  /**
   * `sources` after registering each media source of `list` in turn; a later source with
   * the same id replaces an earlier one.
   */
  function WithSources(sources: map<int, string>, list: seq<MediaSource>): map<int, string>
    decreases |list|
  {
    if list == [] then sources
    else
      var last := list[|list| - 1];
      WithSources(sources, list[..|list| - 1])[last.id := last.baseUrl]
  }

  /** The ids registered are those already there and those of the listed sources. */
  lemma {:induction false} WithSourcesKeys(sources: map<int, string>, list: seq<MediaSource>)
    ensures WithSources(sources, list).Keys == sources.Keys + set i | 0 <= i < |list| :: list[i].id
  {
    if list != [] {
      var prefix := list[..|list| - 1];
      WithSourcesKeys(sources, prefix);
      var ids := set i | 0 <= i < |list| :: list[i].id;
      var prefixIds := set i | 0 <= i < |prefix| :: prefix[i].id;
      assert ids == prefixIds + {list[|list| - 1].id} by {
        forall id | id in ids ensures id in prefixIds + {list[|list| - 1].id} {
          var i :| 0 <= i < |list| && list[i].id == id;
          if i < |prefix| { assert prefix[i] == list[i]; }
        }
        forall id | id in prefixIds ensures id in ids {
          var i :| 0 <= i < |prefix| && prefix[i].id == id;
          assert list[i] == prefix[i];
        }
      }
    }
  }

  /** An id maps to the base URL of the LAST listed source carrying it. */
  lemma {:induction false} WithSourcesLastWins(sources: map<int, string>, list: seq<MediaSource>, i: int)
    requires 0 <= i < |list|
    requires forall j :: i < j < |list| ==> list[j].id != list[i].id
    ensures list[i].id in WithSources(sources, list)
    ensures WithSources(sources, list)[list[i].id] == list[i].baseUrl
  {
    if i < |list| - 1 {
      var prefix := list[..|list| - 1];
      forall j | i < j < |prefix| ensures prefix[j].id != prefix[i].id {
        assert prefix[j] == list[j] && prefix[i] == list[i];
      }
      WithSourcesLastWins(sources, prefix, i);
    }
  }

  /** An id no listed source carries keeps the base URL it had. */
  lemma {:induction false} WithSourcesKeepsOthers(sources: map<int, string>, list: seq<MediaSource>, id: int)
    requires id in sources
    requires forall j :: 0 <= j < |list| ==> list[j].id != id
    ensures id in WithSources(sources, list) && WithSources(sources, list)[id] == sources[id]
  {
    if list != [] {
      var prefix := list[..|list| - 1];
      forall j | 0 <= j < |prefix| ensures prefix[j].id != id {
        assert prefix[j] == list[j];
      }
      WithSourcesKeepsOthers(sources, prefix, id);
    }
  }

  /** The facade object and the configuration it keeps. */
  class ImagePlus {
    var corePath: string
    var assetsUrl: string
    var connectorUrl: string
    /** Media source id to base URL. */
    var sources: map<int, string>
    var hasUnmetDependencies: bool
    /** The lexicon entry of the configuration; `None` until the lexicon is loaded. */
    var lexicon: Option<map<string, string>>

    /** Runs the four loading steps in the order the constructor does. */
    constructor (host: Host)
      ensures corePath == ComponentPath(host.corePathSetting, host.hostCorePath)
      ensures assetsUrl == ComponentPath(host.assetsUrlSetting, host.hostAssetsUrl)
      ensures connectorUrl == assetsUrl + ConnectorScript
      ensures lexicon == Some(host.lexiconTopic(LexiconLanguage(host.managerLanguage, host.lexiconLanguages)))
      ensures sources == WithSources(map[], host.mediaSources)
      ensures hasUnmetDependencies <==> CropEngines.NoEngineAvailable(host.requirementsMet)
    {
      corePath, assetsUrl, connectorUrl := "", "", "";
      sources, hasUnmetDependencies, lexicon := map[], false, None;
      new;
      LoadConfig(host.corePathSetting, host.hostCorePath, host.assetsUrlSetting, host.hostAssetsUrl);
      LoadLexicon(host.managerLanguage, host.lexiconLanguages, host.lexiconTopic);
      LoadSourceMap(host.mediaSources);
      CheckDependencies(host.requirementsMet);
    }

    /** Replaces the whole configuration with its defaults: no sources, no unmet dependencies, no lexicon. */
    method LoadConfig(corePathSetting: Option<string>, hostCorePath: string,
                      assetsUrlSetting: Option<string>, hostAssetsUrl: string)
      modifies this
      ensures corePath == ComponentPath(corePathSetting, hostCorePath)
      ensures assetsUrl == ComponentPath(assetsUrlSetting, hostAssetsUrl)
      ensures connectorUrl == assetsUrl + ConnectorScript
      ensures sources == map[] && !hasUnmetDependencies && lexicon == None
    {
      var core := ComponentPath(corePathSetting, hostCorePath);
      var assets := ComponentPath(assetsUrlSetting, hostAssetsUrl);
      corePath := core;
      assetsUrl := assets;
      connectorUrl := assets + ConnectorScript;
      sources := map[];
      hasUnmetDependencies := false;
      lexicon := None;
    }

    /** Stores the imageplus topic in the manager language, or in English when it is not translated. */
    method LoadLexicon(managerLanguage: string, available: seq<string>, topic: string -> map<string, string>)
      modifies this`lexicon
      ensures lexicon == Some(topic(LexiconLanguage(managerLanguage, available)))
    {
      var lang;
      if managerLanguage in available {
        lang := managerLanguage;
      } else {
        lang := DefaultLanguage;
      }
      lexicon := Some(topic(lang));
    }

    /** Registers the base URL of every media source, one after another. */
    method LoadSourceMap(list: seq<MediaSource>)
      modifies this`sources
      ensures sources == WithSources(old(sources), list)
    {
      var i := 0;
      while i < |list|
        invariant 0 <= i <= |list|
        invariant sources == WithSources(old(sources), list[..i])
      {
        assert list[..i + 1][..i] == list[..i];
        sources := sources[list[i].id := list[i].baseUrl];
        i := i + 1;
      }
      assert list[..|list|] == list;
    }

    /** Raises the unmet-dependencies flag when neither built-in crop engine can run; never lowers it. */
    method CheckDependencies(met: string -> bool)
      modifies this`hasUnmetDependencies
      ensures hasUnmetDependencies <==> old(hasUnmetDependencies) || CropEngines.NoEngineAvailable(met)
    {
      if !met(CropEngines.PhpThumbsUp) && !met(CropEngines.PhpThumbOf) {
        hasUnmetDependencies := true;
      }
    }
  }

  /**
   * The health flag set by the constructor is raised exactly when rendering without a
   * truthy override (the setting unset, "" or "0") faults for want of an engine class.
   */
  lemma UnmetDependenciesMeansNoEngine<Opts, Tv>(
    json: string, opts: Opts, tv: Tv, override: Option<string>,
    met: string -> bool, engineUrl: (string, string, Opts, Tv) -> string)
    requires !CropEngines.OverrideSet(override)
    ensures CropEngines.NoEngineAvailable(met) <==>
              CropEngines.GetImageUrl(json, opts, tv, override, met, engineUrl).None?
  {
  }
}
