/**
  Building a containerd configuration engine: the builder's options, the
  detection of the configuration version and the choice between the V1 and
  the V2 view of the loaded document.
 */
module ContainerdOption {
  import opened Wrappers
  import opened Toml

  /** The runtime type used when none is configured. */
  const DefaultRuntimeType := "io.containerd.runc.v2"

  /** A loaded configuration with the settings `build` stores on it. */
  datatype Config = Config(tree: Tree, runtimeType: string, useDefaultRuntimeName: bool)

  /** The engine `build` returns: the V1 view or the (V2) configuration itself. */
  datatype Engine = V1(config: Config) | V2(config: Config)

  datatype BuildError =
    | EmptyPath                          // "config path is empty"
    | LoadFailed(cause: string)          // "failed to load config: ..."
    | VersionParseFailed(value: Value)   // "failed to parse config version: unsupported type for version field: ..."
    | UnsupportedVersion(version: int)   // "unsupported config version: ..."

  /** parseVersion's two results: the version, and the offending value when it is not an integer. */
  datatype ParsedVersion = ParsedVersion(version: int, err: Option<Value>)

  /** The version of a loaded document: its integer `version`; without one, the version
      containerd infers (2, or 1 in legacy mode) for an empty document and 1 for any other;
      -1 and an error for a `version` of any other type. */
  function ParseVersion(t: Tree, useLegacyConfig: bool): (r: ParsedVersion)
    ensures "version" !in t && |t| == 0 ==> r == ParsedVersion(if useLegacyConfig then 1 else 2, None)
    ensures "version" !in t && |t| > 0 ==> r == ParsedVersion(1, None)
    ensures "version" in t && t["version"].Int? ==> r == ParsedVersion(t["version"].i, None)
    ensures r.err.Some? <==> "version" in t && !t["version"].Int?
    ensures r.err.Some? ==> r.version == -1 && r.err.value == t["version"]
  {
    var defaultVersion := if useLegacyConfig then 1 else 2;
    if "version" !in t then
      if |t| == 0 then ParsedVersion(defaultVersion, None) else ParsedVersion(1, None)
    else match t["version"]
      case Int(v) => ParsedVersion(v, None)
      case other => ParsedVersion(-1, Some(other))
  }

  /** The runtime type `build` uses. */
  function EffectiveRuntimeType(runtimeType: string): (rt: string)
    ensures rt != ""
    ensures runtimeType != "" ==> rt == runtimeType
    ensures runtimeType == "" ==> rt == DefaultRuntimeType
  {
    if runtimeType == "" then DefaultRuntimeType else runtimeType
  }

  /** What `build` returns for a builder with these fields, where `loaded` is the outcome of
      loading the file at `path` (consulted only when the path is not empty). */
  function BuildResult(path: string, runtimeType: string, useLegacyConfig: bool,
                       loaded: Result<Tree, string>): (r: Result<Engine, BuildError>)
    ensures path == "" ==> r == Err(EmptyPath)
    ensures path != "" && loaded.Err? ==> r == Err(LoadFailed(loaded.error))
    ensures r.Ok? ==> && path != "" && loaded.Ok?
                      && r.value.config == Config(loaded.value, EffectiveRuntimeType(runtimeType), !useLegacyConfig)
    ensures r.Ok? ==> (r.value.V1? <==> ParseVersion(loaded.value, useLegacyConfig).version == 1)
    ensures r.Ok? ==> (r.value.V2? <==> ParseVersion(loaded.value, useLegacyConfig).version == 2)
    ensures path != "" && loaded.Ok? && ParseVersion(loaded.value, useLegacyConfig).err.None? ==>
              (r.Err? <==> ParseVersion(loaded.value, useLegacyConfig).version !in {1, 2})
    ensures path != "" && loaded.Ok? && ParseVersion(loaded.value, useLegacyConfig).err.Some? ==>
              r == Err(VersionParseFailed(loaded.value["version"]))
    ensures path != "" && loaded.Ok? && ParseVersion(loaded.value, useLegacyConfig).err.None?
            && ParseVersion(loaded.value, useLegacyConfig).version !in {1, 2} ==>
              r == Err(UnsupportedVersion(ParseVersion(loaded.value, useLegacyConfig).version))
  {
    if path == "" then Err(EmptyPath)
    else match loaded
      case Err(e) => Err(LoadFailed(e))
      case Ok(tree) =>
        var config := Config(tree, EffectiveRuntimeType(runtimeType), !useLegacyConfig);
        var parsed := ParseVersion(tree, useLegacyConfig);
        if parsed.err.Some? then Err(VersionParseFailed(parsed.err.value))
        else if parsed.version == 1 then Ok(V1(config))
        else if parsed.version == 2 then Ok(V2(config))
        else Err(UnsupportedVersion(parsed.version))
  }

  /** The builder the options configure. */
  class Builder {
    var path: string
    var runtimeType: string
    var useLegacyConfig: bool

    /** A builder with Go's zero values. */
    constructor ()
      ensures path == "" && runtimeType == "" && !useLegacyConfig
    {
      path := "";
      runtimeType := "";
      useLegacyConfig := false;
    }

    /** WithPath. */
    method SetPath(path: string)
      modifies this`path
      ensures this.path == path
    {
      this.path := path;
    }

    /** WithRuntimeType. */
    method SetRuntimeType(runtimeType: string)
      modifies this`runtimeType
      ensures this.runtimeType == runtimeType
    {
      this.runtimeType := runtimeType;
    }

    /** WithUseLegacyConfig. */
    method SetUseLegacyConfig(useLegacyConfig: bool)
      modifies this`useLegacyConfig
      ensures this.useLegacyConfig == useLegacyConfig
    {
      this.useLegacyConfig := useLegacyConfig;
    }

    /** build: `loaded` is what loading the file at `path` yields. An empty runtime type is
        replaced by the default on the builder itself once the path is known not to be empty. */
    method Build(loaded: Result<Tree, string>) returns (r: Result<Engine, BuildError>)
      modifies this`runtimeType
      ensures r == BuildResult(path, old(runtimeType), useLegacyConfig, loaded)
      ensures runtimeType == if path == "" then old(runtimeType) else EffectiveRuntimeType(old(runtimeType))
    {
      if path == "" {
        return Err(EmptyPath);
      }
      if runtimeType == "" {
        runtimeType := DefaultRuntimeType;
      }
      if loaded.Err? {
        return Err(LoadFailed(loaded.error));
      }
      var config := Config(loaded.value, runtimeType, !useLegacyConfig);
      var parsed := ParseVersion(config.tree, useLegacyConfig);
      if parsed.err.Some? {
        return Err(VersionParseFailed(parsed.err.value));
      }
      if parsed.version == 1 {
        return Ok(V1(config));
      } else if parsed.version == 2 {
        return Ok(V2(config));
      }
      return Err(UnsupportedVersion(parsed.version));
    }
  }

  /** An empty (or missing) document is read as the version containerd itself assumes. */
  lemma BuildEmptyDocument(path: string, runtimeType: string, useLegacyConfig: bool)
    requires path != ""
    ensures var r := BuildResult(path, runtimeType, useLegacyConfig, Ok(map[]));
      r.Ok? && (r.value.V1? <==> useLegacyConfig)
  {
  }

  /** A document with content but no `version` is a V1 document, in either mode. */
  lemma BuildUnversionedDocument(path: string, runtimeType: string, useLegacyConfig: bool, t: Tree)
    requires path != "" && "version" !in t && |t| > 0
    ensures var r := BuildResult(path, runtimeType, useLegacyConfig, Ok(t));
      r.Ok? && r.value.V1?
  {
  }

  /** The legacy flag only matters for an empty document. */
  lemma LegacyFlagOnlyForEmpty(t: Tree)
    ensures ParseVersion(t, true) == ParseVersion(t, false) <==> |t| > 0
  {
  }

  /** Building again after Build has written the default runtime type back gives the same result. */
  lemma RebuildAfterDefault(path: string, runtimeType: string, useLegacyConfig: bool, loaded: Result<Tree, string>)
    ensures EffectiveRuntimeType(EffectiveRuntimeType(runtimeType)) == EffectiveRuntimeType(runtimeType)
    ensures BuildResult(path, EffectiveRuntimeType(runtimeType), useLegacyConfig, loaded)
         == BuildResult(path, runtimeType, useLegacyConfig, loaded)
  {
  }
}
