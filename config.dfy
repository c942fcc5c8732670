/** The settings store: a flat string-to-string dictionary loaded from
    config.json, with the built-in defaults filled in for absent keys. */
module Config {

  datatype Option<T> = None | Some(value: T)

  type Config = map<string, string>

  /** `DEFAULT_CONFIG`, in its declaration (and iteration) order. */
  const DefaultKeys: seq<string> := ["remote_url", "repo_path", "branch", "commit_message"]

  const DefaultConfig: Config := map[
    "remote_url" := "",
    "repo_path" := "",
    "branch" := "main",
    "commit_message" := "Update portfolio via Simple Git"
  ]

  /** `cfg.get(key, default)`. */
  function Get(cfg: Config, key: string, default: string): (v: string)
    ensures key in cfg ==> v == cfg[key]
    ensures key !in cfg ==> v == default
  {
    if key in cfg then cfg[key] else default
  }

  /** What loading a present file yields: the file's own entries, and the
      default for every default key the file lacks. */
  function WithDefaults(file: Config): (cfg: Config)
    ensures cfg.Keys == file.Keys + DefaultConfig.Keys
    ensures forall k :: k in file ==> cfg[k] == file[k]
    ensures forall k :: k in DefaultConfig && k !in file ==> cfg[k] == DefaultConfig[k]
  {
    DefaultConfig + file
  }

  /** The defaults among the first `i` keys of `DefaultKeys`. */
  function FirstDefaults(i: nat): Config
    requires i <= |DefaultKeys|
  {
    map k | k in DefaultKeys[..i] :: DefaultConfig[k]
  }

  lemma FirstDefaultsStep(i: nat, file: Config)
    requires i < |DefaultKeys|
    ensures DefaultKeys[i] !in FirstDefaults(i)
    ensures var k := DefaultKeys[i];
      FirstDefaults(i + 1) + file ==
        if k in file then FirstDefaults(i) + file else (FirstDefaults(i) + file)[k := DefaultConfig[k]]
  {
    assert DefaultKeys[..i + 1] == DefaultKeys[..i] + [DefaultKeys[i]];
  }

  lemma AllDefaults()
    ensures FirstDefaults(|DefaultKeys|) == DefaultConfig
  {
    assert DefaultKeys[..|DefaultKeys|] == DefaultKeys;
  }

  /** `load_config()`: a missing file gives a copy of the defaults; a present
      one (already parsed, `file`) gets `setdefault` for each default key. */
  method LoadConfig(file: Option<Config>) returns (cfg: Config)
    ensures file.None? ==> cfg == DefaultConfig
    ensures file.Some? ==> cfg == WithDefaults(file.value)
  {
    if file.None? {
      return DefaultConfig;
    }
    cfg := file.value;
    var i := 0;
    while i < |DefaultKeys|
      invariant 0 <= i <= |DefaultKeys|
      invariant cfg == FirstDefaults(i) + file.value
    {
      var k := DefaultKeys[i];
      FirstDefaultsStep(i, file.value);
      if k !in cfg {
        cfg := cfg[k := DefaultConfig[k]];
      }
      i := i + 1;
    }
    AllDefaults();
  }

  /** Loading what a load produced changes nothing, so a saved
      configuration reloads as it was. */
  lemma WithDefaultsIdempotent(file: Config)
    ensures WithDefaults(WithDefaults(file)) == WithDefaults(file)
  {
  }

  /** A missing file and an empty one load the same. */
  lemma MissingIsEmpty()
    ensures WithDefaults(map[]) == DefaultConfig
  {
  }
}
