/**
 * MagicConfig of lib/config.js: the process-wide configuration. Its `data`
 * is null until it is loaded, replaced or set, and every getter reads
 * through `init`, which loads it lazily. The file system is a map from
 * existing paths to their parsed JSON contents, and the environment a map
 * from variable names to values.
 */
module Config {
  import opened Wrappers
  import opened Js
  import ConfigFile

  const BaseUrlVar := "REST_BASE_URL"
  const LocalConfigFile := ".api-testing.config.json"
  const NotSet := "NOT SET"

  /** `defaultConfig`. */
  const DefaultConfig: Object := map[
    "factory" := Null,
    "base_uri" := Str("https://base_uri_not_set/"),
    "main_page" := Str(NotSet),
    "root_user" := Obj(map["name" := Str(NotSet), "password" := Str(NotSet)]),
    "secret_key" := Str(NotSet),
    "extra_parameters" := Obj(map[])
  ]

  /** The six settings with getters. */
  datatype Setting = Factory | BaseUri | MainPage | RootUser | SecretKey | ExtraParameters

  function Key(s: Setting): (k: string)
    ensures k in DefaultConfig
  {
    match s
    case Factory => "factory"
    case BaseUri => "base_uri"
    case MainPage => "main_page"
    case RootUser => "root_user"
    case SecretKey => "secret_key"
    case ExtraParameters => "extra_parameters"
  }

  lemma KeyInjective(a: Setting, b: Setting)
    requires Key(a) == Key(b)
    ensures a == b
  {
  }

  datatype ConfigError =
    | NeitherExists(value: string, tried: string)  // API_TESTING_CONFIG_FILE names no existing file
    | MissingLocalConfig                           // no variable set and no local config file
    | ModuleNotFound(path: string)                 // `require` of a file that does not exist

  /** Where `init` takes the configuration from. */
  datatype Source = BaseUrl(uri: string) | File(path: string)

  /**
   * The precedence rule of `init`: REST_BASE_URL wins; then
   * API_TESTING_CONFIG_FILE, taken literally or under configs/; then the
   * local config file in the base directory.
   */
  function Locate(baseDir: string, env: map<string, string>, existing: set<string>): (r: Result<Source, ConfigError>)
    ensures ConfigFile.EnvSet(env, BaseUrlVar) ==> r == Ok(BaseUrl(env[BaseUrlVar]))
    ensures r.Ok? && r.value.BaseUrl? ==> ConfigFile.EnvSet(env, BaseUrlVar)
    ensures !ConfigFile.EnvSet(env, BaseUrlVar) && !ConfigFile.EnvSet(env, ConfigFile.ConfigFileVar) ==>
      r == if ConfigFile.PathJoin(baseDir, LocalConfigFile) in existing
           then Ok(File(ConfigFile.PathJoin(baseDir, LocalConfigFile)))
           else Err(MissingLocalConfig)
    ensures r.Err? && r.error.NeitherExists? ==>
      && !ConfigFile.EnvSet(env, BaseUrlVar)
      && ConfigFile.EnvSet(env, ConfigFile.ConfigFileVar)
      && r.error == NeitherExists(env[ConfigFile.ConfigFileVar],
                                  ConfigFile.PathJoin(ConfigFile.ConfigsDir(baseDir), env[ConfigFile.ConfigFileVar]))
      && env[ConfigFile.ConfigFileVar] !in existing && r.error.tried !in existing
    ensures r.Ok? && r.value.File? ==> r.value.path in existing
    ensures r.Ok? && r.value.File? && ConfigFile.EnvSet(env, ConfigFile.ConfigFileVar) ==>
      r.value.path == env[ConfigFile.ConfigFileVar] ||
      r.value.path == ConfigFile.PathJoin(ConfigFile.ConfigsDir(baseDir), env[ConfigFile.ConfigFileVar])
    ensures r.Ok? && r.value.File? && !ConfigFile.EnvSet(env, ConfigFile.ConfigFileVar) ==>
      r.value.path == ConfigFile.PathJoin(baseDir, LocalConfigFile)
    ensures r == Err(MissingLocalConfig) <==>
      && !ConfigFile.EnvSet(env, BaseUrlVar)
      && !ConfigFile.EnvSet(env, ConfigFile.ConfigFileVar)
      && ConfigFile.PathJoin(baseDir, LocalConfigFile) !in existing
  {
    if ConfigFile.EnvSet(env, BaseUrlVar) then Ok(BaseUrl(env[BaseUrlVar]))
    else if ConfigFile.EnvSet(env, ConfigFile.ConfigFileVar) then
      var value := env[ConfigFile.ConfigFileVar];
      if value in existing then Ok(File(value))
      else
        var alt := ConfigFile.PathJoin(ConfigFile.ConfigsDir(baseDir), value);
        if alt in existing then Ok(File(alt)) else Err(NeitherExists(value, alt))
    else
      var local := ConfigFile.PathJoin(baseDir, LocalConfigFile);
      if local in existing then Ok(File(local)) else Err(MissingLocalConfig)
  }

  /**
   * With REST_BASE_URL unset, `init` looks for API_TESTING_CONFIG_FILE
   * exactly as config.js does: the same file, or the same error.
   */
  lemma LocateAgreesWithResolve(baseDir: string, env: map<string, string>, existing: set<string>)
    requires !ConfigFile.EnvSet(env, BaseUrlVar) && ConfigFile.EnvSet(env, ConfigFile.ConfigFileVar)
    ensures var r := ConfigFile.Resolve(baseDir, env, existing);
      Locate(baseDir, env, existing) ==
        if r.Ok? then Ok(File(r.value)) else Err(NeitherExists(r.error.value, r.error.tried))
  {
  }

  /** `{...defaultConfig, ...cfg}`: every default key is present and cfg's values win. */
  function Overlay(cfg: Value): (r: Object)
    ensures forall k :: k in r <==> k in DefaultConfig || k in Spread(cfg)
    ensures forall k :: k in Spread(cfg) ==> r[k] == Spread(cfg)[k]
    ensures forall k :: k in DefaultConfig && k !in Spread(cfg) ==> r[k] == DefaultConfig[k]
  {
    DefaultConfig + Spread(cfg)
  }

  /** Overlaying the empty record gives the defaults, and overlaying is idempotent. */
  lemma OverlayEmpty(cfg: Value)
    ensures Overlay(Obj(map[])) == DefaultConfig
    ensures Overlay(Obj(Overlay(cfg))) == Overlay(cfg)
  {
    var o := Overlay(cfg);
    assert Overlay(Obj(o)) == DefaultConfig + o;
    assert DefaultConfig + o == o;
  }

  /**
   * The configuration `init` loads when data is null: exactly `{base_uri}`
   * under REST_BASE_URL, otherwise the located file over the defaults.
   */
  function Loaded(baseDir: string, env: map<string, string>, files: map<string, Value>): (r: Result<Object, ConfigError>)
    ensures r.Ok? <==> Locate(baseDir, env, files.Keys).Ok?
    ensures r.Err? ==> r == Err(Locate(baseDir, env, files.Keys).error)
    ensures ConfigFile.EnvSet(env, BaseUrlVar) ==> r == Ok(map["base_uri" := Str(env[BaseUrlVar])])
    ensures r.Ok? && !ConfigFile.EnvSet(env, BaseUrlVar) ==>
      && Locate(baseDir, env, files.Keys).value.File?
      && r.value == Overlay(files[Locate(baseDir, env, files.Keys).value.path])
      && DefaultConfig.Keys <= r.value.Keys
  {
    match Locate(baseDir, env, files.Keys)
    case Err(e) => Err(e)
    case Ok(BaseUrl(uri)) => Ok(map["base_uri" := Str(uri)])
    case Ok(File(path)) => Ok(Overlay(files[path]))
  }

  /**
   * Under REST_BASE_URL the loaded configuration has no defaults: every
   * getter but `base_uri` reads undefined.
   */
  lemma BaseUrlHasNoDefaults(baseDir: string, env: map<string, string>, files: map<string, Value>, setting: Setting)
    requires ConfigFile.EnvSet(env, BaseUrlVar)
    ensures Loaded(baseDir, env, files).Ok?
    ensures Lookup(Loaded(baseDir, env, files).value, Key(setting)) ==
      if setting == BaseUri then Str(env[BaseUrlVar]) else Undefined
  {
  }

  class MagicConfig {
    /** null (None) until the configuration is known. */
    var data: Option<Object>
    var baseDir: string

    /** `data = null; baseDir = process.cwd()`. */
    constructor (cwd: string)
      ensures data == None && baseDir == cwd
    {
      data := None;
      baseDir := cwd;
    }

    /** `load(requireFile)`: the file's contents over the defaults. */
    method Load(requireFile: string, files: map<string, Value>) returns (r: Result<Object, ConfigError>)
      modifies this
      ensures baseDir == old(baseDir)
      ensures requireFile !in files ==> r == Err(ModuleNotFound(requireFile)) && data == old(data)
      ensures requireFile in files ==> data == Some(Overlay(files[requireFile])) && r == Ok(data.value)
    {
      if requireFile !in files {
        return Err(ModuleNotFound(requireFile));
      }
      data := Some(Overlay(files[requireFile]));
      r := Ok(data.value);
    }

    /**
     * `init()`: known data is returned untouched, with no lookup; otherwise
     * the source is located and loaded (REST_BASE_URL alone gives exactly
     * `{base_uri}`, without the defaults). A failed lookup leaves data null.
     */
    method Init(env: map<string, string>, files: map<string, Value>) returns (r: Result<Object, ConfigError>)
      modifies this
      ensures baseDir == old(baseDir)
      ensures old(data).Some? ==> data == old(data) && r == Ok(old(data).value)
      ensures old(data).None? ==>
        && r == Loaded(baseDir, env, files)
        && data == if r.Ok? then Some(r.value) else None
      ensures r.Ok? ==> data == Some(r.value)
    {
      if data.Some? {
        return Ok(data.value);
      }
      var source := Locate(baseDir, env, files.Keys);
      match source
      case Err(e) =>
        r := Err(e);
      case Ok(BaseUrl(uri)) =>
        data := Some(map["base_uri" := Str(uri)]);
        r := Ok(data.value);
      case Ok(File(path)) =>
        r := Load(path, files);
    }

    /** The getters (`base_uri`, `secret_key`, ...): `this.init()[key]`. */
    method Get(setting: Setting, env: map<string, string>, files: map<string, Value>) returns (r: Result<Value, ConfigError>)
      modifies this
      ensures baseDir == old(baseDir)
      ensures old(data).Some? ==> data == old(data) && r == Ok(Lookup(old(data).value, Key(setting)))
      ensures old(data).None? ==> match Loaded(baseDir, env, files)
        case Ok(o) => data == Some(o) && r == Ok(Lookup(o, Key(setting)))
        case Err(e) => data == None && r == Err(e)
      ensures r.Ok? ==> data.Some? && r == Ok(Lookup(data.value, Key(setting)))
      ensures r.Err? ==> data == None
    {
      var d := Init(env, files);
      match d
      case Err(e) =>
        r := Err(e);
      case Ok(o) =>
        r := Ok(Lookup(o, Key(setting)));
    }

    /** `replace(cfg)`: the defaults overlaid by a copy of cfg. */
    method Replace(cfg: Value)
      modifies this
      ensures baseDir == old(baseDir)
      ensures data == Some(Overlay(cfg))
    {
      data := Some(Overlay(cfg));
    }

    /** `dummy()`: the defaults alone. */
    method Dummy()
      modifies this
      ensures baseDir == old(baseDir)
      ensures data == Some(DefaultConfig)
    {
      Replace(Obj(map[]));
      OverlayEmpty(Obj(map[]));
    }

    /** `set(key, value)`: installs the defaults first when data is null, then sets one key. */
    method Set(key: string, value: Value)
      modifies this
      ensures baseDir == old(baseDir)
      ensures data.Some?
      ensures old(data).None? ==> data.value == DefaultConfig[key := value]
      ensures old(data).Some? ==> data.value == old(data).value[key := value]
    {
      if data.None? {
        Dummy();
      }
      data := Some(data.value[key := value]);
    }

    /** `reset()`: forget the configuration, so the next `init` looks it up again. */
    method Reset()
      modifies this
      ensures baseDir == old(baseDir)
      ensures data == None
    {
      data := None;
    }

    /** `setBaseDir(dir)`. */
    method SetBaseDir(dir: string)
      modifies this
      ensures data == old(data)
      ensures baseDir == dir
    {
      baseDir := dir;
    }
  }

  /**
   * The dynamic-modification scenario: after `set`, a getter reads the new
   * value with no lookup, and the other settings keep their values.
   */
  method SetThenGet(config: MagicConfig, setting: Setting, value: Value, env: map<string, string>, files: map<string, Value>)
    returns (r: Result<Value, ConfigError>)
    modifies config
    ensures r == Ok(value)
    ensures config.data.Some?
    ensures forall k :: k in config.data.value && k != Key(setting) ==>
      k in (if old(config.data).Some? then old(config.data).value else DefaultConfig) &&
      config.data.value[k] == (if old(config.data).Some? then old(config.data).value else DefaultConfig)[k]
    ensures forall k :: k in (if old(config.data).Some? then old(config.data).value else DefaultConfig) ==>
      k in config.data.value
  {
    config.Set(Key(setting), value);
    r := config.Get(setting, env, files);
  }

  /** Once the data is known, `init` is idempotent and every getter reads it. */
  method InitTwice(config: MagicConfig, env: map<string, string>, files: map<string, Value>)
    returns (first: Result<Object, ConfigError>, second: Result<Object, ConfigError>)
    modifies config
    ensures first.Ok? ==> second == first
  {
    first := config.Init(env, files);
    second := config.Init(env, files);
  }
}
