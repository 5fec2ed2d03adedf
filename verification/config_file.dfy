/**
 * The config-file resolution function exported by the root config.js:
 * which file to load, given the base directory, the environment and which
 * files exist. Environment variables are strings; an unset variable is a
 * missing key, and an empty one counts as unset (JavaScript truthiness).
 */
module ConfigFile {
  import opened Wrappers

  const ConfigFileVar := "API_TESTING_CONFIG_FILE"

  /** The variable is set to a non-empty value. */
  predicate EnvSet(env: map<string, string>, name: string) {
    name in env && env[name] != ""
  }

  /** `${baseDir}/configs`. */
  function ConfigsDir(baseDir: string): string {
    baseDir + "/configs"
  }

  /** `${dir}/${name}`. */
  function PathJoin(dir: string, name: string): string {
    dir + "/" + name
  }

  datatype ResolveError =
    /** The variable is set, but neither its value nor the same name under configs/ exists. */
    | NeitherExists(value: string, tried: string)

  /** The five files the resolution can name. */
  predicate Candidate(baseDir: string, env: map<string, string>, path: string) {
    || (EnvSet(env, ConfigFileVar) && (path == env[ConfigFileVar] || path == PathJoin(ConfigsDir(baseDir), env[ConfigFileVar])))
    || path == PathJoin(baseDir, "local.json")
    || path == PathJoin(ConfigsDir(baseDir), "local.json")
    || path == PathJoin(ConfigsDir(baseDir), "default.json")
  }

  /**
   * The file the tests load their configuration from (config.js). The result
   * is one of the five candidates and exists, unless it is the last-resort
   * configs/default.json; only a set variable naming no existing file fails.
   */
  function Resolve(baseDir: string, env: map<string, string>, existing: set<string>): (r: Result<string, ResolveError>)
    ensures !EnvSet(env, ConfigFileVar) ==> r.Ok?
    ensures r.Ok? ==> Candidate(baseDir, env, r.value)
    ensures r.Ok? && r.value != PathJoin(ConfigsDir(baseDir), "default.json") ==> r.value in existing
    ensures r.Err? ==>
      && EnvSet(env, ConfigFileVar)
      && env[ConfigFileVar] !in existing
      && PathJoin(ConfigsDir(baseDir), env[ConfigFileVar]) !in existing
      && r.error == NeitherExists(env[ConfigFileVar], PathJoin(ConfigsDir(baseDir), env[ConfigFileVar]))
  {
    if EnvSet(env, ConfigFileVar) then
      var value := env[ConfigFileVar];
      if value in existing then Ok(value)
      else
        var alt := PathJoin(ConfigsDir(baseDir), value);
        if alt in existing then Ok(alt) else Err(NeitherExists(value, alt))
    else
      var local := PathJoin(baseDir, "local.json");
      if local in existing then Ok(local)
      else
        var configsLocal := PathJoin(ConfigsDir(baseDir), "local.json");
        Ok(if configsLocal in existing then configsLocal else PathJoin(ConfigsDir(baseDir), "default.json"))
  }

  /**
   * The order of preference: a set variable's literal path, then the same
   * name under configs/; unset, baseDir/local.json, then configs/local.json,
   * then configs/default.json.
   */
  lemma ResolvePrecedence(baseDir: string, env: map<string, string>, existing: set<string>)
    ensures (EnvSet(env, ConfigFileVar) && env[ConfigFileVar] in existing) ==>
      Resolve(baseDir, env, existing) == Ok(env[ConfigFileVar])
    ensures (EnvSet(env, ConfigFileVar) && env[ConfigFileVar] !in existing &&
             PathJoin(ConfigsDir(baseDir), env[ConfigFileVar]) in existing) ==>
      Resolve(baseDir, env, existing) == Ok(PathJoin(ConfigsDir(baseDir), env[ConfigFileVar]))
    ensures (!EnvSet(env, ConfigFileVar) && PathJoin(baseDir, "local.json") in existing) ==>
      Resolve(baseDir, env, existing) == Ok(PathJoin(baseDir, "local.json"))
    ensures (!EnvSet(env, ConfigFileVar) && PathJoin(baseDir, "local.json") !in existing &&
             PathJoin(ConfigsDir(baseDir), "local.json") in existing) ==>
      Resolve(baseDir, env, existing) == Ok(PathJoin(ConfigsDir(baseDir), "local.json"))
    ensures (!EnvSet(env, ConfigFileVar) && PathJoin(baseDir, "local.json") !in existing &&
             PathJoin(ConfigsDir(baseDir), "local.json") !in existing) ==>
      Resolve(baseDir, env, existing) == Ok(PathJoin(ConfigsDir(baseDir), "default.json"))
  {
  }
}
