/** Configuration lookup with an environment fallback (`core/env.py`). The process
    environment is a map parameter. */
module Env {
  import opened Wrappers

  /** The `ValueError` raised when no source has the value. */
  datatype EnvError = NotFound(key: string, envKey: string)

  /** Python truthiness of a dictionary value that is a string or `None`. */
  predicate Truthy(v: Option<string>) {
    v.Some? && v.value != ""
  }

  /** The environment variable is set to a non-empty string. */
  predicate EnvSet(envKey: string, environ: map<string, string>) {
    envKey in environ && environ[envKey] != ""
  }

  /** `get_from_env(key, env_key, default)`: the environment first, then the default (even
      an empty one), else an error naming both keys. */
  function GetFromEnv(key: string, envKey: string, default: Option<string>,
                      environ: map<string, string>): (r: Result<string, EnvError>)
    ensures r.Success? <==> EnvSet(envKey, environ) || default.Some?
    ensures EnvSet(envKey, environ) ==> r == Success(environ[envKey])
    ensures !EnvSet(envKey, environ) && default.Some? ==> r == Success(default.value)
    ensures r.Failure? ==> r.error == NotFound(key, envKey)
  {
    if envKey in environ && environ[envKey] != "" then Success(environ[envKey])
    else if default.Some? then Success(default.value)
    else Failure(NotFound(key, envKey))
  }

  /** `get_from_dict_or_env(data, key, env_key, default)`: a truthy `data[key]` wins; a
      missing, `None` or empty one falls through to `get_from_env`. */
  function GetFromDictOrEnv(data: map<string, Option<string>>, key: string, envKey: string,
                            default: Option<string>, environ: map<string, string>)
    : (r: Result<string, EnvError>)
    ensures key in data && Truthy(data[key]) ==> r == Success(data[key].value)
    ensures r.Success? <==> (key in data && Truthy(data[key])) || EnvSet(envKey, environ) || default.Some?
    ensures r.Failure? ==> r.error == NotFound(key, envKey)
  {
    if key in data && Truthy(data[key]) then Success(data[key].value)
    else GetFromEnv(key, envKey, default, environ)
  }

  /** A truthy dictionary entry shadows the environment entirely: any two environments give
      the same answer. */
  lemma DataShadowsEnvironment(data: map<string, Option<string>>, key: string, envKey: string,
                               default: Option<string>, env1: map<string, string>,
                               env2: map<string, string>)
    requires key in data && Truthy(data[key])
    ensures GetFromDictOrEnv(data, key, envKey, default, env1)
         == GetFromDictOrEnv(data, key, envKey, default, env2)
  {
  }

  /** A present but falsy entry is the same as a missing one. */
  lemma FalsyEntryFallsThrough(data: map<string, Option<string>>, key: string, envKey: string,
                               default: Option<string>, environ: map<string, string>)
    requires key in data && !Truthy(data[key])
    ensures GetFromDictOrEnv(data, key, envKey, default, environ)
         == GetFromDictOrEnv(data - {key}, key, envKey, default, environ)
         == GetFromEnv(key, envKey, default, environ)
  {
  }

  /** The answer always comes from one of the three sources, in priority order: a non-empty
      dictionary value, a non-empty environment value, or the default. */
  lemma ValueFromASource(data: map<string, Option<string>>, key: string, envKey: string,
                         default: Option<string>, environ: map<string, string>)
    ensures var r := GetFromDictOrEnv(data, key, envKey, default, environ);
            r.Success? ==>
              || (key in data && Truthy(data[key]) && r.value == data[key].value)
              || (!(key in data && Truthy(data[key])) && EnvSet(envKey, environ)
                  && r.value == environ[envKey])
              || (!(key in data && Truthy(data[key])) && !EnvSet(envKey, environ)
                  && default == Some(r.value))
  {
  }
}
