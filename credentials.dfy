/** Where the SDK finds its API key, its secret key and its endpoint: an
    instance value, then the class-level setting, then an environment variable
    whose name depends on the sandbox flag. */
module Credentials {
  import opened Types

  /** The class-level attributes of `Monitis` (monitis/api.py:314-319) that the
      free functions read; `debug` only controls printing and is left out. */
  datatype Settings = Settings(sandbox: Value, apikey: Value, secretkey: Value,
                               defaultUrl: string, sandboxUrl: string)

  /** The attributes as the class declares them. */
  function Defaults(): (s: Settings)
    ensures s.sandbox == Bool(false) && s.apikey == Null && s.secretkey == Null
  {
    Settings(Bool(false), Null, Null, "http://monitis.com/api", "http://sandbox.monitis.com/api")
  }

  /** `Monitis.sandbox is True`: only the boolean `True` selects the sandbox. */
  predicate InSandbox(s: Settings)
  {
    s.sandbox == Bool(true)
  }

  /** `_api_url` (monitis/api.py:46-50). */
  function ApiUrl(s: Settings): (url: string)
    ensures InSandbox(s) ==> url == s.sandboxUrl
    ensures !InSandbox(s) ==> url == s.defaultUrl
  {
    if InSandbox(s) then s.sandboxUrl else s.defaultUrl
  }

  datatype Credential = ApiKey | SecretKey

  /** The environment variable consulted for credential `c`. */
  function EnvName(c: Credential, sandbox: bool): string
  {
    match c
    case ApiKey => if sandbox then "MONITIS_SANDBOX_APIKEY" else "MONITIS_APIKEY"
    case SecretKey => if sandbox then "MONITIS_SANDBOX_SECRETKEY" else "MONITIS_SECRETKEY"
  }

  function MissingMessage(c: Credential): string
  {
    match c
    case ApiKey => "The Monitis API key is required"
    case SecretKey => "The Monitis secret key is required"
  }

  function ClassValue(s: Settings, c: Credential): Value
  {
    match c
    case ApiKey => s.apikey
    case SecretKey => s.secretkey
  }

  /** `resolve_apikey` / `resolve_secretkey` (monitis/api.py:120-155); the
      environment is the map `env`, as `environ_key` reads it (lines 158-166). */
  function Resolve(s: Settings, env: map<string, string>, c: Credential): (r: Result<Value>)
    ensures r.Ok? ==> r.value != Null
    ensures r.Err? <==> ClassValue(s, c) == Null && EnvName(c, InSandbox(s)) !in env
    ensures r.Err? ==> r.error == MonitisError(MissingMessage(c))
    ensures ClassValue(s, c) != Null ==> r == Ok(ClassValue(s, c))
    ensures ClassValue(s, c) == Null && r.Ok? ==> r.value == Str(env[EnvName(c, InSandbox(s))])
  {
    var fromClass := ClassValue(s, c);
    if fromClass != Null then Ok(fromClass)
    else
      var name := EnvName(c, InSandbox(s));
      if name in env then Ok(Str(env[name])) else Err(MonitisError(MissingMessage(c)))
  }

  /** `Monitis.resolve_apikey` / `Monitis.resolve_secretkey`
      (monitis/api.py:321-367): the instance attribute `instance` first, then
      the free resolution. The instance methods' own final `raise` cannot be
      reached, because the free resolution never yields `None`. */
  function ResolveFrom(instance: Value, s: Settings, env: map<string, string>, c: Credential): (r: Result<Value>)
    ensures r.Ok? ==> r.value != Null
    ensures instance != Null ==> r == Ok(instance)
    ensures r.Err? <==> instance == Null && ClassValue(s, c) == Null && EnvName(c, InSandbox(s)) !in env
    ensures r.Err? ==> r.error == MonitisError(MissingMessage(c))
  {
    if instance != Null then Ok(instance)
    else
      match Resolve(s, env, c)
      case Err(e) => Err(e)
      case Ok(v) => if v != Null then Ok(v) else Err(MonitisError(MissingMessage(c)))
  }

  /** The full order: instance value, class value, then the one environment
      variable the sandbox flag selects. */
  lemma ResolutionOrder(instance: Value, s: Settings, env: map<string, string>, c: Credential)
    ensures var r := ResolveFrom(instance, s, env, c);
      && (instance != Null ==> r == Ok(instance))
      && (instance == Null && ClassValue(s, c) != Null ==> r == Ok(ClassValue(s, c)))
      && (instance == Null && ClassValue(s, c) == Null && EnvName(c, InSandbox(s)) in env ==>
            r == Ok(Str(env[EnvName(c, InSandbox(s))])))
  {
  }

  /** Only the one environment variable matters: two environments that agree
      on it resolve alike. */
  lemma OnlySelectedVariable(s: Settings, env1: map<string, string>, env2: map<string, string>, c: Credential)
    requires var name := EnvName(c, InSandbox(s));
      (name in env1 <==> name in env2) && (name in env1 ==> env1[name] == env2[name])
    ensures Resolve(s, env1, c) == Resolve(s, env2, c)
  {
  }

}
