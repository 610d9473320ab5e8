/** The requests the SDK builds: `get` and `post` as free functions, and the
    `Monitis` object with its own `post` and `checksum`. A request is described
    by its endpoint, its parameters and how the reply is returned; sending it
    is not part of this model. */
module Api {
  import opened Types
  import opened Credentials
  import opened Signing

  /** What the caller gets back: the JSON-decoded body, the raw response
      object (`_raw`), or the body text (`Monitis.post`). */
  datatype Reply = Decoded | RawResponse | RawText

  datatype Request =
    | GetRequest(url: Value, query: seq<(string, Value)>, extra: Kwargs, reply: Reply)
    | PostRequest(url: Value, form: Kwargs, reply: Reply)

  /** `_url or _api_url()`. */
  function Endpoint(url: Value, s: Settings): (u: Value)
    ensures Truthy(url) ==> u == url
    ensures !Truthy(url) ==> u == Str(ApiUrl(s))
  {
    if Truthy(url) then url else Str(ApiUrl(s))
  }

  /** `x or resolve()`: a truthy argument is kept, otherwise the credential is resolved. */
  function OrResolve(given: Value, s: Settings, env: map<string, string>, c: Credential): (r: Result<Value>)
    ensures Truthy(given) ==> r == Ok(given)
    ensures !Truthy(given) ==> r == Resolve(s, env, c)
  {
    if Truthy(given) then Ok(given) else Resolve(s, env, c)
  }

  /** How `_raw` (default `False`) selects the reply. */
  function ReplyFor(raw: Value): Reply
  {
    if Truthy(raw) then RawResponse else Decoded
  }

  /** What `get` passes on from `**kwargs`: everything but its named
      parameters and `_raw`. */
  function GetExtra(args: Kwargs): (extra: Kwargs)
    ensures forall k | k in extra :: k in args && extra[k] == args[k]
    ensures forall k | k in args :: k in extra <==> k !in {"apikey", "action", "version", "_url", "_raw"}
  {
    args - {"apikey", "action", "version", "_url", "_raw"}
  }

  /** `get(apikey=None, action=None, version='2', _url=None, **kwargs)`
      (monitis/api.py:214-238), all keyword arguments given as the map `args`:
      the API key is resolved (raising if it cannot be), then a falsy key or
      action is rejected, then the query is the four fixed pairs followed by
      the remaining keyword arguments. */
  function ApiGet(s: Settings, env: map<string, string>, args: Kwargs): (r: Result<Request>)
    ensures !Truthy(Get(args, "apikey")) && Resolve(s, env, ApiKey).Err? ==> r == Err(Resolve(s, env, ApiKey).error)
    ensures OrResolve(Get(args, "apikey"), s, env, ApiKey).Ok? ==>
      var apikey := OrResolve(Get(args, "apikey"), s, env, ApiKey).value;
      && (!Truthy(apikey) ==> r == Err(MonitisError("get: apikey is required")))
      && (Truthy(apikey) && !Truthy(Get(args, "action")) ==> r == Err(MonitisError("get: action is required")))
      && (Truthy(apikey) && Truthy(Get(args, "action")) ==>
            (r.Ok? && r.value.GetRequest? &&
             r.value.query == [("apikey", apikey), ("action", args["action"]), ("output", Str("JSON")),
                               ("version", if "version" in args then args["version"] else Str("2"))]))
    ensures r.Ok? ==> r.value.GetRequest? && r.value.url == Endpoint(Get(args, "_url"), s)
    ensures r.Ok? ==> r.value.extra == GetExtra(args) && r.value.reply == ReplyFor(Get(args, "_raw"))
  {
    var url := Endpoint(Get(args, "_url"), s);
    var raw := Get(args, "_raw");
    var action := Get(args, "action");
    var version := if "version" in args then args["version"] else Str("2");
    match OrResolve(Get(args, "apikey"), s, env, ApiKey)
    case Err(e) => Err(e)
    case Ok(apikey) =>
      if !Truthy(apikey) then Err(MonitisError("get: apikey is required"))
      else if !Truthy(action) then Err(MonitisError("get: action is required"))
      else
        var query := [("apikey", apikey), ("action", action), ("output", Str("JSON")), ("version", version)];
        Ok(GetRequest(url, query, GetExtra(args), ReplyFor(raw)))
  }

  /** The form `post` signs (lines 276-280): the keyword arguments other than
      its named parameters and `_raw`, stamped with the key, action, version
      and time. */
  function PostArgs(args: Kwargs, apikey: Value, action: Value, version: Value, timestamp: string): (p: Kwargs)
    ensures "apikey" in p && p["apikey"] == apikey && "action" in p && p["action"] == action
    ensures "version" in p && p["version"] == version && "timestamp" in p && p["timestamp"] == Str(timestamp)
    ensures "secretkey" !in p && "_raw" !in p && "_url" !in p
    ensures forall k | k !in {"apikey", "action", "version", "timestamp"} ::
      (k in p <==> k in args && k !in {"secretkey", "_url", "_raw"}) && (k in p ==> p[k] == args[k])
  {
    (args - {"apikey", "secretkey", "action", "version", "_url", "_raw"})
      ["apikey" := apikey]["action" := action]["version" := version]["timestamp" := Str(timestamp)]
  }

  /** The form carries a `checksum` that signs everything else in it. */
  predicate SignedForm(form: Kwargs, sign: (string, string) -> string, key: string)
  {
    "checksum" in form && form["checksum"] == Str(sign(key, SigningString(form - {"checksum"} - {"secretkey"})))
  }

  /** Line 286: the form with the signature of `p` added under `checksum`. */
  function WithChecksum(p: Kwargs, sign: (string, string) -> string, key: string): (form: Kwargs)
    requires "secretkey" !in p
    ensures "checksum" !in p ==> form - {"checksum"} == p && SignedForm(form, sign, key)
  {
    var form := p["checksum" := Str(sign(key, SigningString(p)))];
    Unstamped(p, "checksum", Str(sign(key, SigningString(p))));
    Absent(p, "secretkey");
    form
  }

  /** Adding a new key and removing it again gives back the original map. */
  lemma Unstamped(p: Kwargs, k: string, v: Value)
    ensures k !in p ==> p[k := v] - {k} == p
  {
    if k !in p {
      assert p[k := v] - {k} == p;
    }
  }

  /** Removing a key that is not there changes nothing. */
  lemma Absent(p: Kwargs, k: string)
    ensures k !in p ==> p - {k} == p
  {
    if k !in p {
      assert p - {k} == p;
    }
  }

  /** A secret passed as `secretkey` is the one used, and it is not signed,
      but the free `checksum` as written still raises when the fallback it
      evaluates first cannot be resolved, and `hmac` raises when the secret is
      not a string. */
  lemma ExplicitSecret(sign: (string, string) -> string, s: Settings, env: map<string, string>, p: Kwargs, key: Value)
    requires "secretkey" !in p
    ensures ChecksumAsWritten(sign, s, env, p["secretkey" := key]) ==
      if Resolve(s, env, SecretKey).Err? then Err(MonitisError("The Monitis secret key is required"))
      else Hmac(sign, key, SigningString(p))
  {
    assert p["secretkey" := key] - {"secretkey"} == p;
  }

  /** `post` once both keys are known (monitis/api.py:268-286): a falsy action
      is rejected, then the form is signed by the free `checksum` as written,
      with the secret passed as `secretkey`, and only then is the `checksum`
      added. The current time `timestamp()` is the input `timestamp`. */
  function SignedPost(s: Settings, env: map<string, string>, timestamp: string, sign: (string, string) -> string,
                      args: Kwargs, apikey: Value, secretkey: Value): (r: Result<Request>)
    ensures r.Err? <==> !Truthy(Get(args, "action")) || Resolve(s, env, SecretKey).Err? || !secretkey.Str?
    ensures !Truthy(Get(args, "action")) ==> r == Err(MonitisError("post: action is required"))
    ensures Truthy(Get(args, "action")) && Resolve(s, env, SecretKey).Err? ==>
      r == Err(MonitisError("The Monitis secret key is required"))
    ensures Truthy(Get(args, "action")) && Resolve(s, env, SecretKey).Ok? && !secretkey.Str? ==> r == Err(LenError(secretkey))
    ensures r.Ok? ==> r.value.PostRequest? && r.value.url == Endpoint(Get(args, "_url"), s) && r.value.reply == ReplyFor(Get(args, "_raw"))
    ensures r.Ok? ==>
      r.value.form == WithChecksum(PostArgs(args, apikey, Get(args, "action"), if "version" in args then args["version"] else Int(2), timestamp),
                                   sign, secretkey.s)
  {
    var url := Endpoint(Get(args, "_url"), s);
    var raw := Get(args, "_raw");
    var action := Get(args, "action");
    if !Truthy(action) then Err(MonitisError("post: action is required"))
    else
      var version := if "version" in args then args["version"] else Int(2);
      var postArgs := PostArgs(args, apikey, action, version, timestamp);
      match CheckedForm(sign, s, env, postArgs, secretkey)
      case Err(e) => Err(e)
      case Ok(form) => Ok(PostRequest(url, form, ReplyFor(raw)))
  }

  /** Lines 283-286: `checksum(secretkey=secretkey, **post_args)`, whose
      result goes under `checksum`. Although the secret is passed, the call
      raises whenever the class and the environment hold no secret, because
      line 205 evaluates `resolve_secretkey()` first; after that `hmac`
      raises for a secret that is not a string. */
  function CheckedForm(sign: (string, string) -> string, s: Settings, env: map<string, string>, postArgs: Kwargs,
                       secretkey: Value): (r: Result<Kwargs>)
    requires "secretkey" !in postArgs
    ensures Resolve(s, env, SecretKey).Err? ==> r == Err(MonitisError("The Monitis secret key is required"))
    ensures Resolve(s, env, SecretKey).Ok? && !secretkey.Str? ==> r == Err(LenError(secretkey))
    ensures Resolve(s, env, SecretKey).Ok? && secretkey.Str? ==> r == Ok(WithChecksum(postArgs, sign, secretkey.s))
  {
    ExplicitSecret(sign, s, env, postArgs, secretkey);
    match ChecksumAsWritten(sign, s, env, postArgs["secretkey" := secretkey])
    case Err(e) => Err(e)
    case Ok(checksum) => Ok(postArgs["checksum" := Str(checksum)])
  }

  /** `post(apikey=None, secretkey=None, action=None, version=2, _url=None, **kwargs)`
      (monitis/api.py:258-287), all keyword arguments given as the map `args`:
      the API key and then the secret key are resolved, raising if they cannot
      be, before anything else is checked. */
  function ApiPost(s: Settings, env: map<string, string>, timestamp: string, sign: (string, string) -> string,
                   args: Kwargs): (r: Result<Request>)
    ensures OrResolve(Get(args, "apikey"), s, env, ApiKey).Err? ==> r == Err(OrResolve(Get(args, "apikey"), s, env, ApiKey).error)
    ensures OrResolve(Get(args, "apikey"), s, env, ApiKey).Ok? && OrResolve(Get(args, "secretkey"), s, env, SecretKey).Err? ==>
      r == Err(OrResolve(Get(args, "secretkey"), s, env, SecretKey).error)
    ensures OrResolve(Get(args, "apikey"), s, env, ApiKey).Ok? && OrResolve(Get(args, "secretkey"), s, env, SecretKey).Ok? ==>
      r == SignedPost(s, env, timestamp, sign, args, OrResolve(Get(args, "apikey"), s, env, ApiKey).value,
                      OrResolve(Get(args, "secretkey"), s, env, SecretKey).value)
  {
    match OrResolve(Get(args, "apikey"), s, env, ApiKey)
    case Err(e) => Err(e)
    case Ok(apikey) =>
      match OrResolve(Get(args, "secretkey"), s, env, SecretKey)
      case Err(e) => Err(e)
      case Ok(secretkey) => SignedPost(s, env, timestamp, sign, args, apikey, secretkey)
  }

  /** With both keys passed explicitly, `post` succeeds exactly when the
      action is truthy, a secret can also be found in the class or the
      environment (the explicit secret does not spare the eager fallback), and
      the secret passed is a string. */
  lemma PostWithExplicitKeys(s: Settings, env: map<string, string>, timestamp: string,
                             sign: (string, string) -> string, args: Kwargs)
    requires Truthy(Get(args, "apikey")) && Truthy(Get(args, "secretkey"))
    ensures ApiPost(s, env, timestamp, sign, args).Ok? <==>
      Truthy(Get(args, "action")) && Resolve(s, env, SecretKey).Ok? && Get(args, "secretkey").Str?
  {
  }

  /** `post(apikey='k', secretkey='s', action='a')` with the class defaults
      and an empty environment raises the missing-secret error. */
  lemma PostEagerDefaultFails(timestamp: string, sign: (string, string) -> string)
    ensures ApiPost(Defaults(), map[], timestamp, sign, map["apikey" := Str("k"), "secretkey" := Str("s"), "action" := Str("a")])
      == Err(MonitisError("The Monitis secret key is required"))
  {
    var args := map["apikey" := Str("k"), "secretkey" := Str("s"), "action" := Str("a")];
    assert Get(args, "apikey") == Str("k") && Get(args, "secretkey") == Str("s") && Get(args, "action") == Str("a");
    assert Resolve(Defaults(), map[], SecretKey).Err?;
  }

  /** `checktime(dt)` (monitis/api.py:178-193), given the whole seconds
      `int(time())` or `int(mktime(dt.timetuple()))` as `seconds`. */
  function CheckTime(seconds: int): (t: string)
    ensures |t| >= 4 && t[|t| - 3..] == "000"
  {
    IntToString(seconds) + "000"
  }

  /** The string denotes the number of milliseconds: `seconds * 1000`. */
  lemma CheckTimeMilliseconds(seconds: int)
    ensures |CheckTime(seconds)| > 0
    ensures forall i | 0 < i < |CheckTime(seconds)| :: IsDigit(CheckTime(seconds)[i])
    ensures CheckTime(seconds)[0] == '-' || IsDigit(CheckTime(seconds)[0])
    ensures ParseInt(CheckTime(seconds)) == seconds * 1000
  {
    var n := if seconds < 0 then -seconds else seconds;
    var digits := NatToString(n);
    AppendThreeZeros(digits);
    ParseNatToString(n);
    if seconds < 0 {
      assert CheckTime(seconds) == "-" + (digits + "000");
      assert CheckTime(seconds)[1..] == digits + "000";
    } else {
      assert CheckTime(seconds) == digits + "000";
    }
  }

  /** The SDK object (monitis/api.py:305-432). */
  class Monitis {
    var authToken: Value
    var url: Value
    var apikey: Value
    var secretkey: Value
    var validation: Value
    var version: Value

    constructor Create(url: Value, apikey: Value, secretkey: Value, validation: Value, version: Value)
      ensures this.authToken == Null && this.url == url && this.apikey == apikey && this.secretkey == secretkey
      ensures this.validation == validation && this.version == version
    {
      this.authToken := Null;
      this.url := url;
      this.apikey := apikey;
      this.secretkey := secretkey;
      this.validation := validation;
      this.version := version;
    }

    /** `Monitis(apikey, secretkey, _url, version, validation)`
        (monitis/api.py:369-377). While `__init__` runs, `self.apikey` and
        `self.secretkey` still read the class attributes, so the instance
        resolution starts from the class value. */
    static method New(s: Settings, env: map<string, string>, apikey: Value, secretkey: Value, url: Value,
                      version: Value, validation: Value) returns (r: Result<Monitis>)
      ensures !Truthy(apikey) && Resolve(s, env, ApiKey).Err? ==> r == Err(MonitisError("The Monitis API key is required"))
      ensures (Truthy(apikey) || Resolve(s, env, ApiKey).Ok?) && !Truthy(secretkey) && Resolve(s, env, SecretKey).Err? ==>
        r == Err(MonitisError("The Monitis secret key is required"))
      ensures r.Err? <==> (!Truthy(apikey) && Resolve(s, env, ApiKey).Err?) || (!Truthy(secretkey) && Resolve(s, env, SecretKey).Err?)
      ensures r.Ok? ==> fresh(r.value) && r.value.authToken == Null && r.value.url == Endpoint(url, s)
      ensures r.Ok? ==> r.value.apikey == OrResolve(apikey, s, env, ApiKey).value && r.value.apikey != Null
      ensures r.Ok? ==> r.value.secretkey == OrResolve(secretkey, s, env, SecretKey).value && r.value.secretkey != Null
      ensures r.Ok? ==> r.value.validation == (if Truthy(validation) then validation else Str("HMACSHA1"))
      ensures r.Ok? ==> r.value.version == (if Truthy(version) then version else Str("2"))
    {
      var u := Endpoint(url, s);
      var key := GivenOrResolved(apikey, s, env, ApiKey);
      if key.Err? {
        return Err(key.error);
      }
      var secret := GivenOrResolved(secretkey, s, env, SecretKey);
      if secret.Err? {
        return Err(secret.error);
      }
      var m := new Monitis.Create(u, key.value, secret.value,
                                  if Truthy(validation) then validation else Str("HMACSHA1"),
                                  if Truthy(version) then version else Str("2"));
      r := Ok(m);
    }

    /** `apikey or self.resolve_apikey()` (and the same for the secret) while
        the constructor runs: the instance attribute is not set yet, so the
        instance resolution starts from the class value and ends where the free
        resolution does. */
    static method GivenOrResolved(given: Value, s: Settings, env: map<string, string>, c: Credential)
        returns (r: Result<Value>)
      ensures r == OrResolve(given, s, env, c)
      ensures r.Ok? ==> r.value != Null
    {
      if Truthy(given) {
        return Ok(given);
      }
      r := ResolveFrom(ClassValue(s, c), s, env, c);
    }

    /** `Monitis.checksum(**kwargs)` (monitis/api.py:406-432): take the secret,
        list the remaining names, sort them in place, and append each name and
        value in turn. */
    method Checksum(sign: (string, string) -> string, s: Settings, env: map<string, string>, kwargs: Kwargs)
        returns (r: Result<string>)
      ensures r == Signature(sign, Secret(secretkey, s, env, kwargs), kwargs)
    {
      var secret, params := TakeSecret(s, env, kwargs);
      if secret.Err? {
        return Err(secret.error);
      }
      var paramString := ParamString(params);
      r := Hmac(sign, secret.value, paramString);
    }

    /** Lines 418-424: read `kwargs['secretkey']` and delete it; on `KeyError`,
        fall back on the object's key when truthy and then on the free
        resolution. */
    method TakeSecret(s: Settings, env: map<string, string>, kwargs: Kwargs) returns (secret: Result<Value>, params: Kwargs)
      ensures secret == Secret(secretkey, s, env, kwargs)
      ensures params == kwargs - {"secretkey"}
    {
      params := kwargs - {"secretkey"};
      if "secretkey" in kwargs {
        secret := Ok(kwargs["secretkey"]);
      } else if Truthy(secretkey) {
        secret := Ok(secretkey);
      } else {
        secret := Resolve(s, env, SecretKey);
      }
    }

    /** `Monitis.post(**kwargs)` (monitis/api.py:379-392): stamp the key,
        version and time (but no action and no `output`), sign with the
        object's `checksum` (which raises when no secret is found or the
        secret is not a string), then add the signature. The reply is the body
        text. */
    method Post(sign: (string, string) -> string, s: Settings, env: map<string, string>, timestamp: string, kwargs: Kwargs)
        returns (r: Result<Request>)
      ensures var p := kwargs["apikey" := apikey]["version" := version]["timestamp" := Str(timestamp)];
        && (r.Ok? <==> Secret(secretkey, s, env, p).Ok? && Secret(secretkey, s, env, p).value.Str?)
        && (Secret(secretkey, s, env, p).Err? ==> r == Err(Secret(secretkey, s, env, p).error))
        && (Secret(secretkey, s, env, p).Ok? && !Secret(secretkey, s, env, p).value.Str? ==>
              r == Err(LenError(Secret(secretkey, s, env, p).value)))
      ensures r.Ok? ==> r.value.PostRequest? && r.value.url == url && r.value.reply == RawText
      ensures r.Ok? ==>
        var form := r.value.form;
        && "apikey" in form && form["apikey"] == apikey && "version" in form && form["version"] == version
        && "timestamp" in form && form["timestamp"] == Str(timestamp)
        && (forall k | k !in {"apikey", "version", "timestamp", "checksum"} :: (k in form <==> k in kwargs) && (k in form ==> form[k] == kwargs[k]))
        && ("action" in form <==> "action" in kwargs) && ("output" in form <==> "output" in kwargs)
      ensures r.Ok? && "checksum" !in kwargs ==>
        SignedForm(r.value.form, sign, Secret(secretkey, s, env, kwargs["apikey" := apikey]["version" := version]["timestamp" := Str(timestamp)]).value.s)
    {
      var postArgs := kwargs["apikey" := apikey]["version" := version]["timestamp" := Str(timestamp)];
      var signature := Checksum(sign, s, env, postArgs);
      if signature.Err? {
        return Err(signature.error);
      }
      Unstamped(postArgs, "checksum", Str(signature.value));
      StampedForm(kwargs, apikey, version, timestamp, Str(signature.value));
      postArgs := postArgs["checksum" := Str(signature.value)];
      r := Ok(PostRequest(url, postArgs, RawText));
    }
  }

  /** The form `Monitis.post` sends: the caller's arguments with the key,
      version, time and signature stamped over them. */
  lemma StampedForm(kwargs: Kwargs, apikey: Value, version: Value, timestamp: string, checksum: Value)
    ensures var form := kwargs["apikey" := apikey]["version" := version]["timestamp" := Str(timestamp)]["checksum" := checksum];
      && "apikey" in form && form["apikey"] == apikey && "version" in form && form["version"] == version
      && "timestamp" in form && form["timestamp"] == Str(timestamp)
      && (forall k | k !in {"apikey", "version", "timestamp", "checksum"} :: (k in form <==> k in kwargs) && (k in form ==> form[k] == kwargs[k]))
      && ("action" in form <==> "action" in kwargs) && ("output" in form <==> "output" in kwargs)
  {
  }

  /** Lines 421-431: list the names, sort them in place, and append each name
      and value in turn: the string the signature covers. */
  method ParamString(params: Kwargs) returns (paramString: string)
    ensures paramString == SigningString(params)
  {
    var args := Items(params);
    ghost var listed := args[..];
    Sort(args);
    SortedListing(listed, args[..], params);
    paramString := Concatenate(params, args);
  }

  /** Lines 428-431: `param_string += str(key)`, then `+= str(value)`, for
      each name of `args` in order. */
  method Concatenate(params: Kwargs, args: array<string>) returns (paramString: string)
    requires forall k | k in args[..] :: k in params
    ensures paramString == Joined(params, args[..])
  {
    paramString := "";
    for i := 0 to args.Length
      invariant paramString == Joined(params, args[..i])
    {
      assert args[..i + 1][..i] == args[..i];
      paramString := paramString + args[i] + Show(params[args[i]]);
    }
    assert args[..args.Length] == args[..];
  }

  /** `kwargs.items()`: the names of `params`, each once, in an unspecified order. */
  method Items(params: Kwargs) returns (a: array<string>)
    ensures fresh(a)
    ensures Distinct(a[..])
    ensures forall k :: k in a[..] <==> k in params
  {
    a := new string[|params.Keys|](_ => "");
    var rest := params.Keys;
    var n := 0;
    while rest != {}
      invariant 0 <= n <= a.Length && |rest| == a.Length - n
      invariant rest <= params.Keys
      invariant forall k :: k in a[..n] <==> k in params && k !in rest
      invariant Distinct(a[..n])
      decreases rest
    {
      var k :| k in rest;
      a[n] := k;
      assert a[..n + 1] == a[..n] + [k];
      n := n + 1;
      rest := rest - {k};
    }
    assert a[..n] == a[..];
  }

  /** A sorted rearrangement of a listing of the names is the sorted key sequence. */
  lemma SortedListing(listed: seq<string>, sorted: seq<string>, params: Kwargs)
    requires Distinct(listed) && (forall k :: k in listed <==> k in params)
    requires Sorted(sorted) && multiset(sorted) == multiset(listed)
    ensures forall k | k in sorted :: k in params
    ensures sorted == SortedKeys(params.Keys)
  {
    DistinctCounts(listed);
    forall k ensures multiset(sorted)[k] <= 1 {
    }
    CountsDistinct(sorted);
    SortedDistinctAscending(sorted);
    forall k ensures k in sorted <==> k in SortedKeys(params.Keys) {
      assert k in sorted <==> k in multiset(sorted);
      assert k in listed <==> k in multiset(listed);
    }
    AscendingUnique(sorted, SortedKeys(params.Keys));
  }

  lemma {:induction false} DistinctCounts(s: seq<string>)
    requires Distinct(s)
    ensures forall k :: multiset(s)[k] <= 1
  {
    if s != [] {
      var t := s[..|s| - 1];
      assert s == t + [s[|s| - 1]];
      assert Distinct(t);
      DistinctCounts(t);
      assert s[|s| - 1] !in t;
    }
  }

  /** An element at two positions occurs at least twice. */
  lemma Repeated(s: seq<string>, i: nat, j: nat)
    requires i < j < |s|
    ensures s[i] == s[j] ==> multiset(s)[s[j]] >= 2
  {
    assert s == s[..j] + [s[j]] + s[j + 1..];
    assert s[i] in s[..j];
  }

  lemma CountsDistinct(s: seq<string>)
    requires forall k :: multiset(s)[k] <= 1
    ensures Distinct(s)
  {
    forall i, j | 0 <= i < j < |s| ensures s[i] != s[j] {
      Repeated(s, i, j);
    }
  }
}
