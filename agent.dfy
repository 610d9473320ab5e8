/** The agent operations (monitis/monitors/predefined/internal/agent.py): each
    one normalizes its keyword arguments against fixed lists of API-format
    names and hands them to `get` or `post` with a fixed action. */
module Agent {
  import opened Types
  import opened Naming
  import opened Normalizer
  import opened Credentials
  import opened Signing
  import opened Api

  /** `get(action=action, **req_args)`: an `action` among the normalized
      arguments is bound twice, which Python refuses. */
  function CallGet(s: Settings, env: map<string, string>, action: string, reqArgs: Kwargs): (r: Result<Request>)
    ensures "action" in reqArgs ==> r == Err(TypeError("get() got multiple values for keyword argument 'action'"))
    ensures "action" !in reqArgs ==> r == ApiGet(s, env, reqArgs["action" := Str(action)])
  {
    if "action" in reqArgs then Err(TypeError("get() got multiple values for keyword argument 'action'"))
    else ApiGet(s, env, reqArgs["action" := Str(action)])
  }

  /** The keyword arguments `post` receives from `post(action=action, **req_args)`. */
  function PostCallArgs(reqArgs: Kwargs, action: string, raw: bool): Kwargs
  {
    if raw then reqArgs["action" := Str(action)]["_raw" := Bool(true)] else reqArgs["action" := Str(action)]
  }

  /** `post(action=action, **req_args)`, or `post(action=action, _raw=True,
      **req_args)` when `raw`. CPython 2.7 checks the keywords written in the
      call against `req_args` from the last to the first, so a duplicated
      `_raw` is reported before a duplicated `action`. */
  function CallPost(s: Settings, env: map<string, string>, timestamp: string, sign: (string, string) -> string,
                    action: string, raw: bool, reqArgs: Kwargs): (r: Result<Request>)
    ensures raw && "_raw" in reqArgs ==> r == Err(TypeError("post() got multiple values for keyword argument '_raw'"))
    ensures !(raw && "_raw" in reqArgs) && "action" in reqArgs ==>
      r == Err(TypeError("post() got multiple values for keyword argument 'action'"))
    ensures !(raw && "_raw" in reqArgs) && "action" !in reqArgs ==>
      r == ApiPost(s, env, timestamp, sign, PostCallArgs(reqArgs, action, raw))
  {
    if raw && "_raw" in reqArgs then Err(TypeError("post() got multiple values for keyword argument '_raw'"))
    else if "action" in reqArgs then Err(TypeError("post() got multiple values for keyword argument 'action'"))
    else
      ApiPost(s, env, timestamp, sign, PostCallArgs(reqArgs, action, raw))
  }

  /** The keyword arguments a GET wrapper's call chain binds or consumes
      itself: `validate_kwargs`'s two parameters, and `get`'s named
      parameters and `_raw`. */
  function GetReserved(): set<string>
  {
    {"required", "optional", "apikey", "action", "version", "_url", "_raw"}
  }

  /** For a POST wrapper also `post`'s `secretkey`, and the `checksum` its
      signature overwrites. */
  function PostReserved(): set<string>
  {
    GetReserved() + {"secretkey", "checksum"}
  }

  /** An ordinary call: none of the `reserved` names is passed. */
  predicate Avoids(kw: Kwargs, reserved: set<string>)
  {
    forall k | k in reserved :: k !in kw
  }

  /** The API key resolves to something truthy, as `get` demands (a `post`
      only needs the key to resolve). */
  predicate KeyAvailable(s: Settings, env: map<string, string>)
  {
    Resolve(s, env, ApiKey).Ok? && Truthy(Resolve(s, env, ApiKey).value)
  }

  /** The secret key resolves, to a string: the only key `hmac` accepts. */
  predicate SecretAvailable(s: Settings, env: map<string, string>)
  {
    Resolve(s, env, SecretKey).Ok? && Resolve(s, env, SecretKey).value.Str?
  }

  /** `r` is the GET of `action` under the resolved key: the four fixed
      pairs, then exactly the arguments `extra`, the reply decoded. */
  predicate IssuesGet(r: Result<Request>, s: Settings, env: map<string, string>, action: string, extra: Kwargs)
  {
    && Resolve(s, env, ApiKey).Ok?
    && r.Ok? && r.value.GetRequest? && r.value.reply == Decoded
    && r.value.query == [("apikey", Resolve(s, env, ApiKey).value), ("action", Str(action)),
                         ("output", Str("JSON")), ("version", Str("2"))]
    && r.value.extra == extra
  }

  /** `r` is the POST of `action` under the resolved keys: the arguments
      `reqArgs` stamped with key, action, version `2` and time, signed with
      the secret, the reply raw exactly when `raw`. */
  predicate IssuesPost(r: Result<Request>, s: Settings, env: map<string, string>, timestamp: string,
                       sign: (string, string) -> string, action: string, raw: bool, reqArgs: Kwargs)
  {
    && Resolve(s, env, ApiKey).Ok? && Resolve(s, env, SecretKey).Ok? && Resolve(s, env, SecretKey).value.Str?
    && r.Ok? && r.value.PostRequest? && r.value.reply == (if raw then RawResponse else Decoded)
    && r.value.form - {"checksum"} == PostArgs(reqArgs, Resolve(s, env, ApiKey).value, Str(action), Int(2), timestamp)
    && SignedForm(r.value.form, sign, Resolve(s, env, SecretKey).value.s)
  }

  /** Normalizing an ordinary call against non-reserved names gives an ordinary call. */
  lemma NormalizedPlain(names: set<string>, kw: Kwargs, reserved: set<string>)
    requires Named(names) && Avoids(kw, reserved) && forall w | w in names :: w !in reserved
    ensures Avoids(Normalized(names, kw), reserved)
  {
    forall k | k in reserved ensures k !in Normalized(names, kw) {
      NormalizedKeys(names, kw, k);
    }
  }

  /** An ordinary GET with an available key is issued with exactly the
      normalized arguments after the four fixed pairs. */
  lemma PlainGet(s: Settings, env: map<string, string>, action: string, reqArgs: Kwargs)
    requires Avoids(reqArgs, GetReserved()) && KeyAvailable(s, env) && action != ""
    ensures IssuesGet(CallGet(s, env, action, reqArgs), s, env, action, reqArgs)
  {
    var args := reqArgs["action" := Str(action)];
    assert GetExtra(args) == reqArgs;
  }

  /** `post` drops its named parameters from the form before stamping it. */
  lemma PostArgsIgnoresNamed(args: Kwargs, k: string, v: Value, apikey: Value, action: Value, version: Value, timestamp: string)
    requires k in {"apikey", "secretkey", "action", "version", "_url", "_raw"}
    ensures PostArgs(args[k := v], apikey, action, version, timestamp) == PostArgs(args, apikey, action, version, timestamp)
  {
    var named := {"apikey", "secretkey", "action", "version", "_url", "_raw"};
    assert args[k := v] - named == args - named;
  }

  /** With both keys available and none passed, `post` goes straight to signing. */
  lemma PlainPostResolves(s: Settings, env: map<string, string>, timestamp: string, sign: (string, string) -> string,
                          action: string, raw: bool, reqArgs: Kwargs)
    requires Avoids(reqArgs, PostReserved()) && Resolve(s, env, ApiKey).Ok? && SecretAvailable(s, env)
    ensures CallPost(s, env, timestamp, sign, action, raw, reqArgs) ==
      SignedPost(s, env, timestamp, sign, PostCallArgs(reqArgs, action, raw),
                 Resolve(s, env, ApiKey).value, Resolve(s, env, SecretKey).value)
  {
    var full := PostCallArgs(reqArgs, action, raw);
    assert "apikey" in PostReserved() && "secretkey" in PostReserved() && "action" in PostReserved() && "_raw" in PostReserved();
    assert Get(full, "apikey") == Null && Get(full, "secretkey") == Null;
  }

  /** The form of an ordinary POST: the normalized arguments, stamped, and signed. */
  lemma PlainPostForm(s: Settings, env: map<string, string>, timestamp: string, sign: (string, string) -> string,
                      action: string, raw: bool, reqArgs: Kwargs, apikey: Value, secretkey: Value)
    requires Avoids(reqArgs, PostReserved()) && SecretAvailable(s, env) && secretkey.Str? && action != ""
    ensures var r := SignedPost(s, env, timestamp, sign, PostCallArgs(reqArgs, action, raw), apikey, secretkey);
      && r.Ok? && r.value.PostRequest? && r.value.reply == (if raw then RawResponse else Decoded)
      && r.value.form - {"checksum"} == PostArgs(reqArgs, apikey, Str(action), Int(2), timestamp)
      && SignedForm(r.value.form, sign, secretkey.s)
  {
    PlainCallArgs(reqArgs, action, raw, apikey, timestamp);
  }

  /** What `post` reads from the arguments of an ordinary call. */
  lemma PlainCallArgs(reqArgs: Kwargs, action: string, raw: bool, apikey: Value, timestamp: string)
    requires Avoids(reqArgs, PostReserved())
    ensures var full := PostCallArgs(reqArgs, action, raw);
      && "version" !in full && Get(full, "action") == Str(action) && Get(full, "_raw") == (if raw then Bool(true) else Null)
      && PostArgs(full, apikey, Str(action), Int(2), timestamp) == PostArgs(reqArgs, apikey, Str(action), Int(2), timestamp)
      && "checksum" !in PostArgs(reqArgs, apikey, Str(action), Int(2), timestamp)
  {
    var args := reqArgs["action" := Str(action)];
    assert "version" in PostReserved() && "_raw" in PostReserved() && "checksum" in PostReserved();
    PostArgsIgnoresNamed(args, "_raw", Bool(true), apikey, Str(action), Int(2), timestamp);
    PostArgsIgnoresNamed(reqArgs, "action", Str(action), apikey, Str(action), Int(2), timestamp);
  }

  /** An ordinary POST with both keys available is issued, signed, with the
      normalized arguments stamped with the key, action, version and time. */
  lemma PlainPost(s: Settings, env: map<string, string>, timestamp: string, sign: (string, string) -> string,
                  action: string, raw: bool, reqArgs: Kwargs)
    requires Avoids(reqArgs, PostReserved()) && Resolve(s, env, ApiKey).Ok? && SecretAvailable(s, env) && action != ""
    ensures IssuesPost(CallPost(s, env, timestamp, sign, action, raw, reqArgs), s, env, timestamp, sign, action, raw, reqArgs)
  {
    PlainPostResolves(s, env, timestamp, sign, action, raw, reqArgs);
    PlainPostForm(s, env, timestamp, sign, action, raw, reqArgs, Resolve(s, env, ApiKey).value, Resolve(s, env, SecretKey).value);
  }

  lemma AgentIdName()
    ensures CamelToUnder("agentId") == "agent_id"
  {
    var w := "agentId";
    assert Spaced(w, 1) == "a";
    assert Spaced(w, 2) == "ag";
    assert Spaced(w, 3) == "age";
    assert Spaced(w, 4) == "agen";
    assert Spaced(w, 5) == "agent_";
    assert Spaced(w, 6) == "agent_I";
    assert Spaced(w, 7) == "agent_Id";
  }

  /** The lower-case names convert to themselves. */
  lemma PlatformName()
    ensures CamelToUnder("platform") == "platform"
  {
    LowercaseUnchanged("platform");
  }

  lemma TimezoneName()
    ensures CamelToUnder("timezone") == "timezone"
  {
    LowercaseUnchanged("timezone");
  }

  lemma TagName()
    ensures CamelToUnder("tag") == "tag"
  {
    LowercaseUnchanged("tag");
  }

  lemma KeyRegExpName()
    ensures CamelToUnder("keyRegExp") == "key_reg_exp"
  {
    var w := "keyRegExp";
    assert Spaced(w, 1) == "k";
    assert Spaced(w, 2) == "ke";
    assert Spaced(w, 3) == "key_";
    assert Spaced(w, 4) == "key_R";
    assert Spaced(w, 5) == "key_Re";
    assert Spaced(w, 6) == "key_Reg_";
    assert Spaced(w, 7) == "key_Reg_E";
    assert Spaced(w, 8) == "key_Reg_Ex";
    assert Spaced(w, 9) == "key_Reg_Exp";
  }

  lemma LoadTestsName()
    ensures CamelToUnder("loadTests") == "load_tests"
  {
    var w := "loadTests";
    assert Spaced(w, 1) == "l";
    assert Spaced(w, 2) == "lo";
    assert Spaced(w, 3) == "loa";
    assert Spaced(w, 4) == "load_";
    assert Spaced(w, 5) == "load_T";
    assert Spaced(w, 6) == "load_Te";
    assert Spaced(w, 7) == "load_Tes";
    assert Spaced(w, 8) == "load_Test";
    assert Spaced(w, 9) == "load_Tests";
  }

  lemma AgentKeyName()
    ensures CamelToUnder("agentKey") == "agent_key"
  {
    var w := "agentKey";
    assert Spaced(w, 1) == "a";
    assert Spaced(w, 2) == "ag";
    assert Spaced(w, 3) == "age";
    assert Spaced(w, 4) == "agen";
    assert Spaced(w, 5) == "agent_";
    assert Spaced(w, 6) == "agent_K";
    assert Spaced(w, 7) == "agent_Ke";
    assert Spaced(w, 8) == "agent_Key";
  }

  lemma AgentIdsName()
    ensures CamelToUnder("agentIds") == "agent_ids"
  {
    var w := "agentIds";
    assert Spaced(w, 1) == "a";
    assert Spaced(w, 2) == "ag";
    assert Spaced(w, 3) == "age";
    assert Spaced(w, 4) == "agen";
    assert Spaced(w, 5) == "agent_";
    assert Spaced(w, 6) == "agent_I";
    assert Spaced(w, 7) == "agent_Id";
    assert Spaced(w, 8) == "agent_Ids";
  }

  /** The names each operation declares, as the set the normalizer works on. */
  function AgentsParams(): (names: set<string>)
    ensures Named(names)
  {
    {"keyRegExp"}
  }

  function AgentInfoParams(): (names: set<string>)
    ensures Named(names)
  {
    {"agentId", "loadTests"}
  }

  function AllAgentsSnapshotParams(): (names: set<string>)
    ensures Named(names)
  {
    {"platform", "timezone", "tag"}
  }

  function AgentSnapshotParams(): (names: set<string>)
    ensures Named(names)
  {
    {"agentKey", "timezone"}
  }

  function DeleteAgentsParams(): (names: set<string>)
    ensures Named(names)
  {
    {"agentIds", "keyRegExp"}
  }

  function DownloadAgentParams(): (names: set<string>)
    ensures Named(names)
  {
    {"platform"}
  }

  /** The names each operation declares, none of which `get` or `post`
      binds or consumes itself. */
  lemma AgentsDeclared()
    ensures Declared([], ["keyRegExp"]) == AgentsParams()
    ensures forall w | w in AgentsParams() :: w !in PostReserved()
    ensures forall w | w in AgentsParams() :: w !in GetReserved()
  {
    assert Declared([], ["keyRegExp"]) == {"keyRegExp"};
  }

  lemma AgentInfoDeclared()
    ensures Declared(["agentId"], ["loadTests"]) == AgentInfoParams()
    ensures forall w | w in AgentInfoParams() :: w !in PostReserved()
    ensures forall w | w in AgentInfoParams() :: w !in GetReserved()
  {
    assert Declared(["agentId"], ["loadTests"]) == {"agentId", "loadTests"};
  }

  lemma AllAgentsSnapshotDeclared()
    ensures Declared(["platform"], ["timezone", "tag"]) == AllAgentsSnapshotParams()
    ensures forall w | w in AllAgentsSnapshotParams() :: w !in PostReserved()
    ensures forall w | w in AllAgentsSnapshotParams() :: w !in GetReserved()
  {
    assert Declared(["platform"], ["timezone", "tag"]) == {"platform", "timezone", "tag"};
  }

  lemma AgentSnapshotDeclared()
    ensures Declared(["agentKey"], ["timezone"]) == AgentSnapshotParams()
    ensures forall w | w in AgentSnapshotParams() :: w !in PostReserved()
    ensures forall w | w in AgentSnapshotParams() :: w !in GetReserved()
  {
    assert Declared(["agentKey"], ["timezone"]) == {"agentKey", "timezone"};
  }

  lemma DeleteAgentsDeclared()
    ensures Declared([], ["agentIds", "keyRegExp"]) == DeleteAgentsParams()
    ensures forall w | w in DeleteAgentsParams() :: w !in PostReserved()
  {
    assert Declared([], ["agentIds", "keyRegExp"]) == {"agentIds", "keyRegExp"};
  }

  lemma DownloadAgentDeclared()
    ensures Declared(["platform"], []) == DownloadAgentParams()
    ensures forall w | w in DownloadAgentParams() :: w !in PostReserved()
  {
    assert Declared(["platform"], []) == {"platform"};
  }

  /** The names each operation declares convert without collisions, so the
      normalizer's result does not depend on dictionary order for any of them
      (`WellFormed`). */
  lemma AgentsNames()
    ensures Declared([], ["keyRegExp"]) == {"keyRegExp"} && WellFormed([], ["keyRegExp"])
    ensures CamelToUnder("keyRegExp") == "key_reg_exp"
  {
    AgentsDeclared();
    KeyRegExpName();
  }

  lemma AgentInfoNames()
    ensures Declared(["agentId"], ["loadTests"]) == {"agentId", "loadTests"} && WellFormed(["agentId"], ["loadTests"])
    ensures CamelToUnder("agentId") == "agent_id" && CamelToUnder("loadTests") == "load_tests"
  {
    AgentInfoDeclared();
    AgentIdName();
    LoadTestsName();
  }

  lemma AllAgentsSnapshotNames()
    ensures Declared(["platform"], ["timezone", "tag"]) == {"platform", "timezone", "tag"} && WellFormed(["platform"], ["timezone", "tag"])
    ensures CamelToUnder("platform") == "platform"
  {
    AllAgentsSnapshotDeclared();
    PlatformName();
    TimezoneName();
    TagName();
  }

  lemma AgentSnapshotNames()
    ensures Declared(["agentKey"], ["timezone"]) == {"agentKey", "timezone"} && WellFormed(["agentKey"], ["timezone"])
    ensures CamelToUnder("agentKey") == "agent_key"
  {
    AgentSnapshotDeclared();
    AgentKeyName();
    TimezoneName();
  }

  lemma DeleteAgentsNames()
    ensures Declared([], ["agentIds", "keyRegExp"]) == {"agentIds", "keyRegExp"} && WellFormed([], ["agentIds", "keyRegExp"])
    ensures CamelToUnder("agentIds") == "agent_ids" && CamelToUnder("keyRegExp") == "key_reg_exp"
  {
    DeleteAgentsDeclared();
    AgentIdsName();
    KeyRegExpName();
  }

  lemma DownloadAgentNames()
    ensures Declared(["platform"], []) == {"platform"} && WellFormed(["platform"], [])
    ensures CamelToUnder("platform") == "platform"
  {
    DownloadAgentDeclared();
    PlatformName();
  }

  /** The two ways Python refuses `validate_kwargs(required, optional, **kwargs)`. */
  function DoubleBound(): set<Error>
  {
    {TypeError("validate_kwargs() got multiple values for keyword argument 'required'"),
     TypeError("validate_kwargs() got multiple values for keyword argument 'optional'")}
  }

  /** `validate_kwargs(required, optional, **kwargs)` as every wrapper calls it
      (agent.py lines 17, 25, 33, 41, 49 and 62): a caller's own `required` or
      `optional` is bound twice, which Python refuses before the normalizer
      runs. When both are passed, Python names whichever its dictionary yields
      first; the model names `required`. */
  function ValidateCall(required: seq<string>, optional: seq<string>, kwargs: Kwargs): (r: Result<Kwargs>)
    requires Named(Declared(required, optional))
    ensures ("required" in kwargs || "optional" in kwargs) <==> r.Err? && r.error.TypeError?
    ensures r.Err? && r.error.TypeError? ==> r.error in DoubleBound()
    ensures "required" !in kwargs && "optional" !in kwargs ==> r == Validated(required, optional, kwargs)
  {
    if "required" in kwargs then Err(TypeError("validate_kwargs() got multiple values for keyword argument 'required'"))
    else if "optional" in kwargs then Err(TypeError("validate_kwargs() got multiple values for keyword argument 'optional'"))
    else Validated(required, optional, kwargs)
  }

  /** The shape of every GET wrapper: normalize, then `get(action=action, **req_args)`. */
  function GetWrapper(s: Settings, env: map<string, string>, action: string,
                      required: seq<string>, optional: seq<string>, kwargs: Kwargs): Result<Request>
    requires Named(Declared(required, optional))
  {
    match ValidateCall(required, optional, kwargs)
    case Err(e) => Err(e)
    case Ok(reqArgs) => CallGet(s, env, action, reqArgs)
  }

  /** A GET wrapper called ordinarily with every required name given issues
      its action with exactly the normalized arguments. */
  lemma PlainGetWrapper(s: Settings, env: map<string, string>, action: string,
                        required: seq<string>, optional: seq<string>, names: set<string>, kwargs: Kwargs)
    requires Declared(required, optional) == names && Named(names) && Missing(required, kwargs) == {}
    requires Avoids(kwargs, GetReserved()) && KeyAvailable(s, env) && action != ""
    requires forall w | w in names :: w !in GetReserved()
    ensures IssuesGet(GetWrapper(s, env, action, required, optional, kwargs), s, env, action, Normalized(names, kwargs))
  {
    var reqArgs := Normalized(names, kwargs);
    assert "required" in GetReserved() && "optional" in GetReserved();
    assert ValidateCall(required, optional, kwargs) == Ok(reqArgs);
    NormalizedPlain(names, kwargs, GetReserved());
    PlainGet(s, env, action, reqArgs);
  }


  /** `agents(**kwargs)` (monitis/monitors/predefined/internal/agent.py:13-18). */
  function Agents(s: Settings, env: map<string, string>, kwargs: Kwargs): Result<Request>
  {
    GetWrapper(s, env, "agents", [], ["keyRegExp"], kwargs)
  }

  /** `agent_info(**kwargs)` (lines 21-26). */
  function AgentInfo(s: Settings, env: map<string, string>, kwargs: Kwargs): Result<Request>
  {
    GetWrapper(s, env, "agentInfo", ["agentId"], ["loadTests"], kwargs)
  }

  /** `all_agents_snapshot(**kwargs)` (lines 29-34). */
  function AllAgentsSnapshot(s: Settings, env: map<string, string>, kwargs: Kwargs): Result<Request>
  {
    GetWrapper(s, env, "allAgentsSnapshot", ["platform"], ["timezone", "tag"], kwargs)
  }

  /** `agent_snapshot(**kwargs)` (lines 37-42). */
  function AgentSnapshot(s: Settings, env: map<string, string>, kwargs: Kwargs): Result<Request>
  {
    GetWrapper(s, env, "agentSnapshot", ["agentKey"], ["timezone"], kwargs)
  }

  /** `delete_agents(**kwargs)` (lines 45-52): after normalizing, one of the
      two names must be present as a key. */
  function DeleteAgents(s: Settings, env: map<string, string>, timestamp: string, sign: (string, string) -> string,
                        kwargs: Kwargs): Result<Request>
  {
    assert forall w | w in ["agentIds", "keyRegExp"] :: w in [] + ["agentIds", "keyRegExp"];
    match ValidateCall([], ["agentIds", "keyRegExp"], kwargs)
    case Err(e) => Err(e)
    case Ok(reqArgs) =>
      if !("agentIds" in reqArgs || "keyRegExp" in reqArgs) then Err(MonitisError("agent_ids or key_reg_exp is required"))
      else CallPost(s, env, timestamp, sign, "deleteAgents", false, reqArgs)
  }

  /** `download_agent(**kwargs)` (lines 55-63): a raw POST. */
  function DownloadAgent(s: Settings, env: map<string, string>, timestamp: string, sign: (string, string) -> string,
                         kwargs: Kwargs): Result<Request>
  {
    assert forall w | w in ["platform"] :: w in ["platform"] + [];
    match ValidateCall(["platform"], [], kwargs)
    case Err(e) => Err(e)
    case Ok(reqArgs) => CallPost(s, env, timestamp, sign, "downloadAgent", true, reqArgs)
  }

  /** A wrapper with one required name that is given under neither
      spelling fails with that name's SDK spelling. */
  lemma MissingRequired(w: string, optional: seq<string>, kwargs: Kwargs)
    requires Named(Declared([w], optional)) && Lookup(kwargs, w) == Null
    ensures Validated([w], optional, kwargs) == Err(MonitisError(CamelToUnder(w) + " is required"))
    ensures "required" !in kwargs && "optional" !in kwargs ==>
      ValidateCall([w], optional, kwargs) == Err(MonitisError(CamelToUnder(w) + " is required"))
  {
    assert [w][1..] == [];
  }

  /** With its one required name given, a wrapper always normalizes. */
  lemma RequiredGiven(w: string, optional: seq<string>, kwargs: Kwargs)
    requires Named(Declared([w], optional)) && Lookup(kwargs, w) != Null
    ensures Missing([w], kwargs) == {}
  {
  }

  /** Called ordinarily, `agents` issues action `agents` with exactly the
      normalized arguments; it never fails to normalize. */
  lemma AgentsRequest(s: Settings, env: map<string, string>, kwargs: Kwargs)
    requires Avoids(kwargs, GetReserved()) && KeyAvailable(s, env)
    ensures IssuesGet(Agents(s, env, kwargs), s, env, "agents", Normalized(AgentsParams(), kwargs))
  {
    AgentsDeclared();
    PlainGetWrapper(s, env, "agents", [], ["keyRegExp"], AgentsParams(), kwargs);
  }

  /** What `agents` normalizes `keyRegExp` to: present exactly when given under
      either spelling, under its API spelling only. */
  lemma AgentsArgs(kwargs: Kwargs)
    ensures var reqArgs := Normalized(AgentsParams(), kwargs);
      && ("keyRegExp" in reqArgs <==> Lookup(kwargs, "keyRegExp") != Null)
      && ("keyRegExp" in reqArgs ==> reqArgs["keyRegExp"] == Chosen(kwargs, "keyRegExp"))
      && "key_reg_exp" !in reqArgs
  {
    AgentsNames();
    DeclaredOutcome({"keyRegExp"}, kwargs, "keyRegExp");
  }

  /** `agent_info` without the agent under either spelling fails with
      `agent_id is required`. */
  lemma AgentInfoMissing(s: Settings, env: map<string, string>, kwargs: Kwargs)
    requires Lookup(kwargs, "agentId") == Null && "required" !in kwargs && "optional" !in kwargs
    ensures AgentInfo(s, env, kwargs) == Err(MonitisError("agent_id" + " is required"))
  {
    AgentInfoDeclared();
    AgentIdName();
    MissingRequired("agentId", ["loadTests"], kwargs);
  }

  /** Called ordinarily with the agent given, `agent_info` issues action
      `agentInfo` with exactly the normalized arguments. */
  lemma AgentInfoRequest(s: Settings, env: map<string, string>, kwargs: Kwargs)
    requires Lookup(kwargs, "agentId") != Null && Avoids(kwargs, GetReserved()) && KeyAvailable(s, env)
    ensures IssuesGet(AgentInfo(s, env, kwargs), s, env, "agentInfo", Normalized(AgentInfoParams(), kwargs))
  {
    AgentInfoDeclared();
    RequiredGiven("agentId", ["loadTests"], kwargs);
    PlainGetWrapper(s, env, "agentInfo", ["agentId"], ["loadTests"], AgentInfoParams(), kwargs);
  }

  /** What `agent_info` normalizes its names to: `agentId` and `loadTests`
      each present exactly when given, under the API spelling only. */
  lemma AgentInfoArgs(kwargs: Kwargs)
    ensures var reqArgs := Normalized(AgentInfoParams(), kwargs);
      && ("agentId" in reqArgs <==> Lookup(kwargs, "agentId") != Null)
      && ("agentId" in reqArgs ==> reqArgs["agentId"] == Chosen(kwargs, "agentId"))
      && ("loadTests" in reqArgs <==> Lookup(kwargs, "loadTests") != Null)
      && ("loadTests" in reqArgs ==> reqArgs["loadTests"] == Chosen(kwargs, "loadTests"))
      && "agent_id" !in reqArgs && "load_tests" !in reqArgs
  {
    var names := {"agentId", "loadTests"};
    AgentInfoNames();
    DeclaredOutcome(names, kwargs, "agentId");
    DeclaredOutcome(names, kwargs, "loadTests");
  }

  /** `all_agents_snapshot` without `platform` fails with `platform is required`. */
  lemma AllAgentsSnapshotMissing(s: Settings, env: map<string, string>, kwargs: Kwargs)
    requires Lookup(kwargs, "platform") == Null && "required" !in kwargs && "optional" !in kwargs
    ensures AllAgentsSnapshot(s, env, kwargs) == Err(MonitisError("platform" + " is required"))
  {
    AllAgentsSnapshotDeclared();
    PlatformName();
    MissingRequired("platform", ["timezone", "tag"], kwargs);
  }

  /** Called ordinarily with `platform`, `all_agents_snapshot` issues
      `allAgentsSnapshot` with exactly the normalized arguments. */
  lemma AllAgentsSnapshotRequest(s: Settings, env: map<string, string>, kwargs: Kwargs)
    requires Lookup(kwargs, "platform") != Null && Avoids(kwargs, GetReserved()) && KeyAvailable(s, env)
    ensures IssuesGet(AllAgentsSnapshot(s, env, kwargs), s, env, "allAgentsSnapshot", Normalized(AllAgentsSnapshotParams(), kwargs))
  {
    AllAgentsSnapshotDeclared();
    RequiredGiven("platform", ["timezone", "tag"], kwargs);
    PlainGetWrapper(s, env, "allAgentsSnapshot", ["platform"], ["timezone", "tag"], AllAgentsSnapshotParams(), kwargs);
  }

  /** What `all_agents_snapshot` normalizes its three names to, each present
      exactly when given. */
  lemma AllAgentsSnapshotArgs(kwargs: Kwargs)
    ensures var reqArgs := Normalized(AllAgentsSnapshotParams(), kwargs);
      && ("platform" in reqArgs <==> Lookup(kwargs, "platform") != Null)
      && ("platform" in reqArgs ==> reqArgs["platform"] == Chosen(kwargs, "platform"))
      && ("timezone" in reqArgs <==> Lookup(kwargs, "timezone") != Null)
      && ("tag" in reqArgs <==> Lookup(kwargs, "tag") != Null)
  {
    var names := {"platform", "timezone", "tag"};
    AllAgentsSnapshotNames();
    DeclaredOutcome(names, kwargs, "platform");
    DeclaredOutcome(names, kwargs, "timezone");
    DeclaredOutcome(names, kwargs, "tag");
  }

  /** `agent_snapshot` without the agent key fails with `agent_key is required`. */
  lemma AgentSnapshotMissing(s: Settings, env: map<string, string>, kwargs: Kwargs)
    requires Lookup(kwargs, "agentKey") == Null && "required" !in kwargs && "optional" !in kwargs
    ensures AgentSnapshot(s, env, kwargs) == Err(MonitisError("agent_key" + " is required"))
  {
    AgentSnapshotDeclared();
    AgentKeyName();
    MissingRequired("agentKey", ["timezone"], kwargs);
  }

  /** Called ordinarily with the agent key, `agent_snapshot` issues
      `agentSnapshot` with exactly the normalized arguments. */
  lemma AgentSnapshotRequest(s: Settings, env: map<string, string>, kwargs: Kwargs)
    requires Lookup(kwargs, "agentKey") != Null && Avoids(kwargs, GetReserved()) && KeyAvailable(s, env)
    ensures IssuesGet(AgentSnapshot(s, env, kwargs), s, env, "agentSnapshot", Normalized(AgentSnapshotParams(), kwargs))
  {
    AgentSnapshotDeclared();
    RequiredGiven("agentKey", ["timezone"], kwargs);
    PlainGetWrapper(s, env, "agentSnapshot", ["agentKey"], ["timezone"], AgentSnapshotParams(), kwargs);
  }

  /** What `agent_snapshot` normalizes its names to. */
  lemma AgentSnapshotArgs(kwargs: Kwargs)
    ensures var reqArgs := Normalized(AgentSnapshotParams(), kwargs);
      && ("agentKey" in reqArgs <==> Lookup(kwargs, "agentKey") != Null)
      && ("agentKey" in reqArgs ==> reqArgs["agentKey"] == Chosen(kwargs, "agentKey"))
      && ("timezone" in reqArgs <==> Lookup(kwargs, "timezone") != Null)
      && "agent_key" !in reqArgs
  {
    var names := {"agentKey", "timezone"};
    AgentSnapshotNames();
    DeclaredOutcome(names, kwargs, "agentKey");
    DeclaredOutcome(names, kwargs, "timezone");
  }

  /** `delete_agents` fails with `agent_ids or key_reg_exp is required` exactly
      when neither name is given under either spelling. */
  lemma DeleteAgentsMissing(s: Settings, env: map<string, string>, timestamp: string, sign: (string, string) -> string,
                            kwargs: Kwargs)
    requires "required" !in kwargs && "optional" !in kwargs
    ensures Lookup(kwargs, "agentIds") == Null && Lookup(kwargs, "keyRegExp") == Null <==>
      DeleteAgents(s, env, timestamp, sign, kwargs) == Err(MonitisError("agent_ids or key_reg_exp is required"))
  {
    if Lookup(kwargs, "agentIds") != Null || Lookup(kwargs, "keyRegExp") != Null {
      DeleteAgentsGiven(s, env, timestamp, sign, kwargs);
    } else {
      DeleteAgentsNeither(s, env, timestamp, sign, kwargs);
    }
  }

  lemma DeleteAgentsGiven(s: Settings, env: map<string, string>, timestamp: string, sign: (string, string) -> string,
                          kwargs: Kwargs)
    requires Lookup(kwargs, "agentIds") != Null || Lookup(kwargs, "keyRegExp") != Null
    requires "required" !in kwargs && "optional" !in kwargs
    ensures DeleteAgents(s, env, timestamp, sign, kwargs) != Err(MonitisError("agent_ids or key_reg_exp is required"))
  {
    var r := CallPost(s, env, timestamp, sign, "deleteAgents", false, Normalized(DeleteAgentsParams(), kwargs));
    CallPostErrors(s, env, timestamp, sign, "deleteAgents", false, Normalized(DeleteAgentsParams(), kwargs));
    assert r != Err(MonitisError("agent_ids or key_reg_exp is required"));
    DeleteAgentsForwards(s, env, timestamp, sign, kwargs);
  }

  lemma DeleteAgentsNeither(s: Settings, env: map<string, string>, timestamp: string, sign: (string, string) -> string,
                            kwargs: Kwargs)
    requires Lookup(kwargs, "agentIds") == Null && Lookup(kwargs, "keyRegExp") == Null
    requires "required" !in kwargs && "optional" !in kwargs
    ensures DeleteAgents(s, env, timestamp, sign, kwargs) == Err(MonitisError("agent_ids or key_reg_exp is required"))
  {
    DeleteAgentsValidated(kwargs);
    DeleteAgentsArgs(kwargs);
  }

  /** The errors `post(action=…, **req_args)` can raise. */
  lemma CallPostErrors(s: Settings, env: map<string, string>, timestamp: string, sign: (string, string) -> string,
                       action: string, raw: bool, reqArgs: Kwargs)
    ensures var r := CallPost(s, env, timestamp, sign, action, raw, reqArgs);
      r.Err? ==> r.error in {TypeError("post() got multiple values for keyword argument 'action'"),
                             TypeError("post() got multiple values for keyword argument '_raw'"),
                             MonitisError("The Monitis API key is required"),
                             MonitisError("The Monitis secret key is required"),
                             MonitisError("post: action is required"),
                             LenError(Int(0)), LenError(Bool(false))}
  {
    var r := CallPost(s, env, timestamp, sign, action, raw, reqArgs);
    if !(raw && "_raw" in reqArgs) && "action" !in reqArgs {
      var args := PostCallArgs(reqArgs, action, raw);
      var apikey := OrResolve(Get(args, "apikey"), s, env, ApiKey);
      var secret := OrResolve(Get(args, "secretkey"), s, env, SecretKey);
      if apikey.Err? {
        assert r == Err(MonitisError("The Monitis API key is required"));
      } else if secret.Err? {
        assert r == Err(MonitisError("The Monitis secret key is required"));
      } else {
        SignedPostErrors(s, env, timestamp, sign, args, apikey.value, secret.value);
        assert r == SignedPost(s, env, timestamp, sign, args, apikey.value, secret.value);
      }
    }
  }

  /** The errors `post` raises once both keys are known; a secret that is
      neither missing nor a string is an `int` or a `bool`. */
  lemma SignedPostErrors(s: Settings, env: map<string, string>, timestamp: string, sign: (string, string) -> string,
                         args: Kwargs, apikey: Value, secretkey: Value)
    requires secretkey != Null
    ensures var r := SignedPost(s, env, timestamp, sign, args, apikey, secretkey);
      r.Err? ==> r.error in {MonitisError("The Monitis secret key is required"), MonitisError("post: action is required"),
                             LenError(Int(0)), LenError(Bool(false))}
  {
  }

  /** Called ordinarily with either name given and both keys available,
      `delete_agents` posts action `deleteAgents`, signed. */
  lemma DeleteAgentsRequest(s: Settings, env: map<string, string>, timestamp: string, sign: (string, string) -> string,
                            kwargs: Kwargs)
    requires Lookup(kwargs, "agentIds") != Null || Lookup(kwargs, "keyRegExp") != Null
    requires Avoids(kwargs, PostReserved()) && Resolve(s, env, ApiKey).Ok? && SecretAvailable(s, env)
    ensures IssuesPost(DeleteAgents(s, env, timestamp, sign, kwargs), s, env, timestamp, sign, "deleteAgents", false,
                       Normalized(DeleteAgentsParams(), kwargs))
  {
    var reqArgs := Normalized(DeleteAgentsParams(), kwargs);
    DeleteAgentsPlain(kwargs);
    DeleteAgentsForwards(s, env, timestamp, sign, kwargs);
    PlainPost(s, env, timestamp, sign, "deleteAgents", false, reqArgs);
  }

  /** An ordinary `delete_agents` call hands `post` an ordinary call. */
  lemma DeleteAgentsPlain(kwargs: Kwargs)
    requires Avoids(kwargs, PostReserved())
    ensures "required" !in kwargs && "optional" !in kwargs
    ensures Avoids(Normalized(DeleteAgentsParams(), kwargs), PostReserved())
  {
    assert "required" in PostReserved() && "optional" in PostReserved();
    DeleteAgentsDeclared();
    NormalizedPlain({"agentIds", "keyRegExp"}, kwargs, PostReserved());
  }

  /** With either name given, `delete_agents` hands the normalized arguments
      to `post`. */
  lemma DeleteAgentsForwards(s: Settings, env: map<string, string>, timestamp: string, sign: (string, string) -> string,
                             kwargs: Kwargs)
    requires Lookup(kwargs, "agentIds") != Null || Lookup(kwargs, "keyRegExp") != Null
    requires "required" !in kwargs && "optional" !in kwargs
    ensures DeleteAgents(s, env, timestamp, sign, kwargs) ==
      CallPost(s, env, timestamp, sign, "deleteAgents", false, Normalized(DeleteAgentsParams(), kwargs))
  {
    DeleteAgentsValidated(kwargs);
    DeleteAgentsArgs(kwargs);
  }

  /** `delete_agents` has no required name, so normalizing never fails. */
  lemma DeleteAgentsValidated(kwargs: Kwargs)
    ensures Validated([], ["agentIds", "keyRegExp"], kwargs) == Ok(Normalized(DeleteAgentsParams(), kwargs))
    ensures "required" !in kwargs && "optional" !in kwargs ==>
      ValidateCall([], ["agentIds", "keyRegExp"], kwargs) == Ok(Normalized(DeleteAgentsParams(), kwargs))
  {
    DeleteAgentsDeclared();
  }

  /** What `delete_agents` normalizes its two names to, each present exactly
      when given, under the API spelling only. */
  lemma DeleteAgentsArgs(kwargs: Kwargs)
    ensures var reqArgs := Normalized(DeleteAgentsParams(), kwargs);
      && ("agentIds" in reqArgs <==> Lookup(kwargs, "agentIds") != Null)
      && ("agentIds" in reqArgs ==> reqArgs["agentIds"] == Chosen(kwargs, "agentIds"))
      && ("keyRegExp" in reqArgs <==> Lookup(kwargs, "keyRegExp") != Null)
      && ("keyRegExp" in reqArgs ==> reqArgs["keyRegExp"] == Chosen(kwargs, "keyRegExp"))
      && "agent_ids" !in reqArgs && "key_reg_exp" !in reqArgs
  {
    var names := {"agentIds", "keyRegExp"};
    DeleteAgentsNames();
    DeclaredOutcome(names, kwargs, "agentIds");
    DeclaredOutcome(names, kwargs, "keyRegExp");
  }

  /** `download_agent` without `platform` fails with `platform is required`. */
  lemma DownloadAgentMissing(s: Settings, env: map<string, string>, timestamp: string, sign: (string, string) -> string,
                             kwargs: Kwargs)
    requires Lookup(kwargs, "platform") == Null && "required" !in kwargs && "optional" !in kwargs
    ensures DownloadAgent(s, env, timestamp, sign, kwargs) == Err(MonitisError("platform" + " is required"))
  {
    DownloadAgentDeclared();
    PlatformName();
    MissingRequired("platform", [], kwargs);
  }

  /** Called ordinarily with `platform` and both keys available,
      `download_agent` posts action `downloadAgent` for the raw response. */
  lemma DownloadAgentRequest(s: Settings, env: map<string, string>, timestamp: string, sign: (string, string) -> string,
                             kwargs: Kwargs)
    requires Lookup(kwargs, "platform") != Null && Avoids(kwargs, PostReserved()) && Resolve(s, env, ApiKey).Ok? && SecretAvailable(s, env)
    ensures IssuesPost(DownloadAgent(s, env, timestamp, sign, kwargs), s, env, timestamp, sign, "downloadAgent", true,
                       Normalized(DownloadAgentParams(), kwargs))
  {
    DownloadAgentDeclared();
    DownloadAgentValidated(kwargs);
    assert "required" in PostReserved() && "optional" in PostReserved();
    NormalizedPlain(DownloadAgentParams(), kwargs, PostReserved());
    PlainPost(s, env, timestamp, sign, "downloadAgent", true, Normalized(DownloadAgentParams(), kwargs));
  }

  /** A caller's own `_raw` reaches `post` beside the wrapper's `_raw=True`,
      which Python refuses. */
  lemma DownloadAgentRawTwice(s: Settings, env: map<string, string>, timestamp: string, sign: (string, string) -> string,
                              kwargs: Kwargs)
    requires Lookup(kwargs, "platform") != Null && "_raw" in kwargs
    requires "required" !in kwargs && "optional" !in kwargs
    ensures DownloadAgent(s, env, timestamp, sign, kwargs) ==
      Err(TypeError("post() got multiple values for keyword argument '_raw'"))
  {
    DownloadAgentForwards(s, env, timestamp, sign, kwargs);
    DownloadAgentKeeps(kwargs, "_raw");
  }

  /** Given `platform`, `download_agent` hands its normalized arguments to `post`. */
  lemma DownloadAgentForwards(s: Settings, env: map<string, string>, timestamp: string, sign: (string, string) -> string,
                              kwargs: Kwargs)
    requires Lookup(kwargs, "platform") != Null
    requires "required" !in kwargs && "optional" !in kwargs
    ensures DownloadAgent(s, env, timestamp, sign, kwargs) ==
      CallPost(s, env, timestamp, sign, "downloadAgent", true, Normalized(DownloadAgentParams(), kwargs))
  {
    DownloadAgentValidated(kwargs);
  }

  /** `download_agent` passes every argument other than `platform` through unchanged. */
  lemma DownloadAgentKeeps(kwargs: Kwargs, k: string)
    requires k != "platform"
    ensures k in Normalized(DownloadAgentParams(), kwargs) <==> k in kwargs
    ensures k in kwargs ==> Normalized(DownloadAgentParams(), kwargs)[k] == kwargs[k]
  {
    PlatformName();
    UndeclaredKept(DownloadAgentParams(), kwargs, k);
  }

  /** Given `platform`, `download_agent`'s validation succeeds with the normalized arguments. */
  lemma DownloadAgentValidated(kwargs: Kwargs)
    requires Lookup(kwargs, "platform") != Null
    ensures Validated(["platform"], [], kwargs) == Ok(Normalized(DownloadAgentParams(), kwargs))
    ensures "required" !in kwargs && "optional" !in kwargs ==>
      ValidateCall(["platform"], [], kwargs) == Ok(Normalized(DownloadAgentParams(), kwargs))
  {
    DownloadAgentDeclared();
    RequiredGiven("platform", [], kwargs);
  }


  /** A caller's own `required` or `optional` makes every wrapper fail with
      Python's `TypeError` from `validate_kwargs`, before any normalizing. */
  lemma DeclarationNamesRejected(s: Settings, env: map<string, string>, timestamp: string, sign: (string, string) -> string,
                                 kwargs: Kwargs)
    requires "required" in kwargs || "optional" in kwargs
    ensures Agents(s, env, kwargs).Err? && Agents(s, env, kwargs).error in DoubleBound()
    ensures AgentInfo(s, env, kwargs).Err? && AgentInfo(s, env, kwargs).error in DoubleBound()
    ensures AllAgentsSnapshot(s, env, kwargs).Err? && AllAgentsSnapshot(s, env, kwargs).error in DoubleBound()
    ensures AgentSnapshot(s, env, kwargs).Err? && AgentSnapshot(s, env, kwargs).error in DoubleBound()
    ensures DeleteAgents(s, env, timestamp, sign, kwargs).Err? && DeleteAgents(s, env, timestamp, sign, kwargs).error in DoubleBound()
    ensures DownloadAgent(s, env, timestamp, sign, kwargs).Err? && DownloadAgent(s, env, timestamp, sign, kwargs).error in DoubleBound()
  {
    AgentsDeclared();
    GetWrapperRejected(s, env, "agents", [], ["keyRegExp"], kwargs);
    AgentInfoDeclared();
    GetWrapperRejected(s, env, "agentInfo", ["agentId"], ["loadTests"], kwargs);
    AllAgentsSnapshotDeclared();
    GetWrapperRejected(s, env, "allAgentsSnapshot", ["platform"], ["timezone", "tag"], kwargs);
    AgentSnapshotDeclared();
    GetWrapperRejected(s, env, "agentSnapshot", ["agentKey"], ["timezone"], kwargs);
    DeleteAgentsDeclared();
    DownloadAgentDeclared();
  }

  lemma GetWrapperRejected(s: Settings, env: map<string, string>, action: string,
                           required: seq<string>, optional: seq<string>, kwargs: Kwargs)
    requires Named(Declared(required, optional)) && ("required" in kwargs || "optional" in kwargs)
    ensures GetWrapper(s, env, action, required, optional, kwargs).Err?
    ensures GetWrapper(s, env, action, required, optional, kwargs).error in DoubleBound()
  {
  }
}
