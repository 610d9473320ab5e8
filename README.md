# Monitis SDK request core, in Dafny

This project models the part of the Monitis Python SDK that runs before any
HTTP traffic. It covers:

- how API names in camelCase (`agentId`) become SDK names (`agent_id`);
- how `validate_kwargs` normalizes a wrapper's keyword arguments against its
  required and optional names;
- how the API key, the secret key and the endpoint are resolved from the
  instance, the class attributes and the environment;
- how `get`, `post` and `Monitis.post` assemble their parameters;
- how the checksum's signing string is built (all parameters except
  `secretkey`, sorted by name, each written as name then value);
- the `checktime` millisecond string;
- the six agent operations of `monitis/monitors/predefined/internal/agent.py`,
  built on top of all of the above.

An operation returns either an error (`MonitisError`, the `TypeError`
Python raises when a keyword argument is bound twice, or the `TypeError`
`hmac` raises for a secret that is not a string) or a `Request`. A
`Request` gives the endpoint, the query or form, and whether the caller gets
the decoded JSON, the raw response or the body text.

Modules:

- `Types`: Python values (`None`, `str`, `int`, `bool`), truthiness, `str()`,
  and the keyword-argument map.
- `Naming`: `camel2under`.
- `Normalizer`: `validate_kwargs`.
- `Credentials`: the class settings, `_api_url`, and the `resolve_*` functions.
- `Signing`: the signing string and both `checksum` implementations.
- `Api`: `get`, `post`, `checktime`, and the `Monitis` class.
- `Agent`: the agent operations.

Three functions of the source work step by step in loops. Each is modelled
as a method whose loop invariants prove it equal to a specification function:

- `camel2under` builds a list character by character (`Naming.Camel2Under`).
- `validate_kwargs` pops from `kwargs` in place (`Normalizer.ValidateKwargs`).
- `Monitis.checksum` sorts a list of names in place and accumulates the
  signing string (`Signing.Sort`, `Api.Concatenate`, `Api.ParamString`).

The `Monitis` object is a class. Its constructor sets the fields, and
`Monitis.New` states in its ensures what each field holds afterwards.
`Monitis.Post` changes no field: its ensures state what the form it sends
holds and how it is signed.

Everything else is modelled as functions.

Where the code and its documentation differ, the model follows the code:

- Credential lookup stops at the first value that is not `None`. It does not
  stop at the first non-empty value: an empty class attribute or environment
  variable is returned as it is. Only `get` then rejects a falsy key.
- `Monitis.post` adds neither `action` nor `output`. It returns the body text
  undecoded.

## Model

| member | source | states |
|---|---|---|
| Naming.Camel2Under | monitis/api.py:52-60 | the loop that appends each character, an `_` after every lower→upper boundary, then the last character, and lowercases the result, computes `CamelToUnder(word)`; requires a non-empty word because `word[-1]` is read |
| Naming.InsertedPositions | monitis/api.py:55-59 | original character `i` lands at position `i` plus the number of earlier boundaries, an `_` follows it exactly when `i` is a boundary, and the length grows by the number of boundaries |
| Naming.InsertedCover | monitis/api.py:55-59 | every output position holds an original character or an `_` inserted right after a boundary: nothing is inserted anywhere else |
| Naming.CamelToUnderProperties | monitis/api.py:52-60 | the result has no uppercase letter, its length is the word's length plus the number of boundaries, and converting it again changes nothing |
| Naming.LowercaseUnchanged | monitis/api.py:52-60 | a name with no uppercase letter is returned unchanged |
| Normalizer.ToDict | monitis/api.py:84-96 | the dictionary built from a name list maps `camel2under(w)` for every listed `w`, and only to listed names whose SDK spelling is that key |
| Normalizer.Validated | monitis/api.py:71-117 | normalizing fails exactly when some required name is absent or `None` under both spellings, and the error is `"<sdk_name> is required"` for such a name |
| Normalizer.ValidateKwargs | monitis/api.py:71-117 | for declarations whose spellings do not collide, the in-place pops and the final `update` fail exactly when a required name is missing, report a missing name, and otherwise return the same map as `Validated`, whatever order the dictionaries are visited in |
| Normalizer.ApiSpellingWins | monitis/api.py:76-77 | a declared name given under either spelling appears under its API spelling, holding the API-spelled value whenever that key was passed, because line 116 overwrites the popped SDK value |
| Normalizer.MissingOmitted | monitis/api.py:108-113 | a declared name that is absent or `None` under both spellings appears under neither spelling |
| Normalizer.SdkSpellingGone | monitis/api.py:99-111 | the SDK spelling of a declared name never survives in the result |
| Normalizer.UndeclaredKept | monitis/api.py:115-116 | a keyword argument that spells no declared name is in the result exactly when it was passed, with its value unchanged |
| Normalizer.NormalizedKeys | monitis/api.py:98-116 | every key of the result is a declared name or a key the caller passed |
| Normalizer.DeclaredOutcome | monitis/api.py:99-116 | for one declared name: present exactly when given under some spelling, valued by the API spelling if passed, else by the SDK spelling, and never under the SDK spelling |
| Credentials.ApiUrl | monitis/api.py:46-50 | the sandbox URL exactly when the sandbox flag is the boolean `True`, else the default URL |
| Credentials.Resolve | monitis/api.py:120-166 | the class value if not `None`, else the one environment variable the sandbox flag selects; fails with the key's own message exactly when both are absent; never yields `None` |
| Credentials.ResolveFrom | monitis/api.py:321-367 | the instance value if not `None`, else the free resolution; fails with the key's own message exactly when instance, class and environment all lack it |
| Credentials.ResolutionOrder | monitis/api.py:321-343 | instance value, then class value, then the environment variable, in that order |
| Credentials.OnlySelectedVariable | monitis/api.py:128-131 | two environments that agree on the selected variable resolve alike |
| Signing.SortedKeys | monitis/api.py:208-209 | the parameter names in strictly increasing Python string order, each exactly once |
| Signing.AscendingUnique | monitis/api.py:208-209 | two increasing sequences with the same names are equal, so the signing string does not depend on argument order |
| Signing.Sort | monitis/api.py:425-426 | the in-place sort leaves the array sorted and a permutation of what it held |
| Signing.SmallestFrom | monitis/api.py:426 | the index returned holds a name no greater than any from the given position on |
| Signing.JoinedLength | monitis/api.py:208-209 | the signing string is exactly as long as all names and value texts together |
| Signing.AppendLast | monitis/api.py:208-209 | a parameter whose name sorts after all others adds its name and value at the end |
| Signing.SingleParameter | monitis/api.py:208-209 | one parameter signs as its name followed by `str` of its value |
| Signing.Secret | monitis/api.py:418-424 | an explicit `secretkey` parameter is used even when `None`; otherwise a truthy object key; otherwise the class or environment key |
| Signing.Hmac | monitis/api.py:211 | `new_hmac` raises `TypeError("object of type '<type>' has no len()")` exactly when the key is not a string; otherwise the result is the digest of the key and the message |
| Signing.Signature | monitis/api.py:425-432 | signing fails with the missing-secret error when the secret cannot be found, and otherwise fails exactly when the secret is not a string; a string secret signs the sorted string of every parameter except `secretkey` |
| Signing.ChecksumAsWritten | monitis/api.py:197-211 | as written, the free `checksum` fails with the missing-secret error whenever no class or environment secret exists, even if a `secretkey` is passed; otherwise it fails exactly when the chosen secret is not a string |
| Signing.Checksum | monitis/api.py:197-211 | as intended, a passed `secretkey` is the signing secret, and the call fails only when that secret is not a string; otherwise it fails when no secret resolves |
| Signing.EagerDefaultFails | monitis/api.py:205 | with default settings and an empty environment, `checksum(secretkey='s', action='a')` fails as written, while the intended version signs `"actiona"` with `'s'` |
| Signing.AsWrittenAgrees | monitis/api.py:205 | whenever a secret resolves, the code as written and the corrected version agree |
| Signing.SecretNotSigned | monitis/api.py:204-205 | the `secretkey` parameter never affects the signing string |
| Api.Endpoint | monitis/api.py:222 | `_url` if truthy, else the configured endpoint |
| Api.OrResolve | monitis/api.py:226 | a truthy explicit key is kept, otherwise the key is resolved |
| Api.GetExtra | monitis/api.py:223-237 | `get` forwards every keyword argument except its named parameters and `_raw`, unchanged |
| Api.ApiGet | monitis/api.py:214-238 | the key is resolved first, then a falsy key or action is rejected with `get: … is required`; otherwise the query is `apikey`, `action`, `output=JSON` and `version` (default `'2'`), followed by the other keyword arguments minus `_raw`, and `_raw` selects the raw reply |
| Api.PostArgs | monitis/api.py:271-280 | the signed form holds the caller's other arguments unchanged, stamped with `apikey`, `action`, `version` and `timestamp`, and holds neither `secretkey`, `_url` nor `_raw` |
| Api.WithChecksum | monitis/api.py:283-286 | the `checksum` is added only after signing, and it signs everything else in the form |
| Api.ExplicitSecret | monitis/api.py:197-211 | passing a secret as `secretkey` to the free `checksum` as written signs everything else with that secret when a class or environment secret exists and the secret is a string, raises the `TypeError` of `hmac` when it is not a string, and raises `The Monitis secret key is required` when no class or environment secret exists |
| Api.SignedPost | monitis/api.py:268-286 | once both keys are known, `post` fails with `post: action is required` when the action is falsy, else with the missing-secret error exactly when no class or environment secret exists, else with the `TypeError` of `hmac` exactly when the secret is not a string; otherwise it sends the stamped form signed with the resolved secret (version defaults to `2`) |
| Api.CheckedForm | monitis/api.py:283-286 | calling the free `checksum` as written fails with the missing-secret error exactly when no class or environment secret exists, and else with the `TypeError` of `hmac` exactly when the secret is not a string; otherwise the form sent is the stamped form with its own signature added |
| Api.ApiPost | monitis/api.py:258-287 | the API key and then the secret key are resolved, and a failure of either is raised before the action is checked; after that the request is what `SignedPost` describes |
| Api.PostWithExplicitKeys | monitis/api.py:266-286 | with both keys passed, `post` succeeds exactly when the action is truthy, a class or environment secret exists, and the secret passed is a string |
| Api.PostEagerDefaultFails | monitis/api.py:283 | `post(apikey='k', secretkey='s', action='a')` with the class defaults and an empty environment raises `The Monitis secret key is required`, because the `checksum` it calls evaluates the fallback at line 205 first |
| Api.CheckTime | monitis/api.py:189-193 | the result ends in `"000"` |
| Api.CheckTimeMilliseconds | monitis/api.py:178-193 | the result is a decimal numeral, with an optional sign, whose value is the whole seconds times 1000 |
| Api.Monitis.New | monitis/api.py:369-377 | construction fails exactly when a falsy key argument cannot be resolved, with that key's message (the API key first); otherwise the fields hold the endpoint, the given-or-resolved keys (never `None`), `validation` defaulting to `'HMACSHA1'`, `version` defaulting to `'2'`, and no auth token |
| Api.Monitis.GivenOrResolved | monitis/api.py:374-375 | `apikey or self.resolve_apikey()` during construction equals `apikey or resolve_apikey()`, and never yields `None` |
| Api.Monitis.Checksum | monitis/api.py:406-432 | the method's signature equals the one `Signature` specifies, for the secret `Secret` picks |
| Api.Monitis.TakeSecret | monitis/api.py:418-424 | the secret is the one `Secret` picks, and the parameters left are the arguments without `secretkey` |
| Api.ParamString | monitis/api.py:425-431 | listing the names, sorting them in place and appending name and value in turn yields exactly the signing string |
| Api.Concatenate | monitis/api.py:428-431 | the loop builds `str(key) + str(value)` for each listed name in order |
| Api.Items | monitis/api.py:425 | the listed names are exactly the map's names, each once |
| Api.SortedListing | monitis/api.py:425-426 | a sorted rearrangement of the listed names is the increasing name sequence |
| Api.Monitis.Post | monitis/api.py:379-392 | fails with the missing-secret error when no secret is found, and with the `TypeError` of `hmac` when the secret found is not a string; otherwise it sends to the object's URL the caller's arguments stamped with the object's key, version and time, without adding `action` or `output`, signed by `checksum` over everything else, and the reply is the body text |
| Api.StampedForm | monitis/api.py:381-390 | the stamped form keeps every other argument unchanged and holds `action`/`output` only if the caller passed them |
| Agent.CallGet | monitis/monitors/predefined/internal/agent.py:18 | `get(action=…, **req_args)` raises a `TypeError` when `action` is also among the arguments, and otherwise calls `get` with the action added |
| Agent.CallPost | monitis/monitors/predefined/internal/agent.py:52-63 | `post(action=…, **req_args)` and `post(action=…, _raw=True, **req_args)` raise a `TypeError` for a duplicated keyword, checking `_raw` before `action` as CPython 2.7 checks the written keywords last first, and otherwise call `post` |
| Agent.ValidateCall | monitis/monitors/predefined/internal/agent.py:17 | `validate_kwargs(required, optional, **kwargs)` raises a `TypeError` for the parameter bound twice exactly when `required` or `optional` is among the keyword arguments, and otherwise normalizes as `Validated` does |
| Agent.PlainGetWrapper | monitis/monitors/predefined/internal/agent.py:13-42 | a GET wrapper called with every required name, no name `get` or `validate_kwargs` binds itself, and an available key issues its action with the four fixed pairs and exactly the normalized arguments |
| Agent.PlainPost | monitis/api.py:258-287 | an ordinary POST with both keys resolving (the API key possibly empty, the secret a string) is sent with the normalized arguments stamped with key, action, version `2` and time, signed by the secret |
| Agent.CallPostErrors | monitis/api.py:258-287 | the only errors `post(action=…, **req_args)` can raise are the duplicate-keyword, missing-key and missing-action errors and the `TypeError` of `hmac` for an `int` or `bool` secret |
| Agent.AgentsRequest | monitis/monitors/predefined/internal/agent.py:13-18 | with no name `get` or `validate_kwargs` binds itself and the key available, `agents` issues GET `agents` with exactly the normalized arguments |
| Agent.AgentsArgs | monitis/monitors/predefined/internal/agent.py:15-17 | `keyRegExp` is present exactly when given under either spelling, and `key_reg_exp` never is |
| Agent.AgentInfoMissing | monitis/monitors/predefined/internal/agent.py:21-26 | `agent_info` with neither `agent_id` nor `agentId`, and with neither `required` nor `optional` passed, fails with `agent_id is required` |
| Agent.AgentInfoRequest | monitis/monitors/predefined/internal/agent.py:21-26 | with the agent given, no name `get` or `validate_kwargs` binds itself, and the key available, `agent_info` issues GET `agentInfo` with exactly the normalized arguments |
| Agent.AgentInfoArgs | monitis/monitors/predefined/internal/agent.py:23-25 | `agentId` and `loadTests` are each present exactly when given, under the API spelling only |
| Agent.AllAgentsSnapshotMissing | monitis/monitors/predefined/internal/agent.py:29-34 | `all_agents_snapshot` without `platform`, and with neither `required` nor `optional` passed, fails with `platform is required` |
| Agent.AllAgentsSnapshotRequest | monitis/monitors/predefined/internal/agent.py:29-34 | with `platform` given, no name `get` or `validate_kwargs` binds itself, and the key available, it issues GET `allAgentsSnapshot` with exactly the normalized arguments |
| Agent.AllAgentsSnapshotArgs | monitis/monitors/predefined/internal/agent.py:31-33 | `platform`, `timezone` and `tag` are each present exactly when given |
| Agent.AgentSnapshotMissing | monitis/monitors/predefined/internal/agent.py:37-42 | `agent_snapshot` without the agent key, and with neither `required` nor `optional` passed, fails with `agent_key is required` |
| Agent.AgentSnapshotRequest | monitis/monitors/predefined/internal/agent.py:37-42 | with the agent key given, no name `get` or `validate_kwargs` binds itself, and the key available, it issues GET `agentSnapshot` with exactly the normalized arguments |
| Agent.AgentSnapshotArgs | monitis/monitors/predefined/internal/agent.py:39-41 | `agentKey` and `timezone` are each present exactly when given, and `agent_key` never is |
| Agent.DeleteAgentsMissing | monitis/monitors/predefined/internal/agent.py:45-52 | with neither `required` nor `optional` passed, `delete_agents` fails with `agent_ids or key_reg_exp is required` exactly when neither name is given under either spelling |
| Agent.DeleteAgentsForwards | monitis/monitors/predefined/internal/agent.py:49-52 | with either name given and neither `required` nor `optional` passed, the normalized arguments are handed to `post` with action `deleteAgents` |
| Agent.DeleteAgentsRequest | monitis/monitors/predefined/internal/agent.py:45-52 | called with either name, no name `post` or `validate_kwargs` binds itself, and both keys resolving (the API key possibly empty, the secret a string), it POSTs `deleteAgents` with exactly the normalized arguments, stamped and signed |
| Agent.DeleteAgentsArgs | monitis/monitors/predefined/internal/agent.py:47-49 | `agentIds` and `keyRegExp` are each present exactly when given, under the API spelling only |
| Agent.DeleteAgentsValidated | monitis/monitors/predefined/internal/agent.py:47-49 | with no required name, normalizing never fails, and with neither `required` nor `optional` passed neither does the call to `validate_kwargs` |
| Agent.DownloadAgentMissing | monitis/monitors/predefined/internal/agent.py:55-63 | `download_agent` without `platform`, and with neither `required` nor `optional` passed, fails with `platform is required` |
| Agent.DownloadAgentForwards | monitis/monitors/predefined/internal/agent.py:60-63 | with `platform` given and neither `required` nor `optional` passed, the normalized arguments are handed to `post` with action `downloadAgent` and `_raw=True` |
| Agent.DownloadAgentRequest | monitis/monitors/predefined/internal/agent.py:55-63 | with `platform` given, no name `post` or `validate_kwargs` binds itself, and both keys resolving (the API key possibly empty, the secret a string), it POSTs `downloadAgent` for the raw response with exactly the normalized arguments, stamped and signed |
| Agent.DownloadAgentRawTwice | monitis/monitors/predefined/internal/agent.py:63 | with `platform` given and no `required` or `optional`, a caller's own `_raw`, whether or not `action` is passed too, collides with the wrapper's `_raw=True` and raises a `TypeError` |
| Agent.DeclarationNamesRejected | monitis/monitors/predefined/internal/agent.py:13-63 | every agent operation called with a keyword argument named `required` or `optional` raises the `TypeError` of `validate_kwargs` |

## Left out

- HTTP transport is not modelled: `Request`, `urlopen`, `HTTPError` and reading the response. A request description is the result instead.
- JSON decoding (`decode_json`, `json.loads`) is not modelled. `Reply` records only which form of the reply the caller receives.
- `urlencode` is not modelled. `post` sends a map. `get` sends its four fixed pairs (`apikey`, `action`, `output`, `version`) as a list, in that order, and the other keyword arguments as a map, so their order in the query string is not modelled.
- The HMAC-SHA1 digest (RFC 2104) and its base64 encoding (section 4 of RFC 4648) are left out. They are the uninterpreted parameter `sign` of a string secret and the signing string. A key that is not a string raises `TypeError` in `hmac` before any digest is computed, and that is modelled.
- Clock reads are inputs: `timestamp()` is a string parameter, and `time()`/`mktime(dt.timetuple())` are an integer number of seconds.
- `os.environ` is a map parameter.
- The class attributes of `Monitis` form the `Settings` value. `Monitis.debug` and the `print` statements are left out because they only log.
- The `MonitisError` class's own methods (`__init__`, `__str__`) are not modelled; only its message is kept.
- `deepcopy` is not modelled: maps are values, so copying changes nothing.
- `validate_kwargs` is modelled only for required and optional names given as lists. No wrapper in the core passes dictionaries.
- Python values are limited to `None`, strings, integers and booleans.
- Normalizer.ValidateKwargs: its result is tied to `Validated` only when the declared names' spellings do not collide and no name is both required and optional. Otherwise the outcome depends on dictionary order, and nothing is promised about it. Even for such declarations, only "some missing name is reported" is promised, because which one depends on dictionary order.
- Agent.ValidateCall: when both `required` and `optional` are passed, Python names whichever its dictionary yields first; the model names `required`.
- A `post` signing with the corrected `checksum` is not modelled: `post` follows the code as written and inherits the eager fallback of the free `checksum` (see Findings). The corrected `Signing.Checksum` is proved on its own.
- Signing.Hmac: an integer outside the range of Python 2's `int` is a `long`, and the model still names its type `int` in the `TypeError` message.
- Signing.Sort: sorts names, not `(name, value)` pairs. The names of a dictionary are distinct, so the order is the same.

## Findings

| source | as written | input that shows it | evidently intended | confidence | as-written member | corrected member |
|---|---|---|---|---|---|---|
| monitis/api.py:205 | `kwargs.pop('secretkey', resolve_secretkey())` evaluates the default first, so `checksum` raises `The Monitis secret key is required` even when a `secretkey` is passed | class `secretkey` is `None`, no `MONITIS_SECRETKEY` in the environment, call `checksum(secretkey='s', action='a')` (as `post(apikey='k', secretkey='s', action='a')` does, and fails the same way) | use the passed `secretkey` and consult `resolve_secretkey()` only when it is absent | not executed | Signing.ChecksumAsWritten, Signing.EagerDefaultFails, Api.PostEagerDefaultFails | Signing.Checksum |
