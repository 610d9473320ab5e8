/** The string a request signature covers: every parameter but `secretkey`,
    sorted by name, written as name then value with no separators. The
    signature itself (an RFC 2104 HMAC-SHA1, base64-encoded) is the parameter
    `sign`, a function of the secret and that string. */
module Signing {
  import opened Types
  import opened Credentials

  /** Python 2 string order: lexicographic by character code, a proper prefix first. */
  predicate Less(a: string, b: string)
  {
    if |a| == 0 then |b| > 0
    else if |b| == 0 then false
    else a[0] < b[0] || (a[0] == b[0] && Less(a[1..], b[1..]))
  }

  lemma {:induction false} LessIrreflexive(a: string)
    ensures !Less(a, a)
  {
    if |a| > 0 {
      LessIrreflexive(a[1..]);
    }
  }

  lemma {:induction false} LessTransitive(a: string, b: string, c: string)
    requires Less(a, b) && Less(b, c)
    ensures Less(a, c)
  {
    if |a| > 0 && |b| > 0 && |c| > 0 && a[0] == b[0] == c[0] {
      LessTransitive(a[1..], b[1..], c[1..]);
    }
  }

  lemma {:induction false} LessTotal(a: string, b: string)
    requires a != b
    ensures Less(a, b) || Less(b, a)
  {
    if |a| > 0 && |b| > 0 && a[0] == b[0] {
      assert a == [a[0]] + a[1..] && b == [b[0]] + b[1..];
      LessTotal(a[1..], b[1..]);
    }
  }

  lemma LessAsymmetric(a: string, b: string)
    requires Less(a, b)
    ensures !Less(b, a)
  {
    if Less(b, a) {
      LessTransitive(a, b, a);
      LessIrreflexive(a);
    }
  }

  /** Strictly increasing, so also free of duplicates. */
  predicate Ascending(ks: seq<string>)
  {
    forall i, j | 0 <= i < j < |ks| :: Less(ks[i], ks[j])
  }

  /** `k` precedes every other member of `keys`. */
  predicate Least(k: string, keys: set<string>)
  {
    k in keys && forall j | j in keys && j != k :: Less(k, j)
  }

  lemma {:induction false} LeastExists(keys: set<string>)
    requires keys != {}
    ensures exists k :: Least(k, keys)
    decreases |keys|
  {
    var x :| x in keys;
    if keys != {x} {
      var rest := keys - {x};
      LeastExists(rest);
      var m :| Least(m, rest);
      if Less(m, x) {
        forall j | j in keys && j != m ensures Less(m, j) {
          assert j == x || j in rest;
        }
        assert Least(m, keys);
      } else {
        LessTotal(m, x);
        forall j | j in keys && j != x ensures Less(x, j) {
          assert j in rest;
          if j != m {
            LessTransitive(x, m, j);
          }
        }
        assert Least(x, keys);
      }
    } else {
      assert Least(x, keys);
    }
  }

  lemma LeastUnique(k1: string, k2: string, keys: set<string>)
    requires Least(k1, keys) && Least(k2, keys)
    ensures k1 == k2
  {
    if k1 != k2 {
      LessAsymmetric(k1, k2);
    }
  }

  lemma LeastUniqueAll(keys: set<string>)
    ensures forall k1, k2 | Least(k1, keys) && Least(k2, keys) :: k1 == k2
  {
    forall k1, k2 | Least(k1, keys) && Least(k2, keys) ensures k1 == k2 {
      LeastUnique(k1, k2, keys);
    }
  }

  lemma ConsAscending(k: string, rest: seq<string>)
    requires Ascending(rest) && forall x | x in rest :: Less(k, x)
    ensures Ascending([k] + rest)
  {
    forall i, j | 0 <= i < j < |[k] + rest| ensures Less(([k] + rest)[i], ([k] + rest)[j]) {
      assert ([k] + rest)[j] == rest[j - 1];
      if i > 0 {
        assert ([k] + rest)[i] == rest[i - 1];
      }
    }
  }

  /** The keys in increasing order (what `sorted` yields on distinct keys). */
  function SortedKeys(keys: set<string>): (ks: seq<string>)
    ensures Ascending(ks)
    ensures |ks| == |keys|
    ensures forall k :: k in ks <==> k in keys
    decreases |keys|
  {
    if keys == {} then []
    else
      LeastExists(keys);
      LeastUniqueAll(keys);
      var k :| Least(k, keys);
      var rest := SortedKeys(keys - {k});
      ConsAscending(k, rest);
      [k] + rest
  }

  /** The head of an ascending sequence precedes its other elements. */
  lemma HeadLeast(a: seq<string>, k: string)
    requires Ascending(a) && k in a
    ensures k == a[0] || Less(a[0], k)
  {
    var i :| 0 <= i < |a| && a[i] == k;
    if i > 0 {
      assert Less(a[0], a[i]);
    }
  }

  lemma NonEmptyAlike(a: seq<string>, b: seq<string>)
    requires forall k :: k in a <==> k in b
    ensures a != [] ==> b != []
  {
    if a != [] {
      assert a[0] in b;
    }
  }

  /** Two ascending sequences with the same elements are the same sequence:
      sorting leaves no choice. */
  lemma {:induction false} AscendingUnique(a: seq<string>, b: seq<string>)
    requires Ascending(a) && Ascending(b)
    requires forall k :: k in a <==> k in b
    ensures a == b
    decreases |a|
  {
    NonEmptyAlike(a, b);
    NonEmptyAlike(b, a);
    if a != [] {
      HeadLeast(a, b[0]);
      HeadLeast(b, a[0]);
      if a[0] != b[0] {
        LessAsymmetric(a[0], b[0]);
      }
      assert a == [a[0]] + a[1..] && b == [b[0]] + b[1..];
      LessIrreflexive(a[0]);
      forall k ensures k in a[1..] <==> k in b[1..] {
        if k in a[1..] {
          var i :| 1 <= i < |a| && a[i] == k;
          assert Less(a[0], a[i]);
          assert k in b && k != b[0];
        }
        if k in b[1..] {
          var i :| 1 <= i < |b| && b[i] == k;
          assert Less(b[0], b[i]);
          assert k in a && k != a[0];
        }
      }
      AscendingUnique(a[1..], b[1..]);
    }
  }

  /** Sorted, duplicates allowed: what `list.sort()` promises. */
  predicate Sorted(ks: seq<string>)
  {
    forall i, j | 0 <= i < j < |ks| :: !Less(ks[j], ks[i])
  }

  predicate Distinct(ks: seq<string>)
  {
    forall i, j | 0 <= i < j < |ks| :: ks[i] != ks[j]
  }

  lemma SortedDistinctAscending(ks: seq<string>)
    requires Sorted(ks) && Distinct(ks)
    ensures Ascending(ks)
  {
    forall i, j | 0 <= i < j < |ks| ensures Less(ks[i], ks[j]) {
      LessTotal(ks[i], ks[j]);
    }
  }

  /** `list.sort()` on the parameter names, in place (monitis/api.py:425-426). */
  method Sort(a: array<string>)
    modifies a
    ensures Sorted(a[..])
    ensures multiset(a[..]) == multiset(old(a[..]))
  {
    var i := 0;
    while i < a.Length
      invariant 0 <= i <= a.Length
      invariant Sorted(a[..i])
      invariant forall x, y | 0 <= x < i <= y < a.Length :: !Less(a[y], a[x])
      invariant multiset(a[..]) == multiset(old(a[..]))
    {
      var m := SmallestFrom(a, i);
      ghost var before := a[..];
      a[i], a[m] := a[m], a[i];
      assert a[..] == before[i := before[m]][m := before[i]];
      SwapExtendsSorted(before, a[..], i, m);
      SwapPermutes(before, a[..], i, m);
      i := i + 1;
    }
  }

  /** Swapping a smallest remaining name into position `i` extends the sorted
      prefix by one. */
  lemma SwapExtendsSorted(before: seq<string>, after: seq<string>, i: nat, m: nat)
    requires i <= m < |before| && after == before[i := before[m]][m := before[i]]
    requires Sorted(before[..i]) && forall x, y | 0 <= x < i <= y < |before| :: !Less(before[y], before[x])
    requires forall y | i <= y < |before| :: !Less(before[y], before[m])
    ensures Sorted(after[..i + 1]) && forall x, y | 0 <= x < i + 1 <= y < |after| :: !Less(after[y], after[x])
  {
    var prefix := after[..i + 1];
    forall x, y | 0 <= x < y < i + 1 ensures !Less(prefix[y], prefix[x]) {
      if y < i {
        assert before[..i][y] == after[y] && before[..i][x] == after[x];
      }
    }
  }

  /** A swap keeps the same names. */
  lemma SwapPermutes(before: seq<string>, after: seq<string>, i: nat, m: nat)
    requires i <= m < |before| && after == before[i := before[m]][m := before[i]]
    ensures multiset(after) == multiset(before)
  {
    if i != m {
      var mid := before[i := before[m]];
      assert multiset(mid) == multiset(before) - multiset{before[i]} + multiset{before[m]};
      assert multiset(after) == multiset(mid) - multiset{mid[m]} + multiset{before[i]};
    }
  }

  /** The index of a smallest name in `a[i..]`. */
  method SmallestFrom(a: array<string>, i: nat) returns (m: nat)
    requires i < a.Length
    ensures i <= m < a.Length
    ensures forall y | i <= y < a.Length :: !Less(a[y], a[m])
  {
    m := i;
    var j := i + 1;
    LessIrreflexive(a[i]);
    while j < a.Length
      invariant i <= m < a.Length && i + 1 <= j <= a.Length
      invariant forall y | i <= y < j :: !Less(a[y], a[m])
    {
      if Less(a[j], a[m]) {
        forall y | i <= y < j ensures !Less(a[y], a[j]) {
          if Less(a[y], a[j]) {
            LessTransitive(a[y], a[j], a[m]);
          }
        }
        LessIrreflexive(a[j]);
        m := j;
      }
      j := j + 1;
    }
  }

  /** `str(key) + str(value)` for each name of `ks` in turn, joined with no separator. */
  function Joined(params: Kwargs, ks: seq<string>): (s: string)
    requires forall k | k in ks :: k in params
  {
    if ks == [] then ""
    else Joined(params, ks[..|ks| - 1]) + ks[|ks| - 1] + Show(params[ks[|ks| - 1]])
  }

  /** The string the signature covers, for parameters that no longer hold `secretkey`. */
  function SigningString(params: Kwargs): (s: string)
  {
    Joined(params, SortedKeys(params.Keys))
  }

  /** Each name contributes itself and the text of its value: the string is as
      long as all of them together. */
  lemma {:induction false} JoinedLength(params: Kwargs, ks: seq<string>)
    requires forall k | k in ks :: k in params
    ensures |Joined(params, ks)| == Total(params, ks)
  {
    if ks != [] {
      JoinedLength(params, ks[..|ks| - 1]);
    }
  }

  function Total(params: Kwargs, ks: seq<string>): nat
    requires forall k | k in ks :: k in params
  {
    if ks == [] then 0 else Total(params, ks[..|ks| - 1]) + |ks[|ks| - 1]| + |Show(params[ks[|ks| - 1]])|
  }

  /** A parameter whose name sorts after every other one is appended at the end. */
  lemma AppendLast(params: Kwargs, k: string, v: Value)
    requires forall j | j in params :: Less(j, k)
    ensures SigningString(params[k := v]) == SigningString(params) + k + Show(v)
  {
    var ks := SortedKeys(params.Keys);
    var extended := params[k := v];
    LessIrreflexive(k);
    assert k !in params;
    forall i, j | 0 <= i < j < |ks + [k]| ensures Less((ks + [k])[i], (ks + [k])[j]) {
      if j == |ks| {
        assert (ks + [k])[i] == ks[i] && ks[i] in params;
      }
    }
    AscendingUnique(ks + [k], SortedKeys(extended.Keys));
    assert (ks + [k])[..|ks|] == ks;
    JoinedFrame(params, extended, ks);
  }

  /** `Joined` reads only the names it is given. */
  lemma {:induction false} JoinedFrame(p: Kwargs, q: Kwargs, ks: seq<string>)
    requires forall k | k in ks :: k in p && k in q && p[k] == q[k]
    ensures Joined(p, ks) == Joined(q, ks)
  {
    if ks != [] {
      JoinedFrame(p, q, ks[..|ks| - 1]);
    }
  }

  /** The secret used for signing (monitis/api.py:418-424): an explicit
      `secretkey` parameter even when it is `None`, else the instance's key
      when truthy, else the class or environment key. The free function has no
      instance key, which is the same as passing `Null`. */
  function Secret(instance: Value, s: Settings, env: map<string, string>, kwargs: Kwargs): (r: Result<Value>)
    ensures "secretkey" in kwargs ==> r == Ok(kwargs["secretkey"])
    ensures "secretkey" !in kwargs && Truthy(instance) ==> r == Ok(instance)
    ensures "secretkey" !in kwargs && !Truthy(instance) ==> r == Resolve(s, env, SecretKey)
  {
    if "secretkey" in kwargs then Ok(kwargs["secretkey"])
    else if Truthy(instance) then Ok(instance)
    else Resolve(s, env, SecretKey)
  }

  /** What Python 2.7's `hmac` raises for a key that is not a string: it
      begins with `len(key)`. */
  function LenError(key: Value): Error
  {
    TypeError("object of type '" + TypeName(key) + "' has no len()")
  }

  /** `b64encode(str(new_hmac(secretkey, param_string, sha1).digest()))`: the
      HMAC-SHA1 digest (RFC 2104) in base64 is the parameter `sign`, defined on
      string keys; any other key raises `LenError`. */
  function Hmac(sign: (string, string) -> string, key: Value, msg: string): (r: Result<string>)
    ensures r.Ok? <==> key.Str?
    ensures r.Ok? ==> r.value == sign(key.s, msg)
    ensures r.Err? ==> r.error == LenError(key) && r.error.TypeError?
  {
    match key
    case Str(k) => Ok(sign(k, msg))
    case _ => Err(LenError(key))
  }

  /** The signature over `kwargs` minus `secretkey`, under the resolved secret:
      it fails when the secret cannot be found, and otherwise exactly when the
      secret is not a string. */
  function Signature(sign: (string, string) -> string, secret: Result<Value>, kwargs: Kwargs): (r: Result<string>)
    ensures r.Ok? <==> secret.Ok? && secret.value.Str?
    ensures secret.Err? ==> r == Err(secret.error)
    ensures secret.Ok? ==> r == Hmac(sign, secret.value, SigningString(kwargs - {"secretkey"}))
  {
    match secret
    case Err(e) => Err(e)
    case Ok(key) => Hmac(sign, key, SigningString(kwargs - {"secretkey"}))
  }

  /** The free `checksum` as written (monitis/api.py:197-211): the fallback
      `resolve_secretkey()` is the default argument of `kwargs.pop`, so it is
      evaluated, and may raise, even when `secretkey` is passed. */
  function ChecksumAsWritten(sign: (string, string) -> string, s: Settings, env: map<string, string>, kwargs: Kwargs): (r: Result<string>)
    ensures Resolve(s, env, SecretKey).Err? ==> r == Err(Resolve(s, env, SecretKey).error)
    ensures Resolve(s, env, SecretKey).Ok? ==>
      r == Hmac(sign, Secret(Null, s, env, kwargs).value, SigningString(kwargs - {"secretkey"}))
    ensures r.Ok? <==> Resolve(s, env, SecretKey).Ok? && Secret(Null, s, env, kwargs).value.Str?
  {
    match Resolve(s, env, SecretKey)
    case Err(e) => Err(e)
    case Ok(fallback) =>
      var key := if "secretkey" in kwargs then kwargs["secretkey"] else fallback;
      Hmac(sign, key, SigningString(kwargs - {"secretkey"}))
  }

  /** The free `checksum` as intended: the fallback is consulted only when no
      `secretkey` parameter is passed. */
  function Checksum(sign: (string, string) -> string, s: Settings, env: map<string, string>, kwargs: Kwargs): (r: Result<string>)
    ensures "secretkey" in kwargs ==> r == Hmac(sign, kwargs["secretkey"], SigningString(kwargs - {"secretkey"}))
    ensures "secretkey" !in kwargs && Resolve(s, env, SecretKey).Err? ==> r == Err(Resolve(s, env, SecretKey).error)
    ensures "secretkey" !in kwargs && Resolve(s, env, SecretKey).Ok? ==>
      r == Hmac(sign, Resolve(s, env, SecretKey).value, SigningString(kwargs - {"secretkey"}))
  {
    Signature(sign, Secret(Null, s, env, kwargs), kwargs)
  }

  /** A single parameter signs as its name followed by its value. */
  lemma SingleParameter(k: string, v: Value)
    ensures SigningString(map[k := v]) == k + Show(v)
  {
    var params := map[k := v];
    var ks := SortedKeys(params.Keys);
    assert |ks| == 1 && ks[0] in params;
    assert ks == [k];
    assert ks[..0] == [];
    assert Joined(params, ks) == Joined(params, []) + k + Show(v);
  }

  /** The eager default makes an explicitly passed secret fail when neither the
      class nor the environment holds one. */
  lemma EagerDefaultFails(sign: (string, string) -> string)
    ensures var kwargs := map["secretkey" := Str("s"), "action" := Str("a")];
      && ChecksumAsWritten(sign, Defaults(), map[], kwargs) == Err(MonitisError("The Monitis secret key is required"))
      && Checksum(sign, Defaults(), map[], kwargs) == Ok(sign("s", "actiona"))
  {
    var kwargs := map["secretkey" := Str("s"), "action" := Str("a")];
    var params := kwargs - {"secretkey"};
    assert Resolve(Defaults(), map[], SecretKey) == Err(MonitisError("The Monitis secret key is required"));
    assert "secretkey" in kwargs && kwargs["secretkey"] == Str("s");
    assert Secret(Null, Defaults(), map[], kwargs) == Ok(Str("s"));
    assert params == map["action" := Str("a")];
    SingleParameter("action", Str("a"));
    assert SigningString(params) == "actiona";
  }

  /** Otherwise the two agree. */
  lemma AsWrittenAgrees(sign: (string, string) -> string, s: Settings, env: map<string, string>, kwargs: Kwargs)
    requires Resolve(s, env, SecretKey).Ok?
    ensures ChecksumAsWritten(sign, s, env, kwargs) == Checksum(sign, s, env, kwargs)
  {
  }

  /** The secret is never part of the string it signs: changing or removing it
      leaves the string unchanged. */
  lemma SecretNotSigned(kwargs: Kwargs, v: Value)
    ensures SigningString(kwargs["secretkey" := v] - {"secretkey"}) == SigningString(kwargs - {"secretkey"})
  {
    assert kwargs["secretkey" := v] - {"secretkey"} == kwargs - {"secretkey"};
  }
}
