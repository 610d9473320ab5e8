/** `camel2under`: the API's camelCase names (`agentId`) turned into the SDK's
    underscore-delimited names (`agent_id`). Characters are classified as ASCII. */
module Naming {

  predicate IsLower(c: char) { 'a' <= c <= 'z' }

  predicate IsUpper(c: char) { 'A' <= c <= 'Z' }

  /** `c.lower()` on one character. */
  function ToLower(c: char): (d: char)
    ensures !IsUpper(d)
    ensures IsUpper(c) ==> IsLower(d) && d as int == c as int + 32
    ensures !IsUpper(c) ==> d == c
  {
    if IsUpper(c) then (c as int + 32) as char else c
  }

  /** `s.lower()`. */
  function Lower(s: string): (r: string)
    ensures |r| == |s|
    ensures forall i | 0 <= i < |s| :: r[i] == ToLower(s[i])
  {
    seq(|s|, i requires 0 <= i < |s| => ToLower(s[i]))
  }

  predicate NoUpper(s: string)
  {
    forall i | 0 <= i < |s| :: !IsUpper(s[i])
  }

  /** An underscore goes after index `i`: a lowercase letter followed by an uppercase one. */
  predicate Boundary(w: string, i: int)
  {
    0 <= i < |w| - 1 && IsLower(w[i]) && IsUpper(w[i + 1])
  }

  /** Number of boundaries at indices below `n`. */
  function BoundaryCount(w: string, n: nat): nat
    requires n <= |w|
  {
    if n == 0 then 0 else BoundaryCount(w, n - 1) + (if Boundary(w, n - 1) then 1 else 0)
  }

  /** The first `n` characters of `w`, each followed by `_` when it ends a
      boundary: the contents of `result_list` after `n` rounds of the loop. */
  function Spaced(w: string, n: nat): string
    requires n <= |w|
  {
    if n == 0 then [] else Spaced(w, n - 1) + [w[n - 1]] + (if Boundary(w, n - 1) then "_" else "")
  }

  /** What `camel2under(w)` returns. */
  function CamelToUnder(w: string): string
    requires |w| > 0
  {
    Lower(Spaced(w, |w|))
  }

  /** `camel2under` (monitis/api.py:52-60): copy each character but the last,
      adding `_` after a lower→upper boundary, then the last one, then lowercase. */
  method Camel2Under(word: string) returns (r: string)
    requires |word| > 0
    ensures r == CamelToUnder(word)
  {
    var resultList: string := [];
    var i := 0;
    while i < |word| - 1
      invariant 0 <= i <= |word| - 1
      invariant resultList == Spaced(word, i)
    {
      resultList := resultList + [word[i]];
      if Boundary(word, i) {
        resultList := resultList + ['_'];
      }
      i := i + 1;
    }
    resultList := resultList + [word[|word| - 1]];
    r := Lower(resultList);
  }

  /** Each character adds itself and, after a boundary, one underscore. */
  lemma {:induction false} SpacedLength(w: string, n: nat)
    requires n <= |w|
    ensures |Spaced(w, n)| == n + BoundaryCount(w, n)
  {
    if n > 0 {
      SpacedLength(w, n - 1);
    }
  }

  /** Later rounds only append. */
  lemma {:induction false} SpacedPrefix(w: string, m: nat, n: nat)
    requires m <= n <= |w|
    ensures |Spaced(w, m)| <= |Spaced(w, n)| && Spaced(w, n)[..|Spaced(w, m)|] == Spaced(w, m)
  {
    if m < n {
      SpacedPrefix(w, m, n - 1);
      var a, b := Spaced(w, m), Spaced(w, n - 1);
      assert Spaced(w, n) == b + ([w[n - 1]] + (if Boundary(w, n - 1) then "_" else ""));
      assert Spaced(w, n)[..|b|] == b;
      assert b[..|a|] == a;
    }
  }

  /** Original character `i` lands at `i + BoundaryCount(w, i)`, an inserted
      `_` follows it exactly when `i` is a boundary, and the length grows by the
      number of boundaries. */
  lemma InsertedPositions(w: string, i: nat)
    requires i < |w|
    ensures |Spaced(w, |w|)| == |w| + BoundaryCount(w, |w|)
    ensures i + BoundaryCount(w, i) < |Spaced(w, |w|)| && Spaced(w, |w|)[i + BoundaryCount(w, i)] == w[i]
    ensures Boundary(w, i) ==>
      i + BoundaryCount(w, i) + 1 < |Spaced(w, |w|)| && Spaced(w, |w|)[i + BoundaryCount(w, i) + 1] == '_'
  {
    SpacedLength(w, |w|);
    SpacedLength(w, i);
    SpacedLength(w, i + 1);
    SpacedPrefix(w, i + 1, |w|);
    var full, upto := Spaced(w, |w|), Spaced(w, i + 1);
    assert full[..|upto|] == upto;
    assert upto[i + BoundaryCount(w, i)] == w[i];
    assert full[i + BoundaryCount(w, i)] == upto[i + BoundaryCount(w, i)];
    if Boundary(w, i) {
      assert full[i + BoundaryCount(w, i) + 1] == upto[i + BoundaryCount(w, i) + 1];
    }
  }

  /** And nowhere else: every position of the output is an original character
      or an underscore inserted after a boundary. */
  lemma {:induction false} InsertedCover(w: string, n: nat, p: nat)
    requires n <= |w| && p < |Spaced(w, n)|
    ensures exists i :: (0 <= i < n &&
      (p == i + BoundaryCount(w, i) || (Boundary(w, i) && p == i + BoundaryCount(w, i) + 1)))
  {
    SpacedLength(w, n - 1);
    if p < |Spaced(w, n - 1)| {
      InsertedCover(w, n - 1, p);
    } else {
      var i := n - 1;
      assert p == i + BoundaryCount(w, i) || (Boundary(w, i) && p == i + BoundaryCount(w, i) + 1);
    }
  }

  /** Without uppercase letters there is no boundary, so nothing is inserted. */
  lemma {:induction false} NoUpperUnchanged(w: string, n: nat)
    requires n <= |w| && NoUpper(w)
    ensures Spaced(w, n) == w[..n]
  {
    if n > 0 {
      NoUpperUnchanged(w, n - 1);
      assert w[..n] == w[..n - 1] + [w[n - 1]];
    }
  }

  /** The result has no uppercase letter, grows by one character per boundary,
      and converting it again changes nothing. */
  lemma CamelToUnderProperties(w: string)
    requires |w| > 0
    ensures NoUpper(CamelToUnder(w))
    ensures |CamelToUnder(w)| == |w| + BoundaryCount(w, |w|)
    ensures CamelToUnder(CamelToUnder(w)) == CamelToUnder(w)
  {
    SpacedLength(w, |w|);
    var u := CamelToUnder(w);
    NoUpperUnchanged(u, |u|);
    assert u[..|u|] == u;
    assert Lower(u) == u;
  }

  /** Names already in SDK format are left as they are. */
  lemma LowercaseUnchanged(w: string)
    requires |w| > 0 && NoUpper(w)
    ensures CamelToUnder(w) == w
  {
    NoUpperUnchanged(w, |w|);
    assert w[..|w|] == w;
  }
}
