/** Python values as the SDK sees them: keyword-argument values, the error it
    raises, and the decimal rendering `str()` gives integers. */
module Types {

  datatype Option<+T> = None | Some(value: T)

  /** The two ways a call can fail: a `MonitisError` raised by the SDK, or a
      `TypeError` raised by Python when a keyword argument is bound twice or
      when `hmac` is given a key that is not a string. */
  datatype Error = MonitisError(msg: string) | TypeError(msg: string)

  datatype Result<+T> = Ok(value: T) | Err(error: Error)

  /** A keyword-argument value: `None`, a string, an integer or a boolean. */
  datatype Value = Null | Str(s: string) | Int(i: int) | Bool(b: bool)

  /** Keyword arguments, and every dictionary of request parameters. */
  type Kwargs = map<string, Value>

  /** Python truthiness: `None`, `''`, `0` and `False` are false. */
  predicate Truthy(v: Value)
  {
    match v
    case Null => false
    case Str(s) => s != ""
    case Int(i) => i != 0
    case Bool(b) => b
  }

  /** The value `d.get(k)` / `d.pop(k, None)` yields: `None` when `k` is absent. */
  function Get(m: Kwargs, k: string): (v: Value)
    ensures v != Null ==> k in m && m[k] == v
    ensures k in m ==> v == m[k]
  {
    if k in m then m[k] else Null
  }

  /** `k` is present in `m` with a value other than `None`. */
  predicate HasValue(m: Kwargs, k: string)
  {
    k in m && m[k] != Null
  }

  predicate IsDigit(c: char) { '0' <= c <= '9' }

  function DigitChar(d: nat): (c: char)
    requires d < 10
    ensures IsDigit(c) && c as int - '0' as int == d
  {
    (d + '0' as int) as char
  }

  /** Decimal digits of a natural number, without leading zeros. */
  function NatToString(n: nat): (s: string)
    ensures |s| > 0
    ensures forall i | 0 <= i < |s| :: IsDigit(s[i])
    decreases n
  {
    if n < 10 then [DigitChar(n)] else NatToString(n / 10) + [DigitChar(n % 10)]
  }

  /** Python 2 `str()` of an integer. */
  function IntToString(i: int): (s: string)
    ensures |s| > 0
  {
    if i < 0 then "-" + NatToString(-i) else NatToString(i)
  }

  function DigitValue(c: char): nat
    requires IsDigit(c)
  {
    c as int - '0' as int
  }

  /** The number a string of decimal digits denotes (the partner of `NatToString`). */
  function ParseNat(s: string): nat
    requires forall i | 0 <= i < |s| :: IsDigit(s[i])
  {
    if s == [] then 0
    else ParseNat(s[..|s| - 1]) * 10 + DigitValue(s[|s| - 1])
  }

  /** The number an optionally signed decimal string denotes. */
  function ParseInt(s: string): int
    requires |s| > 0 ==> s[0] == '-' || IsDigit(s[0])
    requires forall i | 0 < i < |s| :: IsDigit(s[i])
  {
    if |s| > 0 && s[0] == '-' then 0 - ParseNat(s[1..]) as int else ParseNat(s)
  }

  lemma {:induction false} ParseNatToString(n: nat)
    ensures ParseNat(NatToString(n)) == n
    decreases n
  {
    if n >= 10 {
      var s := NatToString(n);
      assert s[..|s| - 1] == NatToString(n / 10);
      ParseNatToString(n / 10);
    }
  }

  /** Reading back what `str()` wrote gives the integer again. */
  lemma ParseIntToString(i: int)
    ensures ParseInt(IntToString(i)) == i
  {
    if i < 0 {
      assert IntToString(i)[1..] == NatToString(-i);
      ParseNatToString(-i);
    } else {
      ParseNatToString(i);
    }
  }

  /** Appending the digits "000" multiplies the denoted number by 1000. */
  lemma AppendThreeZeros(s: string)
    requires forall i | 0 <= i < |s| :: IsDigit(s[i])
    ensures forall i | 0 <= i < |s + "000"| :: IsDigit((s + "000")[i])
    ensures ParseNat(s + "000") == ParseNat(s) * 1000
  {
    var t1, t2, t3 := s + "0", s + "00", s + "000";
    assert t1[..|t1| - 1] == s;
    assert t2[..|t2| - 1] == t1;
    assert t3[..|t3| - 1] == t2;
    assert ParseNat(t1) == ParseNat(s) * 10;
    assert ParseNat(t2) == ParseNat(t1) * 10;
  }

  /** Python 2 `type(v).__name__` of a keyword-argument value. */
  function TypeName(v: Value): string
  {
    match v
    case Null => "NoneType"
    case Str(_) => "str"
    case Int(_) => "int"
    case Bool(_) => "bool"
  }

  /** Python 2 `str()` of a keyword-argument value. */
  function Show(v: Value): string
  {
    match v
    case Null => "None"
    case Str(s) => s
    case Int(i) => IntToString(i)
    case Bool(b) => if b then "True" else "False"
  }
}
