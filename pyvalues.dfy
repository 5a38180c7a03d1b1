/**
 * The slice of Python value semantics the three servers rely on: the scalar
 * values a JSON body can carry, their truthiness (`if x:`), their `str()` form
 * (used by f-strings and by the `str(a) != str(b)` comparison), `dict.get` with
 * a default, and the string methods `upper`, `lower`, `strip` and `startswith`.
 */
module PyValues {

  /** A scalar JSON value as Python sees it after `json.load`/`request.json`.
      A float is kept as its `str()` form (`repr` is what Python prints for it,
      such as "-12.05" or "0.0"); no arithmetic is ever done on it. */
  datatype Val =
    | PyNone
    | PyBool(b: bool)
    | PyInt(i: int)
    | PyFloat(repr: string)
    | PyStr(s: string)

  /** A JSON object whose values are scalars. A missing key is absent from the map. */
  type Fields = map<string, Val>

  /** `d.get(key, default)` */
  function Get(d: Fields, key: string, default: Val): Val {
    if key in d then d[key] else default
  }

  /** Python truthiness: None, False, 0, 0.0 and "" are false, everything else true.
      The only float reprs of zero are "0.0" and "-0.0". */
  predicate Truthy(v: Val) {
    match v
    case PyNone => false
    case PyBool(b) => b
    case PyInt(i) => i != 0
    case PyFloat(r) => r != "0.0" && r != "-0.0"
    case PyStr(s) => s != ""
  }

  predicate IsDigit(c: char) {
    '0' <= c <= '9'
  }

  function DigitChar(d: nat): (c: char)
    requires d < 10
    ensures IsDigit(c) && c as int - '0' as int == d
  {
    ('0' as int + d) as char
  }

  /** Decimal digits of a natural number, most significant first, no leading zero. */
  function NatToDecimal(n: nat): (r: string)
    ensures 1 <= |r| && (n >= 10 ==> 2 <= |r|)
    ensures forall k :: 0 <= k < |r| ==> IsDigit(r[k])
    ensures r[0] == '0' ==> n == 0
    decreases n
  {
    if n < 10 then [DigitChar(n)] else NatToDecimal(n / 10) + [DigitChar(n % 10)]
  }

  /** `str(i)` for a Python int. */
  function IntToDecimal(i: int): string {
    if i < 0 then "-" + NatToDecimal(-i) else NatToDecimal(i)
  }

  /** `str(v)`, which is also what an f-string interpolates. */
  function Str(v: Val): string {
    match v
    case PyNone => "None"
    case PyBool(b) => if b then "True" else "False"
    case PyInt(i) => IntToDecimal(i)
    case PyFloat(r) => r
    case PyStr(s) => s
  }

  lemma {:induction false} NatToDecimalInjective(a: nat, b: nat)
    requires NatToDecimal(a) == NatToDecimal(b)
    ensures a == b
    decreases a
  {
    if a >= 10 && b >= 10 {
      var ra, rb := NatToDecimal(a), NatToDecimal(b);
      assert ra == NatToDecimal(a / 10) + [DigitChar(a % 10)];
      assert rb == NatToDecimal(b / 10) + [DigitChar(b % 10)];
      assert ra[|ra| - 1] == DigitChar(a % 10) && rb[|rb| - 1] == DigitChar(b % 10);
      assert ra[..|ra| - 1] == NatToDecimal(a / 10);
      assert rb[..|rb| - 1] == NatToDecimal(b / 10);
      NatToDecimalInjective(a / 10, b / 10);
    }
  }

  /** Two Python ints have the same `str()` exactly when they are equal. */
  lemma StrIntInjective(a: int, b: int)
    ensures Str(PyInt(a)) == Str(PyInt(b)) <==> a == b
  {
    if Str(PyInt(a)) == Str(PyInt(b)) {
      if a < 0 && b < 0 {
        assert NatToDecimal(-a) == Str(PyInt(a))[1..];
        assert NatToDecimal(-b) == Str(PyInt(b))[1..];
        NatToDecimalInjective(-a, -b);
      } else if a >= 0 && b >= 0 {
        NatToDecimalInjective(a, b);
      }
    }
  }

  // ---------------------------------------------------------------- case mapping

  /** `str.upper` on one character; the model maps the ASCII letters only. */
  function UpperChar(c: char): char {
    if 'a' <= c <= 'z' then (c as int - 32) as char else c
  }

  /** `str.lower` on one character; the model maps the ASCII letters only. */
  function LowerChar(c: char): char {
    if 'A' <= c <= 'Z' then (c as int + 32) as char else c
  }

  function Upper(s: string): (r: string)
    ensures |r| == |s|
  {
    seq(|s|, k requires 0 <= k < |s| => UpperChar(s[k]))
  }

  lemma UpperCharIdempotent(c: char)
    ensures UpperChar(UpperChar(c)) == UpperChar(c)
  {
    if 'a' <= c <= 'z' {
      assert UpperChar(c) as int == c as int - 32;
    }
  }

  function Lower(s: string): (r: string)
    ensures |r| == |s|
  {
    seq(|s|, k requires 0 <= k < |s| => LowerChar(s[k]))
  }

  /** Lower-casing forgets a prior upper-casing. */
  lemma LowerOfUpper(s: string)
    ensures Lower(Upper(s)) == Lower(s)
  {
    forall k | 0 <= k < |s|
      ensures Lower(Upper(s))[k] == Lower(s)[k]
    {
      var c := s[k];
      if 'a' <= c <= 'z' {
        assert UpperChar(c) as int == c as int - 32;
      }
    }
  }

  /** Lower-casing twice is lower-casing once. */
  lemma LowerIdempotent(s: string)
    ensures Lower(Lower(s)) == Lower(s)
  {
    forall k | 0 <= k < |s|
      ensures Lower(Lower(s))[k] == Lower(s)[k]
    {
      var c := s[k];
      if 'A' <= c <= 'Z' {
        assert LowerChar(c) as int == c as int + 32;
      }
    }
  }

  // ---------------------------------------------------------------- strip

  /** `str.isspace` for one character: the characters Python's `strip()` removes. */
  predicate IsSpace(c: char) {
    c == ' ' || c == '\t' || c == '\n' || c == '\r' || c == '\U{b}' || c == '\U{c}'
    || ('\U{1c}' <= c <= '\U{1f}') || c == '\U{85}' || c == '\U{a0}' || c == '\U{1680}'
    || ('\U{2000}' <= c <= '\U{200a}') || c == '\U{2028}' || c == '\U{2029}'
    || c == '\U{202f}' || c == '\U{205f}' || c == '\U{3000}'
  }

  /** `s.lstrip()` */
  function TrimStart(s: string): string {
    if s != [] && IsSpace(s[0]) then TrimStart(s[1..]) else s
  }

  /** `s.rstrip()` */
  function TrimEnd(s: string): string {
    if s != [] && IsSpace(s[|s| - 1]) then TrimEnd(s[..|s| - 1]) else s
  }

  /** `lstrip` leaves the suffix that follows the leading whitespace. */
  lemma {:induction false} TrimStartSpec(s: string)
    ensures |TrimStart(s)| <= |s| && TrimStart(s) == s[|s| - |TrimStart(s)|..]
    ensures forall k :: 0 <= k < |s| - |TrimStart(s)| ==> IsSpace(s[k])
    ensures TrimStart(s) == [] || !IsSpace(TrimStart(s)[0])
  {
    if s != [] && IsSpace(s[0]) {
      var tail := s[1..];
      TrimStartSpec(tail);
      var r := TrimStart(tail);
      assert TrimStart(s) == r;
      assert tail[|tail| - |r|..] == s[|s| - |r|..];
      forall k | 1 <= k < |s| - |r|
        ensures IsSpace(s[k])
      {
        assert s[k] == tail[k - 1];
      }
    }
  }

  /** `rstrip` leaves the prefix that precedes the trailing whitespace. */
  lemma {:induction false} TrimEndSpec(s: string)
    ensures |TrimEnd(s)| <= |s| && TrimEnd(s) == s[..|TrimEnd(s)|]
    ensures forall k :: |TrimEnd(s)| <= k < |s| ==> IsSpace(s[k])
    ensures TrimEnd(s) == [] || !IsSpace(TrimEnd(s)[|TrimEnd(s)| - 1])
  {
    if s != [] && IsSpace(s[|s| - 1]) {
      var init := s[..|s| - 1];
      TrimEndSpec(init);
      var r := TrimEnd(init);
      assert TrimEnd(s) == r;
      assert init[..|r|] == s[..|r|];
      forall k | |r| <= k < |s| - 1
        ensures IsSpace(s[k])
      {
        assert s[k] == init[k];
      }
    }
  }

  /** Where `s.strip()` starts in `s`: the length of the leading whitespace. */
  function StripOffset(s: string): (k: nat)
    ensures k <= |s|
  {
    TrimStartSpec(s);
    |s| - |TrimStart(s)|
  }

  /** `s.strip()`: the slice of `s` between its leading and its trailing whitespace. */
  function Strip(s: string): (r: string)
    ensures StripOffset(s) + |r| <= |s| && r == s[StripOffset(s)..StripOffset(s) + |r|]
    ensures forall k :: 0 <= k < StripOffset(s) ==> IsSpace(s[k])
    ensures forall k :: StripOffset(s) + |r| <= k < |s| ==> IsSpace(s[k])
    ensures r == [] || (!IsSpace(r[0]) && !IsSpace(r[|r| - 1]))
  {
    var t := TrimStart(s);
    TrimStartSpec(s);
    var r := TrimEnd(t);
    TrimEndSpec(t);
    var start := |s| - |t|;
    assert r == s[start..start + |r|] by {
      assert s[start..][..|r|] == s[start..start + |r|];
    }
    forall k | start + |r| <= k < |s|
      ensures IsSpace(s[k])
    {
      assert s[k] == t[k - start];
    }
    r
  }

  /** Stripping twice is stripping once. */
  lemma StripIdempotent(s: string)
    ensures Strip(Strip(s)) == Strip(s)
  {
    var r := Strip(s);
    assert TrimStart(r) == r;
    assert TrimEnd(r) == r;
  }

  /** A word between one leading and one trailing whitespace character strips to itself. */
  lemma StripPadded(a: char, w: string, b: char)
    requires IsSpace(a) && IsSpace(b) && w != [] && !IsSpace(w[0]) && !IsSpace(w[|w| - 1])
    ensures Strip([a] + w + [b]) == w
  {
    var s := [a] + w + [b];
    assert s[1..] == w + [b];
    assert TrimStart(s) == w + [b];
    assert (w + [b])[..|w|] == w;
    assert TrimEnd(w + [b]) == w;
  }

  /** `s.startswith(p)` */
  predicate StartsWith(s: string, p: string) {
    |p| <= |s| && s[..|p|] == p
  }
}
