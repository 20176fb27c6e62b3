/** Shared vocabulary of the control plane: optional values, HTTP-style
    errors, the configuration values read from the environment, and the
    handful of Python string operations the core relies on (prefix, suffix,
    substring tests, `s[:n]`, `str(int)`, ASCII `lower()` and `strip()`). */
module Common {

  datatype Option<+T> = None | Some(value: T)

  /** An HTTP error as raised by the service: a status code and a detail text. */
  datatype HttpError = HttpError(status: int, detail: string)

  datatype Result<+T> = Ok(value: T) | Err(error: HttpError)

  /** The values `src/config.py` reads from the environment. */
  datatype Config = Config(
    maxFileSizeMb: nat,
    maxJobDurationHours: nat,
    defaultMaxCpu: int,
    defaultMaxMemoryGi: int,
    defaultMaxConcurrentJobs: int,
    apiKeyPrefix: string,
    apiKeyLength: nat,
    resultStorageType: string,
    s3Bucket: string,
    gcsBucket: string,
    azureStorageAccount: string,
    azureContainer: string)

  /** The configuration when no environment variable is set. */
  const DefaultConfig := Config(100, 24, 10, 20, 2, "sk-", 32, "auto", "", "", "", "")

  // ---------------------------------------------------------------------
  // Sequence and string predicates

  predicate StartsWith(s: string, p: string) {
    |p| <= |s| && s[..|p|] == p
  }

  predicate EndsWith(s: string, p: string) {
    |p| <= |s| && s[|s| - |p|..] == p
  }

  predicate OccursAt(s: string, sub: string, i: int) {
    0 <= i <= |s| - |sub| && s[i..i + |sub|] == sub
  }

  /** Python's `sub in s`, as a left-to-right search. */
  predicate Contains(s: string, sub: string)
    decreases |s|
  {
    StartsWith(s, sub) || (s != [] && Contains(s[1..], sub))
  }

  /** An occurrence at any index makes `sub in s` hold. */
  lemma {:induction false} ContainsAt(s: string, sub: string, i: nat)
    requires OccursAt(s, sub, i)
    ensures Contains(s, sub)
  {
    if i > 0 {
      assert s[1..][i - 1..i - 1 + |sub|] == s[i..i + |sub|];
      ContainsAt(s[1..], sub, i - 1);
    } else {
      assert StartsWith(s, sub);
    }
  }

  /** Without an occurrence at any index, `sub in s` fails. */
  lemma {:induction false} NotContainsAt(s: string, sub: string)
    requires forall i :: 0 <= i <= |s| - |sub| ==> !OccursAt(s, sub, i)
    ensures !Contains(s, sub)
  {
    assert !OccursAt(s, sub, 0);
    if s != [] {
      forall i | 0 <= i <= |s[1..]| - |sub| ensures !OccursAt(s[1..], sub, i) {
        assert !OccursAt(s, sub, i + 1);
        assert s[1..][i..i + |sub|] == s[i + 1..i + 1 + |sub|];
      }
      NotContainsAt(s[1..], sub);
    }
  }

  /** Python's `s[:n]`. */
  function Take(s: string, n: nat): (r: string)
    ensures |r| == if |s| < n then |s| else n
    ensures r <= s
  {
    if |s| <= n then s else s[..n]
  }

  // ---------------------------------------------------------------------
  // Characters

  predicate IsAsciiUpper(c: char) { 'A' <= c <= 'Z' }
  predicate IsAsciiLower(c: char) { 'a' <= c <= 'z' }
  predicate IsDigit(c: char) { '0' <= c <= '9' }
  predicate IsAsciiAlnum(c: char) { IsAsciiUpper(c) || IsAsciiLower(c) || IsDigit(c) }

  /** The ASCII characters Python's `str.strip()` removes: space, tab,
      newline, carriage return, vertical tab, form feed and the four
      separators 0x1C to 0x1F. */
  predicate IsSpace(c: char) {
    c == ' ' || ('\t' <= c <= '\r') || ('\U{1C}' <= c <= '\U{1F}')
  }

  function LowerChar(c: char): (r: char)
    ensures !IsAsciiUpper(r)
    ensures !IsAsciiUpper(c) ==> r == c
  {
    if IsAsciiUpper(c) then (c as int + 32) as char else c
  }

  /** Python's `s.lower()` on ASCII letters. */
  function Lower(s: string): (r: string)
    ensures |r| == |s|
    ensures forall i :: 0 <= i < |s| ==> r[i] == LowerChar(s[i])
  {
    if s == [] then [] else [LowerChar(s[0])] + Lower(s[1..])
  }

  /** Python's `s.strip()`: drop the whitespace at both ends. */
  function Strip(s: string): (r: string)
    ensures r == [] || (!IsSpace(r[0]) && !IsSpace(r[|r| - 1]))
    ensures exists i, j :: 0 <= i <= j <= |s| && r == s[i..j]
    ensures (forall k :: 0 <= k < |s| ==> !IsSpace(s[k])) ==> r == s
  {
    var t := StripLeft(s);
    var u := StripRight(t);
    assert u == s[|s| - |t|..|s| - |t| + |u|];
    u
  }

  function StripLeft(s: string): (r: string)
    ensures r == [] || !IsSpace(r[0])
    ensures |r| <= |s| && r == s[|s| - |r|..]
    ensures (forall k :: 0 <= k < |s| ==> !IsSpace(s[k])) ==> r == s
  {
    if s != [] && IsSpace(s[0]) then StripLeft(s[1..]) else s
  }

  function StripRight(s: string): (r: string)
    ensures r == [] || !IsSpace(r[|r| - 1])
    ensures |r| <= |s| && r == s[..|r|]
    ensures (forall k :: 0 <= k < |s| ==> !IsSpace(s[k])) ==> r == s
  {
    if s != [] && IsSpace(s[|s| - 1]) then StripRight(s[..|s| - 1]) else s
  }

  // ---------------------------------------------------------------------
  // Decimal rendering, Python's `str(n)` for integers

  function DigitChar(d: nat): (c: char)
    requires d < 10
    ensures IsDigit(c)
  {
    ('0' as int + d) as char
  }

  function NatToString(n: nat): (r: string)
    ensures |r| >= 1
    ensures forall i :: 0 <= i < |r| ==> IsDigit(r[i])
    ensures r[0] == '0' ==> n == 0
  {
    if n < 10 then [DigitChar(n)] else NatToString(n / 10) + [DigitChar(n % 10)]
  }

  function IntToString(n: int): (r: string)
    ensures |r| >= 1
    ensures n >= 0 ==> r == NatToString(n)
    ensures n < 0 ==> r[0] == '-'
  {
    if n >= 0 then NatToString(n) else "-" + NatToString(-n)
  }

  /** Reads back the decimal digits NatToString writes. */
  function ParseDigits(s: string): (n: nat)
    requires forall i :: 0 <= i < |s| ==> IsDigit(s[i])
  {
    if s == [] then 0
    else
      assert IsDigit(s[|s| - 1]);
      ParseDigits(s[..|s| - 1]) * 10 + (s[|s| - 1] as int - '0' as int)
  }

  lemma {:induction false} NatToStringRoundTrip(n: nat)
    ensures ParseDigits(NatToString(n)) == n
  {
    if n >= 10 {
      var r := NatToString(n);
      assert r[..|r| - 1] == NatToString(n / 10);
      NatToStringRoundTrip(n / 10);
    }
  }

  /** Distinct integers render differently, so `str(cpu)` and
      `f"{m}Gi"` comparisons decide equality of the numbers. */
  lemma NatToStringInjective(a: nat, b: nat)
    requires NatToString(a) == NatToString(b)
    ensures a == b
  {
    NatToStringRoundTrip(a);
    NatToStringRoundTrip(b);
  }

  lemma IntToStringInjective(a: int, b: int)
    requires IntToString(a) == IntToString(b)
    ensures a == b
  {
    if a >= 0 && b >= 0 {
      NatToStringInjective(a, b);
    } else if a < 0 && b < 0 {
      assert IntToString(a)[1..] == NatToString(-a);
      assert IntToString(b)[1..] == NatToString(-b);
      NatToStringInjective(-a, -b);
    }
  }

  /** The memory quantity text `f"{m}Gi"`. */
  function GiText(m: int): (r: string)
    ensures EndsWith(r, "Gi")
  {
    IntToString(m) + "Gi"
  }

  /** The number a plain decimal quantity such as "4" denotes; None when
      the text is not all digits. */
  function DecimalValue(s: string): Option<nat> {
    if s != [] && forall i :: 0 <= i < |s| ==> IsDigit(s[i]) then Some(ParseDigits(s)) else None
  }

  /** The number of Gi a quantity such as "8Gi" denotes; None otherwise. */
  function GiValue(s: string): Option<nat> {
    if |s| >= 2 && s[|s| - 2..] == "Gi" then DecimalValue(s[..|s| - 2]) else None
  }

  /** A non-negative number reads back from its rendering, plain or in Gi. */
  lemma QuantityRoundTrip(n: nat)
    ensures DecimalValue(IntToString(n)) == Some(n)
    ensures GiValue(GiText(n)) == Some(n)
  {
    NatToStringRoundTrip(n);
    var g := GiText(n);
    assert g[..|g| - 2] == IntToString(n);
    assert g[|g| - 2..] == "Gi";
  }

  lemma GiTextInjective(a: int, b: int)
    requires GiText(a) == GiText(b)
    ensures a == b
  {
    assert IntToString(a) == GiText(a)[..|GiText(a)| - 2];
    assert IntToString(b) == GiText(b)[..|GiText(b)| - 2];
    IntToStringInjective(a, b);
  }
}
