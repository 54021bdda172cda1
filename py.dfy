/// The few Python built-ins the diagram code relies on: the exceptions it can
/// end in, list indexing (negative indices count from the end), the first
/// token of `str.split()`, `str.split(c)[1]` on a string that starts with `c`,
/// `bool()` of a string, and the `int()` / `float()` conversions of a token,
/// written as partial functions.
module Py {

  /** The exceptions the modelled code can stop with; `SystemExit` stands for `exit()`. */
  datatype Error = IndexError | ValueError | UnboundLocalError | SystemExit

  datatype Option<+T> = None | Some(value: T)

  /** A value, or the exception that interrupted its computation. */
  datatype Result<+T> = Ok(value: T) | Err(error: Error) {
    predicate IsFailure() { Err? }

    function PropagateFailure<U>(): Result<U>
      requires Err?
    {
      Err(error)
    }

    function Extract(): T
      requires Ok?
    {
      value
    }
  }

  function Max(a: real, b: real): real { if b > a then b else a }

  function Min(a: real, b: real): real { if b < a then b else a }

  /** `s[j]` on a Python list: `-|s| <= j < 0` counts from the end, anything else raises. */
  function PyIndex<T>(s: seq<T>, j: int): (r: Option<T>)
    ensures r.Some? <==> -|s| <= j < |s|
    ensures 0 <= j < |s| ==> r == Some(s[j])
    ensures -|s| <= j < 0 ==> r == Some(s[|s| + j])
  {
    if 0 <= j < |s| then Some(s[j])
    else if -|s| <= j < 0 then Some(s[|s| + j])
    else None
  }

  // ---------------------------------------------------------------------------
  // Strings

  /** The characters `str.isspace()` accepts, which are the separators of `str.split()`. */
  predicate IsSpace(c: char) {
    var n := c as int;
    (9 <= n <= 13) || (28 <= n <= 32) || n == 0x85 || n == 0xA0 || n == 0x1680
    || (0x2000 <= n <= 0x200A) || n == 0x2028 || n == 0x2029 || n == 0x202F
    || n == 0x205F || n == 0x3000
  }

  predicate NoSpace(s: string) { forall i :: 0 <= i < |s| ==> !IsSpace(s[i]) }

  predicate AllSpace(s: string) { forall i :: 0 <= i < |s| ==> IsSpace(s[i]) }

  /** `s` without its leading whitespace. */
  function DropSpace(s: string): (r: string)
    ensures |r| <= |s| && r == s[|s| - |r|..]
    ensures AllSpace(s[..|s| - |r|])
    ensures r == [] || !IsSpace(r[0])
  {
    if s != [] && IsSpace(s[0]) then DropSpace(s[1..]) else s
  }

  /** The longest prefix of `s` without whitespace. */
  function TokenPrefix(s: string): (r: string)
    ensures |r| <= |s| && r == s[..|r|]
    ensures NoSpace(r)
    ensures |r| == |s| || IsSpace(s[|r|])
  {
    if s != [] && !IsSpace(s[0]) then [s[0]] + TokenPrefix(s[1..]) else []
  }

  /** `s.split()[0]`, or None where Python raises IndexError because `s.split()` is empty. */
  function FirstToken(s: string): (r: Option<string>)
  {
    var t := DropSpace(s);
    if t == [] then None else Some(TokenPrefix(t))
  }

  /** `FirstToken` finds the first maximal run of non-whitespace characters, and
      finds nothing exactly when the string is all whitespace. */
  lemma FirstTokenIsFirstRun(s: string) returns (lead: nat)
    ensures FirstToken(s).None? <==> AllSpace(s)
    ensures FirstToken(s).Some? ==>
      var tok := FirstToken(s).value;
      && tok != [] && NoSpace(tok)
      && lead + |tok| <= |s| && s[lead..lead + |tok|] == tok
      && AllSpace(s[..lead])
      && (lead + |tok| == |s| || IsSpace(s[lead + |tok|]))
  {
    var t := DropSpace(s);
    lead := |s| - |t|;
    if t == [] {
      assert s[..lead] == s;
    } else {
      assert !AllSpace(s) by { assert !IsSpace(s[lead]); }
      var tok := TokenPrefix(t);
      assert s[lead..lead + |tok|] == tok;
    }
  }

  /** A token followed by nothing or by whitespace is the first token, whatever whitespace precedes it. */
  lemma {:induction false} FirstTokenOf(pre: string, tok: string, rest: string)
    requires AllSpace(pre) && tok != [] && NoSpace(tok)
    requires rest == [] || IsSpace(rest[0])
    ensures FirstToken(pre + tok + rest) == Some(tok)
  {
    var s := pre + tok + rest;
    if pre == [] {
      assert s == tok + rest;
      assert DropSpace(s) == s;
      TokenPrefixOf(tok, rest);
    } else {
      assert s[1..] == pre[1..] + tok + rest;
      FirstTokenOf(pre[1..], tok, rest);
    }
  }

  lemma {:induction false} TokenPrefixOf(tok: string, rest: string)
    requires NoSpace(tok)
    requires rest == [] || IsSpace(rest[0])
    ensures TokenPrefix(tok + rest) == tok
  {
    if tok != [] {
      assert (tok + rest)[1..] == tok[1..] + rest;
      TokenPrefixOf(tok[1..], rest);
    } else {
      assert tok + rest == rest;
    }
  }

  /** The part of `s` before the first `c`: `s.split(c)[0]`. */
  function Before(s: string, c: char): (r: string)
    ensures |r| <= |s| && r == s[..|r|]
    ensures forall i :: 0 <= i < |r| ==> r[i] != c
    ensures |r| == |s| || s[|r|] == c
  {
    if s == [] || s[0] == c then [] else [s[0]] + Before(s[1..], c)
  }

  /** `bool(s)` for a string: true exactly when it is non-empty. */
  predicate PyBool(s: string) { |s| > 0 }

  // ---------------------------------------------------------------------------
  // int() and float() of a token

  predicate IsDigit(c: char) { '0' <= c <= '9' }

  predicate AllDigits(s: string) { forall i :: 0 <= i < |s| ==> IsDigit(s[i]) }

  function DigitValue(c: char): nat
    requires IsDigit(c)
  {
    c as int - '0' as int
  }

  function DigitChar(d: nat): (c: char)
    requires d < 10
    ensures IsDigit(c) && DigitValue(c) == d
  {
    ('0' as int + d) as char
  }

  /** The number a string of decimal digits denotes. */
  function DigitsValue(ds: string): nat
    requires AllDigits(ds)
  {
    if ds == [] then 0 else DigitsValue(ds[..|ds| - 1]) * 10 + DigitValue(ds[|ds| - 1])
  }

  predicate Negative(s: string) { s != [] && s[0] == '-' }

  /** `s` without one leading sign character. */
  function Unsigned(s: string): string {
    if s != [] && (s[0] == '+' || s[0] == '-') then s[1..] else s
  }

  /** `int(s)` for a token: an optional sign and one or more decimal digits. */
  function ParseInt(s: string): (r: Option<int>)
  {
    var d := Unsigned(s);
    if d != [] && AllDigits(d) then
      var v: int := DigitsValue(d);
      Some(if Negative(s) then -v else v)
    else None
  }

  /** Decimal rendering of a natural number, most significant digit first. */
  function NatToString(n: nat): (s: string)
    ensures s != [] && AllDigits(s)
    decreases n
  {
    if n < 10 then [DigitChar(n)] else NatToString(n / 10) + [DigitChar(n % 10)]
  }

  /** `str(n)` for an int. */
  function IntToString(n: int): string {
    if n < 0 then "-" + NatToString(-n) else NatToString(n)
  }

  lemma {:induction false} NatToStringValue(n: nat)
    ensures DigitsValue(NatToString(n)) == n
  {
    if n >= 10 {
      var s := NatToString(n);
      assert s[..|s| - 1] == NatToString(n / 10);
      NatToStringValue(n / 10);
    }
  }

  /** `int(str(n)) == n`. */
  lemma ParseIntRoundTrip(n: int)
    ensures ParseInt(IntToString(n)) == Some(n)
  {
    var s := IntToString(n);
    if n < 0 {
      assert Unsigned(s) == NatToString(-n);
      NatToStringValue(-n);
    } else {
      NatToStringValue(n);
    }
  }

  function Pow10(n: nat): (r: real)
    ensures r >= 1.0
  {
    if n == 0 then 1.0 else 10.0 * Pow10(n - 1)
  }

  /** `s` up to its first exponent marker `e` or `E`. */
  function Mantissa(s: string): (r: string)
    ensures |r| <= |s| && r == s[..|r|]
    ensures |r| == |s| || s[|r|] == 'e' || s[|r|] == 'E'
  {
    if s == [] || s[0] == 'e' || s[0] == 'E' then [] else [s[0]] + Mantissa(s[1..])
  }

  /** The value of `digits[.digits]`, None when it is not of that form or has no digit at all. */
  function DecimalValue(m: string): Option<real>
  {
    var whole := Before(m, '.');
    var frac := if |whole| < |m| then m[|whole| + 1..] else [];
    if AllDigits(whole) && AllDigits(frac) && |whole| + |frac| > 0 then
      Some(DigitsValue(whole) as real + DigitsValue(frac) as real / Pow10(|frac|))
    else None
  }

  /** `float(s)` for a finite decimal token: an optional sign, digits with an optional
      fraction, and an optional exponent `e`/`E` with an optional sign. */
  function ParseFloat(s: string): (r: Option<real>)
  {
    var body := Unsigned(s);
    var m := Mantissa(body);
    var e := if |m| < |body| then ParseInt(body[|m| + 1..]) else Some(0);
    match (DecimalValue(m), e)
    case (Some(v), Some(x)) =>
      var mag := if x >= 0 then v * Pow10(x) else v / Pow10(-x);
      Some(if Negative(s) then -mag else mag)
    case _ => None
  }

  /** `float()` and `int()` agree on every token `int()` accepts. */
  lemma ParseFloatOfInt(s: string)
    requires ParseInt(s).Some?
    ensures ParseFloat(s) == Some(ParseInt(s).value as real)
  {
    var body := Unsigned(s);
    NoMarkerIn(body);
    assert Mantissa(body) == body;
    assert Before(body, '.') == body;
  }

  lemma {:induction false} NoMarkerIn(ds: string)
    requires AllDigits(ds)
    ensures Mantissa(ds) == ds && Before(ds, '.') == ds
  {
    if ds != [] {
      NoMarkerIn(ds[1..]);
    }
  }
}
