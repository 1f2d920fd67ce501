/** The Python string operations the four adapters rely on, stated on `string`
    (a sequence of characters): `startswith`, `in`, `replace`, `strip`, `int(...)`
    and `str(...)` of an integer. */
module Text {
  import opened Wrappers

  /** `s.startswith(p)` */
  predicate StartsWith(s: string, p: string) {
    |p| <= |s| && s[..|p|] == p
  }

  /** `sub in s`: `sub` occurs in `s` at some position. */
  predicate Contains(s: string, sub: string)
    decreases |s|
  {
    StartsWith(s, sub) || (|s| > 0 && Contains(s[1..], sub))
  }

  /** `s.replace(pat, rep)`: every non-overlapping occurrence of `pat`, scanning from the
      left, is replaced by `rep`. (Python's behaviour for an empty `pat` is never used.) */
  function Replace(s: string, pat: string, rep: string): string
    requires |pat| > 0
    decreases |s|
  {
    if |s| < |pat| then s
    else if s[..|pat|] == pat then rep + Replace(s[|pat|..], pat, rep)
    else [s[0]] + Replace(s[1..], pat, rep)
  }

  /** `c.isspace()` for a single character: the Unicode whitespace characters Python
      recognises. */
  predicate IsSpace(c: char) {
    c == ' ' || c == '\t' || c == '\n' || c == '\r' || c == '\U{0B}' || c == '\U{0C}'
    || ('\U{1C}' <= c <= '\U{1F}') || c == '\U{85}' || c == '\U{A0}' || c == '\U{1680}'
    || ('\U{2000}' <= c <= '\U{200A}') || c == '\U{2028}' || c == '\U{2029}'
    || c == '\U{202F}' || c == '\U{205F}' || c == '\U{3000}'
  }

  function TrimStart(s: string): string
    decreases |s|
  {
    if |s| > 0 && IsSpace(s[0]) then TrimStart(s[1..]) else s
  }

  function TrimEnd(s: string): string
    decreases |s|
  {
    if |s| > 0 && IsSpace(s[|s| - 1]) then TrimEnd(s[..|s| - 1]) else s
  }

  /** `s.strip()` */
  function Strip(s: string): string {
    TrimEnd(TrimStart(s))
  }

  /** Neither end of `s` is whitespace. */
  predicate IsStripped(s: string) {
    s == [] || (!IsSpace(s[0]) && !IsSpace(s[|s| - 1]))
  }

  predicate IsDigit(c: char) {
    '0' <= c <= '9'
  }

  predicate AllDigits(s: string) {
    forall i :: 0 <= i < |s| ==> IsDigit(s[i])
  }

  function DigitValue(c: char): nat
    requires IsDigit(c)
  {
    (c as int - '0' as int) as nat
  }

  /** The value of a run of decimal digits. */
  function DigitsValue(ds: string): nat
    requires AllDigits(ds)
    decreases |ds|
  {
    if |ds| == 0 then 0 else DigitsValue(ds[..|ds| - 1]) * 10 + DigitValue(ds[|ds| - 1])
  }

  /** `int(s)` for a string: surrounding whitespace, an optional sign, then at least one
      ASCII digit. `None` is the `ValueError` Python raises. */
  function ParseInt(s: string): Option<int> {
    var t := Strip(s);
    if |t| > 0 && (t[0] == '-' || t[0] == '+') then
      var ds := t[1..];
      if |ds| > 0 && AllDigits(ds) then
        Some(if t[0] == '-' then 0 - DigitsValue(ds) as int else DigitsValue(ds))
      else None
    else if |t| > 0 && AllDigits(t) then Some(DigitsValue(t))
    else None
  }

  function DigitChar(d: nat): char
    requires d < 10
  {
    ('0' as int + d) as char
  }

  function NatToString(n: nat): string
    decreases n
  {
    if n < 10 then [DigitChar(n)] else NatToString(n / 10) + [DigitChar(n % 10)]
  }

  /** `str(n)` for an integer. */
  function IntToString(n: int): string {
    if n < 0 then "-" + NatToString(-n) else NatToString(n)
  }

  // ---------------------------------------------------------------------------
  // Lemmas

  lemma {:induction false} ContainsPrefix(s: string, p: string)
    requires StartsWith(s, p)
    ensures Contains(s, p)
  {
  }

  /** An occurrence in a suffix of `s` is an occurrence in `s`. */
  lemma {:induction false} ContainsDrop(s: string, k: nat, sub: string)
    requires k <= |s|
    requires Contains(s[k..], sub)
    ensures Contains(s, sub)
    decreases k
  {
    if k > 0 {
      assert s[1..][k - 1..] == s[k..];
      ContainsDrop(s[1..], k - 1, sub);
    }
  }

  /** If `a + b` occurs in `s`, so do `a` and `b`. */
  lemma {:induction false} ContainsConcat(s: string, a: string, b: string)
    requires Contains(s, a + b)
    ensures Contains(s, a) && Contains(s, b)
    decreases |s|
  {
    if StartsWith(s, a + b) {
      assert s[..|a|] == (a + b)[..|a|] == a;
      assert s[|a|..][..|b|] == b;
      assert StartsWith(s[|a|..], b);
      ContainsDrop(s, |a|, b);
    } else {
      ContainsConcat(s[1..], a, b);
    }
  }

  /** Replacing a pattern that does not occur leaves the string as it was. */
  lemma {:induction false} ReplaceAbsent(s: string, pat: string, rep: string)
    requires |pat| > 0
    requires !Contains(s, pat)
    ensures Replace(s, pat, rep) == s
    decreases |s|
  {
    if |s| >= |pat| {
      assert s[..|pat|] != pat;
      ReplaceAbsent(s[1..], pat, rep);
      assert [s[0]] + s[1..] == s;
    }
  }

  lemma {:induction false} TrimStartShape(s: string)
    ensures TrimStart(s) == [] || !IsSpace(TrimStart(s)[0])
    ensures |TrimStart(s)| <= |s| && TrimStart(s) == s[|s| - |TrimStart(s)|..]
    decreases |s|
  {
    if |s| > 0 && IsSpace(s[0]) {
      TrimStartShape(s[1..]);
    }
  }

  lemma {:induction false} TrimEndShape(s: string)
    ensures TrimEnd(s) == [] || !IsSpace(TrimEnd(s)[|TrimEnd(s)| - 1])
    ensures |TrimEnd(s)| <= |s| && TrimEnd(s) == s[..|TrimEnd(s)|]
    decreases |s|
  {
    if |s| > 0 && IsSpace(s[|s| - 1]) {
      TrimEndShape(s[..|s| - 1]);
    }
  }

  /** `strip()` returns a string with no whitespace at either end. */
  lemma {:induction false} StripIsStripped(s: string)
    ensures IsStripped(Strip(s))
  {
    var t := TrimStart(s);
    TrimStartShape(s);
    TrimEndShape(t);
    var r := TrimEnd(t);
    if r != [] {
      assert r[0] == t[0];
    }
  }

  /** `strip()` leaves an already stripped string unchanged. */
  lemma StripOfStripped(s: string)
    requires IsStripped(s)
    ensures Strip(s) == s
  {
  }

  lemma {:induction false} NatToStringDigits(n: nat)
    ensures |NatToString(n)| > 0 && AllDigits(NatToString(n))
    ensures DigitsValue(NatToString(n)) == n
    decreases n
  {
    if n >= 10 {
      NatToStringDigits(n / 10);
      var s := NatToString(n / 10) + [DigitChar(n % 10)];
      assert s[..|s| - 1] == NatToString(n / 10);
    }
  }

  /** `int(str(n)) == n` */
  lemma ParseIntOfIntToString(n: int)
    ensures ParseInt(IntToString(n)) == Some(n)
  {
    var m: nat := if n < 0 then -n else n;
    NatToStringDigits(m);
    var s := IntToString(n);
    assert !IsSpace(s[0]) && !IsSpace(s[|s| - 1]);
    assert Strip(s) == s;
    if n < 0 {
      assert s[1..] == NatToString(m);
    }
  }

  // ---------------------------------------------------------------------------
  // Decimal numbers

  predicate IsNumberChar(c: char) {
    IsDigit(c) || c == '.'
  }

  /** `10^n` */
  function Pow10(n: nat): (r: nat)
    ensures r >= 1
  {
    if n == 0 then 1 else 10 * Pow10(n - 1)
  }

  /** `float(s)` for a string of digits and dots: at least one digit and at most one
      dot (the one position that is not a digit); `None` is the `ValueError`. */
  function ParseDecimal(s: string): Option<real>
    requires forall i :: 0 <= i < |s| ==> IsNumberChar(s[i])
  {
    if |s| == 0 then None
    else if AllDigits(s) then Some(DigitsValue(s) as real)
    else if |s| > 1 && exists d :: 0 <= d < |s| && AllDigits(s[..d]) && AllDigits(s[d + 1..]) then
      var d :| 0 <= d < |s| && AllDigits(s[..d]) && AllDigits(s[d + 1..]);
      Some(DigitsValue(s[..d]) as real + DigitsValue(s[d + 1..]) as real / Pow10(|s| - d - 1) as real)
    else None
  }
}
