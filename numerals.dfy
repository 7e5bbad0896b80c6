/**
 * Python's `int()` on text and `str()` on integers, for plain ASCII digit
 * strings: base 10 with an optional sign, and base 16 after a literal "0x".
 * Python also accepts surrounding white space, underscores between digits
 * and non-ASCII decimal digits; this model refuses them.
 */
module Numerals {
  import opened Wrappers
  import opened Text

  predicate IsDecDigit(c: char) {
    '0' <= c <= '9'
  }

  predicate IsHexDigit(c: char) {
    '0' <= c <= '9' || 'a' <= c <= 'f' || 'A' <= c <= 'F'
  }

  predicate AllDec(s: string) {
    forall k :: 0 <= k < |s| ==> IsDecDigit(s[k])
  }

  predicate AllHex(s: string) {
    forall k :: 0 <= k < |s| ==> IsHexDigit(s[k])
  }

  function DigitValue(c: char): (v: nat)
    requires IsHexDigit(c)
    ensures v < 16
    ensures IsDecDigit(c) ==> v < 10
  {
    if '0' <= c <= '9' then c as int - '0' as int
    else if 'a' <= c <= 'f' then c as int - 'a' as int + 10
    else c as int - 'A' as int + 10
  }

  /** The value of a digit string in `base`, most significant digit first. */
  function DigitsValue(s: string, base: nat): nat
    requires AllHex(s)
    decreases |s|
  {
    if |s| == 0 then 0 else DigitsValue(s[..|s| - 1], base) * base + DigitValue(s[|s| - 1])
  }

  /** The lower-case digit character for `d`. */
  function DigitChar(d: nat): (c: char)
    requires d < 16
    ensures IsHexDigit(c) && DigitValue(c) == d
    ensures d < 10 ==> IsDecDigit(c)
    ensures '0' <= c <= '9' || 'a' <= c <= 'f'
  {
    if d < 10 then ('0' as int + d) as char else ('a' as int + d - 10) as char
  }

  /** Python's `str(n)` (base 10) or `format(n, 'x')` (base 16) for `n >= 0`. */
  function Render(n: nat, base: nat): (r: string)
    requires base == 10 || base == 16
    ensures |r| > 0 && AllHex(r)
    ensures base == 10 ==> AllDec(r)
    decreases n
  {
    if n < base then [DigitChar(n)] else Render(n / base, base) + [DigitChar(n % base)]
  }

  /** Rendering then reading back the digits gives the number. */
  lemma {:induction false} RenderValue(n: nat, base: nat)
    requires base == 10 || base == 16
    ensures DigitsValue(Render(n, base), base) == n
    decreases n
  {
    var r := Render(n, base);
    if n >= base {
      RenderValue(n / base, base);
      assert r[..|r| - 1] == Render(n / base, base);
    } else {
      assert r[..0] == [];
    }
  }

  /** Python's `str(i)`. */
  function IntText(i: int): string {
    if i < 0 then "-" + Render(-i, 10) else Render(i, 10)
  }

  /**
   * Python's `int(s)` (base 10) on an optional '+' or '-' followed by at least
   * one ASCII digit; `None` stands for the `ValueError` Python raises.
   */
  function ParseDecimal(s: string): (r: Option<int>)
    ensures r.Some? ==> |s| > 0
    ensures r.Some? && s[0] == '-' ==> r.value <= 0
    ensures r.Some? && s[0] != '-' ==> r.value >= 0
  {
    if |s| > 0 && (s[0] == '-' || s[0] == '+') then
      var body := s[1..];
      if |body| > 0 && AllDec(body) then
        var v: int := DigitsValue(body, 10);
        Some(if s[0] == '-' then -v else v)
      else None
    else if |s| > 0 && AllDec(s) then Some(DigitsValue(s, 10))
    else None
  }

  /**
   * Python's `int(s, 16)` for a string that starts with "0x": the prefix is
   * followed by at least one hexadecimal digit of either case.
   */
  function ParseHexPrefixed(s: string): (r: Option<int>)
    requires StartsWith(s, "0x")
    ensures r.Some? ==> r.value >= 0 && |s| > 2
  {
    var body := s[2..];
    if |body| > 0 && AllHex(body) then Some(DigitsValue(body, 16)) else None
  }

  /** `int(str(i)) == i`. */
  lemma ParseDecimalOfIntText(i: int)
    ensures ParseDecimal(IntText(i)) == Some(i)
  {
    if i < 0 {
      RenderValue(-i, 10);
      assert IntText(i)[1..] == Render(-i, 10);
    } else {
      RenderValue(i, 10);
    }
  }

  /** `int("0x" + format(n, 'x'), 16) == n`. */
  lemma ParseHexOfRender(n: nat)
    ensures StartsWith("0x" + Render(n, 16), "0x")
    ensures ParseHexPrefixed("0x" + Render(n, 16)) == Some(n)
  {
    var s := "0x" + Render(n, 16);
    assert s[2..] == Render(n, 16);
    RenderValue(n, 16);
  }
}
