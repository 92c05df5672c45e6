/**
 * The few pieces of JavaScript string and number behaviour that the routes
 * and the quiz parser rely on: the `\s` character class and `trim()`,
 * `parseInt(s, 10)`, and turning a number into its decimal text.
 */
module JsText {
  import opened Wrappers

  /** `\d` in a JavaScript regular expression: an ASCII digit only. */
  predicate IsDigit(c: char) {
    '0' <= c <= '9'
  }

  /**
   * `\s` in a JavaScript regular expression, which is also the set `trim()`
   * removes: the WhiteSpace and LineTerminator characters of ECMAScript.
   */
  predicate IsSpace(c: char) {
    ('\t' <= c <= '\r') || c == ' ' || ('\U{A0}' <= c && IsWideSpace(c))
  }

  /** The `\s` characters outside ASCII. */
  predicate IsWideSpace(c: char) {
    c == '\U{A0}' || c == '\U{1680}' || ('\U{2000}' <= c <= '\U{200A}')
    || c == '\U{2028}' || c == '\U{2029}' || c == '\U{202F}' || c == '\U{205F}'
    || c == '\U{3000}' || c == '\U{FEFF}'
  }

  /** True when `s` is empty or holds only `\s` characters: `s.trim() === ""`. */
  predicate IsBlank(s: string) {
    forall i :: 0 <= i < |s| ==> IsSpace(s[i])
  }

  /** The length of the run of `\s` characters at the start of `s`. */
  function LeadingSpaces(s: string): (n: nat)
    ensures n <= |s| && forall i :: 0 <= i < n ==> IsSpace(s[i])
    ensures n < |s| ==> !IsSpace(s[n])
  {
    if |s| > 0 && IsSpace(s[0]) then 1 + LeadingSpaces(s[1..]) else 0
  }

  /** The length of the run of `\s` characters at the end of `s`. */
  function TrailingSpaces(s: string): (n: nat)
    ensures n <= |s| && forall i :: |s| - n <= i < |s| ==> IsSpace(s[i])
    ensures n < |s| ==> !IsSpace(s[|s| - n - 1])
  {
    if |s| > 0 && IsSpace(s[|s| - 1]) then 1 + TrailingSpaces(s[..|s| - 1]) else 0
  }

  /** `s.trimStart()`: drop the leading run of `\s` characters. */
  function TrimStart(s: string): (t: string) {
    s[LeadingSpaces(s)..]
  }

  /** `s.trimEnd()`: drop the trailing run of `\s` characters. */
  function TrimEnd(s: string): (t: string) {
    s[..|s| - TrailingSpaces(s)]
  }

  /** `s.trim()`. */
  function Trim(s: string): (t: string) {
    TrimEnd(TrimStart(s))
  }

  /**
   * `trim()` returns the unique slice of `s` that starts and ends with a
   * non-space and leaves only spaces outside it; it is empty exactly when
   * `s` is blank.
   */
  lemma {:induction false} TrimSlice(s: string)
    ensures exists a, b :: (0 <= a <= b <= |s| && Trim(s) == s[a..b]
                            && (forall i :: 0 <= i < a ==> IsSpace(s[i]))
                            && (forall i :: b <= i < |s| ==> IsSpace(s[i])))
    ensures |Trim(s)| > 0 ==> !IsSpace(Trim(s)[0]) && !IsSpace(Trim(s)[|Trim(s)| - 1])
    ensures Trim(s) == [] <==> IsBlank(s)
  {
    TrimBounds(s);
    TrimEnds(s);
    TrimBlank(s);
  }

  /** Where `trim()` cuts: after the leading spaces, and before the trailing ones. */
  lemma {:induction false} TrimBounds(s: string)
    ensures var a := |s| - |TrimStart(s)|; var b := a + |Trim(s)|;
      && 0 <= a <= b <= |s| && Trim(s) == s[a..b]
      && (forall i :: 0 <= i < a ==> IsSpace(s[i]))
      && (forall i :: b <= i < |s| ==> IsSpace(s[i]))
  {
    var a := LeadingSpaces(s);
    var t := s[a..];
    var b := |s| - TrailingSpaces(t);
    assert Trim(s) == t[..b - a] == s[a..b];
    forall i | b <= i < |s|
      ensures IsSpace(s[i])
    {
      assert s[i] == t[i - a];
    }
  }

  /** A non-empty trimmed string starts and ends with a non-space. */
  lemma TrimEnds(s: string)
    ensures |Trim(s)| > 0 ==> !IsSpace(Trim(s)[0]) && !IsSpace(Trim(s)[|Trim(s)| - 1])
  {
    var t := TrimStart(s);
    if |Trim(s)| > 0 {
      assert Trim(s)[0] == t[0];
    }
  }

  /** Trimming leaves nothing exactly when there was nothing but spaces. */
  lemma TrimBlank(s: string)
    ensures Trim(s) == [] <==> IsBlank(s)
  {
    TrimBounds(s);
    if IsBlank(s) {
      assert TrimStart(s) == [];
    }
  }

  /** Dropping the leading spaces first does not change `trim()`. */
  lemma TrimOfTrimStart(s: string)
    ensures Trim(TrimStart(s)) == Trim(s)
  {
    var t := TrimStart(s);
    assert LeadingSpaces(t) == 0 by {
      if |t| > 0 {
        assert t[0] == s[LeadingSpaces(s)];
      }
    }
    assert TrimStart(t) == t;
  }

  /** Trimming twice is trimming once. */
  lemma TrimIdempotent(s: string)
    ensures Trim(Trim(s)) == Trim(s)
  {
    TrimSlice(s);
    var t := Trim(s);
    if |t| > 0 {
      assert TrimStart(t) == t;
      assert TrimEnd(t) == t;
    }
  }

  /** The length of the run of ASCII digits at the start of `s`. */
  function DigitRun(s: string): (n: nat)
    ensures n <= |s|
    ensures forall i :: 0 <= i < n ==> IsDigit(s[i])
    ensures n < |s| ==> !IsDigit(s[n])
  {
    if |s| > 0 && IsDigit(s[0]) then 1 + DigitRun(s[1..]) else 0
  }

  /** A digit run that ends inside a prefix is the digit run of the whole text, and conversely. */
  lemma DigitRunOfPrefix(s: string, k: nat)
    requires k <= |s|
    ensures DigitRun(s[..k]) < k ==> DigitRun(s) == DigitRun(s[..k])
    ensures DigitRun(s) < k ==> DigitRun(s[..k]) == DigitRun(s)
  {
    var t := s[..k];
    var d, m := DigitRun(t), DigitRun(s);
    if d < k {
      assert forall i :: 0 <= i <= d ==> s[i] == t[i];
    }
    if m < k {
      assert forall i :: 0 <= i <= m ==> s[i] == t[i];
    }
  }

  /** The value of one decimal digit. */
  function DigitValue(c: char): (d: nat)
    requires IsDigit(c)
    ensures d < 10
  {
    c as int - '0' as int
  }

  /** The decimal value of a string of digits. */
  function DigitsValue(ds: string): (v: nat)
    requires forall i :: 0 <= i < |ds| ==> IsDigit(ds[i])
  {
    if ds == [] then 0
    else DigitsValue(ds[..|ds| - 1]) * 10 + DigitValue(ds[|ds| - 1])
  }

  /** What `parseInt` reads digits from: `s` without leading `\s` and without one sign. */
  function Unsigned(s: string): (u: string) {
    var t := TrimStart(s);
    if |t| > 0 && (t[0] == '+' || t[0] == '-') then t[1..] else t
  }

  /**
   * `parseInt(s, 10)`: skip leading `\s`, read an optional sign, then the
   * longest run of decimal digits; `None` stands for `NaN` (no digit there).
   * Whatever follows the digits is ignored, so `"12abc"` reads as 12.
   */
  function ParseInt(s: string): (r: Option<int>)
    ensures r.Some? <==> |Unsigned(s)| > 0 && IsDigit(Unsigned(s)[0])
  {
    var t := TrimStart(s);
    var negative := |t| > 0 && t[0] == '-';
    var u := Unsigned(s);
    var n := DigitRun(u);
    if n == 0 then None
    else
      var v: int := DigitsValue(u[..n]);
      Some(if negative then -v else v)
  }

  /** A digit of base 16: `0`-`9`, `a`-`f` or `A`-`F`. */
  predicate IsHexDigit(c: char) {
    IsDigit(c) || ('a' <= c <= 'f') || ('A' <= c <= 'F')
  }

  /** The value of one hexadecimal digit. */
  function HexDigitValue(c: char): (d: nat)
    requires IsHexDigit(c)
    ensures d < 16 && (IsDigit(c) ==> d == DigitValue(c))
  {
    if IsDigit(c) then DigitValue(c)
    else if 'a' <= c <= 'f' then c as int - 'a' as int + 10
    else c as int - 'A' as int + 10
  }

  /** The length of the run of hexadecimal digits at the start of `s`. */
  function HexRun(s: string): (n: nat)
    ensures n <= |s|
    ensures forall i :: 0 <= i < n ==> IsHexDigit(s[i])
    ensures n < |s| ==> !IsHexDigit(s[n])
  {
    if |s| > 0 && IsHexDigit(s[0]) then 1 + HexRun(s[1..]) else 0
  }

  /** The value of a string of hexadecimal digits. */
  function HexValue(ds: string): (v: nat)
    requires forall i :: 0 <= i < |ds| ==> IsHexDigit(ds[i])
  {
    if ds == [] then 0
    else HexValue(ds[..|ds| - 1]) * 16 + HexDigitValue(ds[|ds| - 1])
  }

  /** `0x` or `0X` at the start: the prefix that switches `parseInt` without a radix to base 16. */
  predicate HasHexPrefix(u: string) {
    |u| >= 2 && u[0] == '0' && (u[1] == 'x' || u[1] == 'X')
  }

  /**
   * `parseInt(s)` with no radix: as `parseInt(s, 10)`, except that after
   * the spaces and the sign a `0x` or `0X` prefix is dropped and the
   * longest run of hexadecimal digits after it is read in base 16; with no
   * such digit the result is `NaN`.
   */
  function ParseIntAuto(s: string): (r: Option<int>)
    ensures !HasHexPrefix(Unsigned(s)) ==> r == ParseInt(s)
    ensures HasHexPrefix(Unsigned(s)) ==> (r.Some? <==> |Unsigned(s)| > 2 && IsHexDigit(Unsigned(s)[2]))
  {
    var u := Unsigned(s);
    if HasHexPrefix(u) then
      var t := TrimStart(s);
      var negative := |t| > 0 && t[0] == '-';
      var h := u[2..];
      var n := HexRun(h);
      if n == 0 then None
      else
        var v: int := HexValue(h[..n]);
        Some(if negative then -v else v)
    else ParseInt(s)
  }

  /** Without a radix, `parseInt` still reads back the decimal text of every integer. */
  lemma ParseIntAutoOfIntToString(n: int)
    ensures ParseIntAuto(IntToString(n)) == Some(n)
  {
    ParseIntOfIntToString(n);
    var m: nat := if n < 0 then -n else n;
    var ds := NatToString(m);
    var s := IntToString(n);
    if n < 0 {
      assert s == "-" + ds;
      UnsignedOfNegatedDigits(ds);
    } else {
      assert s == ds;
      UnsignedOfDigits(ds);
    }
    assert Unsigned(s) == ds;
    NoHexPrefixOfDigits(ds);
  }

  /** Decimal digits never start with `0x`. */
  lemma NoHexPrefixOfDigits(ds: string)
    requires forall i :: 0 <= i < |ds| ==> IsDigit(ds[i])
    ensures !HasHexPrefix(ds)
  {
    if |ds| >= 2 {
      assert IsDigit(ds[1]);
    }
  }

  /** A `0x` prefix followed by hexadecimal digits reads as their base-16 value. */
  lemma ParseIntAutoOfHex(ds: string)
    requires |ds| > 0 && forall i :: 0 <= i < |ds| ==> IsHexDigit(ds[i])
    ensures ParseIntAuto("0x" + ds) == Some(HexValue(ds))
  {
    var s := "0x" + ds;
    NoLeadingSpace(s);
    assert s[2..] == ds;
    HexRunOfHexDigits(ds);
    assert ds[..|ds|] == ds;
  }

  /** A string that starts with neither a space nor a sign is read from its first character. */
  lemma NoLeadingSpace(s: string)
    requires |s| > 0 && !IsSpace(s[0]) && s[0] != '+' && s[0] != '-'
    ensures TrimStart(s) == s && Unsigned(s) == s
  {
    assert LeadingSpaces(s) == 0;
    assert s[0..] == s;
  }

  /** A string of hexadecimal digits is read whole. */
  lemma {:induction false} HexRunOfHexDigits(ds: string)
    requires forall i :: 0 <= i < |ds| ==> IsHexDigit(ds[i])
    ensures HexRun(ds) == |ds|
  {
    if |ds| > 0 {
      HexRunOfHexDigits(ds[1..]);
    }
  }

  /** The single digit character for `d < 10`. */
  function DigitChar(d: nat): (c: char)
    requires d < 10
    ensures IsDigit(c) && c as int - '0' as int == d
  {
    (d + '0' as int) as char
  }

  /** The decimal text of a natural number, as JavaScript's template strings render it. */
  function NatToString(n: nat): (s: string)
    ensures |s| > 0 && forall i :: 0 <= i < |s| ==> IsDigit(s[i])
  {
    if n < 10 then [DigitChar(n)] else NatToString(n / 10) + [DigitChar(n % 10)]
  }

  /** The decimal text of an integer, with a leading `-` when it is negative. */
  function IntToString(n: int): (s: string) {
    if n < 0 then "-" + NatToString(-n) else NatToString(n)
  }

  /** Reading back the digits `NatToString` writes gives the number itself. */
  lemma {:induction false} DigitsValueOfNatToString(n: nat)
    ensures DigitsValue(NatToString(n)) == n
  {
    if n >= 10 {
      DigitsValueOfNatToString(n / 10);
      var s := NatToString(n);
      assert s[..|s| - 1] == NatToString(n / 10);
    }
  }

  /** A run of digits has nothing for `parseInt` to skip. */
  lemma {:induction false} UnsignedOfDigits(ds: string)
    requires |ds| > 0 && forall i :: 0 <= i < |ds| ==> IsDigit(ds[i])
    ensures Unsigned(ds) == ds && DigitRun(ds) == |ds|
  {
    assert !IsSpace(ds[0]);
    assert TrimStart(ds) == ds;
  }

  /** A `-` before a run of digits is the only thing `parseInt` skips. */
  lemma UnsignedOfNegatedDigits(ds: string)
    requires |ds| > 0 && forall i :: 0 <= i < |ds| ==> IsDigit(ds[i])
    ensures TrimStart("-" + ds) == "-" + ds && Unsigned("-" + ds) == ds
  {
    var s := "-" + ds;
    assert s[0] == '-' && !IsSpace('-');
    assert LeadingSpaces(s) == 0;
    assert TrimStart(s) == s[0..] == s;
    assert s[1..] == ds;
  }

  /** `parseInt` reads a run of digits as its value. */
  lemma ParseIntOfDigits(ds: string)
    requires |ds| > 0 && forall i :: 0 <= i < |ds| ==> IsDigit(ds[i])
    ensures ParseInt(ds) == Some(DigitsValue(ds))
  {
    UnsignedOfDigits(ds);
    assert ds[..|ds|] == ds;
  }

  /** `parseInt` reads a `-` followed by a run of digits as the negated value. */
  lemma ParseIntOfNegatedDigits(ds: string)
    requires |ds| > 0 && forall i :: 0 <= i < |ds| ==> IsDigit(ds[i])
    ensures ParseInt("-" + ds) == Some(-(DigitsValue(ds) as int))
  {
    var s := "-" + ds;
    UnsignedOfDigits(ds);
    UnsignedOfNegatedDigits(ds);
    assert s[0] == '-';
    ParseIntOfNegative(s, ds);
  }

  /** A string read from its `-` on, whose digits run to its end, reads as their negated value. */
  lemma ParseIntOfNegative(s: string, ds: string)
    requires |s| > 0 && s[0] == '-' && TrimStart(s) == s
    requires Unsigned(s) == ds && |ds| > 0 && DigitRun(ds) == |ds|
    ensures ParseInt(s) == Some(-(DigitsValue(ds) as int))
  {
    assert ds[..|ds|] == ds;
  }

  /** `parseInt` inverts the decimal rendering of every integer. */
  lemma ParseIntOfIntToString(n: int)
    ensures ParseInt(IntToString(n)) == Some(n)
  {
    var m: nat := if n < 0 then -n else n;
    DigitsValueOfNatToString(m);
    if n < 0 {
      ParseIntOfNegatedDigits(NatToString(m));
    } else {
      ParseIntOfDigits(NatToString(m));
    }
  }

  /** A string value is truthy when present and not empty. */
  predicate Truthy(s: Option<string>) {
    s.Some? && s.value != []
  }

  /** The text `parseInt` reads from a form field: a missing field (`null`) reads as `"null"`. */
  function FieldText(field: Option<string>): (s: string)
    ensures field.None? ==> ParseInt(s).None?
  {
    if field.Some? then field.value else "null"
  }
}
