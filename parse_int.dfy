/**
 * The one question the label-aware decoder asks of a property key:
 * does `parseInt(key)` give NaN? This follows the algorithm of
 * `parseInt(string, radix)`, section 19.2.5 of ECMA-262, with `radix`
 * undefined, up to the point where it decides between NaN and a number:
 * strip leading white space, drop one sign, drop a `0x`/`0X` prefix (which
 * switches to radix 16), and take the longest run of digits of that radix.
 * The result is NaN exactly when that run is empty.
 */
module ParseInt {

  /** Unicode general category Zs (space separators). */
  predicate IsSpaceSeparator(c: char)
  {
    c == ' ' || c == '\U{A0}' || c == '\U{1680}' || ('\U{2000}' <= c <= '\U{200A}')
    || c == '\U{202F}' || c == '\U{205F}' || c == '\U{3000}'
  }

  /**
   * StrWhiteSpaceChar: WhiteSpace (section 12.2 of ECMA-262) or
   * LineTerminator (section 12.3 of ECMA-262).
   */
  predicate IsStrWhiteSpaceChar(c: char)
  {
    c == '\t' || c == '\U{B}' || c == '\U{C}' || c == '\U{FEFF}' || IsSpaceSeparator(c)
    || c == '\n' || c == '\r' || c == '\U{2028}' || c == '\U{2029}'
  }

  predicate IsDecimalDigit(c: char)
  {
    '0' <= c <= '9'
  }

  predicate IsHexDigit(c: char)
  {
    IsDecimalDigit(c) || 'a' <= c <= 'f' || 'A' <= c <= 'F'
  }

  /** A digit of radix 16 when `hex` holds, of radix 10 otherwise. */
  predicate IsRadixDigit(c: char, hex: bool)
  {
    if hex then IsHexDigit(c) else IsDecimalDigit(c)
  }

  /** The string with its leading white space removed (TrimString with `start`). */
  function TrimStart(s: string): (r: string)
    ensures |r| <= |s|
    ensures r == [] || !IsStrWhiteSpaceChar(r[0])
    ensures forall i :: 0 <= i < |s| - |r| ==> IsStrWhiteSpaceChar(s[i])
  {
    if s != [] && IsStrWhiteSpaceChar(s[0]) then TrimStart(s[1..]) else s
  }

  /** What `TrimStart` keeps is a suffix of its argument: nothing is changed, only dropped. */
  lemma {:induction false} TrimStartIsSuffix(s: string)
    ensures TrimStart(s) == s[|s| - |TrimStart(s)|..]
  {
    if s != [] && IsStrWhiteSpaceChar(s[0]) {
      TrimStartIsSuffix(s[1..]);
      assert s[1..][|s| - 1 - |TrimStart(s)|..] == s[|s| - |TrimStart(s)|..];
    }
  }

  /** At most one leading `+` or `-` is removed. */
  function StripSign(s: string): string
  {
    if s != [] && (s[0] == '+' || s[0] == '-') then s[1..] else s
  }

  predicate HasHexPrefix(s: string)
  {
    |s| >= 2 && s[0] == '0' && (s[1] == 'x' || s[1] == 'X')
  }

  /** The length of the longest prefix of `s` made of radix digits (the `end` of the algorithm). */
  function DigitRun(s: string, hex: bool): (n: nat)
    ensures n <= |s|
    ensures forall i :: 0 <= i < n ==> IsRadixDigit(s[i], hex)
    ensures n == |s| || !IsRadixDigit(s[n], hex)
  {
    if s != [] && IsRadixDigit(s[0], hex) then 1 + DigitRun(s[1..], hex) else 0
  }

  /**
   * For the string left once white space and sign are gone: a `0x`/`0X`
   * prefix selects radix 16 and is dropped, and the outcome is NaN when no
   * digit of the radix follows.
   */
  predicate NoDigits(t: string)
  {
    var hex := HasHexPrefix(t);
    DigitRun(if hex then t[2..] else t, hex) == 0
  }

  /** `isNaN(parseInt(s))`. */
  predicate ParseIntIsNaN(s: string)
  {
    NoDigits(StripSign(TrimStart(s)))
  }

  /**
   * The rule in one line: after the white space and the sign, a `0x`/`0X`
   * prefix must be followed by a hex digit, and anything else must start
   * with a decimal digit.
   */
  lemma NaNIffNoLeadingDigit(s: string)
    ensures ParseIntIsNaN(s) <==>
      var t := StripSign(TrimStart(s));
      if HasHexPrefix(t) then |t| == 2 || !IsHexDigit(t[2])
      else t == [] || !IsDecimalDigit(t[0])
  {
  }

  lemma {:induction false} TrimStartSkipsWhiteSpace(w: string, s: string)
    requires forall i :: 0 <= i < |w| ==> IsStrWhiteSpaceChar(w[i])
    ensures TrimStart(w + s) == TrimStart(s)
  {
    if w != [] {
      assert (w + s)[0] == w[0];
      assert (w + s)[1..] == w[1..] + s;
      TrimStartSkipsWhiteSpace(w[1..], s);
    } else {
      assert w + s == s;
    }
  }

  /** Leading white space never changes the outcome. */
  lemma LeadingWhiteSpaceIgnored(w: string, s: string)
    requires forall i :: 0 <= i < |w| ==> IsStrWhiteSpaceChar(w[i])
    ensures ParseIntIsNaN(w + s) == ParseIntIsNaN(s)
  {
    TrimStartSkipsWhiteSpace(w, s);
  }

  /** One sign in front of a string that starts with neither white space nor a sign changes nothing. */
  lemma SignIgnored(sign: char, s: string)
    requires sign == '+' || sign == '-'
    requires s == [] || (!IsStrWhiteSpaceChar(s[0]) && s[0] != '+' && s[0] != '-')
    ensures ParseIntIsNaN([sign] + s) == ParseIntIsNaN(s)
  {
    assert ([sign] + s)[1..] == s;
  }

  /** A second sign is not a digit: `parseInt("+-1")` is NaN. */
  lemma TwoSignsAreNaN(a: char, b: char, s: string)
    requires a == '+' || a == '-'
    requires b == '+' || b == '-'
    ensures ParseIntIsNaN([a, b] + s)
  {
    assert ([a, b] + s)[1..] == [b] + s;
  }

  /**
   * After the sign, `0x` commits to radix 16: `parseInt("0x")` and
   * `parseInt("0xg")` are NaN although the string starts with the digit 0.
   */
  lemma HexPrefixNeedsHexDigit(x: char, t: string)
    requires x == 'x' || x == 'X'
    ensures ParseIntIsNaN(['0', x] + t) <==> t == [] || !IsHexDigit(t[0])
  {
    assert (['0', x] + t)[2..] == t;
  }

  /** A key that starts like an identifier gives NaN, so a Gleam label is `Labelled`. */
  lemma IdentifierIsNaN(s: string)
    requires s != []
    requires 'a' <= s[0] <= 'z' || 'A' <= s[0] <= 'Z' || s[0] == '_' || s[0] == '$'
    ensures ParseIntIsNaN(s)
  {
  }

  /** A non-empty string of decimal digits gives a number. */
  lemma DecimalDigitsAreNumeric(s: string)
    requires s != []
    requires forall i :: 0 <= i < |s| ==> IsDecimalDigit(s[i])
    ensures !ParseIntIsNaN(s)
  {
    assert TrimStart(s) == s;
  }

  /** The number a decimal digit stands for. */
  function DigitValue(c: char): nat
    requires IsDecimalDigit(c)
  {
    (c as int) - ('0' as int)
  }

  /** The number a string of decimal digits stands for, most significant digit first. */
  function DigitsValue(s: string): nat
    requires forall i :: 0 <= i < |s| ==> IsDecimalDigit(s[i])
  {
    if s == [] then 0 else 10 * DigitsValue(s[..|s| - 1]) + DigitValue(s[|s| - 1])
  }

  /** The decimal digit of `d`. */
  function DigitChar(d: nat): (c: char)
    requires d < 10
    ensures IsDecimalDigit(c) && DigitValue(c) == d
  {
    "0123456789"[d]
  }

  /**
   * The decimal rendering of `n` (`String(n)`, without leading zeros), which is
   * the key of the `n`-th positional field of a Gleam record.
   */
  function DecimalString(n: nat): (s: string)
    ensures s != []
    ensures forall i :: 0 <= i < |s| ==> IsDecimalDigit(s[i])
    ensures DigitsValue(s) == n
    ensures |s| == 1 || s[0] != '0'
  {
    if n < 10 then [DigitChar(n)] else DecimalString(n / 10) + [DigitChar(n % 10)]
  }

  /** Every index key "0", "1", ... gives a number, so a positional field is `Positional`. */
  lemma DecimalStringIsNumeric(n: nat)
    ensures !ParseIntIsNaN(DecimalString(n))
  {
    DecimalDigitsAreNumeric(DecimalString(n));
  }
}
