/** The java.lang behaviour the bridge relies on: the fixed-width integer types,
    decimal printing and parsing of the boxed integers, `Boolean.parseBoolean`,
    `Character.isWhitespace` with `String.isBlank`, and lower-casing as it acts
    on the destination-type names. */
module JavaLang {
  import opened Wrappers

  type Int8 = x: int | -0x80 <= x < 0x80
  type Int16 = x: int | -0x8000 <= x < 0x8000
  type Int32 = x: int | -0x8000_0000 <= x < 0x8000_0000
  type Int64 = x: int | -0x8000_0000_0000_0000 <= x < 0x8000_0000_0000_0000

  const BYTE_MIN: int := -0x80
  const BYTE_MAX: int := 0x7F
  const SHORT_MIN: int := -0x8000
  const SHORT_MAX: int := 0x7FFF
  const INT_MIN: int := -0x8000_0000
  const INT_MAX: int := 0x7FFF_FFFF
  const LONG_MIN: int := -0x8000_0000_0000_0000
  const LONG_MAX: int := 0x7FFF_FFFF_FFFF_FFFF

  // ---------------------------------------------------------------------------
  // Decimal digits

  predicate IsDigit(c: char) {
    '0' <= c <= '9'
  }

  predicate AllDigits(s: string) {
    forall i :: 0 <= i < |s| ==> IsDigit(s[i])
  }

  function DigitChar(d: nat): (c: char)
    requires d < 10
    ensures IsDigit(c) && c as int - '0' as int == d
  {
    ('0' as int + d) as char
  }

  /** The number a run of decimal digits denotes, most significant digit first
      (leading zeros allowed, as the JDK parsers allow them). */
  function DigitsValue(s: string): nat
    requires AllDigits(s)
  {
    if |s| == 0 then 0
    else 10 * DigitsValue(s[..|s| - 1]) + (s[|s| - 1] as int - '0' as int)
  }

  /** The digits of `n` without leading zeros: how `Integer.toString` and
      `Long.toString` print a non-negative value. */
  function NaturalDigits(n: nat): string
    decreases n
  {
    if n < 10 then [DigitChar(n)] else NaturalDigits(n / 10) + [DigitChar(n % 10)]
  }

  /** The text after an optional leading sign. */
  function Unsigned(s: string): string {
    if |s| > 0 && (s[0] == '-' || s[0] == '+') then s[1..] else s
  }

  /** What the JDK integer parsers accept: an optional '+' or '-', then one or
      more ASCII digits and nothing else. */
  predicate IsDecimalText(s: string) {
    |Unsigned(s)| > 0 && AllDigits(Unsigned(s))
  }

  /** The value a decimal text denotes. */
  function SignedValue(s: string): int
    requires IsDecimalText(s)
  {
    var magnitude: int := DigitsValue(Unsigned(s));
    if s[0] == '-' then -magnitude else magnitude
  }

  /** `Integer.toString`, `Long.toString`, `Short.toString` and `Byte.toString`:
      a minus sign exactly for negative values, then the digits of the
      magnitude without leading zeros. */
  function FormatDecimal(n: int): (r: string)
    ensures |r| > 0 && (r[0] == '-' <==> n < 0) && r[0] != '+'
    ensures IsDecimalText(r) && SignedValue(r) == n
    ensures Unsigned(r)[0] == '0' ==> r == "0"
  {
    NaturalDigitsDenote(if n < 0 then -n else n);
    if n < 0 then "-" + NaturalDigits(-n) else NaturalDigits(n)
  }

  /** `Integer.parseInt(s, 10)` and `Long.parseLong(s, 10)` with the accepted
      range `[lo, hi]`; `None` is the NumberFormatException. An optional leading
      sign, then at least one digit and nothing else; values outside the range
      are rejected. `Short.parseShort` and `Byte.parseByte` parse as an int and
      then reject values outside their own range, which is the same as parsing
      with their range directly. */
  function ParseDecimal(s: string, lo: int, hi: int): (r: Option<int>)
    ensures r.Some? <==> IsDecimalText(s) && lo <= SignedValue(s) <= hi
    ensures r.Some? ==> r.value == SignedValue(s)
  {
    if |s| == 0 then None
    else
      var digits := if s[0] == '-' || s[0] == '+' then s[1..] else s;
      if |digits| == 0 || !AllDigits(digits) then None
      else
        var magnitude: int := DigitsValue(digits);
        var v := if s[0] == '-' then -magnitude else magnitude;
        if lo <= v <= hi then Some(v) else None
  }

  lemma {:induction false} NaturalDigitsDenote(n: nat)
    ensures |NaturalDigits(n)| > 0 && AllDigits(NaturalDigits(n))
    ensures DigitsValue(NaturalDigits(n)) == n
    ensures NaturalDigits(n)[0] == '0' ==> n == 0
    decreases n
  {
    if n >= 10 {
      NaturalDigitsDenote(n / 10);
      var s := NaturalDigits(n);
      assert s[..|s| - 1] == NaturalDigits(n / 10);
      assert s[0] == NaturalDigits(n / 10)[0];
    }
  }

  /** Parsing what the JDK prints gives the value back, for every value of the
      range being parsed. */
  lemma ParseFormatDecimal(n: int, lo: int, hi: int)
    requires lo <= n <= hi
    ensures ParseDecimal(FormatDecimal(n), lo, hi) == Some(n)
  {
    var m: nat := if n < 0 then -n else n;
    NaturalDigitsDenote(m);
    var s := FormatDecimal(n);
    if n < 0 {
      assert s[0] == '-' && s[1..] == NaturalDigits(m);
    } else {
      assert IsDigit(NaturalDigits(m)[0]);
    }
  }

  /** A leading '+' and leading zeros are accepted. */
  lemma ParseDecimalAccepts()
    ensures ParseDecimal("+42", INT_MIN, INT_MAX) == Some(42)
    ensures ParseDecimal("-42", INT_MIN, INT_MAX) == Some(-42)
    ensures ParseDecimal("007", INT_MIN, INT_MAX) == Some(7)
  {
    assert Unsigned("+42") == "42" && DigitsValue("42") == 42 by { assert "42"[..1] == "4"; }
    assert Unsigned("-42") == "42";
    assert Unsigned("007") == "007" && DigitsValue("007") == 7 by { assert "007"[..2] == "00" && "00"[..1] == "0"; }
  }

  /** Trailing garbage, a lone sign, a leading blank and the empty text are
      rejected. */
  lemma ParseDecimalRejects()
    ensures ParseDecimal("1abc", INT_MIN, INT_MAX) == None
    ensures ParseDecimal("", INT_MIN, INT_MAX) == None
    ensures ParseDecimal("-", INT_MIN, INT_MAX) == None
    ensures ParseDecimal(" 1", INT_MIN, INT_MAX) == None
  {
    assert !AllDigits("1abc") by { assert !IsDigit("1abc"[1]); }
    assert Unsigned("-") == "";
    assert !IsDigit(" 1"[0]);
  }

  /** `Byte.parseByte`: the range ends at -128 and 127. */
  lemma ParseDecimalByteRange()
    ensures ParseDecimal("128", BYTE_MIN, BYTE_MAX) == None
    ensures ParseDecimal("-128", BYTE_MIN, BYTE_MAX) == Some(-128)
  {
    assert DigitsValue("128") == 128 by { assert "128"[..2] == "12" && "12"[..1] == "1"; }
    assert Unsigned("-128") == "128";
  }

  // ---------------------------------------------------------------------------
  // Case

  predicate IsUpperAscii(c: char) {
    'A' <= c <= 'Z'
  }

  /** Two characters that are the same up to the case of an ASCII letter. */
  predicate SameIgnoringAsciiCase(x: char, y: char) {
    || x == y
    || (IsUpperAscii(x) && y as int == x as int + 32)
    || (IsUpperAscii(y) && x as int == y as int + 32)
  }

  /** `String.equalsIgnoreCase`, character by character, on ASCII letters. */
  predicate EqualsIgnoreAsciiCase(a: string, b: string) {
    |a| == |b| && forall i :: 0 <= i < |a| ==> SameIgnoringAsciiCase(a[i], b[i])
  }

  /** `Character.toLowerCase` on the ASCII upper-case letters; every other
      character is kept. */
  function LowerAscii(c: char): (r: char)
    ensures !IsUpperAscii(r)
    ensures r == c || (IsUpperAscii(c) && r as int == c as int + 32)
  {
    if 'A' <= c <= 'Z' then (c as int + 32) as char else c
  }

  /** `String.toLowerCase` as far as comparing with the lower-case ASCII words
      "queue", "topic" and "true" can tell (see README): no upper-case ASCII
      letter is left, and each character is kept or is the lower-case form of
      an upper-case letter. */
  function ToLowerAscii(s: string): (r: string)
    ensures |r| == |s|
    ensures forall i :: 0 <= i < |r| ==> !IsUpperAscii(r[i])
    ensures forall i :: 0 <= i < |s| ==> r[i] == s[i] || (IsUpperAscii(s[i]) && r[i] as int == s[i] as int + 32)
  {
    seq(|s|, i requires 0 <= i < |s| => LowerAscii(s[i]))
  }

  /** Comparing the lower-cased text with a word that has no upper-case
      letter is comparing the text with the word ignoring case. */
  lemma LowerAsciiMatches(t: string, w: string)
    requires forall i :: 0 <= i < |w| ==> !IsUpperAscii(w[i])
    ensures ToLowerAscii(t) == w <==> EqualsIgnoreAsciiCase(t, w)
  {
    var r := ToLowerAscii(t);
    if EqualsIgnoreAsciiCase(t, w) {
      forall i | 0 <= i < |w|
        ensures r[i] == w[i]
      {
        assert SameIgnoringAsciiCase(t[i], w[i]) && !IsUpperAscii(w[i]) && !IsUpperAscii(r[i]);
      }
      assert r == w;
    }
    if r == w {
      forall i | 0 <= i < |t|
        ensures SameIgnoringAsciiCase(t[i], w[i])
      {
        assert r[i] == w[i];
      }
    }
  }

  // ---------------------------------------------------------------------------
  // Boolean

  /** `Boolean.parseBoolean` (and so `Boolean.valueOf(String)`):
      `"true".equalsIgnoreCase(s)`; every other text is false, it never fails. */
  function ParseBoolean(s: string): (b: bool)
    ensures b <==> EqualsIgnoreAsciiCase(s, "true")
  {
    LowerAsciiMatches(s, "true");
    ToLowerAscii(s) == "true"
  }

  /** `Boolean.toString`. */
  function FormatBoolean(b: bool): string {
    if b then "true" else "false"
  }

  lemma ParseFormatBoolean(b: bool)
    ensures ParseBoolean(FormatBoolean(b)) == b
  {
    if !b {
      assert ToLowerAscii("false")[0] == 'f';
    }
  }

  // ---------------------------------------------------------------------------
  // Whitespace

  /** `Character.isWhitespace`: the Unicode space, line and paragraph separators
      except the three non-breaking spaces, and the controls U+0009..U+000D and
      U+001C..U+001F. */
  predicate IsWhitespace(c: char) {
    || ('\t' <= c <= '\r')
    || ('\U{1C}' <= c <= '\U{1F}')
    || c == ' '
    || c == '\U{1680}'
    || ('\U{2000}' <= c <= '\U{2006}')
    || ('\U{2008}' <= c <= '\U{200A}')
    || c == '\U{2028}'
    || c == '\U{2029}'
    || c == '\U{205F}'
    || c == '\U{3000}'
  }

  /** `String.isBlank`: empty, or whitespace only. */
  predicate IsBlank(s: string) {
    forall i :: 0 <= i < |s| ==> IsWhitespace(s[i])
  }

  /** What `isBlank` makes of some destination names: the empty text, ASCII
      blanks and the em space are blank; a name with a letter and a
      non-breaking space (which `Character.isWhitespace` excludes) are not. */
  lemma BlankExamples()
    ensures IsBlank("") && IsBlank(" \t\n") && IsBlank("\U{2003}")
    ensures !IsBlank("orders") && !IsBlank(" orders ")
    ensures !IsBlank("\U{00A0}") && !IsBlank("\U{2007}") && !IsBlank("\U{202F}")
  {
    assert !IsWhitespace("orders"[0]);
    assert !IsWhitespace(" orders "[1]);
    assert !IsWhitespace("\U{00A0}"[0]);
    assert !IsWhitespace("\U{2007}"[0]);
    assert !IsWhitespace("\U{202F}"[0]);
  }
}
