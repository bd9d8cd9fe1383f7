/**
  The two pieces of Kotlin's standard library the core relies on when it
  handles text: `String.isBlank()` (used to refuse empty speech requests) and
  the decimal rendering of an `Int` inside a string template (used in the
  fallback error message). Both are JVM behaviour, not code of the
  application; they are written out here so that the model does not depend
  on anything it cannot see.
 */
module KotlinText {

  /** Kotlin's `Char.isWhitespace()` on the JVM: `Character.isWhitespace(c)`
      or `Character.isSpaceChar(c)`, i.e. the ASCII control separators plus
      every Unicode space, line and paragraph separator. */
  predicate IsWhitespace(c: char) {
    var u := c as int;
    || (0x09 <= u <= 0x0D)              // tab, line feed, vertical tab, form feed, carriage return
    || (0x1C <= u <= 0x1F)              // file, group, record and unit separators
    || u == 0x20 || u == 0xA0           // space, no-break space
    || u == 0x1680                      // ogham space mark
    || (0x2000 <= u <= 0x200A)          // en quad .. hair space
    || u == 0x2028 || u == 0x2029       // line and paragraph separators
    || u == 0x202F || u == 0x205F       // narrow no-break space, medium mathematical space
    || u == 0x3000                      // ideographic space
  }

  /** `String.isBlank()`: empty, or whitespace only. */
  predicate IsBlank(s: string) {
    forall i :: 0 <= i < |s| ==> IsWhitespace(s[i])
  }

  predicate IsDigit(c: char) {
    '0' <= c <= '9'
  }

  predicate AllDigits(s: string) {
    forall i :: 0 <= i < |s| ==> IsDigit(s[i])
  }

  function DigitChar(d: nat): (c: char)
    requires d < 10
    ensures IsDigit(c)
    ensures DigitValue(c) == d
  {
    "0123456789"[d]
  }

  function DigitValue(c: char): nat
    requires IsDigit(c)
  {
    (c as int - '0' as int) as nat
  }

  /** Decimal digits of a natural number, most significant first, without
      leading zeros. */
  function NatToString(n: nat): (s: string)
    ensures 1 <= |s|
    ensures AllDigits(s)
    ensures |s| > 1 ==> s[0] != '0'
    decreases n
  {
    if n < 10 then [DigitChar(n)]
    else NatToString(n / 10) + [DigitChar(n % 10)]
  }

  /** How a Kotlin `Int` is rendered in a string template: a leading `-` for
      negative values, then the decimal digits of the magnitude. */
  function IntToString(n: int): (s: string)
    ensures 1 <= |s|
    ensures n < 0 <==> s[0] == '-'
    ensures n >= 0 ==> AllDigits(s)
    ensures n < 0 ==> AllDigits(s[1..]) && 1 < |s|
  {
    if n < 0 then "-" + NatToString(-n) else NatToString(n)
  }

  /** Reads back a run of decimal digits. */
  function ParseDigits(s: string): nat
    requires AllDigits(s)
    decreases |s|
  {
    if |s| == 0 then 0
    else ParseDigits(s[..|s| - 1]) * 10 + DigitValue(s[|s| - 1])
  }

  /** Reads back the rendering of an integer: an optional `-`, then digits. */
  function ParseInt(s: string): (n: int)
    requires 1 <= |s|
    requires if s[0] == '-' then AllDigits(s[1..]) else AllDigits(s)
  {
    if s[0] == '-' then 0 - ParseDigits(s[1..]) else ParseDigits(s)
  }

  lemma {:induction false} ParseNatToString(n: nat)
    ensures ParseDigits(NatToString(n)) == n
    decreases n
  {
    var s := NatToString(n);
    if n < 10 {
      assert s[..|s| - 1] == [];
    } else {
      var prefix := NatToString(n / 10);
      assert s == prefix + [DigitChar(n % 10)];
      assert s[..|s| - 1] == prefix;
      ParseNatToString(n / 10);
    }
  }

  /** Rendering an integer loses nothing: it can be read back exactly. */
  lemma ParseIntToString(n: int)
    ensures ParseInt(IntToString(n)) == n
  {
    var s := IntToString(n);
    if n < 0 {
      var digits := NatToString(-n);
      assert s == "-" + digits;
      assert s[1..] == digits;
      ParseNatToString(-n);
      assert ParseInt(s) == 0 - ParseDigits(digits);
    } else {
      assert s == NatToString(n);
      assert IsDigit(s[0]);
      ParseNatToString(n);
      assert ParseInt(s) == ParseDigits(s);
    }
  }

  /** Distinct integers have distinct renderings. */
  lemma IntToStringInjective(a: int, b: int)
    requires IntToString(a) == IntToString(b)
    ensures a == b
  {
    ParseIntToString(a);
    ParseIntToString(b);
  }
}
