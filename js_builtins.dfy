/**
 * The JavaScript built-ins the web client relies on, restricted to what the
 * modelled code uses: integral numbers with NaN, `String(n)` for integers,
 * `parseInt`, an ASCII `toLowerCase`, `includes` and `trim`.
 */
module JsBuiltins {

  /** A JavaScript number as the client uses it: an integer, or NaN. */
  datatype Number = Num(n: int) | NaN

  /** `x && !isNaN(x)`: the value is neither 0 nor NaN. */
  predicate IsUsableId(x: Number) {
    x.Num? && x.n != 0
  }

  predicate IsDigit(c: char) {
    '0' <= c <= '9'
  }

  function DigitChar(d: nat): (c: char)
    requires d < 10
    ensures IsDigit(c)
  {
    "0123456789"[d]
  }

  function DigitValue(c: char): (d: nat)
    requires IsDigit(c)
    ensures d < 10 && DigitChar(d) == c
  {
    (c as int - '0' as int) as nat
  }

  lemma DigitValueOfChar(d: nat)
    requires d < 10
    ensures DigitValue(DigitChar(d)) == d
  {
  }

  /** Decimal rendering of a natural number, most significant digit first. */
  function NatToString(n: nat): (s: string)
    ensures |s| >= 1
    ensures forall i :: 0 <= i < |s| ==> IsDigit(s[i])
    decreases n
  {
    if n < 10 then [DigitChar(n)] else NatToString(n / 10) + [DigitChar(n % 10)]
  }

  /** `String(i)` for an integer. */
  function IntToString(i: int): (s: string)
  {
    if i < 0 then "-" + NatToString(-i) else NatToString(i)
  }

  /** The value of a string of decimal digits, read left to right. */
  function DigitsValue(s: string): nat
    requires forall i :: 0 <= i < |s| ==> IsDigit(s[i])
  {
    if s == [] then 0 else DigitsValue(s[..|s| - 1]) * 10 + DigitValue(s[|s| - 1])
  }

  lemma {:induction false} DigitsOfNatToString(n: nat)
    ensures DigitsValue(NatToString(n)) == n
    decreases n
  {
    var s := NatToString(n);
    if n >= 10 {
      var p := NatToString(n / 10);
      DigitsOfNatToString(n / 10);
      assert s == p + [DigitChar(n % 10)];
      assert s[..|s| - 1] == p;
      DigitValueOfChar(n % 10);
      assert DigitsValue(s) == DigitsValue(p) * 10 + n % 10;
    } else {
      DigitValueOfChar(n);
    }
  }

  /** The characters `trim` strips and `parseInt` skips: ECMAScript's white
      space (tab, vertical tab, form feed, space, no-break space, the byte
      order mark and the other space separators of Unicode) and its line
      terminators (line feed, carriage return, U+2028, U+2029). */
  predicate IsWhitespace(c: char) {
    var n := c as int;
    if n < 0x80 then
      n == 0x20 || 0x09 <= n <= 0x0D
    else
      || n == 0xA0 || n == 0x1680 || 0x2000 <= n <= 0x200A || n == 0x2028 || n == 0x2029
      || n == 0x202F || n == 0x205F || n == 0x3000 || n == 0xFEFF
  }

  /** The longest prefix of `s` made of decimal digits. */
  function DigitPrefix(s: string): (p: string)
    ensures p <= s
    ensures forall i :: 0 <= i < |p| ==> IsDigit(p[i])
    ensures |p| < |s| ==> !IsDigit(s[|p|])
  {
    if s != [] && IsDigit(s[0]) then [s[0]] + DigitPrefix(s[1..]) else []
  }

  lemma {:induction false} DigitPrefixOfDigits(s: string)
    requires forall i :: 0 <= i < |s| ==> IsDigit(s[i])
    ensures DigitPrefix(s) == s
  {
    if s != [] {
      DigitPrefixOfDigits(s[1..]);
    }
  }

  function SkipWhitespace(s: string): (t: string)
    ensures |t| <= |s| && t == s[|s| - |t|..]
    ensures forall i :: 0 <= i < |s| - |t| ==> IsWhitespace(s[i])
    ensures t != [] ==> !IsWhitespace(t[0])
  {
    if s != [] && IsWhitespace(s[0]) then SkipWhitespace(s[1..]) else s
  }

  /**
   * `parseInt(s)` in radix 10: leading whitespace is skipped, one optional
   * sign is read, then the longest run of decimal digits; no digit at all
   * gives NaN.
   */
  function ParseInt(s: string): (r: Number)
  {
    ParseSigned(SkipWhitespace(s))
  }

  function ParseSigned(t: string): (r: Number)
  {
    if t != [] && t[0] == '-' then Negate(ParseDigits(t[1..]))
    else if t != [] && t[0] == '+' then ParseDigits(t[1..])
    else ParseDigits(t)
  }

  /** Unary minus; `-NaN` is NaN. */
  function Negate(r: Number): Number {
    match r
    case Num(n) => Num(-n)
    case NaN => NaN
  }

  function ParseDigits(b: string): (r: Number)
  {
    var d := DigitPrefix(b);
    if d == [] then NaN else Num(DigitsValue(d))
  }

  /** `parseInt` gives NaN exactly when no digit follows the whitespace and the sign. */
  lemma ParseIntNaN(s: string)
    ensures ParseInt(s).NaN? <==>
      var t := SkipWhitespace(s);
      var body := if t != [] && (t[0] == '-' || t[0] == '+') then t[1..] else t;
      body == [] || !IsDigit(body[0])
  {
  }

  /** A no-break space alone trims to the empty string. */
  lemma NoBreakSpaceTrimmed()
    ensures Trim("\U{00A0}") == []
  {
    var nbsp := "\U{00A0}";
    assert IsWhitespace(nbsp[0]);
    assert forall i :: 0 <= i < |nbsp| ==> IsWhitespace(nbsp[i]);
  }

  /** An ideographic space before and a byte order mark after text are trimmed. */
  lemma WideSpacesTrimmed()
    ensures Trim("\U{3000}ad\U{FEFF}") == "ad"
  {
    var padded := "\U{3000}ad\U{FEFF}";
    assert IsWhitespace(padded[0]) && !IsWhitespace(padded[1]);
    assert SkipWhitespace(padded[1..]) == padded[1..];
    assert SkipWhitespace(padded) == "ad\U{FEFF}";
    var ad := "ad\U{FEFF}";
    assert IsWhitespace(ad[2]) && !IsWhitespace(ad[1]);
    assert ad[..2] == "ad";
    assert TrimEnd("ad") == "ad";
    assert TrimEnd(ad) == "ad";
  }

  /** `parseInt` skips a leading no-break space. */
  lemma NoBreakSpaceBeforeNumber()
    ensures ParseInt("\U{00A0}5") == Num(5)
  {
    var five := "\U{00A0}5";
    assert IsWhitespace(five[0]) && !IsWhitespace(five[1]);
    assert SkipWhitespace(five) == "5" by {
      assert five[1..] == "5";
      SkipNoWhitespace("5");
    }
    ParseIntOfDigit('5');
    assert ParseInt("5") == Num(5);
    assert ParseInt(five) == ParseSigned("5");
  }

  /** A string that starts with a letter is not a number to `parseInt`. */
  lemma ParseIntLetterFirst(s: string)
    requires s != [] && ('a' <= s[0] <= 'z' || 'A' <= s[0] <= 'Z')
    ensures ParseInt(s) == NaN
  {
  }

  /** `parseInt` of a plain run of digits is its decimal value. */
  lemma ParseIntOfDigits(d: string)
    requires d != [] && forall i :: 0 <= i < |d| ==> IsDigit(d[i])
    ensures ParseInt(d) == Num(DigitsValue(d))
  {
    var c := d[0];
    assert IsDigit(c);
    assert !IsWhitespace(c);
    SkipNoWhitespace(d);
    assert ParseInt(d) == ParseSigned(d);
    assert c != '-' && c != '+';
    ParseDigitsOfDigits(d);
  }

  /** `parseInt` of a one-digit string. */
  lemma ParseIntOfDigit(c: char)
    requires IsDigit(c)
    ensures ParseInt([c]) == Num(DigitValue(c))
  {
    ParseIntOfDigits([c]);
    assert [c][..0] == [];
  }

  lemma SkipNoWhitespace(s: string)
    requires s != [] && !IsWhitespace(s[0])
    ensures SkipWhitespace(s) == s
  {
  }

  lemma ParseDigitsOfDigits(d: string)
    requires d != [] && forall i :: 0 <= i < |d| ==> IsDigit(d[i])
    ensures ParseDigits(d) == Num(DigitsValue(d))
  {
    DigitPrefixOfDigits(d);
  }

  /** One leading sign is read before the digits. */
  lemma ParseSignedSign(sign: char, b: string)
    requires sign == '-' || sign == '+'
    ensures ParseSigned([sign] + b) == if sign == '-' then Negate(ParseDigits(b)) else ParseDigits(b)
  {
    var t := [sign] + b;
    assert t != [] && t[0] == sign;
    assert t[1..] == b;
  }

  /** A minus sign in front of a number string negates what `parseInt` reads. */
  lemma ParseIntOfNegative(d: string, v: int)
    requires ParseDigits(d) == Num(v)
    ensures ParseInt("-" + d) == Num(-v)
  {
    SkipNoWhitespace("-" + d);
    ParseSignedSign('-', d);
  }

  /** A plus sign in front of a number string changes nothing `parseInt` reads. */
  lemma ParseIntOfPlus(d: string, v: int)
    requires ParseDigits(d) == Num(v)
    ensures ParseInt("+" + d) == Num(v)
  {
    SkipNoWhitespace("+" + d);
    ParseSignedSign('+', d);
  }

  /** `parseInt(String(i)) == i` for every integer. */
  lemma {:induction false} ParseIntOfIntToString(i: int)
    ensures ParseInt(IntToString(i)) == Num(i)
  {
    if i < 0 {
      DigitsOfNatToString(-i);
      ParseDigitsOfDigits(NatToString(-i));
      ParseIntOfNegative(NatToString(-i), -i);
    } else {
      DigitsOfNatToString(i);
      ParseIntOfDigits(NatToString(i));
    }
  }

  /** `parseInt` of `"+"` followed by a rendered natural number. */
  lemma {:induction false} ParseIntOfPlusNat(n: nat)
    ensures ParseInt("+" + NatToString(n)) == Num(n)
  {
    DigitsOfNatToString(n);
    ParseDigitsOfDigits(NatToString(n));
    ParseIntOfPlus(NatToString(n), n);
  }

  function LowerChar(c: char): char {
    if 'A' <= c <= 'Z' then (c as int + 32) as char else c
  }

  /** `s.toLowerCase()` with ASCII case folding. */
  function ToLowerCase(s: string): (r: string)
    ensures |r| == |s|
    ensures forall i :: 0 <= i < |s| ==> r[i] == LowerChar(s[i])
  {
    if s == [] then [] else [LowerChar(s[0])] + ToLowerCase(s[1..])
  }

  /** `sub` occurs in `s` starting at position `i`. */
  predicate OccursAt(s: string, sub: string, i: int) {
    0 <= i && i + |sub| <= |s| && s[i..i + |sub|] == sub
  }

  /** `s.includes(sub)`: `sub` occurs in `s` at some position. */
  function Includes(s: string, sub: string): (r: bool)
    ensures r <==> exists i :: OccursAt(s, sub, i)
  {
    if sub <= s then
      assert OccursAt(s, sub, 0);
      true
    else if s == [] then
      false
    else
      var r := Includes(s[1..], sub);
      assert forall i :: OccursAt(s[1..], sub, i) <==> OccursAt(s, sub, i + 1);
      assert !OccursAt(s, sub, 0);
      assert forall i :: OccursAt(s, sub, i) ==> OccursAt(s[1..], sub, i - 1);
      r
  }

  /** `s.trim()`: the white space at both ends is removed. */
  function Trim(s: string): (t: string)
    ensures t == [] <==> forall i :: 0 <= i < |s| ==> IsWhitespace(s[i])
  {
    var u := SkipWhitespace(s);
    TrimEndOfSuffix(s, |s| - |u|);
    TrimEnd(u)
  }

  /** What `TrimEnd` keeps of `s[k..]`, seen from `s`. */
  lemma TrimEndOfSuffix(s: string, k: nat)
    requires k <= |s|
    ensures var t := TrimEnd(s[k..]);
      && k + |t| <= |s| && t == s[k..k + |t|]
      && (forall i :: k + |t| <= i < |s| ==> IsWhitespace(s[i]))
      && (t == [] <==> forall i :: k <= i < |s| ==> IsWhitespace(s[i]))
  {
    var u := s[k..];
    var t := TrimEnd(u);
    assert t == u[..|t|];
    forall i | k + |t| <= i < |s| ensures IsWhitespace(s[i]) {
      assert s[i] == u[i - k];
    }
    if t == [] {
      forall i | k <= i < |s| ensures IsWhitespace(s[i]) {
        assert s[i] == u[i - k];
      }
    }
  }

  /** `trim` keeps a prefix of what follows the leading white space, and
      what it drops after that prefix is white space, too. */
  lemma TrimKeepsMiddle(s: string)
    ensures Trim(s) <= SkipWhitespace(s)
    ensures forall i :: |Trim(s)| <= i < |SkipWhitespace(s)| ==> IsWhitespace(SkipWhitespace(s)[i])
  {
    assert Trim(s) == TrimEnd(SkipWhitespace(s));
  }

  /** What `trim` keeps neither starts nor ends with white space. */
  lemma TrimEndsOnText(s: string)
    ensures Trim(s) != [] ==> !IsWhitespace(Trim(s)[0]) && !IsWhitespace(Trim(s)[|Trim(s)| - 1])
  {
    var u := SkipWhitespace(s);
    var t := TrimEnd(u);
    assert t != [] ==> t[0] == u[0];
  }

  function TrimEnd(s: string): (t: string)
    ensures t <= s
    ensures forall i :: |t| <= i < |s| ==> IsWhitespace(s[i])
    ensures t == [] <==> forall i :: 0 <= i < |s| ==> IsWhitespace(s[i])
    ensures t != [] ==> !IsWhitespace(t[|t| - 1])
  {
    if s != [] && IsWhitespace(s[|s| - 1]) then
      var t := TrimEnd(s[..|s| - 1]);
      assert forall i :: 0 <= i < |s| - 1 ==> s[..|s| - 1][i] == s[i];
      t
    else s
  }
}
