/**
 * The identifier generators of the sign-in service: a random string over a
 * 62-character alphanumeric alphabet (CSRF state tokens, session ids) and
 * the PKCE code verifier, 32 random bytes in unpadded base64url. The random
 * bytes are a parameter.
 */
module RandomStrings {

  newtype byte = x: int | 0 <= x < 256

  const LowerLetters: string := "abcdefghijklmnopqrstuvwxyz"
  const UpperLetters: string := "ABCDEFGHIJKLMNOPQRSTUVWXYZ"
  const DecimalDigits: string := "0123456789"

  /** The `charset` constant of `GenerateRandomString`: the three runs, in this order. */
  const Charset: string := LowerLetters + UpperLetters + DecimalDigits

  predicate IsAlphanumeric(c: char) {
    ('a' <= c <= 'z') || ('A' <= c <= 'Z') || ('0' <= c <= '9')
  }

  /** The alphabet by position: lower-case letters, upper-case letters, digits. */
  function CharsetAt(k: nat): (c: char)
    requires k < 62
  {
    if k < 26 then ('a' as int + k) as char
    else if k < 52 then ('A' as int + (k - 26)) as char
    else ('0' as int + (k - 52)) as char
  }

  lemma CharsetAtAgrees(k: nat)
    requires k < 62
    ensures |Charset| == 62
    ensures Charset[k] == CharsetAt(k)
  {
    if k < 26 {
      assert Charset[k] == LowerLetters[k];
    } else if k < 52 {
      assert Charset[k] == UpperLetters[k - 26];
    } else {
      assert Charset[k] == DecimalDigits[k - 52];
    }
  }

  /** Every character of the alphabet is a letter or a digit, and no two are equal. */
  lemma CharsetIsAlphanumeric()
    ensures |Charset| == 62
    ensures forall k :: 0 <= k < |Charset| ==> IsAlphanumeric(Charset[k]) && Charset[k] as int < 128
    ensures forall j, k :: 0 <= j < k < |Charset| ==> Charset[j] != Charset[k]
  {
    forall k | 0 <= k < |Charset|
      ensures Charset[k] == CharsetAt(k)
    {
      CharsetAtAgrees(k);
    }
  }

  /** The byte of an ASCII character. */
  function AsciiByte(c: char): byte
    requires c as int < 256
  {
    c as int as byte
  }

  /** The byte `charset[k]`. */
  function CharsetByte(k: nat): (x: byte)
    requires k < 62
    ensures x as int == Charset[k] as int
  {
    CharsetAtAgrees(k);
    AsciiByte(Charset[k])
  }

  /** The buffer after the loop: byte `i` replaced by `charset[b[i] % 62]`. */
  function MapToCharset(b: seq<byte>): (r: seq<byte>)
    ensures |r| == |b|
  {
    seq(|b|, i requires 0 <= i < |b| => CharsetByte(b[i] as int % 62))
  }

  /** `string(b)`: the bytes read as characters. */
  function BytesToString(b: seq<byte>): (s: string)
    ensures |s| == |b|
    ensures forall i :: 0 <= i < |b| ==> s[i] as int == b[i] as int
  {
    seq(|b|, i requires 0 <= i < |b| => b[i] as int as char)
  }

  /**
   * `GenerateRandomString(length)` with `entropy` standing for what
   * `rand.Read` writes into the fresh buffer: each byte is overwritten in place
   * by the alphabet's character at its value modulo 62.
   */
  method GenerateRandomString(length: nat, entropy: seq<byte>) returns (s: string)
    requires |entropy| == length
    ensures |s| == length
    ensures forall i :: 0 <= i < length ==> s[i] == Charset[entropy[i] as int % 62]
    ensures forall i :: 0 <= i < length ==> IsAlphanumeric(s[i])
  {
    var b := new byte[length](i requires 0 <= i < length => entropy[i]);
    for i := 0 to b.Length
      invariant b[..i] == MapToCharset(entropy)[..i]
      invariant b[i..] == entropy[i..]
    {
      assert b[i] == entropy[i];
      b[i] := CharsetByte(b[i] as int % 62);
    }
    s := BytesToString(b[..]);
    assert b[..] == MapToCharset(entropy);
    CharsetIsAlphanumeric();
  }

  /** `RandomCSRFToken`: 24 alphanumeric characters. */
  method RandomCSRFToken(entropy: seq<byte>) returns (s: string)
    requires |entropy| == 24
    ensures |s| == 24
    ensures forall i :: 0 <= i < |s| ==> IsAlphanumeric(s[i])
  {
    s := GenerateRandomString(24, entropy);
  }

  /** The session id made at sign-in: 32 alphanumeric characters. */
  method SessionId(entropy: seq<byte>) returns (s: string)
    requires |entropy| == 32
    ensures |s| == 32
    ensures forall i :: 0 <= i < |s| ==> IsAlphanumeric(s[i])
  {
    s := GenerateRandomString(32, entropy);
  }

  /** The base64url alphabet of section 5 of RFC 4648, by value. */
  function UrlChar(v: nat): (c: char)
    requires v < 64
  {
    if v < 26 then ('A' as int + v) as char
    else if v < 52 then ('a' as int + (v - 26)) as char
    else if v < 62 then ('0' as int + (v - 52)) as char
    else if v == 62 then '-'
    else '_'
  }

  predicate IsUrlChar(c: char) {
    ('A' <= c <= 'Z') || ('a' <= c <= 'z') || ('0' <= c <= '9') || c == '-' || c == '_'
  }

  /** The value of a base64url character. */
  function UrlValue(c: char): (v: nat)
    requires IsUrlChar(c)
    ensures v < 64
  {
    if 'A' <= c <= 'Z' then c as int - 'A' as int
    else if 'a' <= c <= 'z' then c as int - 'a' as int + 26
    else if '0' <= c <= '9' then c as int - '0' as int + 52
    else if c == '-' then 62
    else 63
  }

  lemma UrlCharValue(v: nat)
    requires v < 64
    ensures IsUrlChar(UrlChar(v)) && UrlValue(UrlChar(v)) == v
  {
  }

  /** Three bytes as four characters. */
  function EncodeGroup(b0: int, b1: int, b2: int): (s: string)
    requires 0 <= b0 < 256 && 0 <= b1 < 256 && 0 <= b2 < 256
    ensures |s| == 4 && forall i :: 0 <= i < |s| ==> IsUrlChar(s[i])
  {
    [UrlChar(b0 / 4), UrlChar((b0 % 4) * 16 + b1 / 16), UrlChar((b1 % 16) * 4 + b2 / 64), UrlChar(b2 % 64)]
  }

  /** A final single byte as two characters. */
  function EncodeLastOne(b0: int): (s: string)
    requires 0 <= b0 < 256
    ensures |s| == 2 && forall i :: 0 <= i < |s| ==> IsUrlChar(s[i])
  {
    [UrlChar(b0 / 4), UrlChar((b0 % 4) * 16)]
  }

  /** Two final bytes as three characters. */
  function EncodeLastTwo(b0: int, b1: int): (s: string)
    requires 0 <= b0 < 256 && 0 <= b1 < 256
    ensures |s| == 3 && forall i :: 0 <= i < |s| ==> IsUrlChar(s[i])
  {
    [UrlChar(b0 / 4), UrlChar((b0 % 4) * 16 + b1 / 16), UrlChar((b1 % 16) * 4)]
  }

  /** `base64.RawURLEncoding.EncodeToString`: three bytes become four
      characters; a final one or two bytes become two or three, unpadded. */
  function RawUrlEncode(b: seq<byte>): (s: string)
    ensures forall i :: 0 <= i < |s| ==> IsUrlChar(s[i])
    decreases |b|
  {
    if |b| == 0 then ""
    else if |b| == 1 then EncodeLastOne(b[0] as int)
    else if |b| == 2 then EncodeLastTwo(b[0] as int, b[1] as int)
    else EncodeGroup(b[0] as int, b[1] as int, b[2] as int) + RawUrlEncode(b[3..])
  }

  /** The length of the unpadded encoding: four characters per three bytes, rounded up. */
  lemma {:induction false} RawUrlEncodeLength(b: seq<byte>)
    ensures |RawUrlEncode(b)| == (4 * |b| + 2) / 3
    decreases |b|
  {
    if |b| >= 3 {
      RawUrlEncodeLength(b[3..]);
    }
  }

  /** Bytes back from one group of base64url values. */
  function DecodeGroup(c0: nat, c1: nat, c2: nat, c3: nat): seq<byte>
    requires c0 < 64 && c1 < 64 && c2 < 64 && c3 < 64
  {
    [(c0 * 4 + c1 / 16) as byte, ((c1 % 16) * 16 + c2 / 4) as byte, ((c2 % 4) * 64 + c3) as byte]
  }

  /** The inverse of `RawUrlEncode` on its own outputs. */
  function RawUrlDecode(s: string): seq<byte>
    requires forall i :: 0 <= i < |s| ==> IsUrlChar(s[i])
    decreases |s|
  {
    if |s| < 2 then []
    else if |s| == 2 then DecodeGroup(UrlValue(s[0]), UrlValue(s[1]), 0, 0)[..1]
    else if |s| == 3 then DecodeGroup(UrlValue(s[0]), UrlValue(s[1]), UrlValue(s[2]), 0)[..2]
    else DecodeGroup(UrlValue(s[0]), UrlValue(s[1]), UrlValue(s[2]), UrlValue(s[3])) + RawUrlDecode(s[4..])
  }

  lemma GroupRoundTrip(b0: int, b1: int, b2: int)
    requires 0 <= b0 < 256 && 0 <= b1 < 256 && 0 <= b2 < 256
    ensures DecodeGroup(b0 / 4, (b0 % 4) * 16 + b1 / 16, (b1 % 16) * 4 + b2 / 64, b2 % 64)
      == [b0 as byte, b1 as byte, b2 as byte]
  {
    var c1 := (b0 % 4) * 16 + b1 / 16;
    var c2 := (b1 % 16) * 4 + b2 / 64;
    assert c1 / 16 == b0 % 4 && c1 % 16 == b1 / 16;
    assert c2 / 4 == b1 % 16 && c2 % 4 == b2 / 64;
  }

  /** One final byte: two characters. */
  lemma DecodeLastOne(b0: int)
    requires 0 <= b0 < 256
    ensures RawUrlDecode(EncodeLastOne(b0)) == [b0 as byte]
  {
    UrlCharValue(b0 / 4);
    UrlCharValue((b0 % 4) * 16);
    GroupRoundTrip(b0, 0, 0);
  }

  /** Two final bytes: three characters. */
  lemma DecodeLastTwo(b0: int, b1: int)
    requires 0 <= b0 < 256 && 0 <= b1 < 256
    ensures RawUrlDecode(EncodeLastTwo(b0, b1)) == [b0 as byte, b1 as byte]
  {
    UrlCharValue(b0 / 4);
    UrlCharValue((b0 % 4) * 16 + b1 / 16);
    UrlCharValue((b1 % 16) * 4);
    GroupRoundTrip(b0, b1, 0);
  }

  /** The values of the four characters of a group. */
  lemma GroupValues(b0: int, b1: int, b2: int)
    requires 0 <= b0 < 256 && 0 <= b1 < 256 && 0 <= b2 < 256
    ensures var g := EncodeGroup(b0, b1, b2);
      && UrlValue(g[0]) == b0 / 4
      && UrlValue(g[1]) == (b0 % 4) * 16 + b1 / 16
      && UrlValue(g[2]) == (b1 % 16) * 4 + b2 / 64
      && UrlValue(g[3]) == b2 % 64
  {
    UrlCharValue(b0 / 4);
    UrlCharValue((b0 % 4) * 16 + b1 / 16);
    UrlCharValue((b1 % 16) * 4 + b2 / 64);
    UrlCharValue(b2 % 64);
  }

  /** A full group of four characters in front of the rest of the text. */
  lemma DecodeFullGroup(b0: int, b1: int, b2: int, rest: string)
    requires 0 <= b0 < 256 && 0 <= b1 < 256 && 0 <= b2 < 256
    requires forall i :: 0 <= i < |rest| ==> IsUrlChar(rest[i])
    ensures forall i :: 0 <= i < |EncodeGroup(b0, b1, b2) + rest| ==> IsUrlChar((EncodeGroup(b0, b1, b2) + rest)[i])
    ensures RawUrlDecode(EncodeGroup(b0, b1, b2) + rest) == [b0 as byte, b1 as byte, b2 as byte] + RawUrlDecode(rest)
  {
    var g := EncodeGroup(b0, b1, b2);
    var t := g + rest;
    assert t[..4] == g && t[4..] == rest;
    GroupValues(b0, b1, b2);
    var c0, c1, c2, c3 := UrlValue(g[0]), UrlValue(g[1]), UrlValue(g[2]), UrlValue(g[3]);
    assert RawUrlDecode(t) == DecodeGroup(c0, c1, c2, c3) + RawUrlDecode(rest) by {
      assert t[0] == g[0] && t[1] == g[1] && t[2] == g[2] && t[3] == g[3];
    }
    assert DecodeGroup(c0, c1, c2, c3) == [b0 as byte, b1 as byte, b2 as byte] by {
      GroupRoundTrip(b0, b1, b2);
    }
  }

  /** Decoding the encoding gives the bytes back. */
  lemma {:induction false} RawUrlRoundTrip(b: seq<byte>)
    ensures RawUrlDecode(RawUrlEncode(b)) == b
    decreases |b|
  {
    if |b| == 1 {
      DecodeLastOne(b[0] as int);
      assert [b[0] as int as byte] == b;
    } else if |b| == 2 {
      DecodeLastTwo(b[0] as int, b[1] as int);
      assert [b[0] as int as byte, b[1] as int as byte] == b;
    } else if |b| >= 3 {
      var rest := RawUrlEncode(b[3..]);
      assert RawUrlEncode(b) == EncodeGroup(b[0] as int, b[1] as int, b[2] as int) + rest;
      RawUrlRoundTrip(b[3..]);
      DecodeFullGroup(b[0] as int, b[1] as int, b[2] as int, rest);
      assert [b[0] as int as byte, b[1] as int as byte, b[2] as int as byte] + b[3..] == b;
    }
  }

  /** The unreserved characters a PKCE code verifier may use (section 4.1 of RFC 7636). */
  predicate IsUnreserved(c: char) {
    ('A' <= c <= 'Z') || ('a' <= c <= 'z') || ('0' <= c <= '9') || c == '-' || c == '.' || c == '_' || c == '~'
  }

  /** `FaydaUniqueCodeVerifier`: 32 random bytes, base64url without padding:
      43 unreserved characters, within the 43 to 128 of section 4.1 of RFC 7636,
      and the bytes can be read back. */
  function CodeVerifier(entropy: seq<byte>): (s: string)
    requires |entropy| == 32
    ensures |s| == 43
    ensures 43 <= |s| <= 128
    ensures forall i :: 0 <= i < |s| ==> IsUrlChar(s[i])
    ensures forall i :: 0 <= i < |s| ==> IsUnreserved(s[i])
    ensures RawUrlDecode(s) == entropy
  {
    RawUrlEncodeLength(entropy);
    RawUrlRoundTrip(entropy);
    RawUrlEncode(entropy)
  }
}
