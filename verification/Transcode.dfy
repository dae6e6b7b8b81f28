/**
 The UTF-16 to UTF-8 transcoding inside parse_string, and what RFC 3629 and RFC 2781 require of it.

 The C code works with `|`, `&` and `>>` on an unsigned; here the same steps are integer arithmetic.  Module Words shows
 on 32-bit words that the two agree.
 */
module Transcode {
  import opened CText

  predicate IsHighSurrogate(u: nat) { 0xD800 <= u <= 0xDBFF }

  predicate IsLowSurrogate(u: nat) { 0xDC00 <= u <= 0xDFFF }

  /** `( uc | 0x80 ) & 0xBF`, stored in a byte. */
  function Continuation(uc: nat): (b: char) {
    (0x80 + uc % 0x40) as char
  }

  /** The number of bytes the code reserves for `uc`. */
  function Utf8Length(uc: nat): (n: nat)
    ensures 1 <= n <= 4
  {
    if uc < 0x80 then 1 else if uc < 0x800 then 2 else if uc < 0x10000 then 3 else 4
  }

  /** `uc | firstByteMark[len]`, where `uc` has lost the bits already stored. */
  function Lead(len: nat, uc: nat): (b: char)
    requires 1 <= len <= 4 && uc < 0x80
  {
    if len == 1 then uc as char
    else if len == 2 then (0xC0 + uc % 0x40) as char
    else if len == 3 then (0xE0 + uc % 0x20) as char
    else (0xF0 + uc % 0x10) as char
  }

  /** The bytes written for `uc`, last byte first in the code. */
  function Utf8(uc: nat): (s: string)
    requires uc < 0x110000
    ensures |s| == Utf8Length(uc)
  {
    match Utf8Length(uc)
    case 1 => [Lead(1, uc)]
    case 2 => [Lead(2, uc / 0x40), Continuation(uc)]
    case 3 => [Lead(3, uc / 0x40 / 0x40), Continuation(uc / 0x40), Continuation(uc)]
    case _ => [Lead(4, uc / 0x40 / 0x40 / 0x40), Continuation(uc / 0x40 / 0x40), Continuation(uc / 0x40), Continuation(uc)]
  }

  /** `0x10000 | ( ( uc & 0x3FF ) << 10 ) | ( uc2 & 0x3FF )` */
  function CombineSurrogates(uc: nat, uc2: nat): (r: nat)
    ensures 0x10000 <= r < 0x100000
  {
    var v := uc % 0x400 * 0x400 + uc2 % 0x400;
    if v / 0x10000 % 2 == 0 then v + 0x10000 else v
  }

  // ----- the requirements

  /** A continuation byte of RFC 3629, section 3, and its six bits. */
  predicate IsTail(b: char) { 0x80 <= b as int <= 0xBF }

  /**
   Section 3 of RFC 3629 read the other way: the scalar value of a UTF-8 sequence, or None when the bytes are
   not one (stray or missing tails, an overlong form, a surrogate, a value above U+10FFFF).
   */
  function DecodeUtf8(s: string): (r: Option<nat>) {
    if |s| == 1 && s[0] as int < 0x80 then Some(s[0] as int)
    else if |s| == 2 && 0xC0 <= s[0] as int < 0xE0 && IsTail(s[1]) then
      InRange(s[0] as int % 0x20 * 0x40 + s[1] as int % 0x40, 0x80, 0x7FF)
    else if |s| == 3 && 0xE0 <= s[0] as int < 0xF0 && IsTail(s[1]) && IsTail(s[2]) then
      InRange(s[0] as int % 0x10 * 0x1000 + s[1] as int % 0x40 * 0x40 + s[2] as int % 0x40, 0x800, 0xFFFF)
    else if |s| == 4 && 0xF0 <= s[0] as int < 0xF8 && IsTail(s[1]) && IsTail(s[2]) && IsTail(s[3]) then
      InRange(s[0] as int % 0x8 * 0x40000 + s[1] as int % 0x40 * 0x1000 + s[2] as int % 0x40 * 0x40 + s[3] as int % 0x40,
              0x10000, 0x10FFFF)
    else None
  }

  function InRange(v: nat, low: nat, high: nat): Option<nat> {
    if low <= v <= high && !(0xD800 <= v <= 0xDFFF) then Some(v) else None
  }

  /** Section 2.2 of RFC 2781: the code point of a surrogate pair. */
  function SurrogateValue(high: nat, low: nat): nat
    requires IsHighSurrogate(high) && IsLowSurrogate(low)
  {
    (high - 0xD800) * 0x400 + (low - 0xDC00) + 0x10000
  }

  lemma LeadBits(len: nat, uc: nat)
    requires (len == 3 && uc < 0x10) || (len == 4 && uc < 0x8)
    ensures len == 3 ==> Lead(len, uc) as int == 0xE0 + uc && Lead(len, uc) as int % 0x10 == uc
    ensures len == 4 ==> Lead(len, uc) as int == 0xF0 + uc && Lead(len, uc) as int % 0x8 == uc
  {
  }

  /** Every scalar value is written in its UTF-8 form. */
  lemma Utf8Correct(uc: nat)
    requires uc < 0x110000 && !(0xD800 <= uc <= 0xDFFF)
    ensures DecodeUtf8(Utf8(uc)) == Some(uc)
  {
    if Utf8Length(uc) == 2 {
      Utf8Two(uc, uc / 0x40);
    } else if Utf8Length(uc) == 3 {
      Utf8Three(uc, uc / 0x40, uc / 0x40 / 0x40);
    } else if Utf8Length(uc) == 4 {
      Utf8Four(uc, uc / 0x40, uc / 0x40 / 0x40, uc / 0x40 / 0x40 / 0x40);
    }
  }

  lemma Utf8Two(uc: nat, a: nat)
    requires Utf8Length(uc) == 2 && a == uc / 0x40
    ensures var s := Utf8(uc);
      && s[0] as int % 0x20 == a && 0xC0 <= s[0] as int < 0xE0 && IsTail(s[1])
      && a * 0x40 + s[1] as int % 0x40 == uc
  {
  }

  lemma Utf8Three(uc: nat, a: nat, b: nat)
    requires Utf8Length(uc) == 3 && a == uc / 0x40 && b == a / 0x40
    ensures var s := Utf8(uc);
      && s[0] as int % 0x10 == b && 0xE0 <= s[0] as int < 0xF0 && IsTail(s[1]) && IsTail(s[2])
      && b * 0x1000 + s[1] as int % 0x40 * 0x40 + s[2] as int % 0x40 == uc
  {
    LeadBits(3, b);
  }

  lemma Utf8Four(uc: nat, a: nat, b: nat, c: nat)
    requires Utf8Length(uc) == 4 && uc < 0x110000 && a == uc / 0x40 && b == a / 0x40 && c == b / 0x40
    ensures var s := Utf8(uc);
      && s[0] as int % 0x8 == c && 0xF0 <= s[0] as int < 0xF8 && IsTail(s[1]) && IsTail(s[2]) && IsTail(s[3])
      && c * 0x40000 + s[1] as int % 0x40 * 0x1000 + s[2] as int % 0x40 * 0x40 + s[3] as int % 0x40 == uc
  {
    LeadBits(4, c);
  }

  /** A byte of the UTF-8 form is NUL only for U+0000. */
  lemma Utf8NulFree(uc: nat)
    requires 0 < uc < 0x110000
    ensures '\0' !in Utf8(uc)
  {
  }

  /**
   `|` instead of `+`: the pair is decoded as section 2.2 of RFC 2781 says exactly when the plane of its
   code point is odd; otherwise the result is the code point of the plane below.
   */
  lemma SurrogatesCorrectIffOddPlane(high: nat, low: nat)
    requires IsHighSurrogate(high) && IsLowSurrogate(low)
    ensures var cp := SurrogateValue(high, low);
      && (CombineSurrogates(high, low) == cp <==> cp / 0x10000 % 2 == 1)
      && (cp / 0x10000 % 2 == 0 ==> CombineSurrogates(high, low) == cp - 0x10000)
  {
    var h, l := high - 0xD800, low - 0xDC00;
    assert high % 0x400 == h && low % 0x400 == l;
    assert (h * 0x400 + l + 0x10000) / 0x10000 == (h * 0x400 + l) / 0x10000 + 1;
  }
}
