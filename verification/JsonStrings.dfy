/**
 What parse_string makes of `\u` escapes: the transcoding of whole strings from UTF-16 to UTF-8.
 */
module JsonStrings {
  import opened CText
  import opened Transcode
  import opened JsonParse

  /** A Unicode scalar value other than U+0000, which a C string cannot hold. */
  predicate IsScalar(cp: nat) {
    0 < cp < 0x110000 && !(0xD800 <= cp <= 0xDFFF)
  }

  /** `\uXXXX` for one UTF-16 code unit. */
  function UnitText(u: nat): (s: string)
    requires u < 0x10000
    ensures |s| == 6 && s[0] == '\\' && s[1] == 'u' && HasHex4(s, 2) && Hex4(s, 2) == u
  {
    var a := u / 0x10;
    var b := a / 0x10;
    var c := b / 0x10;
    ['\\', 'u', HexDigit(c), HexDigit(b % 0x10), HexDigit(a % 0x10), HexDigit(u % 0x10)]
  }

  /** Section 2.1 of RFC 2781: one or two units, each written as an escape. */
  function EscapedUtf16(cp: nat): string
    requires IsScalar(cp)
  {
    if cp < 0x10000 then UnitText(cp)
    else UnitText(0xD800 + (cp - 0x10000) / 0x400) + UnitText(0xDC00 + (cp - 0x10000) % 0x400)
  }

  /** A whole text, escaped. */
  function EscapedText(cps: seq<nat>): string
    requires forall i :: 0 <= i < |cps| ==> IsScalar(cps[i])
  {
    if cps == [] then "" else EscapedUtf16(cps[0]) + EscapedText(cps[1..])
  }

  function Utf8Text(cps: seq<nat>): string
    requires forall i :: 0 <= i < |cps| ==> cps[i] < 0x110000
  {
    if cps == [] then "" else Utf8(cps[0]) + Utf8Text(cps[1..])
  }

  /** Plane 0 and the odd planes come through. */
  predicate Survives(cp: nat) {
    cp < 0x10000 || cp / 0x10000 % 2 == 1
  }

  /** The code point that comes out: from an even plane above 0 it falls to the plane below. */
  function Arrives(cp: nat): (r: nat)
    ensures cp < 0x110000 ==> r < 0x110000
    ensures r == cp <==> Survives(cp)
  {
    if Survives(cp) then cp else cp - 0x10000
  }

  function ArrivingText(cps: seq<nat>): (r: seq<nat>)
    ensures |r| == |cps| && forall i :: 0 <= i < |r| ==> r[i] == Arrives(cps[i])
  {
    if cps == [] then [] else [Arrives(cps[0])] + ArrivingText(cps[1..])
  }

  // ----- one escape

  /** A unit that is no surrogate and not 0 becomes the UTF-8 form of the same scalar value. */
  lemma UnitEscape(s: string)
    requires At(s, 0) == '\\' && At(s, 1) == 'u' && HasHex4(s, 2) && IsScalar(Hex4(s, 2))
    ensures ParseEscape(s).Ok? && ParseEscape(s).rest == s[6..]
    ensures DecodeUtf8(ParseEscape(s).value) == Some(Hex4(s, 2))
  {
    Utf8Correct(Hex4(s, 2));
  }

  /** A surrogate pair becomes its code point's UTF-8 form exactly when the plane of the code point is odd. */
  lemma PairEscape(s: string)
    requires At(s, 0) == '\\' && At(s, 1) == 'u' && HasHex4(s, 2) && IsHighSurrogate(Hex4(s, 2))
    requires At(s, 6) == '\\' && At(s, 7) == 'u' && HasHex4(s, 8) && IsLowSurrogate(Hex4(s, 8))
    ensures ParseEscape(s).Ok? && ParseEscape(s).rest == s[12..]
    ensures var cp := SurrogateValue(Hex4(s, 2), Hex4(s, 8));
      && ParseEscape(s).value == Utf8(Arrives(cp))
      && (DecodeUtf8(ParseEscape(s).value) == Some(cp) <==> cp / 0x10000 % 2 == 1)
  {
    SurrogatesCorrectIffOddPlane(Hex4(s, 2), Hex4(s, 8));
    Utf8Correct(CombineSurrogates(Hex4(s, 2), Hex4(s, 8)));
  }

  lemma HexShift(a: string, t: string, at: nat)
    requires |a| <= at
    ensures HasHex4(a + t, at) == HasHex4(t, at - |a|)
    ensures HasHex4(t, at - |a|) ==> Hex4(a + t, at) == Hex4(t, at - |a|)
  {
  }

  lemma HexPrefix(a: string, t: string)
    requires HasHex4(a, 2)
    ensures HasHex4(a + t, 2) && Hex4(a + t, 2) == Hex4(a, 2)
  {
  }

  lemma EscapedOne(cp: nat, rest: string)
    requires IsScalar(cp)
    ensures ParseEscape(EscapedUtf16(cp) + rest) == Ok(Utf8(Arrives(cp)), rest)
  {
    hide ParseEscape, UnitText, Utf8, Hex4, HasHex4;
    if cp < 0x10000 {
      EscapedUnit(cp, rest);
    } else {
      EscapedPair(0xD800 + (cp - 0x10000) / 0x400, 0xDC00 + (cp - 0x10000) % 0x400, rest);
    }
  }

  lemma EscapedUnit(cp: nat, rest: string)
    requires IsScalar(cp) && cp < 0x10000
    ensures ParseEscape(UnitText(cp) + rest) == Ok(Utf8(cp), rest)
  {
    hide UnitText, Utf8;
    var s := UnitText(cp) + rest;
    HexPrefix(UnitText(cp), rest);
    assert s[6..] == rest;
  }

  lemma EscapedPair(high: nat, low: nat, rest: string)
    requires IsHighSurrogate(high) && IsLowSurrogate(low)
    ensures ParseEscape((UnitText(high) + UnitText(low)) + rest) == Ok(Utf8(Arrives(SurrogateValue(high, low))), rest)
  {
    hide ParseEscape, UnitText, Utf8, Hex4, HasHex4, Arrives;
    var tail := UnitText(low) + rest;
    var s := UnitText(high) + tail;
    assert s == (UnitText(high) + UnitText(low)) + rest;
    HexPrefix(UnitText(high), tail);
    HexPrefix(UnitText(low), rest);
    HexShift(UnitText(high), tail, 8);
    PairEscape(s);
    assert s[12..] == rest;
  }

  // ----- whole strings

  /** What a string of escapes is parsed to. */
  lemma {:induction false} EscapedTextParses(cps: seq<nat>, rest: string)
    requires forall i :: 0 <= i < |cps| ==> IsScalar(cps[i])
    ensures ParseChars(EscapedText(cps) + ("\"" + rest)) == Ok(Utf8Text(ArrivingText(cps)), rest)
  {
    hide ParseChars, ParseEscape, Utf8, Arrives, EscapedUtf16;
    if cps == [] {
      ClosingQuote(rest);
    } else {
      var tail := EscapedText(cps[1..]) + ("\"" + rest);
      assert EscapedText(cps) + ("\"" + rest) == EscapedUtf16(cps[0]) + tail;
      EscapedOne(cps[0], tail);
      StartsWithBackslash(cps[0]);
      OneEscape(EscapedUtf16(cps[0]) + tail);
      EscapedTextParses(cps[1..], rest);
      assert ArrivingText(cps)[1..] == ArrivingText(cps[1..]);
    }
  }

  lemma ClosingQuote(rest: string)
    ensures ParseChars("" + ("\"" + rest)) == Ok("", rest)
  {
    assert "" + ("\"" + rest) == "\"" + rest;
    assert ("\"" + rest)[1..] == rest;
  }

  lemma StartsWithBackslash(cp: nat)
    requires IsScalar(cp)
    ensures |EscapedUtf16(cp)| > 0 && EscapedUtf16(cp)[0] == '\\'
  {
  }

  lemma OneEscape(s: string)
    requires s != "" && s[0] == '\\' && ParseEscape(s).Ok?
    ensures ParseChars(s) == Prepend(ParseEscape(s).value, ParseChars(ParseEscape(s).rest))
  {
  }

  /** UTF-8 texts of the same shape are equal only when their code points are. */
  lemma {:induction false} Utf8TextInjective(a: seq<nat>, b: seq<nat>)
    requires |a| == |b| && Utf8Text.requires(a) && Utf8Text.requires(b)
    requires forall i :: 0 <= i < |a| ==> IsScalar(a[i]) && IsScalar(b[i]) && Utf8Length(a[i]) == Utf8Length(b[i])
    requires Utf8Text(a) == Utf8Text(b)
    ensures a == b
  {
    if a != [] {
      var n := Utf8Length(a[0]);
      assert Utf8Text(a)[..n] == Utf8(a[0]) && Utf8Text(b)[..n] == Utf8(b[0]);
      assert Utf8Text(a)[n..] == Utf8Text(a[1..]) && Utf8Text(b)[n..] == Utf8Text(b[1..]);
      Utf8Correct(a[0]);
      Utf8Correct(b[0]);
      Utf8TextInjective(a[1..], b[1..]);
    }
  }

  lemma SameLength(cp: nat)
    requires IsScalar(cp)
    ensures IsScalar(Arrives(cp)) && Utf8Length(Arrives(cp)) == Utf8Length(cp)
  {
  }

  /** A text written as escapes arrives as its UTF-8 form if and only if no code point is on an even plane above 0. */
  lemma EscapedTextCorrectIff(cps: seq<nat>, rest: string)
    requires forall i :: 0 <= i < |cps| ==> IsScalar(cps[i])
    ensures ParseChars(EscapedText(cps) + ("\"" + rest)) == Ok(Utf8Text(cps), rest)
       <==> forall i :: 0 <= i < |cps| ==> Survives(cps[i])
  {
    hide ParseChars, EscapedText, Utf8Text, Utf8Length;
    var out := ArrivingText(cps);
    EscapedTextParses(cps, rest);
    if forall i :: 0 <= i < |cps| ==> Survives(cps[i]) {
      assert out == cps;
    }
    if Utf8Text(out) == Utf8Text(cps) {
      forall i | 0 <= i < |cps|
        ensures IsScalar(out[i]) && Utf8Length(out[i]) == Utf8Length(cps[i])
      {
        SameLength(cps[i]);
      }
      Utf8TextInjective(out, cps);
      forall i | 0 <= i < |cps|
        ensures Survives(cps[i])
      {
        assert out[i] == cps[i];
      }
    }
  }
}
