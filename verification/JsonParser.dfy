/**
 The parsing routines of cjson.c over a text and a position in it, each proved to compute its function of
 JsonParse.  parse_string measures in one pass, allocates, and writes in a second pass.
 */
module JsonParser {
  import opened CText
  import opened JsonPrint
  import opened Transcode
  import opened JsonParse

  /** What a routine returns: a pointer (with the item it filled in), or NULL with the error pointer `ep`. */
  datatype Outcome<+T> = Done(value: T, next: nat) | Error(ep: nat) | Undef

  ghost predicate Agrees<T>(o: Outcome<T>, text: string, spec: Parsed<T>) {
    match o
    case Done(v, p) => p <= |text| && spec == Ok(v, text[p..])
    case Error(p) => p <= |text| && spec == Fail(text[p..])
    case Undef => spec == Undefined
  }

  method SkipFrom(text: string, p: nat) returns (q: nat)
    requires p <= |text|
    ensures p <= q <= |text| && text[q..] == Skip(text[p..])
  {
    q := p;
    while At(text, q) != NUL && At(text, q) as int <= 32
      invariant p <= q <= |text|
      invariant Skip(text[p..]) == Skip(text[q..])
      decreases |text| - q
    {
      assert text[q..][1..] == text[q + 1..];
      q := q + 1;
    }
  }

  // ----- numbers

  /** The digit loops: from `p` on, folding into an int64_t and into an exact decimal. */
  method ReadDigits(text: string, p: nat, i0: int, f0: int) returns (q: nat, i: int, f: int)
    requires p <= |text|
    ensures p <= q <= |text| && q - p == DigitCount(text[p..])
    ensures i == FoldInt(i0, text[p..q]) && f == FoldDec(f0, text[p..q])
  {
    q, i, f := p, i0, f0;
    ghost var n := DigitCount(text[p..]);
    while IsDigit(At(text, q))
      invariant p <= q <= |text|
      invariant n == q - p + DigitCount(text[q..])
      invariant FoldInt(i0, text[p..p + n]) == FoldInt(i, text[q..p + n])
      invariant FoldDec(f0, text[p..p + n]) == FoldDec(f, text[q..p + n])
      decreases |text| - q
    {
      assert text[q..][1..] == text[q + 1..];
      assert text[q..p + n][1..] == text[q + 1..p + n];
      i := Wrap64(i * 10 + DigitValue(text[q]));
      f := f * 10 + DigitValue(text[q]);
      q := q + 1;
    }
  }

  lemma Slices(text: string, p: nat, q: nat)
    requires p <= q <= |text|
    ensures text[p..][..q - p] == text[p..q] && text[p..][q - p..] == text[q..]
  {
  }

  method ReadExponent(text: string, p: nat) returns (subscale: int, q: nat)
    requires p <= |text| && HasExponent(text[p..])
    ensures q <= |text| && (subscale, text[q..]) == Exponent(text[p..])
  {
    var signsubscale := 1;
    q := p + 1;
    assert At(text[p..], 1) == At(text, p + 1);
    if At(text, q) == '+' {
      q := q + 1;
    } else if At(text, q) == '-' {
      signsubscale := -1;
      q := q + 1;
    }
    var start := q;
    assert text[start..] == if At(text[p..], 1) == '+' || At(text[p..], 1) == '-' then text[p..][2..] else text[p..][1..];
    var i;
    q, i, subscale := ReadDigits(text, start, 0, 0);
    Slices(text, start, q);
    if signsubscale == -1 {
      subscale := -subscale;
    }
  }

  /** The digits behind the point. */
  method ReadFraction(text: string, p: nat, f0: int) returns (isint: bool, f: int, scale: int, num: nat)
    requires p <= |text|
    ensures num <= |text| && ParseExponent(isint, f, scale, text[num..]) == ParseTail(f0, text[p..])
  {
    hide FoldDec, DigitCount, ParseExponent, FoldInt;
    scale := 0;
    isint, f, num := true, f0, p;
    if At(text, num) == '.' && IsDigit(At(text, num + 1)) {
      isint := false;
      var i;
      num, i, f := ReadDigits(text, p + 1, 0, f0);
      scale := -(num - (p + 1));
      assert text[p..][1..] == text[p + 1..];
      Slices(text, p + 1, num);
    }
  }

  method ReadTail(text: string, p: nat, f0: int) returns (isint: bool, f: int, exponent: int, num: nat)
    requires p <= |text|
    ensures num <= |text| && Tail(isint, f, exponent, text[num..]) == ParseTail(f0, text[p..])
  {
    hide ParseTail, Exponent;
    isint, f, exponent, num := ReadFraction(text, p, f0);
    if At(text, num) == 'e' || At(text, num) == 'E' {
      isint := false;
      var subscale;
      subscale, num := ReadExponent(text, num);
      exponent := exponent + subscale;
    }
  }

  method ReadNumber(text: string, p: nat) returns (v: Json, num: nat)
    requires p <= |text|
    ensures num <= |text| && (v, text[num..]) == ParseNumber(text[p..])
  {
    var negative := false;
    num := p;
    if At(text, num) == '-' {
      negative := true;
      num := num + 1;
      assert text[p..][1..] == text[num..];
    }
    v, num := ReadUnsigned(text, num, negative);
  }

  method ReadUnsigned(text: string, p: nat, negative: bool) returns (v: Json, num: nat)
    requires p <= |text|
    ensures num <= |text| && (v, text[num..]) == ParseUnsigned(text[p..], negative)
  {
    var i, f, isint, exponent;
    num, i, f := ReadInteger(text, p);
    Slices(text, p, num);
    isint, f, exponent, num := ReadTail(text, num, f);
    if isint {
      v := Number(Wrap64(Signed(negative, i)));
    } else {
      v := Float(Signed(negative, f), exponent);
    }
  }

  /** The optional '0' and the digits of the integer part. */
  method ReadInteger(text: string, p: nat) returns (num: nat, i: int, f: int)
    requires p <= |text|
    ensures num == p + IntegerPart(text[p..]) && num <= |text|
    ensures i == FoldInt(0, text[p..num]) && f == FoldDec(0, text[p..num])
  {
    num, i, f := p, 0, 0;
    if At(text, num) == '0' {
      num := num + 1;
    }
    ghost var start := num;
    assert text[p..][start - p..] == text[start..];
    if '1' <= At(text, num) <= '9' {
      num, i, f := ReadDigits(text, num, 0, 0);
    }
    if start > p {
      assert text[p..num][1..] == text[start..num];
    }
  }

  // ----- strings

  /**
   The measuring loop of parse_string: one for every byte, the one behind a backslash not counted.
   None when a backslash stands before the terminator, where the C code runs off the end of the text.
   */
  function FirstPass(s: string): Option<nat> {
    if At(s, 0) == NUL || s[0] == '\"' then Some(0)
    else if s[0] != '\\' then Add(1, FirstPass(s[1..]))
    else if At(s, 1) == NUL then None
    else Add(1, FirstPass(s[2..]))
  }

  function Add(n: nat, o: Option<nat>): Option<nat> {
    match o case Some(k) => Some(n + k) case None => None
  }

  lemma {:induction false} FirstPassPlain(s: string, n: nat)
    requires n <= |s| && forall k :: 0 <= k < n ==> IsHexDigit(s[k])
    ensures FirstPass(s) == Add(n, FirstPass(s[n..]))
  {
    if n > 0 {
      FirstPassPlain(s[1..], n - 1);
      assert s[1..][n - 1..] == s[n..];
    }
  }

  /** An escape never produces more bytes than the first pass counted for it. */
  lemma EscapeFits(s: string)
    requires s != "" && s[0] == '\\' && ParseEscape(s).Ok?
    ensures FirstPass(s).Some? <==> FirstPass(ParseEscape(s).rest).Some?
    ensures FirstPass(s).Some? ==> |ParseEscape(s).value| + FirstPass(ParseEscape(s).rest).value <= FirstPass(s).value
  {
    if s[1] == 'u' {
      FirstPassUnit(s);
      if ParseEscape(s).rest != s[6..] {
        FirstPassUnit(s[6..]);
        assert s[6..][6..] == s[12..];
      }
    }
  }

  /** The first pass counts five for a `\uXXXX`. */
  lemma FirstPassUnit(s: string)
    requires At(s, 0) == '\\' && At(s, 1) == 'u' && HasHex4(s, 2)
    ensures FirstPass(s) == Add(5, FirstPass(s[6..]))
  {
    assert s[2..][4..] == s[6..];
    FirstPassPlain(s[2..], 4);
  }

  /** What is parsed fits what the first pass measured. */
  lemma {:induction false} ParsedFits(s: string)
    ensures ParseChars(s).Ok? ==> FirstPass(s).Some? && |ParseChars(s).value| <= FirstPass(s).value
    ensures FirstPass(s).None? ==> ParseChars(s) == Undefined
    decreases |s|
  {
    if At(s, 0) == NUL || s[0] == '\"' {
    } else if s[0] != '\\' {
      ParsedFits(s[1..]);
    } else if ParseEscape(s).Ok? {
      EscapeFits(s);
      ParsedFits(ParseEscape(s).rest);
    }
  }

  /** Up to the closing quote every backslash stands before another character, and every `\u` before four hex digits. */
  predicate WellFormedEscapes(s: string) {
    if At(s, 0) == NUL || s[0] == '\"' then true
    else if s[0] != '\\' then WellFormedEscapes(s[1..])
    else if At(s, 1) == NUL then false
    else if s[1] != 'u' then WellFormedEscapes(s[2..])
    else HasHex4(s, 2) && WellFormedEscapes(s[6..])
  }

  /** The parser knows what to make of a string if and only if its escapes are well formed. */
  lemma {:induction false} ParsedIffWellFormed(s: string)
    ensures ParseChars(s).Ok? <==> WellFormedEscapes(s)
    decreases |s|
  {
    if At(s, 0) == NUL || s[0] == '\"' {
    } else if s[0] != '\\' {
      ParsedIffWellFormed(s[1..]);
    } else if ParseEscape(s).Ok? {
      ParsedIffWellFormed(ParseEscape(s).rest);
      if s[1] == 'u' && ParseEscape(s).rest != s[6..] {
        assert s[6..][2..] == s[8..] && s[6..][6..] == s[12..];
        assert HasHex4(s[6..], 2) == HasHex4(s, 8);
      }
    } else if s[1..] != "" && s[1] == 'u' && HasHex4(s, 2) {
      assert !HasHex4(s[6..], 2);
    }
  }

  /** What parse_string stores is a C string: no escape produces a NUL. */
  lemma {:induction false} ParsedNulFree(s: string)
    requires WellFormedEscapes(s)
    ensures ParseChars(s).Ok? && NulFree(ParseChars(s).value)
    decreases |s|
  {
    ParsedIffWellFormed(s);
    if At(s, 0) == NUL || s[0] == '\"' {
    } else if s[0] != '\\' {
      ParsedNulFree(s[1..]);
    } else {
      EscapeNulFree(s);
      ParsedIffWellFormed(ParseEscape(s).rest);
      ParsedNulFree(ParseEscape(s).rest);
    }
  }

  lemma EscapeNulFree(s: string)
    requires s != "" && s[0] == '\\' && ParseEscape(s).Ok?
    ensures NulFree(ParseEscape(s).value)
  {
    if s[1] == 'u' && ParseEscape(s).value != "" {
      var uc := Hex4(s, 2);
      Utf8NulFree(if IsHighSurrogate(uc) then CombineSurrogates(uc, Hex4(s, 8)) else uc);
    }
  }

  /** Stores the bytes of `uc` from the last one backwards, falling through the cases of the C switch. */
  method WriteUtf8(out: array<char>, at: nat, code: nat) returns (n: nat)
    requires code < 0x110000 && at + Utf8Length(code) <= out.Length
    modifies out
    ensures n == at + Utf8Length(code)
    ensures out[..n] == old(out[..at]) + Utf8(code)
  {
    var uc := code;
    var len := 4;
    if uc < 0x80 {
      len := 1;
    } else if uc < 0x800 {
      len := 2;
    } else if uc < 0x10000 {
      len := 3;
    }
    var k := at + len;
    if len >= 4 {
      k := k - 1;
      out[k] := Continuation(uc);
      uc := uc / 0x40;
    }
    if len >= 3 {
      k := k - 1;
      out[k] := Continuation(uc);
      uc := uc / 0x40;
    }
    if len >= 2 {
      k := k - 1;
      out[k] := Continuation(uc);
      uc := uc / 0x40;
    }
    k := k - 1;
    out[k] := Lead(len, uc);
    n := k + len;
  }

  lemma HexAt(text: string, p: nat, k: nat)
    requires p <= |text|
    ensures HasHex4(text[p..], k) == HasHex4(text, p + k)
    ensures HasHex4(text, p + k) ==> Hex4(text[p..], k) == Hex4(text, p + k)
  {
  }

  /** The case 'u' of parse_string: `p` is at the backslash, and sscanf reads four digits with "%4x". */
  method ReadUnit(text: string, p: nat, out: array<char>, n: nat) returns (ok: bool, q: nat, m: nat)
    requires p + 2 <= |text| && text[p] == '\\' && text[p + 1] == 'u' && n <= out.Length
    requires ParseEscape(text[p..]).Ok? ==> n + |ParseEscape(text[p..]).value| < out.Length
    modifies out
    ensures ok == ParseEscape(text[p..]).Ok? && (!ok ==> ParseEscape(text[p..]) == Undefined)
    ensures ok ==> q <= |text| && text[q..] == ParseEscape(text[p..]).rest
    ensures ok ==> n <= m < out.Length && out[..m] == old(out[..n]) + ParseEscape(text[p..]).value
  {
    ghost var s := text[p..];
    HexAt(text, p, 2);
    if !HasHex4(text, p + 2) {
      return false, 0, 0;
    }
    var uc := Hex4(text, p + 2);
    ok, q, m := true, p + 6, n;
    assert s[6..] == text[p + 6..] && At(s, 6) == At(text, p + 6) && At(s, 7) == At(text, p + 7);
    if IsLowSurrogate(uc) || uc == 0 {
      return;
    }
    if IsHighSurrogate(uc) {
      ok, q, uc := ReadSecondHalf(text, p, uc);
      if uc == 0 {
        return;
      }
    }
    m := WriteUtf8(out, n, uc);
  }

  /** The second unit of a surrogate pair; `code` is 0 when there is nothing to write. */
  method ReadSecondHalf(text: string, p: nat, uc: nat) returns (ok: bool, q: nat, code: nat)
    requires p + 6 <= |text| && text[p] == '\\' && text[p + 1] == 'u'
    requires HasHex4(text, p + 2) && uc == Hex4(text, p + 2) && IsHighSurrogate(uc)
    ensures !ok ==> ParseEscape(text[p..]) == Undefined && code == 0
    ensures ok ==> p < q <= |text| && code < 0x110000
    ensures ok ==> ParseEscape(text[p..]) == Ok(if code == 0 then "" else Utf8(code), text[q..])
  {
    ghost var s := text[p..];
    HexAt(text, p, 2);
    HexAt(text, p, 8);
    assert s[6..] == text[p + 6..] && At(s, 6) == At(text, p + 6) && At(s, 7) == At(text, p + 7);
    ok, q, code := true, p + 6, 0;
    if At(text, q) != '\\' || At(text, q + 1) != 'u' {
      return;
    }
    if !HasHex4(text, p + 8) {
      return false, 0, 0;
    }
    var uc2 := Hex4(text, p + 8);
    q := p + 12;
    assert s[12..] == text[p + 12..];
    if IsLowSurrogate(uc2) {
      code := CombineSurrogates(uc, uc2);
    }
  }

  /** parse_string: measure, allocate, write. */
  method ReadString(text: string, p: nat) returns (o: Outcome<string>)
    requires p <= |text|
    ensures Agrees(o, text, ParseString(text[p..]))
  {
    if At(text, p) != '\"' {
      return Error(p);
    }
    assert text[p..][1..] == text[p + 1..];
    ParsedFits(text[p + 1..]);
    var ok, len := Measure(text, p + 1);
    if !ok {
      return Undef;
    }
    var out := new char[len + 1];
    var q, n;
    ok, q, n := WriteString(text, p + 1, out);
    if !ok {
      return Undef;
    }
    out[n] := NUL;
    if At(text, q) == '\"' {
      assert text[q..][1..] == text[q + 1..];
      q := q + 1;
    }
    o := Done(out[..n], q);
    assert out[..n] + "" == out[..n];
  }

  /** The second loop of parse_string. */
  method WriteString(text: string, p: nat, out: array<char>) returns (ok: bool, q: nat, n: nat)
    requires p <= |text| && FirstPass(text[p..]) == Some(out.Length - 1)
    modifies out
    ensures !ok ==> ParseChars(text[p..]) == Undefined
    ensures ok ==> q <= |text| && n < out.Length && (At(text, q) == '\"' || At(text, q) == NUL)
    ensures ok ==> ParseChars(text[p..]) == Prepend(out[..n], ParseChars(text[q..]))
  {
    hide ParseEscape;
    ghost var spec := ParseChars(text[p..]);
    ok, q, n := true, p, 0;
    assert spec.Ok? ==> out[..0] + spec.value == spec.value;
    while At(text, q) != '\"' && At(text, q) != NUL
      invariant q <= |text| && n < out.Length
      invariant FirstPass(text[q..]).Some? && n + FirstPass(text[q..]).value < out.Length
      invariant spec == Prepend(out[..n], ParseChars(text[q..]))
      decreases |text| - q
    {
      ghost var head, s := out[..n], text[q..];
      if text[q] != '\\' {
        out[n] := text[q];
        assert s[1..] == text[q + 1..];
        q, n := q + 1, n + 1;
        assert out[..n] == head + [s[0]];
        PrependTwice(head, [s[0]], ParseChars(s[1..]));
      } else {
        ok, q, n := ReadEscape(text, q, out, n);
        if !ok {
          return;
        }
        PrependTwice(head, ParseEscape(s).value, ParseChars(text[q..]));
      }
    }
  }

  lemma PrependTwice(a: string, b: string, p: Parsed<string>)
    ensures Prepend(a, Prepend(b, p)) == Prepend(a + b, p)
  {
    assert p.Ok? ==> a + (b + p.value) == (a + b) + p.value;
  }

  /** The first loop of parse_string. */
  method Measure(text: string, p: nat) returns (ok: bool, len: nat)
    requires p <= |text|
    ensures ok == FirstPass(text[p..]).Some? && (ok ==> len == FirstPass(text[p..]).value)
  {
    var q := p;
    len := 0;
    while At(text, q) != '\"' && At(text, q) != NUL
      invariant p <= q <= |text|
      invariant FirstPass(text[p..]) == Add(len, FirstPass(text[q..]))
      decreases |text| - q
    {
      len := len + 1;
      if text[q] == '\\' {
        if At(text, q + 1) == NUL {
          return false, 0;
        }
        assert text[q..][2..] == text[q + 2..];
        q := q + 1;
      } else {
        assert text[q..][1..] == text[q + 1..];
      }
      q := q + 1;
    }
    ok := true;
  }

  /** The branch of the writing loop that starts at a backslash. */
  method ReadEscape(text: string, p: nat, out: array<char>, n: nat) returns (ok: bool, q: nat, m: nat)
    requires p < |text| && text[p] == '\\'
    requires FirstPass(text[p..]).Some? && n + FirstPass(text[p..]).value < out.Length
    modifies out
    ensures ok == ParseEscape(text[p..]).Ok? && (!ok ==> ParseEscape(text[p..]) == Undefined)
    ensures ok ==> p < q <= |text| && text[q..] == ParseEscape(text[p..]).rest
    ensures ok ==> n <= m < out.Length && out[..m] == old(out[..n]) + ParseEscape(text[p..]).value
    ensures ok ==> FirstPass(text[q..]).Some? && m + FirstPass(text[q..]).value < out.Length
  {
    ghost var s := text[p..];
    if At(text, p + 1) == NUL {
      return false, 0, 0;
    }
    if ParseEscape(s).Ok? {
      EscapeFits(s);
    }
    if text[p + 1] == 'u' {
      ok, q, m := ReadUnit(text, p, out, n);
    } else {
      ok, q, m := true, p + 2, n + 1;
      out[n] := Unescaped(text[p + 1]);
      assert s[2..] == text[p + 2..];
    }
  }

  // ----- values

  method CompareKeyword(text: string, p: nat, word: string) returns (same: bool)
    requires p <= |text|
    ensures same == StartsWith(text[p..], word)
  {
    same := p + |word| <= |text| && text[p..p + |word|] == word;
    if p + |word| <= |text| {
      assert text[p..][..|word|] == text[p..p + |word|];
    }
  }

  method ReadValue(text: string, p: nat) returns (o: Outcome<Json>)
    requires p <= |text|
    ensures Agrees(o, text, ParseValue(text[p..]))
    decreases |text| - p, 1
  {
    ghost var s := text[p..];
    assert forall k :: 0 <= k <= |s| ==> s[k..] == text[p + k..];
    assert At(s, 0) == At(text, p);
    var found := CompareKeyword(text, p, "null");
    if found {
      return Done(Null, p + 4);
    }
    found := CompareKeyword(text, p, "false");
    if found {
      return Done(False, p + 5);
    }
    found := CompareKeyword(text, p, "true");
    if found {
      return Done(True, p + 4);
    }
    if At(text, p) == '\"' {
      var str := ReadString(text, p);
      o := match str case Done(v, q) => Done(String(v), q) case Error(q) => Error(q) case Undef => Undef;
    } else if At(text, p) == '-' || IsDigit(At(text, p)) {
      var v, q := ReadNumber(text, p);
      o := Done(v, q);
    } else if At(text, p) == '[' {
      o := ReadArray(text, p);
    } else if At(text, p) == '{' {
      o := ReadObject(text, p);
    } else {
      o := Error(p);
    }
  }

  ghost function PrependItems<T>(head: seq<T>, p: Parsed<seq<T>>): Parsed<seq<T>> {
    match p case Ok(value, rest) => Ok(head + value, rest) case _ => p
  }

  lemma PrependItem<T>(head: seq<T>, v: T, p: Parsed<seq<T>>)
    ensures PrependItems(head, PrependItems([v], p)) == PrependItems(head + [v], p)
  {
    assert p.Ok? ==> head + ([v] + p.value) == (head + [v]) + p.value;
  }

  /** The items from `s` on, once the first one has been read. */
  lemma ItemsUnfold(s: string)
    ensures match ParseValue(Skip(s))
            case Ok(v, after) =>
              var t := Skip(after);
              if At(t, 0) == ',' then ParseItems(s) == PrependItems([v], ParseItems(t[1..]))
              else if At(t, 0) == ']' then ParseItems(s) == Ok([v], t[1..])
              else ParseItems(s) == Fail(t)
            case Fail(at) => ParseItems(s) == Fail(at)
            case Undefined => ParseItems(s) == Undefined
  {
  }

  lemma MembersUnfold(s: string)
    ensures match ParseMember(s)
            case Ok(m, after) =>
              var t := Skip(after);
              if At(t, 0) == ',' then ParseMembers(s) == PrependItems([m], ParseMembers(t[1..]))
              else if At(t, 0) == '}' then ParseMembers(s) == Ok([m], t[1..])
              else ParseMembers(s) == Fail(t)
            case Fail(at) => ParseMembers(s) == Fail(at)
            case Undefined => ParseMembers(s) == Undefined
  {
  }

  lemma ItemSeparated(text: string, p: nat, v: Json, after: nat, q: nat)
    requires p <= |text| && after <= q <= |text|
    requires ParseValue(Skip(text[p..])) == Ok(v, text[after..]) && text[q..] == Skip(text[after..])
    ensures At(text, q) == ',' ==> q < |text| && ParseItems(text[p..]) == PrependItems([v], ParseItems(text[q + 1..]))
    ensures At(text, q) == ']' ==> q < |text| && ParseItems(text[p..]) == Ok([v], text[q + 1..])
    ensures At(text, q) != ',' && At(text, q) != ']' ==> ParseItems(text[p..]) == Fail(text[q..])
  {
    hide ParseMember, ParseMembers, ParseItems, ParseValue, Skip;
    ItemsUnfold(text[p..]);
    assert At(text[q..], 0) == At(text, q);
    if q < |text| {
      assert text[q..][1..] == text[q + 1..];
    }
  }

  lemma MemberSeparated(text: string, p: nat, m: Member, after: nat, q: nat)
    requires p <= |text| && after <= q <= |text|
    requires ParseMember(text[p..]) == Ok(m, text[after..]) && text[q..] == Skip(text[after..])
    ensures At(text, q) == ',' ==> q < |text| && ParseMembers(text[p..]) == PrependItems([m], ParseMembers(text[q + 1..]))
    ensures At(text, q) == '}' ==> q < |text| && ParseMembers(text[p..]) == Ok([m], text[q + 1..])
    ensures At(text, q) != ',' && At(text, q) != '}' ==> ParseMembers(text[p..]) == Fail(text[q..])
  {
    hide ParseMember, ParseMembers, ParseItems, ParseValue, Skip;
    MembersUnfold(text[p..]);
    assert At(text[q..], 0) == At(text, q);
    if q < |text| {
      assert text[q..][1..] == text[q + 1..];
    }
  }

  /** parse_value( item, skip( value ) ) */
  method ReadValueAfterBlanks(text: string, p: nat) returns (o: Outcome<Json>)
    requires p <= |text|
    ensures Agrees(o, text, ParseValue(Skip(text[p..])))
    ensures o.Done? ==> p < o.next
    decreases |text| - p, 2
  {
    var q := SkipFrom(text, p);
    o := ReadValue(text, q);
    assert o.Done? ==> |text[o.next..]| < |text[q..]|;
  }

  /** One value and the blanks behind it, up to where parse_array looks for a comma or a bracket. */
  method NextItem(text: string, p: nat) returns (o: Outcome<Json>)
    requires p <= |text|
    ensures o.Undef? ==> ParseItems(text[p..]) == Undefined
    ensures o.Error? ==> o.ep <= |text| && ParseItems(text[p..]) == Fail(text[o.ep..])
    ensures o.Done? ==> p < o.next <= |text|
    ensures o.Done? && At(text, o.next) == ',' ==>
              o.next < |text| && ParseItems(text[p..]) == PrependItems([o.value], ParseItems(text[o.next + 1..]))
    ensures o.Done? && At(text, o.next) == ']' ==>
              o.next < |text| && ParseItems(text[p..]) == Ok([o.value], text[o.next + 1..])
    ensures o.Done? && At(text, o.next) != ',' && At(text, o.next) != ']' ==>
              ParseItems(text[p..]) == Fail(text[o.next..])
    decreases |text| - p, 3
  {
    hide ParseValue, ParseItems, Skip;
    ItemsUnfold(text[p..]);
    var child := ReadValueAfterBlanks(text, p);
    match child
    case Undef => o := Undef;
    case Error(ep) => o := Error(ep);
    case Done(v, after) =>
      var q := SkipFrom(text, after);
      ItemSeparated(text, p, v, after, q);
      o := Done(v, q);
  }

  /** parse_array: the loop appends one child per comma. */
  method ReadArray(text: string, p: nat) returns (o: Outcome<Json>)
    requires p < |text| && text[p] == '['
    ensures Agrees(o, text, ParseArray(text[p..]))
    decreases |text| - p, 0
  {
    assert text[p..][1..] == text[p + 1..];
    var q := SkipFrom(text, p + 1);
    if At(text, q) == ']' {
      assert text[q..][1..] == text[q + 1..];
      return Done(Array([]), q + 1);
    }
    var items := ReadItems(text, q);
    o := match items case Done(vs, end) => Done(Array(vs), end) case Error(ep) => Error(ep) case Undef => Undef;
  }

  method ReadItems(text: string, p: nat) returns (o: Outcome<seq<Json>>)
    requires p <= |text|
    ensures Agrees(o, text, ParseItems(text[p..]))
    decreases |text| - p, 5
  {
    hide ParseItems;
    ghost var spec := ParseItems(text[p..]);
    o := Undef;
    var q, items, more := p, [], true;
    assert spec.Ok? ==> items + spec.value == spec.value;
    while more
      invariant p <= q <= |text|
      invariant more ==> spec == PrependItems(items, ParseItems(text[q..]))
      invariant !more ==> Agrees(o, text, spec)
      decreases more, |text| - q
    {
      more, o, q, items := AppendItem(text, q, items, spec);
    }
  }

  method AppendItem(text: string, p: nat, items0: seq<Json>, ghost spec: Parsed<seq<Json>>)
    returns (more: bool, o: Outcome<seq<Json>>, q: nat, items: seq<Json>)
    requires p <= |text| && spec == PrependItems(items0, ParseItems(text[p..]))
    ensures p <= q <= |text|
    ensures more ==> p < q && spec == PrependItems(items, ParseItems(text[q..]))
    ensures !more ==> Agrees(o, text, spec)
    decreases |text| - p, 4
  {
    hide ParseItems;
    more, q, items := false, p, items0;
    var child := NextItem(text, p);
    if child.Undef? {
      o := Undef;
    } else if child.Error? {
      o := Error(child.ep);
    } else if At(text, child.next) == ']' {
      o := Done(items + [child.value], child.next + 1);
    } else if At(text, child.next) != ',' {
      o := Error(child.next);
    } else {
      PrependItem(items, child.value, ParseItems(text[child.next + 1..]));
      more, o, q, items := true, Undef, child.next + 1, items + [child.value];
    }
  }

  /** A name and its colon. */
  method ReadName(text: string, p: nat) returns (o: Outcome<string>)
    requires p <= |text|
    ensures Agrees(o, text, ParseName(text[p..]))
  {
    hide ParseString, Skip;
    var q := SkipFrom(text, p);
    o := ReadString(text, q);
    if o.Done? {
      q := SkipFrom(text, o.next);
      if At(text, q) != ':' {
        return Error(q);
      }
      Slices(text, q, q + 1);
      o := Done(o.value, q + 1);
    }
  }

  /** One `"name" : value`. */
  method ReadMember(text: string, p: nat) returns (o: Outcome<Member>)
    requires p <= |text|
    ensures Agrees(o, text, ParseMember(text[p..]))
    decreases |text| - p, 3
  {
    var name := ReadName(text, p);
    match name
    case Undef => o := Undef;
    case Error(ep) => o := Error(ep);
    case Done(str, after) =>
      assert |text[after..]| < |text[p..]|;
      var value := ReadValueAfterBlanks(text, after);
      o := match value
           case Done(v, end) => Done(Member(str, v), end)
           case Error(ep) => Error(ep)
           case Undef => Undef;
  }

  /** One member and the blanks behind it, up to where parse_object looks for a comma or a brace. */
  method NextMember(text: string, p: nat) returns (o: Outcome<Member>)
    requires p <= |text|
    ensures o.Undef? ==> ParseMembers(text[p..]) == Undefined
    ensures o.Error? ==> o.ep <= |text| && ParseMembers(text[p..]) == Fail(text[o.ep..])
    ensures o.Done? ==> p < o.next <= |text|
    ensures o.Done? && At(text, o.next) == ',' ==>
              o.next < |text| && ParseMembers(text[p..]) == PrependItems([o.value], ParseMembers(text[o.next + 1..]))
    ensures o.Done? && At(text, o.next) == '}' ==>
              o.next < |text| && ParseMembers(text[p..]) == Ok([o.value], text[o.next + 1..])
    ensures o.Done? && At(text, o.next) != ',' && At(text, o.next) != '}' ==>
              ParseMembers(text[p..]) == Fail(text[o.next..])
    decreases |text| - p, 4
  {
    hide ParseMember, ParseMembers, Skip;
    MembersUnfold(text[p..]);
    var child := ReadMember(text, p);
    match child
    case Undef => o := Undef;
    case Error(ep) => o := Error(ep);
    case Done(m, after) =>
      assert |text[after..]| < |text[p..]|;
      var q := SkipFrom(text, after);
      MemberSeparated(text, p, m, after, q);
      o := Done(m, q);
  }

  /** parse_object: the loop appends one member per comma. */
  method ReadObject(text: string, p: nat) returns (o: Outcome<Json>)
    requires p < |text| && text[p] == '{'
    ensures Agrees(o, text, ParseObject(text[p..]))
    decreases |text| - p, 0
  {
    assert text[p..][1..] == text[p + 1..];
    var q := SkipFrom(text, p + 1);
    if At(text, q) == '}' {
      assert text[q..][1..] == text[q + 1..];
      return Done(Object([]), q + 1);
    }
    var members := ReadMembers(text, q);
    o := match members case Done(vs, end) => Done(Object(vs), end) case Error(ep) => Error(ep) case Undef => Undef;
  }

  method ReadMembers(text: string, p: nat) returns (o: Outcome<seq<Member>>)
    requires p <= |text|
    ensures Agrees(o, text, ParseMembers(text[p..]))
    decreases |text| - p, 6
  {
    hide ParseMembers;
    ghost var spec := ParseMembers(text[p..]);
    o := Undef;
    var q, members, more := p, [], true;
    assert spec.Ok? ==> members + spec.value == spec.value;
    while more
      invariant p <= q <= |text|
      invariant more ==> spec == PrependItems(members, ParseMembers(text[q..]))
      invariant !more ==> Agrees(o, text, spec)
      decreases more, |text| - q
    {
      more, o, q, members := AppendMember(text, q, members, spec);
    }
  }

  method AppendMember(text: string, p: nat, members0: seq<Member>, ghost spec: Parsed<seq<Member>>)
    returns (more: bool, o: Outcome<seq<Member>>, q: nat, members: seq<Member>)
    requires p <= |text| && spec == PrependItems(members0, ParseMembers(text[p..]))
    ensures p <= q <= |text|
    ensures more ==> p < q && spec == PrependItems(members, ParseMembers(text[q..]))
    ensures !more ==> Agrees(o, text, spec)
    decreases |text| - p, 5
  {
    hide ParseMembers;
    more, q, members := false, p, members0;
    var child := NextMember(text, p);
    if child.Undef? {
      o := Undef;
    } else if child.Error? {
      o := Error(child.ep);
    } else if At(text, child.next) == '}' {
      o := Done(members + [child.value], child.next + 1);
    } else if At(text, child.next) != ',' {
      o := Error(child.next);
    } else {
      PrependItem(members, child.value, ParseMembers(text[child.next + 1..]));
      more, o, q, members := true, Undef, child.next + 1, members + [child.value];
    }
  }

  /** cJSON_Parse. */
  method ParseText(text: string) returns (o: Outcome<Json>)
    ensures Agrees(o, text, Parse(text))
  {
    assert text[0..] == text;
    var q := SkipFrom(text, 0);
    o := ReadValue(text, q);
  }
}
