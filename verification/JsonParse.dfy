/**
 The parser of cjson.c as functions from the text at a pointer to the item read and the text at the
 returned pointer.
 */
module JsonParse {
  import opened CText
  import opened JsonPrint
  import opened Transcode

  /**
   What a parsing routine does: it returns a pointer (`rest` is the text there), it returns NULL with the error
   pointer at `at`, or it runs into an escape for which the C code has no defined behaviour.
   */
  datatype Parsed<+T> = Ok(value: T, rest: string) | Fail(at: string) | Undefined {
    predicate IsFailure() { !Ok? }

    function PropagateFailure<U>(): Parsed<U>
      requires IsFailure()
    {
      match this case Fail(at) => Fail(at) case _ => Undefined
    }

    function Extract(): (T, string)
      requires !IsFailure()
    {
      (value, rest)
    }
  }

  /** What is left after skipping whitespace and control characters. */
  function Skip(s: string): (r: string)
    ensures |r| <= |s|
  {
    if s != "" && s[0] != NUL && s[0] as int <= 32 then Skip(s[1..]) else s
  }

  // ----- numbers

  const TWO64: int := 0x1_0000_0000_0000_0000

  /** Arithmetic on int64_t. */
  function Wrap64(x: int): (r: int)
    ensures -0x8000_0000_0000_0000 <= r < 0x8000_0000_0000_0000
  {
    var m := x % TWO64;
    if m < 0x8000_0000_0000_0000 then m else m - TWO64
  }

  /** The number of digits the text starts with. */
  function DigitCount(s: string): (n: nat)
    ensures n <= |s|
  {
    if s != "" && IsDigit(s[0]) then 1 + DigitCount(s[1..]) else 0
  }

  function DigitValue(c: char): int {
    c as int - '0' as int
  }

  /** `i = i * 10 + digit` over all the digits, on an int64_t. */
  function FoldInt(i: int, digits: string): int
    decreases digits
  {
    if digits == "" then i else FoldInt(Wrap64(i * 10 + DigitValue(digits[0])), digits[1..])
  }

  /** The same without a width: the decimal mantissa behind the double `f`, and the exponent `subscale`. */
  function FoldDec(f: int, digits: string): int
    decreases digits
  {
    if digits == "" then f else FoldDec(f * 10 + DigitValue(digits[0]), digits[1..])
  }

  /** `sign * x` */
  function Signed(negative: bool, x: int): int {
    if negative then -x else x
  }

  /** The integer part: at most one leading '0', then digits if the next one is not '0'. */
  function IntegerPart(s: string): (n: nat)
    ensures n <= |s|
  {
    if At(s, 0) == '0' then
      if '1' <= At(s, 1) <= '9' then 1 + DigitCount(s[1..]) else 1
    else if '1' <= At(s, 0) <= '9' then DigitCount(s)
    else 0
  }

  predicate HasFraction(s: string) {
    At(s, 0) == '.' && IsDigit(At(s, 1))
  }

  predicate HasExponent(s: string) {
    At(s, 0) == 'e' || At(s, 0) == 'E'
  }

  /** The signed exponent at `s`, which starts with 'e' or 'E', and what follows it. */
  function Exponent(s: string): (r: (int, string))
    requires HasExponent(s)
    ensures |r.1| < |s|
  {
    var t := if At(s, 1) == '+' || At(s, 1) == '-' then s[2..] else s[1..];
    var n := DigitCount(t);
    (if At(s, 1) == '-' then -FoldDec(0, t[..n]) else FoldDec(0, t[..n]), t[n..])
  }

  /** What is read behind the integer part: whether it is a float, its decimal value, and the text that follows. */
  datatype Tail = Tail(isint: bool, mantissa: int, exponent: int, rest: string)

  function ParseExponent(isint: bool, f: int, scale: int, s: string): (r: Tail)
    ensures |r.rest| <= |s|
  {
    if HasExponent(s) then Tail(false, f, scale + Exponent(s).0, Exponent(s).1) else Tail(isint, f, scale, s)
  }

  /** The fraction and the exponent behind an integer part with mantissa `f`. */
  function ParseTail(f: int, s: string): (r: Tail)
    ensures |r.rest| <= |s|
  {
    if HasFraction(s) then
      var n: int := DigitCount(s[1..]);
      ParseExponent(false, FoldDec(f, s[1..][..n]), -n, s[1..][n..])
    else ParseExponent(true, f, 0, s)
  }

  /** The number after the sign. */
  function ParseUnsigned(s: string, negative: bool): (r: (Json, string))
    ensures |r.1| <= |s|
  {
    var n := IntegerPart(s);
    var t := ParseTail(FoldDec(0, s[..n]), s[n..]);
    (if t.isint then Number(Wrap64(Signed(negative, FoldInt(0, s[..n])))) else Float(Signed(negative, t.mantissa), t.exponent),
     t.rest)
  }

  /** parse_number; it never fails. */
  function ParseNumber(s: string): (r: (Json, string))
    ensures |r.1| <= |s|
    ensures s != "" && (s[0] == '-' || IsDigit(s[0])) ==> |r.1| < |s|
  {
    if At(s, 0) == '-' then ParseUnsigned(s[1..], true) else ParseUnsigned(s, false)
  }

  // ----- strings

  predicate HasHex4(s: string, at: nat) {
    at + 4 <= |s| && IsHexDigit(s[at]) && IsHexDigit(s[at + 1]) && IsHexDigit(s[at + 2]) && IsHexDigit(s[at + 3])
  }

  /** The unit that four hexadecimal digits at `s[at..]` denote. */
  function Hex4(s: string, at: nat): (u: nat)
    requires HasHex4(s, at)
    ensures u < 0x10000
  {
    HexValue(s[at]) * 0x1000 + HexValue(s[at + 1]) * 0x100 + HexValue(s[at + 2]) * 0x10 + HexValue(s[at + 3])
  }

  /** The byte a one-letter escape stands for; any other character stands for itself. */
  function Unescaped(c: char): char {
    if c == 'b' then BACKSPACE
    else if c == 'f' then FORMFEED
    else if c == 'n' then '\n'
    else if c == 'r' then '\r'
    else if c == 't' then '\t'
    else c
  }

  /** One escape, at its backslash: the bytes it produces. */
  function ParseEscape(s: string): (r: Parsed<string>)
    requires s != "" && s[0] == '\\'
    ensures r.Ok? ==> |r.rest| < |s| && 2 <= |s| && s[|s| - |r.rest|..] == r.rest
  {
    if At(s, 1) == NUL then Undefined
    else if s[1] != 'u' then Ok([Unescaped(s[1])], s[2..])
    else if !HasHex4(s, 2) then Undefined
    else
      var uc := Hex4(s, 2);
      if IsLowSurrogate(uc) || uc == 0 then Ok("", s[6..])
      else if !IsHighSurrogate(uc) then Ok(Utf8(uc), s[6..])
      else if At(s, 6) != '\\' || At(s, 7) != 'u' then Ok("", s[6..])
      else if !HasHex4(s, 8) then Undefined
      else if !IsLowSurrogate(Hex4(s, 8)) then Ok("", s[12..])
      else Ok(Utf8(CombineSurrogates(uc, Hex4(s, 8))), s[12..])
  }

  function Prepend(head: string, p: Parsed<string>): Parsed<string> {
    match p case Ok(value, rest) => Ok(head + value, rest) case _ => p
  }

  /** The writing loop of parse_string, from inside the quotes; a missing closing quote is accepted. */
  function ParseChars(s: string): (r: Parsed<string>)
    ensures r.Ok? ==> |r.rest| <= |s|
    decreases |s|
  {
    if At(s, 0) == NUL then Ok("", s)
    else if s[0] == '\"' then Ok("", s[1..])
    else if s[0] != '\\' then Prepend([s[0]], ParseChars(s[1..]))
    else match ParseEscape(s) {
      case Ok(bytes, rest) => Prepend(bytes, ParseChars(rest))
      case other => other
    }
  }

  function ParseString(s: string): (r: Parsed<string>)
    ensures r.Ok? ==> |r.rest| < |s|
  {
    if At(s, 0) != '\"' then Fail(s) else ParseChars(s[1..])
  }

  // ----- values

  function ParseValue(s: string): (r: Parsed<Json>)
    ensures r.Ok? ==> |r.rest| < |s|
    decreases |s|, 1
  {
    if StartsWith(s, "null") then Ok(Null, s[4..])
    else if StartsWith(s, "false") then Ok(False, s[5..])
    else if StartsWith(s, "true") then Ok(True, s[4..])
    else if At(s, 0) == '\"' then
      var (str, rest) :- ParseString(s);
      Ok(String(str), rest)
    else if At(s, 0) == '-' || IsDigit(At(s, 0)) then
      var (v, rest) := ParseNumber(s);
      Ok(v, rest)
    else if At(s, 0) == '[' then ParseArray(s)
    else if At(s, 0) == '{' then ParseObject(s)
    else Fail(s)
  }

  function ParseArray(s: string): (r: Parsed<Json>)
    requires At(s, 0) == '['
    ensures r.Ok? ==> |r.rest| < |s|
    decreases |s|, 0
  {
    var t := Skip(s[1..]);
    if At(t, 0) == ']' then Ok(Array([]), t[1..])
    else
      var (items, rest) :- ParseItems(t);
      Ok(Array(items), rest)
  }

  /** From the first character of an item to behind the closing bracket. */
  function ParseItems(s: string): (r: Parsed<seq<Json>>)
    ensures r.Ok? ==> |r.rest| < |s|
    decreases |s|, 2
  {
    var (v, rest) :- ParseValue(Skip(s));
    var t := Skip(rest);
    if At(t, 0) == ',' then
      var (vs, end) :- ParseItems(t[1..]);
      Ok([v] + vs, end)
    else if At(t, 0) == ']' then Ok([v], t[1..])
    else Fail(t)
  }

  function ParseObject(s: string): (r: Parsed<Json>)
    requires At(s, 0) == '{'
    ensures r.Ok? ==> |r.rest| < |s|
    decreases |s|, 0
  {
    var t := Skip(s[1..]);
    if At(t, 0) == '}' then Ok(Object([]), t[1..])
    else
      var (members, rest) :- ParseMembers(t);
      Ok(Object(members), rest)
  }

  /** The name of a member and the colon behind it. */
  function ParseName(s: string): (r: Parsed<string>)
    ensures r.Ok? ==> |r.rest| < |s|
  {
    var (name, rest) :- ParseString(Skip(s));
    var t := Skip(rest);
    if At(t, 0) != ':' then Fail(t) else Ok(name, t[1..])
  }

  function ParseMember(s: string): (r: Parsed<Member>)
    ensures r.Ok? ==> |r.rest| < |s|
    decreases |s|, 2
  {
    var (name, rest) :- ParseName(s);
    var (v, end) :- ParseValue(Skip(rest));
    Ok(Member(name, v), end)
  }

  function ParseMembers(s: string): (r: Parsed<seq<Member>>)
    ensures r.Ok? ==> |r.rest| < |s|
    decreases |s|, 3
  {
    var (m, rest) :- ParseMember(s);
    var t := Skip(rest);
    if At(t, 0) == ',' then
      var (ms, end) :- ParseMembers(t[1..]);
      Ok([m] + ms, end)
    else if At(t, 0) == '}' then Ok([m], t[1..])
    else Fail(t)
  }

  /** cJSON_Parse: what follows the value is ignored. */
  function Parse(s: string): Parsed<Json> {
    ParseValue(Skip(s))
  }
}
