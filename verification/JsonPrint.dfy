/**
 The JSON values of cjson.c and the text that cJSON_Print and cJSON_PrintUnformatted make of them.
 */
module JsonPrint {
  import opened CText

  /**
   A cJSON item with its list of children.  `Float` is a number read from text with a fraction or an
   exponent; its exact decimal value mantissa * 10^exponent stands for the double the C code rounds it to.
   */
  datatype Json =
    | Null
    | False
    | True
    | Number(valueint: int)
    | Float(mantissa: int, exponent: int)
    | String(valuestring: string)
    | Array(items: seq<Json>)
    | Object(members: seq<Member>)

  datatype Member = Member(name: string, value: Json)

  /** Integers whose double lies strictly inside the range of int64_t: print_number uses "%lld" for them. */
  const MIN_PRINTABLE: int := -0x7FFF_FFFF_FFFF_FFFF
  const MAX_PRINTABLE: int := 0x7FFF_FFFF_FFFF_FDFF

  /** Trees without "%g" numbers, whose strings are C strings. */
  predicate Printable(v: Json) {
    match v
    case Null | False | True => true
    case Number(n) => MIN_PRINTABLE <= n <= MAX_PRINTABLE
    case Float(_, _) => false
    case String(s) => NulFree(s)
    case Array(items) => forall i :: 0 <= i < |items| ==> Printable(items[i])
    case Object(members) =>
      forall i :: 0 <= i < |members| ==> NulFree(members[i].name) && Printable(members[i].value)
  }

  // ----- numbers

  function Digits(n: nat): (s: string)
    ensures |s| > 0 && forall i :: 0 <= i < |s| ==> IsDigit(s[i])
    ensures n > 0 ==> s[0] != '0'
  {
    var last := ['0' + (n % 10) as char];
    if n < 10 then last else Digits(n / 10) + last
  }

  /** sprintf( str, "%lld", n ) */
  function Decimal(n: int): string {
    if n < 0 then "-" + Digits(-n) else Digits(n)
  }

  // ----- strings

  /** The letter that follows the backslash in the short escapes, or NUL when there is none. */
  function ShortEscape(c: char): char {
    if c == '\\' then '\\'
    else if c == '\"' then '\"'
    else if c == BACKSPACE then 'b'
    else if c == FORMFEED then 'f'
    else if c == '\n' then 'n'
    else if c == '\r' then 'r'
    else if c == '\t' then 't'
    else NUL
  }

  function EscapeChar(c: char): (s: string)
    ensures |s| > 0 && NulFree(s)
  {
    if c as int > 31 && c != '\"' && c != '\\' then [c]
    else if ShortEscape(c) != NUL then ['\\', ShortEscape(c)]
    else ['\\', 'u', '0', '0', HexDigit(c as int / 16), HexDigit(c as int % 16)]
  }

  function Escape(s: string): string {
    if s == "" then "" else EscapeChar(s[0]) + Escape(s[1..])
  }

  function Quoted(s: string): string {
    "\"" + Escape(s) + "\""
  }

  function QuotedNames(members: seq<Member>): (r: seq<string>)
    ensures |r| == |members| && forall i :: 0 <= i < |members| ==> r[i] == Quoted(members[i].name)
  {
    seq(|members|, i requires 0 <= i < |members| => Quoted(members[i].name))
  }

  // ----- arrays and objects

  function Tabs(n: nat): (s: string)
    ensures |s| == n
  {
    seq(n, _ => '\t')
  }

  /** The entries of an array, separated. */
  function Join(texts: seq<string>, fmt: bool): string {
    if texts == [] then ""
    else texts[0] + (if |texts| == 1 then "" else if fmt then ", " else ",") + Join(texts[1..], fmt)
  }

  /** One member of an object, on a line of its own when formatted; `depth` is the depth of the members. */
  function Line(name: string, text: string, last: bool, depth: nat, fmt: bool): string {
    (if fmt then Tabs(depth) else "") + (name + (":" + (if fmt then "\t" else "")) + text + LineEnd(last, fmt))
  }

  function LineEnd(last: bool, fmt: bool): string {
    (if last then "" else ",") + (if fmt then "\n" else "")
  }

  function Lines(names: seq<string>, texts: seq<string>, depth: nat, fmt: bool): string
    requires |names| == |texts|
  {
    if names == [] then ""
    else Line(names[0], texts[0], |names| == 1, depth, fmt) + Lines(names[1..], texts[1..], depth, fmt)
  }

  function Enclosed(lines: string, depth: nat, fmt: bool): string {
    "{" + (if fmt then "\n" else "") + lines + (if fmt then Tabs(depth) else "") + "}"
  }

  function Print(v: Json, depth: nat, fmt: bool): string
    requires Printable(v)
    decreases v, 1
  {
    match v
    case Null => "null"
    case False => "false"
    case True => "true"
    case Number(n) => Decimal(n)
    case String(str) => Quoted(str)
    case Array(items) => "[" + Join(PrintItems(items, depth + 1, fmt), fmt) + "]"
    case Object(members) =>
      Enclosed(Lines(QuotedNames(members), PrintMembers(members, depth + 1, fmt), depth + 1, fmt), depth, fmt)
  }

  function PrintItems(items: seq<Json>, depth: nat, fmt: bool): (r: seq<string>)
    requires forall i :: 0 <= i < |items| ==> Printable(items[i])
    ensures |r| == |items|
    ensures forall i :: 0 <= i < |items| ==> r[i] == Print(items[i], depth, fmt)
    decreases items, 0
  {
    if items == [] then [] else [Print(items[0], depth, fmt)] + PrintItems(items[1..], depth, fmt)
  }

  function PrintMembers(members: seq<Member>, depth: nat, fmt: bool): (r: seq<string>)
    requires forall i :: 0 <= i < |members| ==> Printable(members[i].value)
    ensures |r| == |members|
    ensures forall i :: 0 <= i < |members| ==> r[i] == Print(members[i].value, depth, fmt)
    decreases members, 0
  {
    if members == [] then [] else [Print(members[0].value, depth, fmt)] + PrintMembers(members[1..], depth, fmt)
  }
}
