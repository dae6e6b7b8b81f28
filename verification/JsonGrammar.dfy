/**
 The grammar of RFC 8259 as trees of concrete syntax, with the text and the meaning of each; that what the printer writes
 is such a text, in one layout; and that the parser gives every such text its meaning.
 */
module JsonGrammar {
  import opened CText
  import opened JsonPrint
  import opened JsonParse
  import opened Transcode
  import JsonRoundTrip

  // ----- strings, section 7

  /** A character as it stands, an escape of one letter, and one or two units of UTF-16 in hexadecimal. */
  datatype Piece = Raw(c: char) | Short(c: char) | Unit(hex: string) | Pair(high: string, low: string)

  predicate IsHex(c: char) {
    48 <= c as int <= 57 || 65 <= c as int <= 70 || 97 <= c as int <= 102
  }

  predicate IsHexUnit(hex: string) {
    |hex| == 4 && IsHex(hex[0]) && IsHex(hex[1]) && IsHex(hex[2]) && IsHex(hex[3])
  }

  function DigitOf(c: char): (v: nat)
    requires IsHex(c)
    ensures v < 16
  {
    if c as int <= 57 then c as int - 48 else if c as int <= 70 then c as int - 55 else c as int - 87
  }

  /** The unit that four digits write. */
  function UnitOf(hex: string): (u: nat)
    requires IsHexUnit(hex)
    ensures u < 0x10000
  {
    DigitOf(hex[0]) * 0x1000 + DigitOf(hex[1]) * 0x100 + DigitOf(hex[2]) * 0x10 + DigitOf(hex[3])
  }

  /** The pieces that the parser makes something of: also control characters, and any letter behind a backslash. */
  ghost predicate ReadablePiece(p: Piece) {
    match p
    case Raw(c) => c != NUL && c != '\"' && c != '\\'
    case Short(c) => c != NUL && c != 'u'
    case Unit(hex) => IsHexUnit(hex) && !(0xD800 <= UnitOf(hex) <= 0xDFFF)
    case Pair(high, low) =>
      IsHexUnit(high) && IsHexUnit(low) && IsHighSurrogate(UnitOf(high)) && IsLowSurrogate(UnitOf(low))
  }

  /** The pieces of the standard. */
  ghost predicate ValidPiece(p: Piece) {
    && ReadablePiece(p)
    && (p.Raw? ==> p.c as int > 31)
    && (p.Short? ==> p.c in {'\"', '\\', '/', 'b', 'f', 'n', 'r', 't'})
  }

  ghost predicate ValidPieces(ps: seq<Piece>) {
    forall i :: 0 <= i < |ps| ==> ValidPiece(ps[i])
  }

  function PieceText(p: Piece): (s: string)
    ensures s != ""
  {
    match p
    case Raw(c) => [c]
    case Short(c) => ['\\', c]
    case Unit(hex) => "\\u" + hex
    case Pair(high, low) => "\\u" + high + "\\u" + low
  }

  /** The character that the letter of a short escape stands for. */
  function LetterMeans(c: char): char {
    match c
    case 'b' => 8 as char
    case 't' => 9 as char
    case 'n' => 10 as char
    case 'f' => 12 as char
    case 'r' => 13 as char
    case _ => c
  }

  /** The bytes that a piece stands for: its character, or the UTF-8 form of its code point. */
  ghost function PieceMeans(p: Piece): string
    requires ReadablePiece(p)
  {
    match p
    case Raw(c) => [c]
    case Short(c) => [LetterMeans(c)]
    case Unit(hex) => Utf8(UnitOf(hex))
    case Pair(high, low) => Utf8(SurrogateValue(UnitOf(high), UnitOf(low)))
  }

  function PiecesText(ps: seq<Piece>): string {
    if ps == [] then "" else PieceText(ps[0]) + PiecesText(ps[1..])
  }

  ghost predicate ReadablePieces(ps: seq<Piece>) {
    forall i :: 0 <= i < |ps| ==> ReadablePiece(ps[i])
  }

  ghost function PiecesMean(ps: seq<Piece>): string
    requires ReadablePieces(ps)
  {
    if ps == [] then "" else PieceMeans(ps[0]) + PiecesMean(ps[1..])
  }

  function StringText(ps: seq<Piece>): string {
    "\"" + (PiecesText(ps) + "\"")
  }

  // ----- numbers, section 6

  datatype Power = NoPower | Power(e: char, sign: string, digits: string)

  predicate AllDigits(s: string) {
    forall i :: 0 <= i < |s| ==> '0' <= s[i] <= '9'
  }

  /** The number that digits write. */
  function DigitsMean(s: string): nat
    requires AllDigits(s)
  {
    if s == "" then 0 else DigitsMean(s[..|s| - 1]) * 10 + (s[|s| - 1] as int - '0' as int)
  }

  predicate ValidPower(p: Power) {
    p.Power? ==> (p.e == 'e' || p.e == 'E') && p.sign in {"", "+", "-"} && p.digits != "" && AllDigits(p.digits)
  }

  function FractionText(s: string): string {
    if s == "" then "" else "." + s
  }

  function PowerText(p: Power): string {
    match p case NoPower => "" case Power(e, sign, digits) => [e] + (sign + digits)
  }

  function PowerMeans(p: Power): int
    requires ValidPower(p)
  {
    match p case NoPower => 0 case Power(_, sign, digits) => var n: int := DigitsMean(digits); if sign == "-" then -n else n
  }

  // ----- values, sections 2 to 5

  /** The trees of concrete syntax; the blanks inside an array or object that is empty, or around its parts, belong to it. */
  datatype Syntax =
    | SNull
    | SFalse
    | STrue
    | SNumber(minus: bool, digits: string, fraction: string, power: Power)
    | SString(ps: seq<Piece>)
    | SArray(blank: string, items: seq<Item>)
    | SObject(blank: string, entries: seq<Entry>)

  datatype Item = Item(before: string, v: Syntax, after: string)

  datatype Entry = Entry(before: string, name: seq<Piece>, colon: string, gap: string, v: Syntax, after: string)

  predicate Blank(s: string) {
    forall i :: 0 <= i < |s| ==> s[i] == ' ' || s[i] as int in {9, 10, 13}
  }

  /** What the parser skips: control characters too. */
  predicate Skipped(s: string) {
    forall i :: 0 <= i < |s| ==> 0 < s[i] as int <= 32
  }

  /** The texts of the standard. */
  ghost predicate Valid(t: Syntax) {
    match t
    case SNull | SFalse | STrue => true
    case SNumber(_, digits, fraction, power) =>
      && digits != "" && AllDigits(digits) && (digits[0] == '0' ==> |digits| == 1) && AllDigits(fraction) && ValidPower(power)
    case SString(ps) => ValidPieces(ps)
    case SArray(blank, items) =>
      Blank(blank) && forall i :: 0 <= i < |items| ==> Blank(items[i].before) && Valid(items[i].v) && Blank(items[i].after)
    case SObject(blank, entries) =>
      Blank(blank) && forall i :: 0 <= i < |entries| ==>
        && Blank(entries[i].before) && ValidPieces(entries[i].name) && Blank(entries[i].colon) && Blank(entries[i].gap)
        && Valid(entries[i].v) && Blank(entries[i].after)
  }

  /** The texts that the parser makes something of: a minus may stand without digits, and a zero in front of others. */
  ghost predicate Readable(t: Syntax) {
    match t
    case SNull | SFalse | STrue => true
    case SNumber(minus, digits, fraction, power) =>
      && (minus || digits != "") && AllDigits(digits) && (|digits| > 1 && digits[0] == '0' ==> digits[1] != '0') && AllDigits(fraction) && ValidPower(power)
    case SString(ps) => ReadablePieces(ps)
    case SArray(blank, items) =>
      Skipped(blank) && forall i :: 0 <= i < |items| ==> Skipped(items[i].before) && Readable(items[i].v) && Skipped(items[i].after)
    case SObject(blank, entries) =>
      Skipped(blank) && forall i :: 0 <= i < |entries| ==>
        && Skipped(entries[i].before) && ReadablePieces(entries[i].name) && Skipped(entries[i].colon) && Skipped(entries[i].gap)
        && Readable(entries[i].v) && Skipped(entries[i].after)
  }

  lemma {:induction false} ValidIsReadable(t: Syntax)
    requires Valid(t)
    ensures Readable(t)
    decreases t
  {
    hide ValidPiece, ReadablePiece, Blank, Skipped;
    match t
    case SString(ps) => PiecesReadable(ps);
    case SArray(blank, items) =>
      BlankIsSkipped(blank);
      forall i | 0 <= i < |items|
        ensures Skipped(items[i].before) && Readable(items[i].v) && Skipped(items[i].after)
      {
        BlankIsSkipped(items[i].before);
        BlankIsSkipped(items[i].after);
        ValidIsReadable(items[i].v);
      }
    case SObject(blank, entries) =>
      BlankIsSkipped(blank);
      forall i | 0 <= i < |entries|
        ensures Skipped(entries[i].before) && ReadablePieces(entries[i].name) && Skipped(entries[i].colon)
        ensures Skipped(entries[i].gap) && Readable(entries[i].v) && Skipped(entries[i].after)
      {
        BlankIsSkipped(entries[i].before);
        BlankIsSkipped(entries[i].colon);
        BlankIsSkipped(entries[i].gap);
        BlankIsSkipped(entries[i].after);
        PiecesReadable(entries[i].name);
        ValidIsReadable(entries[i].v);
      }
    case _ =>
  }

  lemma BlankIsSkipped(s: string)
    requires Blank(s)
    ensures Skipped(s)
  {
  }

  lemma PiecesReadable(ps: seq<Piece>)
    requires ValidPieces(ps)
    ensures ReadablePieces(ps)
  {
  }

  function Text(t: Syntax): string
    decreases t, 1
  {
    match t
    case SNull => "null"
    case SFalse => "false"
    case STrue => "true"
    case SNumber(minus, digits, fraction, power) =>
      (if minus then "-" else "") + (digits + (FractionText(fraction) + PowerText(power)))
    case SString(ps) => StringText(ps)
    case SArray(blank, items) => "[" + ((if items == [] then blank else ItemsText(items)) + "]")
    case SObject(blank, entries) => "{" + ((if entries == [] then blank else EntriesText(entries)) + "}")
  }

  function ItemsText(items: seq<Item>): string
    decreases items, 0
  {
    if items == [] then ""
    else items[0].before + (Text(items[0].v) + (items[0].after + (if |items| == 1 then "" else "," + ItemsText(items[1..]))))
  }

  function EntriesText(entries: seq<Entry>): string
    decreases entries, 0
  {
    if entries == [] then ""
    else
      entries[0].before + (StringText(entries[0].name) + (entries[0].colon + (":" + (entries[0].gap + (Text(entries[0].v)
      + (entries[0].after + (if |entries| == 1 then "" else "," + EntriesText(entries[1..]))))))))
  }

  ghost function Meaning(t: Syntax): Json
    requires Readable(t)
    decreases t, 1
  {
    match t
    case SNull => Null
    case SFalse => False
    case STrue => True
    case SNumber(minus, digits, fraction, power) =>
      var n: int := DigitsMean(digits + fraction);
      if fraction == "" && power == NoPower then Number(if minus then -n else n)
      else Float(if minus then -n else n, PowerMeans(power) - |fraction|)
    case SString(ps) => String(PiecesMean(ps))
    case SArray(_, items) => Array(ItemsMean(items))
    case SObject(_, entries) => Object(EntriesMean(entries))
  }

  ghost function ItemsMean(items: seq<Item>): (r: seq<Json>)
    requires forall i :: 0 <= i < |items| ==> Readable(items[i].v)
    ensures |r| == |items|
    decreases items, 0
  {
    if items == [] then [] else [Meaning(items[0].v)] + ItemsMean(items[1..])
  }

  ghost function EntriesMean(entries: seq<Entry>): (r: seq<Member>)
    requires forall i :: 0 <= i < |entries| ==> ReadablePieces(entries[i].name) && Readable(entries[i].v)
    ensures |r| == |entries|
    decreases entries, 0
  {
    if entries == [] then []
    else [Member(PiecesMean(entries[0].name), Meaning(entries[0].v))] + EntriesMean(entries[1..])
  }

  // ----- the layout that the printer uses

  /**
   The way a string is written: short escapes for the seven characters that have one but need it, `\u00xx` for the other
   control characters, and all else as it stands.
   */
  ghost predicate Plain(p: Piece) {
    match p
    case Raw(_) => true
    case Short(c) => c != '/'
    case Unit(hex) =>
      && |hex| == 4 && hex[0] == hex[1] == '0' && IsHexUnit(hex) && !('A' <= hex[2] <= 'F') && !('A' <= hex[3] <= 'F')
      && UnitOf(hex) < 32 && UnitOf(hex) !in {8, 9, 10, 12, 13}
    case Pair(_, _) => false
  }

  ghost predicate PlainPieces(ps: seq<Piece>) {
    forall i :: 0 <= i < |ps| ==> Plain(ps[i])
  }

  /** A line break and tabs. */
  function Break(depth: nat, fmt: bool): string {
    if fmt then "\n" + Tabs(depth) else ""
  }

  /**
   The layout: without blanks, or formatted with the items of an array on one line, a blank behind each comma, and the
   members of an object each on a line of its own, indented by their depth, with a tab behind the colon.
   */
  ghost predicate Laid(t: Syntax, depth: nat, fmt: bool)
    decreases t
  {
    match t
    case SNull | SFalse | STrue => true
    case SNumber(_, _, fraction, power) => fraction == "" && power == NoPower
    case SString(ps) => PlainPieces(ps)
    case SArray(blank, items) =>
      blank == "" && forall i :: 0 <= i < |items| ==>
        && items[i].before == (if fmt && i > 0 then " " else "") && items[i].after == "" && Laid(items[i].v, depth + 1, fmt)
    case SObject(blank, entries) =>
      blank == Break(depth, fmt) && forall i :: 0 <= i < |entries| ==>
        && entries[i].before == Break(depth + 1, fmt) && PlainPieces(entries[i].name)
        && entries[i].colon == "" && entries[i].gap == (if fmt then "\t" else "") && Laid(entries[i].v, depth + 1, fmt)
        && entries[i].after == if i == |entries| - 1 then Break(depth, fmt) else ""
  }

  // ----- what is printed is JSON

  function LowerHex(v: nat): char
    requires v < 16
  {
    if v < 10 then (48 + v) as char else (87 + v) as char
  }

  function PieceOf(c: char): Piece {
    if c as int > 31 && c != '\"' && c != '\\' then Raw(c)
    else if c == '\"' || c == '\\' then Short(c)
    else if c as int == 8 then Short('b')
    else if c as int == 9 then Short('t')
    else if c as int == 10 then Short('n')
    else if c as int == 12 then Short('f')
    else if c as int == 13 then Short('r')
    else Unit(['0', '0', LowerHex(c as int / 16 % 16), LowerHex(c as int % 16)])
  }

  lemma LowerHexIs(v: nat)
    requires v < 16
    ensures IsHex(LowerHex(v)) && DigitOf(LowerHex(v)) == v && HexDigit(v) == LowerHex(v) && !('A' <= LowerHex(v) <= 'F')
  {
  }

  ghost predicate PieceFor(c: char) {
    ValidPiece(PieceOf(c)) && Plain(PieceOf(c)) && PieceMeans(PieceOf(c)) == [c] && PieceText(PieceOf(c)) == EscapeChar(c)
  }

  lemma PieceOfIs(c: char)
    requires c != NUL
    ensures PieceFor(c)
  {
    hide PieceFor;
    if c as int > 31 && c != '\"' && c != '\\' {
      RawIs(c);
    } else if c == '\"' || c == '\\' || c as int in {8, 9, 10, 12, 13} {
      ShortIs(c);
    } else {
      ControlIs(c);
      EscapedControl(c);
    }
  }

  lemma RawIs(c: char)
    requires c as int > 31 && c != '\"' && c != '\\'
    ensures PieceFor(c)
  {
    hide Utf8, LetterMeans;
  }

  lemma ShortIs(c: char)
    requires c == '\"' || c == '\\' || c as int in {8, 9, 10, 12, 13}
    ensures PieceFor(c)
  {
    hide Utf8, UnitOf, IsHexUnit;
  }

  lemma EscapedControl(c: char)
    requires 0 < c as int <= 31 && c as int !in {8, 9, 10, 12, 13}
    requires var hex := ['0', '0', LowerHex(c as int / 16), LowerHex(c as int % 16)];
      && IsHexUnit(hex) && UnitOf(hex) == c as int && Utf8(UnitOf(hex)) == [c] && Plain(Unit(hex))
      && "\\u" + hex == ['\\', 'u', '0', '0', HexDigit(c as int / 16), HexDigit(c as int % 16)]
    ensures PieceFor(c)
  {
    hide Utf8, UnitOf, IsHexUnit, LowerHex, HexDigit, Plain;
    assert c as int / 16 % 16 == c as int / 16;
  }

  lemma ControlIs(c: char)
    requires 0 < c as int <= 31 && c as int !in {8, 9, 10, 12, 13}
    ensures var hex := ['0', '0', LowerHex(c as int / 16), LowerHex(c as int % 16)];
      && IsHexUnit(hex) && UnitOf(hex) == c as int && Utf8(UnitOf(hex)) == [c] && Plain(Unit(hex))
      && "\\u" + hex == ['\\', 'u', '0', '0', HexDigit(c as int / 16), HexDigit(c as int % 16)]
  {
    LowerHexIs(c as int / 16);
    LowerHexIs(c as int % 16);
  }

  ghost function PiecesOf(s: string): (ps: seq<Piece>)
    requires NulFree(s)
    ensures ValidPieces(ps) && ReadablePieces(ps) && PlainPieces(ps) && PiecesMean(ps) == s && StringText(ps) == Quoted(s)
  {
    StringIsJson(s);
    seq(|s|, i requires 0 <= i < |s| => PieceOf(s[i]))
  }

  lemma {:induction false} StringIsJson(s: string)
    requires NulFree(s)
    ensures var ps := seq(|s|, i requires 0 <= i < |s| => PieceOf(s[i]));
      && ValidPieces(ps) && ReadablePieces(ps) && PlainPieces(ps) && PiecesMean(ps) == s && PiecesText(ps) == Escape(s) && StringText(ps) == Quoted(s)
  {
    var ps := seq(|s|, i requires 0 <= i < |s| => PieceOf(s[i]));
    forall i | 0 <= i < |s|
      ensures ValidPiece(ps[i]) && ReadablePiece(ps[i]) && Plain(ps[i])
    {
      PieceOfIs(s[i]);
    }
    hide PieceOf, ValidPiece, ReadablePiece, Plain, PieceMeans, PieceText, EscapeChar;
    if s != "" {
      StringIsJson(s[1..]);
      PieceOfIs(s[0]);
      assert ps[1..] == seq(|s[1..]|, i requires 0 <= i < |s[1..]| => PieceOf(s[1..][i]));
      assert [s[0]] + s[1..] == s;
    }
    assert "\"" + (Escape(s) + "\"") == Quoted(s);
  }

  lemma {:induction false} DigitsWritten(n: nat)
    ensures AllDigits(Digits(n)) && DigitsMean(Digits(n)) == n && (Digits(n)[0] == '0' ==> |Digits(n)| == 1)
  {
    var last := '0' + (n % 10) as char;
    if n >= 10 {
      DigitsWritten(n / 10);
      assert Digits(n) == Digits(n / 10) + [last];
      assert Digits(n)[..|Digits(n)| - 1] == Digits(n / 10);
    } else {
      assert Digits(n) == [last] && [last][..0] == "";
    }
  }

  ghost function TreeOf(v: Json, depth: nat, fmt: bool): Syntax
    requires Printable(v)
    decreases v, 1
  {
    match v
    case Null => SNull
    case False => SFalse
    case True => STrue
    case Number(n) => SNumber(n < 0, Digits(if n < 0 then -n else n), "", NoPower)
    case String(s) => SString(PiecesOf(s))
    case Array(items) => SArray("", ItemsOf(items, depth + 1, fmt, true))
    case Object(members) => SObject(Break(depth, fmt), EntriesOf(members, depth, fmt))
  }

  ghost function ItemsOf(items: seq<Json>, depth: nat, fmt: bool, first: bool): (r: seq<Item>)
    requires forall i :: 0 <= i < |items| ==> Printable(items[i])
    ensures |r| == |items|
    ensures forall i :: 0 <= i < |items| ==>
              r[i] == Item(if fmt && !(first && i == 0) then " " else "", TreeOf(items[i], depth, fmt), "")
    decreases items, 0
  {
    if items == [] then []
    else [Item(if fmt && !first then " " else "", TreeOf(items[0], depth, fmt), "")] + ItemsOf(items[1..], depth, fmt, false)
  }

  ghost function EntryOf(m: Member, depth: nat, fmt: bool, last: bool): Entry
    requires NulFree(m.name) && Printable(m.value)
    decreases m, 1
  {
    Entry(Break(depth + 1, fmt), PiecesOf(m.name), "", if fmt then "\t" else "", TreeOf(m.value, depth + 1, fmt),
          if last then Break(depth, fmt) else "")
  }

  ghost function EntriesOf(members: seq<Member>, depth: nat, fmt: bool): (r: seq<Entry>)
    requires forall i :: 0 <= i < |members| ==> NulFree(members[i].name) && Printable(members[i].value)
    ensures |r| == |members|
    ensures forall i :: 0 <= i < |members| ==> r[i] == EntryOf(members[i], depth, fmt, i == |members| - 1)
    decreases members, 0
  {
    if members == [] then []
    else [EntryOf(members[0], depth, fmt, |members| == 1)] + EntriesOf(members[1..], depth, fmt)
  }

  lemma BreakBlank(depth: nat, fmt: bool)
    ensures Blank(Break(depth, fmt))
  {
  }

  lemma {:induction false} TreeIsValid(v: Json, depth: nat, fmt: bool)
    requires Printable(v)
    ensures Valid(TreeOf(v, depth, fmt)) && Laid(TreeOf(v, depth, fmt), depth, fmt)
    decreases v, 1
  {
    hide PiecesOf, ValidPieces, PlainPieces, Blank, Break, ItemsOf, EntriesOf;
    match v
    case Number(n) => DigitsWritten(if n < 0 then -n else n);
    case Array(items) => ItemsValid(items, depth, fmt);
    case Object(members) => EntriesValid(members, depth, fmt);
    case _ =>
  }

  lemma {:induction false} ItemsValid(items: seq<Json>, depth: nat, fmt: bool)
    requires forall i :: 0 <= i < |items| ==> Printable(items[i])
    ensures var t := SArray("", ItemsOf(items, depth + 1, fmt, true)); Valid(t) && Laid(t, depth, fmt)
    decreases items, 0
  {
    hide TreeOf, Printable, Blank, ItemsOf;
    BlanksAre();
    forall i | 0 <= i < |items|
      ensures Valid(TreeOf(items[i], depth + 1, fmt)) && Laid(TreeOf(items[i], depth + 1, fmt), depth + 1, fmt)
    {
      TreeIsValid(items[i], depth + 1, fmt);
    }
  }

  lemma {:induction false} EntriesValid(members: seq<Member>, depth: nat, fmt: bool)
    requires forall i :: 0 <= i < |members| ==> NulFree(members[i].name) && Printable(members[i].value)
    ensures var t := SObject(Break(depth, fmt), EntriesOf(members, depth, fmt)); Valid(t) && Laid(t, depth, fmt)
    decreases members, 0
  {
    hide TreeOf, Printable, Blank, EntriesOf, PiecesOf, ValidPieces, PlainPieces, Break;
    BlanksAre();
    BreakBlank(depth, fmt);
    BreakBlank(depth + 1, fmt);
    forall i | 0 <= i < |members|
      ensures Valid(TreeOf(members[i].value, depth + 1, fmt)) && Laid(TreeOf(members[i].value, depth + 1, fmt), depth + 1, fmt)
    {
      TreeIsValid(members[i].value, depth + 1, fmt);
    }
  }

  lemma BlanksAre()
    ensures Blank("") && Blank(" ") && Blank("\t") && Skipped("")
  {
  }

  lemma TreeIsReadable(v: Json, depth: nat, fmt: bool)
    requires Printable(v)
    ensures Readable(TreeOf(v, depth, fmt))
  {
    TreeIsValid(v, depth, fmt);
    ValidIsReadable(TreeOf(v, depth, fmt));
    hide TreeOf, Valid, Readable, Laid;
  }

  lemma {:induction false} TreeMeans(v: Json, depth: nat, fmt: bool)
    requires Printable(v)
    ensures Readable(TreeOf(v, depth, fmt)) && Meaning(TreeOf(v, depth, fmt)) == v
    decreases v, 1
  {
    hide PiecesOf, ReadablePieces, PlainPieces, Skipped, Laid, ItemsOf, EntriesOf, ItemsMean, EntriesMean, Break;
    TreeIsReadable(v, depth, fmt);
    match v
    case Number(n) =>
      var d := Digits(if n < 0 then -n else n);
      DigitsWritten(if n < 0 then -n else n);
      assert d + "" == d;
    case Array(items) => ItemsMeanItems(items, depth + 1, fmt, true);
    case Object(members) => EntriesMeanMembers(members, depth, fmt);
    case _ =>
  }

  lemma {:induction false} ItemsMeanItems(items: seq<Json>, depth: nat, fmt: bool, first: bool)
    requires forall i :: 0 <= i < |items| ==> Printable(items[i])
    ensures var s := ItemsOf(items, depth, fmt, first);
      (forall i :: 0 <= i < |s| ==> Readable(s[i].v)) && ItemsMean(s) == items
    decreases items, 0
  {
    hide TreeOf, Readable, Printable;
    forall i | 0 <= i < |items|
      ensures Readable(ItemsOf(items, depth, fmt, first)[i].v)
    {
      TreeIsReadable(items[i], depth, fmt);
    }
    if items != [] {
      TreeMeans(items[0], depth, fmt);
      ItemsMeanItems(items[1..], depth, fmt, false);
      assert ItemsOf(items, depth, fmt, first)[1..] == ItemsOf(items[1..], depth, fmt, false);
      assert [items[0]] + items[1..] == items;
    }
  }

  lemma {:induction false} EntriesMeanMembers(members: seq<Member>, depth: nat, fmt: bool)
    requires forall i :: 0 <= i < |members| ==> NulFree(members[i].name) && Printable(members[i].value)
    ensures var s := EntriesOf(members, depth, fmt);
      (forall i :: 0 <= i < |s| ==> ReadablePieces(s[i].name) && Readable(s[i].v)) && EntriesMean(s) == members
    decreases members, 0
  {
    hide TreeOf, Readable, Printable, PiecesOf, ReadablePieces, PlainPieces, Break;
    forall i | 0 <= i < |members|
      ensures Readable(EntriesOf(members, depth, fmt)[i].v) && ReadablePieces(EntriesOf(members, depth, fmt)[i].name)
    {
      TreeIsReadable(members[i].value, depth + 1, fmt);
    }
    if members != [] {
      TreeMeans(members[0].value, depth + 1, fmt);
      EntriesMeanMembers(members[1..], depth, fmt);
      assert EntriesOf(members, depth, fmt)[1..] == EntriesOf(members[1..], depth, fmt);
      assert [members[0]] + members[1..] == members;
    }
  }

  lemma {:induction false} TreeText(v: Json, depth: nat, fmt: bool)
    requires Printable(v)
    ensures Text(TreeOf(v, depth, fmt)) == Print(v, depth, fmt)
    decreases v, 1
  {
    hide PiecesOf, ReadablePieces, PlainPieces, StringText, Quoted, Digits, ItemsOf, EntriesOf, ItemsText, EntriesText, Join, Lines;
    match v
    case Number(n) => NumberText(n);
    case Array(items) =>
      ItemsTextIs(items, depth + 1, fmt, true);
      Brackets(ItemsText(ItemsOf(items, depth + 1, fmt, true)), Join(PrintItems(items, depth + 1, fmt), fmt));
      NoItems();
    case Object(members) => ObjectText(members, depth, fmt);
    case _ =>
  }

  lemma Brackets(a: string, b: string)
    requires a == "" + b
    ensures a == b && "[" + (a + "]") == "[" + b + "]"
  {
  }

  lemma NoItems()
    ensures ItemsText([]) == ""
  {
  }

  lemma NumberText(n: int)
    ensures Text(SNumber(n < 0, Digits(if n < 0 then -n else n), "", NoPower)) == Decimal(n)
  {
    var d := Digits(if n < 0 then -n else n);
    assert "" + "" == "" && d + "" == d && "" + d == d;
    hide Digits;
  }

  lemma {:induction false} ItemsTextIs(items: seq<Json>, depth: nat, fmt: bool, first: bool)
    requires forall i :: 0 <= i < |items| ==> Printable(items[i])
    ensures ItemsText(ItemsOf(items, depth, fmt, first))
         == (if items != [] && fmt && !first then " " else "") + Join(PrintItems(items, depth, fmt), fmt)
    decreases items, 0
  {
    hide Print, Printable, TreeOf, Text;
    if items == [] {
      assert "" + "" == "";
    } else {
      var texts := PrintItems(items, depth, fmt);
      TreeText(items[0], depth, fmt);
      ItemsTextIs(items[1..], depth, fmt, false);
      assert ItemsOf(items, depth, fmt, first)[1..] == ItemsOf(items[1..], depth, fmt, false);
      assert texts[1..] == PrintItems(items[1..], depth, fmt);
      var gap := if fmt && !first then " " else "";
      var rest := Join(texts[1..], fmt);
      ItemSplit(gap, texts[0], fmt, |items| == 1, rest);
    }
  }

  lemma ItemSplit(gap: string, text: string, fmt: bool, last: bool, rest: string)
    requires last ==> rest == ""
    ensures gap + (text + ("" + (if last then "" else "," + ((if fmt then " " else "") + rest))))
         == gap + (text + (if last then "" else if fmt then ", " else ",") + rest)
  {
    var next := (if fmt then " " else "") + rest;
    if last {
      assert text + ("" + "") == text + "" + rest;
    } else {
      assert "" + ("," + next) == (if fmt then ", " else ",") + rest;
      assert text + ((if fmt then ", " else ",") + rest) == text + (if fmt then ", " else ",") + rest;
    }
  }

  lemma {:induction false} ObjectText(members: seq<Member>, depth: nat, fmt: bool)
    requires Printable(Object(members))
    ensures Text(SObject(Break(depth, fmt), EntriesOf(members, depth, fmt))) == Print(Object(members), depth, fmt)
    decreases members, 1
  {
    hide TreeOf, PiecesOf, StringText, Quoted, Line, Tabs;
    var lines := Lines(QuotedNames(members), PrintMembers(members, depth + 1, fmt), depth + 1, fmt);
    var newline, tabs := if fmt then "\n" else "", if fmt then Tabs(depth) else "";
    if members == [] {
      assert lines == "";
      assert Break(depth, fmt) == newline + (lines + tabs);
    } else {
      EntriesTextIs(members, depth, fmt);
    }
    Braces(newline, lines, tabs);
  }

  lemma Braces(newline: string, lines: string, tabs: string)
    ensures "{" + ((newline + (lines + tabs)) + "}") == "{" + newline + lines + tabs + "}"
  {
  }

  /** The line breaks in front of the entries are those behind the lines. */
  lemma {:induction false} EntriesTextIs(members: seq<Member>, depth: nat, fmt: bool)
    requires members != [] && forall i :: 0 <= i < |members| ==> NulFree(members[i].name) && Printable(members[i].value)
    ensures EntriesText(EntriesOf(members, depth, fmt))
         == (if fmt then "\n" else "")
            + (Lines(QuotedNames(members), PrintMembers(members, depth + 1, fmt), depth + 1, fmt) + (if fmt then Tabs(depth) else ""))
    decreases members, 0
  {
    hide Print, Printable, TreeOf, Text, PiecesOf, Quoted, StringText, Tabs;
    var names, texts := QuotedNames(members), PrintMembers(members, depth + 1, fmt);
    var newline, tabs := if fmt then "\n" else "", if fmt then Tabs(depth) else "";
    var entries := EntriesOf(members, depth, fmt);
    TreeText(members[0].value, depth + 1, fmt);
    if |members| == 1 {
      LastLine(names[0], texts[0], depth, fmt);
      assert Lines(names, texts, depth + 1, fmt) == Line(names[0], texts[0], true, depth + 1, fmt);
    } else {
      EntriesTextIs(members[1..], depth, fmt);
      assert entries[1..] == EntriesOf(members[1..], depth, fmt);
      assert names[1..] == QuotedNames(members[1..]) && texts[1..] == PrintMembers(members[1..], depth + 1, fmt);
      NextLine(names[0], texts[0], depth, fmt, Lines(names[1..], texts[1..], depth + 1, fmt), tabs);
    }
  }

  lemma NextLine(name: string, text: string, depth: nat, fmt: bool, more: string, tabs: string)
    ensures var newline := if fmt then "\n" else "";
      Break(depth + 1, fmt) + (name + ("" + (":" + ((if fmt then "\t" else "") + (text + ("" + ("," + (newline + (more + tabs)))))))))
      == newline + ((Line(name, text, false, depth + 1, fmt) + more) + tabs)
  {
    var newline, gap, indent := if fmt then "\n" else "", if fmt then "\t" else "", if fmt then Tabs(depth + 1) else "";
    hide Tabs;
    var end := more + tabs;
    assert Break(depth + 1, fmt) == newline + indent;
    assert "" + ("," + (newline + end)) == LineEnd(false, fmt) + end;
    hide LineEnd, Break;
    LineSplits(newline, indent, name, gap, text, LineEnd(false, fmt), end);
    assert (Line(name, text, false, depth + 1, fmt) + more) + tabs == Line(name, text, false, depth + 1, fmt) + end;
    assert Line(name, text, false, depth + 1, fmt) == indent + (name + (":" + gap) + text + LineEnd(false, fmt));
  }

  lemma LineSplits(newline: string, indent: string, name: string, gap: string, text: string, close: string, end: string)
    ensures (newline + indent) + (name + ("" + (":" + (gap + (text + (close + end))))))
         == newline + ((indent + (name + (":" + gap) + text + close)) + end)
  {
    var tail := name + (":" + gap) + text + close;
    assert "" + (":" + (gap + (text + (close + end)))) == (":" + gap) + (text + (close + end));
    assert name + ((":" + gap) + (text + (close + end))) == tail + end;
    assert (newline + indent) + (tail + end) == newline + ((indent + tail) + end);
  }

  lemma LastLine(name: string, text: string, depth: nat, fmt: bool)
    ensures var newline, tabs := if fmt then "\n" else "", if fmt then Tabs(depth) else "";
      Break(depth + 1, fmt) + (name + ("" + (":" + ((if fmt then "\t" else "") + (text + (Break(depth, fmt) + ""))))))
      == newline + (Line(name, text, true, depth + 1, fmt) + tabs)
  {
    var newline, gap, indent := if fmt then "\n" else "", if fmt then "\t" else "", if fmt then Tabs(depth + 1) else "";
    var tabs := if fmt then Tabs(depth) else "";
    hide Tabs;
    assert Break(depth + 1, fmt) == newline + indent;
    assert Break(depth, fmt) + "" == LineEnd(true, fmt) + tabs;
    hide LineEnd, Break;
    LineSplits(newline, indent, name, gap, text, LineEnd(true, fmt), tabs);
    assert Line(name, text, true, depth + 1, fmt) == indent + (name + (":" + gap) + text + LineEnd(true, fmt));
  }

  /** What is printed is a JSON text of RFC 8259 that means the tree, in the layout of the printer. */
  lemma PrintIsJson(v: Json, depth: nat, fmt: bool) returns (t: Syntax)
    requires Printable(v)
    ensures Valid(t) && Text(t) == Print(v, depth, fmt) && Laid(t, depth, fmt) && Readable(t) && Meaning(t) == v
  {
    t := TreeOf(v, depth, fmt);
    TreeIsValid(v, depth, fmt);
    TreeMeans(v, depth, fmt);
    TreeText(v, depth, fmt);
  }

  // ----- what is JSON is parsed to its meaning

  /** What the parser has room for: no U+0000, no pair of an even plane, and integers within the range of int64_t. */
  ghost predicate FitsPiece(p: Piece) {
    && (p.Unit? && IsHexUnit(p.hex) ==> UnitOf(p.hex) != 0)
    && (p.Pair? && ReadablePiece(p) ==> SurrogateValue(UnitOf(p.high), UnitOf(p.low)) / 0x10000 % 2 == 1)
  }

  ghost predicate FitsPieces(ps: seq<Piece>) {
    forall i :: 0 <= i < |ps| ==> FitsPiece(ps[i])
  }

  ghost predicate Fits(t: Syntax) {
    match t
    case SNull | SFalse | STrue => true
    case SNumber(_, digits, fraction, power) =>
      AllDigits(digits) && fraction == "" && power == NoPower ==> DigitsMean(digits) < 0x8000_0000_0000_0000
    case SString(ps) => FitsPieces(ps)
    case SArray(_, items) => forall i :: 0 <= i < |items| ==> Fits(items[i].v)
    case SObject(_, entries) => forall i :: 0 <= i < |entries| ==> FitsPieces(entries[i].name) && Fits(entries[i].v)
  }

  // ----- numbers

  lemma DigitsSnoc(s: string, c: char)
    requires AllDigits(s) && '0' <= c <= '9'
    ensures AllDigits(s + [c]) && DigitsMean(s + [c]) == DigitsMean(s) * 10 + DigitValue(c)
  {
    assert (s + [c])[..|s|] == s;
  }

  lemma {:induction false} FoldDecSnoc(f: int, s: string, c: char)
    ensures FoldDec(f, s + [c]) == FoldDec(f, s) * 10 + DigitValue(c)
    decreases s
  {
    if s == "" {
      assert s + [c] == [c] && [c][1..] == "";
    } else {
      assert (s + [c])[1..] == s[1..] + [c];
      FoldDecSnoc(f * 10 + DigitValue(s[0]), s[1..], c);
    }
  }

  lemma {:induction false} FoldDecMeans(s: string)
    requires AllDigits(s)
    ensures FoldDec(0, s) == DigitsMean(s)
    decreases |s|
  {
    if s != "" {
      var front, c := s[..|s| - 1], s[|s| - 1];
      FoldDecMeans(front);
      FoldDecSnoc(0, front, c);
      assert s == front + [c];
    }
  }

  lemma {:induction false} FoldDecOn(f: int, a: string, b: string)
    ensures FoldDec(FoldDec(f, a), b) == FoldDec(f, a + b)
    decreases a
  {
    if a == "" {
      assert a + b == b;
    } else {
      assert (a + b)[1..] == a[1..] + b;
      FoldDecOn(f * 10 + DigitValue(a[0]), a[1..], b);
    }
  }

  lemma {:induction false} FoldIntMeans(s: string)
    requires AllDigits(s) && DigitsMean(s) < 0x8000_0000_0000_0000
    ensures FoldInt(0, s) == DigitsMean(s)
    decreases |s|
  {
    if s != "" {
      var front, c := s[..|s| - 1], s[|s| - 1];
      FoldIntMeans(front);
      JsonRoundTrip.FoldIntAppend(0, front, [c]);
      JsonRoundTrip.FoldOne(DigitsMean(front), c);
      JsonRoundTrip.NoWrap(DigitsMean(s));
      assert s == front + [c];
    }
  }

  /** The exponent, when no digit follows. */
  lemma PowerRead(power: Power, f: int, scale: int, isint: bool, rest: string)
    requires ValidPower(power) && !IsDigit(At(rest, 0)) && (power == NoPower ==> !HasExponent(rest))
    ensures ParseExponent(isint, f, scale, PowerText(power) + rest)
         == Tail(isint && power == NoPower, f, scale + PowerMeans(power), rest)
  {
    var s := PowerText(power) + rest;
    match power
    case NoPower => assert s == rest;
    case Power(e, sign, digits) =>
      var t := digits + rest;
      JsonRoundTrip.DigitCountAppend(digits, rest);
      assert t[..|digits|] == digits && t[|digits|..] == rest;
      FoldDecMeans(digits);
      SignSplit(e, sign, digits, rest);
      hide DigitCount, FoldDec, DigitsMean;
  }

  lemma SignSplit(e: char, sign: string, digits: string, rest: string)
    requires sign in {"", "+", "-"} && digits != "" && AllDigits(digits)
    ensures var s := ([e] + (sign + digits)) + rest;
      && s[0] == e && (sign == "" ==> s[1..] == digits + rest && At(s, 1) != '+' && At(s, 1) != '-')
      && (sign != "" ==> s[2..] == digits + rest && At(s, 1) == sign[0])
  {
  }

  lemma FractionRead(fraction: string, f: int, after: string)
    requires AllDigits(fraction) && fraction != "" && !IsDigit(At(after, 0))
    ensures ParseTail(f, FractionText(fraction) + after)
         == ParseExponent(false, FoldDec(f, fraction), -(|fraction| as int), after)
  {
    hide ParseExponent, FoldDec;
    var s := ("." + fraction) + after;
    assert s[1..] == fraction + after;
    JsonRoundTrip.DigitCountAppend(fraction, after);
    assert (fraction + after)[..|fraction|] == fraction && (fraction + after)[|fraction|..] == after;
    hide DigitCount;
  }

  /** The fraction and the exponent. */
  lemma TailRead(fraction: string, power: Power, f: int, rest: string)
    requires AllDigits(fraction) && ValidPower(power) && !JsonRoundTrip.ContinuesNumber(rest)
    ensures ParseTail(f, FractionText(fraction) + (PowerText(power) + rest))
         == Tail(fraction == "" && power == NoPower, FoldDec(f, fraction), PowerMeans(power) - |fraction|, rest)
  {
    var after := PowerText(power) + rest;
    PowerNoDigit(power, rest);
    NoFraction(power, rest);
    PowerRead(power, FoldDec(f, fraction), -(|fraction| as int), fraction == "", rest);
    hide ParseExponent, PowerText, PowerMeans, FoldDec;
    if fraction == "" {
      assert "" + after == after;
      assert FoldDec(f, "") == f by { NoDigits(f); }
    } else {
      FractionRead(fraction, f, after);
      hide ParseTail;
    }
  }

  lemma NoDigits(f: int)
    ensures FoldDec(f, "") == f
  {
  }

  lemma PowerNoDigit(power: Power, rest: string)
    requires ValidPower(power) && !IsDigit(At(rest, 0))
    ensures !IsDigit(At(PowerText(power) + rest, 0))
  {
    if power == NoPower {
      assert PowerText(power) + rest == rest;
    }
  }

  lemma NoFraction(power: Power, rest: string)
    requires ValidPower(power) && !JsonRoundTrip.ContinuesNumber(rest)
    ensures !HasFraction(PowerText(power) + rest)
  {
    if power == NoPower {
      assert PowerText(power) + rest == rest;
    }
  }

  lemma NoDigitNext(fraction: string, power: Power, rest: string)
    requires ValidPower(power) && !JsonRoundTrip.ContinuesNumber(rest)
    ensures !IsDigit(At(FractionText(fraction) + (PowerText(power) + rest), 0))
  {
    PowerNoDigit(power, rest);
    hide PowerText;
    if fraction == "" {
      assert "" + (PowerText(power) + rest) == PowerText(power) + rest;
    }
  }

  lemma IntegerPartIs(digits: string, more: string)
    requires AllDigits(digits) && (|digits| > 1 && digits[0] == '0' ==> digits[1] != '0') && !IsDigit(At(more, 0))
    ensures IntegerPart(digits + more) == |digits|
  {
    if digits == "" {
      assert digits + more == more;
    } else if digits[0] == '0' {
      JsonRoundTrip.DigitCountAppend(digits[1..], more);
      assert (digits + more)[1..] == digits[1..] + more;
      if |digits| > 1 {
        assert (digits + more)[1] == digits[1];
      }
    } else {
      JsonRoundTrip.DigitCountAppend(digits, more);
    }
  }

  lemma IntegerRead(digits: string, more: string, minus: bool)
    requires AllDigits(digits) && (|digits| > 1 && digits[0] == '0' ==> digits[1] != '0') && !IsDigit(At(more, 0))
    ensures ParseUnsigned(digits + more, minus) ==
      var t := ParseTail(FoldDec(0, digits), more);
      (if t.isint then Number(Wrap64(Signed(minus, FoldInt(0, digits)))) else Float(Signed(minus, t.mantissa), t.exponent), t.rest)
  {
    hide ParseTail, FoldDec, FoldInt, Wrap64;
    IntegerPartIs(digits, more);
    assert (digits + more)[..|digits|] == digits && (digits + more)[|digits|..] == more;
    hide IntegerPart;
  }

  lemma UnsignedRead(digits: string, fraction: string, power: Power, minus: bool, rest: string)
    requires Readable(SNumber(minus, digits, fraction, power)) && Fits(SNumber(minus, digits, fraction, power))
    requires !JsonRoundTrip.ContinuesNumber(rest)
    ensures ParseUnsigned(digits + (FractionText(fraction) + (PowerText(power) + rest)), minus)
         == (Meaning(SNumber(minus, digits, fraction, power)), rest)
  {
    hide ParseUnsigned, ParseTail, FoldDec, FoldInt, DigitsMean, PowerText, PowerMeans, FractionText, Wrap64, JsonRoundTrip.ContinuesNumber;
    NoDigitNext(fraction, power, rest);
    IntegerRead(digits, FractionText(fraction) + (PowerText(power) + rest), minus);
    TailRead(fraction, power, FoldDec(0, digits), rest);
    FoldDecOn(0, digits, fraction);
    FoldDecMeans(digits + fraction);
    if fraction == "" && power == NoPower {
      assert digits + fraction == digits;
      FoldIntMeans(digits);
      JsonRoundTrip.NoWrap(Signed(minus, DigitsMean(digits)));
    }
  }

  lemma NumberRead(digits: string, fraction: string, power: Power, minus: bool, rest: string)
    requires Readable(SNumber(minus, digits, fraction, power)) && Fits(SNumber(minus, digits, fraction, power))
    requires !JsonRoundTrip.ContinuesNumber(rest)
    ensures var t := SNumber(minus, digits, fraction, power);
      Text(t) != "" && (Text(t)[0] == '-' || IsDigit(Text(t)[0])) && ParseNumber(Text(t) + rest) == (Meaning(t), rest)
  {
    hide ParseUnsigned, Meaning, PowerText, FractionText, Fits, JsonRoundTrip.ContinuesNumber, ValidPower, DigitsMean;
    UnsignedRead(digits, fraction, power, minus, rest);
    SignedText(digits, FractionText(fraction) + PowerText(power), minus, rest);
    assert (FractionText(fraction) + PowerText(power)) + rest == FractionText(fraction) + (PowerText(power) + rest);
  }

  lemma SignedText(digits: string, body: string, minus: bool, rest: string)
    requires (minus || digits != "") && AllDigits(digits)
    ensures var s := ((if minus then "-" else "") + (digits + body)) + rest;
      && s[0] == (if minus then '-' else digits[0]) && (digits != "" ==> IsDigit(digits[0]) && digits[0] != '-')
      && (if minus then s[1..] else s) == digits + (body + rest)
      && ((if minus then "-" else "") + (digits + body))[0] == s[0]
  {
  }

  // ----- strings

  lemma HexAgrees(c: char)
    requires IsHex(c)
    ensures IsHexDigit(c) && HexValue(c) == DigitOf(c)
  {
  }

  lemma HexUnitRead(hex: string, a: string, rest: string)
    requires IsHexUnit(hex)
    ensures HasHex4((a + hex) + rest, |a|) && Hex4((a + hex) + rest, |a|) == UnitOf(hex)
  {
    HexAgrees(hex[0]);
    HexAgrees(hex[1]);
    HexAgrees(hex[2]);
    HexAgrees(hex[3]);
    var s := (a + hex) + rest;
    assert s[|a|] == hex[0] && s[|a| + 1] == hex[1] && s[|a| + 2] == hex[2] && s[|a| + 3] == hex[3];
    hide HexValue, DigitOf;
  }

  lemma UnitRead(hex: string, rest: string)
    requires ReadablePiece(Unit(hex)) && FitsPiece(Unit(hex))
    ensures ParseEscape(("\\u" + hex) + rest) == Ok(PieceMeans(Unit(hex)), rest)
  {
    hide Utf8, Hex4, HasHex4, UnitOf, IsHexUnit;
    var s := ("\\u" + hex) + rest;
    HexUnitRead(hex, "\\u", rest);
    assert |hex| == 4 by { HexLength(hex); }
    assert s[0] == '\\' && s[1] == 'u' && s[6..] == rest;
  }

  lemma HexLength(hex: string)
    requires IsHexUnit(hex)
    ensures |hex| == 4
  {
  }

  lemma PairRead(high: string, low: string, rest: string)
    requires ReadablePiece(Pair(high, low)) && FitsPiece(Pair(high, low))
    ensures ParseEscape(("\\u" + high + "\\u" + low) + rest) == Ok(PieceMeans(Pair(high, low)), rest)
  {
    hide Utf8, Hex4, HasHex4, UnitOf, IsHexUnit, CombineSurrogates, SurrogateValue;
    HexLength(high);
    HexLength(low);
    var s := ("\\u" + high + "\\u" + low) + rest;
    var tail := ("\\u" + low) + rest;
    assert s == ("\\u" + high) + tail && s == (("\\u" + high + "\\u") + low) + rest;
    HexUnitRead(high, "\\u", tail);
    HexUnitRead(low, "\\u" + high + "\\u", rest);
    SurrogatesCorrectIffOddPlane(UnitOf(high), UnitOf(low));
    assert s[0] == '\\' && s[1] == 'u' && s[6] == '\\' && s[7] == 'u' && s[12..] == rest;
  }

  /** An escape is decoded to what it means. */
  lemma EscapeRead(p: Piece, rest: string)
    requires ReadablePiece(p) && FitsPiece(p) && !p.Raw?
    ensures PieceText(p)[0] == '\\' && ParseEscape(PieceText(p) + rest) == Ok(PieceMeans(p), rest)
  {
    match p
    case Unit(hex) => UnitRead(hex, rest);
    case Pair(high, low) => PairRead(high, low, rest);
    case Short(c) =>
      assert (['\\', c] + rest)[2..] == rest;
    hide Utf8, Hex4, HasHex4, UnitOf, IsHexUnit, CombineSurrogates, SurrogateValue;
  }

  lemma {:induction false} PiecesRead(ps: seq<Piece>, rest: string)
    requires ReadablePieces(ps) && FitsPieces(ps)
    ensures ParseChars(PiecesText(ps) + ("\"" + rest)) == Ok(PiecesMean(ps), rest)
    decreases |ps|
  {
    hide ParseEscape, FitsPiece, ReadablePiece;
    var s := PiecesText(ps) + ("\"" + rest);
    if ps == [] {
      assert s == "\"" + rest && s[1..] == rest;
    } else {
      var tail := PiecesText(ps[1..]) + ("\"" + rest);
      assert s == PieceText(ps[0]) + tail;
      PiecesRead(ps[1..], rest);
      PieceStep(ps[0], tail);
    }
  }

  lemma PieceStep(p: Piece, tail: string)
    requires ReadablePiece(p) && FitsPiece(p)
    ensures ParseChars(PieceText(p) + tail) == Prepend(PieceMeans(p), ParseChars(tail))
  {
    var s := PieceText(p) + tail;
    if p.Raw? {
      assert s[1..] == tail && s[0] == p.c;
    } else {
      EscapeRead(p, tail);
      assert s[0] == '\\';
    }
    hide ParseEscape, FitsPiece, Utf8, LetterMeans;
  }

  lemma StringRead(ps: seq<Piece>, rest: string)
    requires ReadablePieces(ps) && FitsPieces(ps)
    ensures ParseString(StringText(ps) + rest) == Ok(PiecesMean(ps), rest)
    ensures StringText(ps)[0] == '\"'
  {
    hide PiecesText, PiecesMean, ParseChars, FitsPieces, ReadablePieces;
    PiecesRead(ps, rest);
    QuoteSplits(PiecesText(ps), rest);
  }

  lemma QuoteSplits(s: string, rest: string)
    ensures var t := "\"" + (s + "\""); t[0] == '\"' && (t + rest)[0] == '\"' && (t + rest)[1..] == s + ("\"" + rest)
  {
  }

  // ----- blanks

  lemma SkipsTo(blank: string, s: string)
    requires Skipped(blank) && s != "" && s[0] as int > 32
    ensures Skip(blank + s) == s
  {
    JsonRoundTrip.SkipBlanks(blank, s);
    JsonRoundTrip.SkipNothing(s);
  }

  /** Blanks and what comes behind them do not continue a number. */
  lemma NothingContinues(blank: string, s: string)
    requires Skipped(blank) && s != "" && s[0] in {',', ']', '}'}
    ensures !JsonRoundTrip.ContinuesNumber(blank + s)
  {
    if blank != "" {
      assert (blank + s)[0] == blank[0];
    }
  }

  // ----- values

  /** The first character of a value. */
  lemma TextStarts(t: Syntax)
    requires Readable(t)
    ensures Text(t) != "" && Text(t)[0] as int > 32 && Text(t)[0] !in {']', '}'}
    ensures t.SNull? || t.SFalse? || t.STrue? || Text(t)[0] !in {'n', 'f', 't'}
    ensures t.SNumber? ==> Text(t)[0] == '-' || IsDigit(Text(t)[0])
    ensures t.SString? ==> Text(t)[0] == '\"'
    ensures t.SArray? ==> Text(t)[0] == '['
    ensures t.SObject? ==> Text(t)[0] == '{'
  {
    match t
    case SNumber(minus, digits, fraction, power) =>
      SignedText(digits, FractionText(fraction) + PowerText(power), minus, "");
    case _ =>
    hide ItemsText, EntriesText, PiecesText, FractionText, PowerText;
  }

  /** Each text of the grammar is parsed to its meaning, and what follows it is left. */
  lemma {:induction false} TextRead(t: Syntax, rest: string)
    requires Readable(t) && Fits(t) && (t.SNumber? ==> !JsonRoundTrip.ContinuesNumber(rest))
    ensures ParseValue(Text(t) + rest) == Ok(Meaning(t), rest)
    decreases t, 1
  {
    TextStarts(t);
    if t.SNull? || t.SFalse? || t.STrue? {
      JsonRoundTrip.Keywords(rest);
    } else {
      var s := Text(t) + rest;
      JsonRoundTrip.Dispatch(s);
      match t
      case SNumber(minus, digits, fraction, power) => NumberRead(digits, fraction, power, minus, rest);
      case SString(ps) => StringRead(ps, rest);
      case SArray(blank, items) => ArrayRead(blank, items, rest);
      case SObject(blank, entries) => ObjectRead(blank, entries, rest);
    }
    hide ParseValue, ParseNumber, ParseString, ParseArray, ParseObject, ItemsText, EntriesText, StringText, FractionText, PowerText;
  }

  lemma BracketSplits(open: string, inner: string, close: string, rest: string)
    requires |open| == |close| == 1
    ensures var s := (open + (inner + close)) + rest; s != "" && s[0] == open[0] && s[1..] == inner + (close + rest)
    ensures (close + rest) != "" && (close + rest)[0] == close[0] && (close + rest)[1..] == rest
  {
  }

  lemma ArrayIs(s: string, items: seq<Json>, rest: string)
    requires s != "" && s[0] == '[' && Skip(s[1..]) != "" && Skip(s[1..])[0] != ']' && ParseItems(s[1..]) == Ok(items, rest)
    ensures ParseArray(s) == Ok(Array(items), rest)
  {
    SkipTwice(s[1..]);
    JsonRoundTrip.ItemsSkip(Skip(s[1..]), s[1..]);
    hide Skip, ParseItems;
  }

  lemma ObjectIs(s: string, members: seq<Member>, rest: string)
    requires s != "" && s[0] == '{' && Skip(s[1..]) != "" && Skip(s[1..])[0] != '}' && ParseMembers(s[1..]) == Ok(members, rest)
    ensures ParseObject(s) == Ok(Object(members), rest)
  {
    SkipTwice(s[1..]);
    JsonRoundTrip.MembersSkip(Skip(s[1..]), s[1..]);
    hide Skip, ParseMembers;
  }

  lemma {:induction false} ArrayRead(blank: string, items: seq<Item>, rest: string)
    requires Readable(SArray(blank, items)) && Fits(SArray(blank, items))
    ensures ParseArray(Text(SArray(blank, items)) + rest) == Ok(Meaning(SArray(blank, items)), rest)
    decreases items, 1
  {
    hide ParseItems, Skip, ItemsText, Skipped;
    var end := "]" + rest;
    if items == [] {
      BracketSplits("[", blank, "]", rest);
      SkipsTo(blank, end);
    } else {
      BracketSplits("[", ItemsText(items), "]", rest);
      BlanksAre();
      ItemsRead(items, rest);
      FirstText(items, end);
      ArrayIs(("[" + (ItemsText(items) + "]")) + rest, ItemsMean(items), rest);
    }
  }

  lemma SkipTwice(s: string)
    ensures Skip(Skip(s)) == Skip(s)
  {
  }

  /** Behind the blanks the first item begins. */
  lemma FirstText(items: seq<Item>, end: string)
    requires items != [] && Skipped(items[0].before) && Readable(items[0].v)
    ensures Skip(ItemsText(items) + end) != "" && Skip(ItemsText(items) + end)[0] != ']'
  {
    hide Text, Skip, Skipped, Readable;
    var i := items[0];
    TextStarts(i.v);
    FirstSplits(i.before, Text(i.v), i.after + (if |items| == 1 then "" else "," + ItemsText(items[1..])), end);
    SkipsTo(i.before, (Text(i.v) + (i.after + (if |items| == 1 then "" else "," + ItemsText(items[1..])))) + end);
  }

  lemma FirstSplits(before: string, text: string, more: string, end: string)
    requires text != ""
    ensures (before + (text + more)) + end == before + ((text + more) + end)
    ensures ((text + more) + end) != "" && ((text + more) + end)[0] == text[0]
  {
  }

  /** An item and what follows it. */
  function ItemText(i: Item, next: string): string {
    i.before + (Text(i.v) + (i.after + next))
  }

  lemma {:induction false} ItemsRead(items: seq<Item>, rest: string)
    requires items != [] && Readable(SArray("", items)) && Fits(SArray("", items))
    ensures ParseItems(ItemsText(items) + ("]" + rest)) == Ok(ItemsMean(items), rest)
    decreases items, 0
  {
    hide ParseItems, Text, Meaning, ItemText, Skipped;
    var i, end := items[0], "]" + rest;
    if |items| == 1 {
      assert ItemsText(items) == ItemText(i, "") by { LastOf(i, items); }
      ItemSplits(i, "", end);
      assert "" + end == end;
      LastRead(i, rest);
      assert ItemsMean(items) == [Meaning(i.v)];
    } else {
      var more := ItemsText(items[1..]);
      assert ItemsText(items) == ItemText(i, "," + more) by { FirstOf(i, items); }
      ItemSplits(i, "," + more, end);
      assert ("," + more) + end == "," + (more + end);
      ItemsRead(items[1..], rest);
      NextRead(i, more + end, ItemsMean(items[1..]), rest);
    }
  }

  lemma LastOf(i: Item, items: seq<Item>)
    requires items == [i]
    ensures ItemsText(items) == ItemText(i, "")
  {
    hide Text;
  }

  lemma FirstOf(i: Item, items: seq<Item>)
    requires |items| > 1 && items[0] == i
    ensures ItemsText(items) == ItemText(i, "," + ItemsText(items[1..]))
  {
    hide Text;
  }

  lemma ItemSplits(i: Item, more: string, end: string)
    ensures ItemText(i, more) + end == ItemText(i, more + end)
  {
    hide Text;
    var x := i.after + more;
    assert x + end == i.after + (more + end);
    assert (Text(i.v) + x) + end == Text(i.v) + (x + end);
    assert (i.before + (Text(i.v) + x)) + end == i.before + ((Text(i.v) + x) + end);
  }

  lemma {:induction false} ItemRead(i: Item, next: string)
    requires Skipped(i.before) && Readable(i.v) && Fits(i.v) && Skipped(i.after) && next != "" && next[0] in {',', ']', '}'}
    ensures ParseValue(Skip(ItemText(i, next))) == Ok(Meaning(i.v), i.after + next) && Skip(i.after + next) == next
    decreases i, 0
  {
    hide Text, Skip, Meaning, ParseValue, Skipped;
    TextStarts(i.v);
    NothingContinues(i.after, next);
    TextRead(i.v, i.after + next);
    SkipsTo(i.before, Text(i.v) + (i.after + next));
    SkipsTo(i.after, next);
  }

  lemma {:induction false} LastRead(i: Item, rest: string)
    requires Skipped(i.before) && Readable(i.v) && Fits(i.v) && Skipped(i.after)
    ensures ParseItems(ItemText(i, "]" + rest)) == Ok([Meaning(i.v)], rest)
    decreases i, 1
  {
    hide Skip, Meaning, ParseValue, ItemText, Skipped, Readable, Fits;
    ItemRead(i, "]" + rest);
    assert ("]" + rest)[1..] == rest;
  }

  lemma {:induction false} NextRead(i: Item, more: string, vs: seq<Json>, rest: string)
    requires Skipped(i.before) && Readable(i.v) && Fits(i.v) && Skipped(i.after) && ParseItems(more) == Ok(vs, rest)
    ensures ParseItems(ItemText(i, "," + more)) == Ok([Meaning(i.v)] + vs, rest)
    decreases i, 1
  {
    hide Skip, Meaning, ParseValue, ItemText, Skipped, Readable, Fits;
    ItemRead(i, "," + more);
    assert ("," + more)[1..] == more;
    JsonRoundTrip.ItemsMore(ItemText(i, "," + more), Meaning(i.v), i.after + ("," + more), vs, rest);
  }

  lemma {:induction false} ObjectRead(blank: string, entries: seq<Entry>, rest: string)
    requires Readable(SObject(blank, entries)) && Fits(SObject(blank, entries))
    ensures ParseObject(Text(SObject(blank, entries)) + rest) == Ok(Meaning(SObject(blank, entries)), rest)
    decreases entries, 1
  {
    hide ParseMembers, Skip, EntriesText, Skipped, ReadablePieces, FitsPieces;
    var end := "}" + rest;
    if entries == [] {
      BracketSplits("{", blank, "}", rest);
      SkipsTo(blank, end);
    } else {
      BracketSplits("{", EntriesText(entries), "}", rest);
      BlanksAre();
      EntriesRead(entries, rest);
      FirstName(entries, end);
      ObjectIs(("{" + (EntriesText(entries) + "}")) + rest, EntriesMean(entries), rest);
    }
  }

  lemma FirstName(entries: seq<Entry>, end: string)
    requires entries != [] && Skipped(entries[0].before)
    ensures Skip(EntriesText(entries) + end) != "" && Skip(EntriesText(entries) + end)[0] == '\"'
  {
    hide Text, Skip, Skipped, PiecesText;
    var e := entries[0];
    var tail := e.colon + (":" + (e.gap + (Text(e.v) + (e.after + (if |entries| == 1 then "" else "," + EntriesText(entries[1..]))))));
    assert EntriesText(entries) == e.before + (StringText(e.name) + tail);
    hide EntriesText;
    QuoteSplits(PiecesText(e.name), "");
    FirstSplits(e.before, StringText(e.name), tail, end);
    SkipsTo(e.before, (StringText(e.name) + tail) + end);
  }

  lemma {:induction false} EntriesRead(entries: seq<Entry>, rest: string)
    requires entries != [] && Readable(SObject("", entries)) && Fits(SObject("", entries))
    ensures ParseMembers(EntriesText(entries) + ("}" + rest)) == Ok(EntriesMean(entries), rest)
    decreases entries, 0
  {
    hide ParseMembers, Text, Meaning, EntryText, Skipped, StringText, PiecesMean, FitsPieces, ReadablePieces;
    var e, end := entries[0], "}" + rest;
    var m := Member(PiecesMean(e.name), Meaning(e.v));
    if |entries| == 1 {
      assert EntriesText(entries) == EntryText(e, "") by { LastEntry(e, entries); }
      EntrySplits(e, "", end);
      assert "" + end == end;
      EntryRead(e, end);
      JsonRoundTrip.MembersLast(EntryText(e, end), m, e.after + end);
      assert end[1..] == rest && EntriesMean(entries) == [m];
    } else {
      var more := EntriesText(entries[1..]);
      assert EntriesText(entries) == EntryText(e, "," + more) by { FirstEntry(e, entries); }
      EntrySplits(e, "," + more, end);
      assert ("," + more) + end == "," + (more + end);
      EntriesRead(entries[1..], rest);
      EntryRead(e, "," + (more + end));
      assert ("," + (more + end))[1..] == more + end;
      JsonRoundTrip.MembersMore(EntryText(e, "," + (more + end)), m, e.after + ("," + (more + end)), EntriesMean(entries[1..]), rest);
    }
  }

  lemma LastEntry(e: Entry, entries: seq<Entry>)
    requires entries == [e]
    ensures EntriesText(entries) == EntryText(e, "")
  {
    hide Text, StringText;
  }

  lemma FirstEntry(e: Entry, entries: seq<Entry>)
    requires |entries| > 1 && entries[0] == e
    ensures EntriesText(entries) == EntryText(e, "," + EntriesText(entries[1..]))
  {
    hide Text, StringText;
  }

  /** An entry and what follows it. */
  function EntryText(e: Entry, next: string): string {
    e.before + (StringText(e.name) + (e.colon + (":" + (e.gap + (Text(e.v) + (e.after + next))))))
  }

  lemma EntrySplits(e: Entry, more: string, end: string)
    ensures EntryText(e, more) + end == EntryText(e, more + end)
  {
    var a := e.after + more;
    assert a + end == e.after + (more + end);
    var b := Text(e.v) + a;
    assert b + end == Text(e.v) + (a + end);
    var c := e.gap + b;
    assert c + end == e.gap + (b + end);
    var d := ":" + c;
    assert d + end == ":" + (c + end);
    var f := e.colon + d;
    assert f + end == e.colon + (d + end);
    var g := StringText(e.name) + f;
    assert g + end == StringText(e.name) + (f + end);
    assert (e.before + g) + end == e.before + (g + end);
    hide Text, StringText;
  }

  lemma {:induction false} EntryRead(e: Entry, next: string)
    requires Skipped(e.before) && ReadablePieces(e.name) && FitsPieces(e.name) && Skipped(e.colon) && Skipped(e.gap)
    requires Readable(e.v) && Fits(e.v) && Skipped(e.after) && next != "" && next[0] in {',', ']', '}'}
    ensures ParseMember(EntryText(e, next)) == Ok(Member(PiecesMean(e.name), Meaning(e.v)), e.after + next)
    ensures Skip(e.after + next) == next
    decreases e
  {
    hide Text, Skip, Meaning, ParseValue, ParseName, StringText, PiecesMean, FitsPieces, ReadablePieces, Skipped;
    var value := Text(e.v) + (e.after + next);
    var afterName := e.colon + (":" + (e.gap + value));
    NameRead(e, value);
    TextStarts(e.v);
    NothingContinues(e.after, next);
    TextRead(e.v, e.after + next);
    SkipsTo(e.gap, value);
    SkipsTo(e.after, next);
  }

  lemma NameRead(e: Entry, value: string)
    requires Skipped(e.before) && ReadablePieces(e.name) && FitsPieces(e.name) && Skipped(e.colon)
    ensures ParseName(e.before + (StringText(e.name) + (e.colon + (":" + (e.gap + value))))) == Ok(PiecesMean(e.name), e.gap + value)
  {
    var t := ":" + (e.gap + value);
    var s := StringText(e.name) + (e.colon + t);
    StringRead(e.name, e.colon + t);
    assert s[0] == '\"';
    SkipsTo(e.before, s);
    SkipsTo(e.colon, t);
    assert t[1..] == e.gap + value;
    hide ParseString, Skip, StringText, PiecesMean, FitsPieces, ReadablePieces;
  }

  /** What a text means is what is parsed, with blanks or control characters before, and any end. */
  lemma TextIsParsed(t: Syntax, before: string, rest: string)
    requires Readable(t) && Fits(t) && Skipped(before) && (t.SNumber? ==> !JsonRoundTrip.ContinuesNumber(rest))
    ensures Parse(before + (Text(t) + rest)) == Ok(Meaning(t), rest)
  {
    TextStarts(t);
    TextRead(t, rest);
    SkipsTo(before, Text(t) + rest);
    hide Text, Skip, Meaning, ParseValue, Readable, Fits;
  }

  /** Every JSON text of RFC 8259 that the parser has room for is parsed to what it means. */
  lemma JsonIsParsed(t: Syntax, before: string, after: string)
    requires Valid(t) && Fits(t) && Blank(before) && Blank(after)
    ensures Readable(t) && Parse(before + (Text(t) + after)) == Ok(Meaning(t), after)
  {
    ValidIsReadable(t);
    BlankIsSkipped(before);
    assert !JsonRoundTrip.ContinuesNumber(after) by {
      assert after != "" ==> after[0] as int <= 32;
    }
    TextIsParsed(t, before, after);
    hide Valid, Readable, Fits, Text, Meaning, Parse;
  }

  // ----- units that stand for no character

  /** A unit that is zero, or a second half without a first, is dropped. */
  lemma DroppedUnit(hex: string, rest: string)
    requires IsHexUnit(hex) && (UnitOf(hex) == 0 || IsLowSurrogate(UnitOf(hex)))
    ensures ParseEscape(("\\u" + hex) + rest) == Ok("", rest)
  {
    hide Hex4, HasHex4, UnitOf, IsHexUnit;
    HexUnitRead(hex, "\\u", rest);
    HexLength(hex);
    assert (("\\u" + hex) + rest)[6..] == rest;
  }

  /** So is a first half without a second, and together with a unit behind it that is none. */
  lemma DroppedHalf(hex: string, rest: string)
    requires IsHexUnit(hex) && IsHighSurrogate(UnitOf(hex)) && !(At(rest, 0) == '\\' && At(rest, 1) == 'u')
    ensures ParseEscape(("\\u" + hex) + rest) == Ok("", rest)
  {
    hide Hex4, HasHex4, UnitOf, IsHexUnit;
    HexUnitRead(hex, "\\u", rest);
    HexLength(hex);
    var s := ("\\u" + hex) + rest;
    assert s[6..] == rest && At(s, 6) == At(rest, 0) && At(s, 7) == At(rest, 1);
  }

  lemma DroppedPair(high: string, hex: string, rest: string)
    requires IsHexUnit(high) && IsHexUnit(hex) && IsHighSurrogate(UnitOf(high)) && !IsLowSurrogate(UnitOf(hex))
    ensures ParseEscape(("\\u" + high + "\\u" + hex) + rest) == Ok("", rest)
  {
    hide Hex4, HasHex4, UnitOf, IsHexUnit;
    HexLength(high);
    HexLength(hex);
    var s := ("\\u" + high + "\\u" + hex) + rest;
    var tail := ("\\u" + hex) + rest;
    assert s == ("\\u" + high) + tail && s == (("\\u" + high + "\\u") + hex) + rest;
    HexUnitRead(high, "\\u", tail);
    HexUnitRead(hex, "\\u" + high + "\\u", rest);
    assert s[6] == '\\' && s[7] == 'u' && s[12..] == rest;
  }

  // ----- where parsing fails

  /** A text that goes on behind a value with neither blank nor separator nor more of a number. */
  ghost predicate Stops(next: string, close: char) {
    && (next == "" || (next[0] as int > 32 && next[0] != ',' && next[0] != close) || next[0] == NUL)
    && !JsonRoundTrip.ContinuesNumber(next)
  }

  lemma StopsSkipped(blank: string, next: string, close: char)
    requires Skipped(blank) && Stops(next, close)
    ensures Skip(blank + next) == next && !JsonRoundTrip.ContinuesNumber(blank + next)
  {
    JsonRoundTrip.SkipBlanks(blank, next);
    assert blank == "" ==> blank + next == next;
  }

  /** No value begins: the error is there. */
  lemma NoValue(s: string)
    requires s == "" || (s[0] !in {'n', 'f', 't', '\"', '-', '[', '{'} && !IsDigit(s[0]))
    ensures ParseValue(s) == Fail(s)
  {
    assert "null"[0] == 'n' && "false"[0] == 'f' && "true"[0] == 't';
  }

  /** An item is followed by neither a comma nor the bracket: the error is what follows. */
  lemma {:induction false} ItemsFail(items: seq<Item>, next: string)
    requires items != [] && Readable(SArray("", items)) && Fits(SArray("", items)) && Stops(next, ']')
    ensures ParseItems(ItemsText(items) + next) == Fail(next)
    decreases |items|
  {
    hide ParseItems, Text, Meaning, ItemText, Skipped, Readable, Fits;
    var i := items[0];
    ItemOf(items);
    if |items| == 1 {
      assert ItemsText(items) == ItemText(i, "") by { LastOf(i, items); }
      ItemSplits(i, "", next);
      assert "" + next == next;
      ItemFails(i, next);
    } else {
      var more := ItemsText(items[1..]);
      assert ItemsText(items) == ItemText(i, "," + more) by { FirstOf(i, items); }
      ItemSplits(i, "," + more, next);
      assert ("," + more) + next == "," + (more + next);
      ItemsFail(items[1..], next);
      FailsLater(i, more + next, next);
    }
  }

  lemma ItemOf(items: seq<Item>)
    requires items != [] && Readable(SArray("", items)) && Fits(SArray("", items))
    ensures var i := items[0]; Skipped(i.before) && Readable(i.v) && Fits(i.v) && Skipped(i.after)
    ensures Readable(SArray("", items[1..])) && Fits(SArray("", items[1..]))
  {
    hide Skipped;
  }

  lemma ItemFails(i: Item, next: string)
    requires Skipped(i.before) && Readable(i.v) && Fits(i.v) && Skipped(i.after) && Stops(next, ']')
    ensures ParseItems(ItemText(i, next)) == Fail(next)
  {
    hide Text, Skip, Meaning, ParseValue, Skipped, Readable, Fits;
    TextStarts(i.v);
    StopsSkipped(i.after, next, ']');
    TextRead(i.v, i.after + next);
    SkipsTo(i.before, Text(i.v) + (i.after + next));
  }

  lemma FailsLater(i: Item, more: string, at: string)
    requires Skipped(i.before) && Readable(i.v) && Fits(i.v) && Skipped(i.after) && ParseItems(more) == Fail(at)
    ensures ParseItems(ItemText(i, "," + more)) == Fail(at)
  {
    hide Skip, Meaning, ParseValue, ItemText, Skipped, Readable, Fits;
    ItemRead(i, "," + more);
    assert ("," + more)[1..] == more;
  }

  lemma SkipsOver(blank: string, next: string)
    requires Skipped(blank) && (next == "" || next[0] as int > 32 || next[0] == NUL)
    ensures Skip(blank + next) == next
  {
    JsonRoundTrip.SkipBlanks(blank, next);
  }

  /** A member's name is not followed by a colon: the error is what follows. */
  lemma NoColon(before: string, name: seq<Piece>, blank: string, next: string)
    requires Skipped(before) && ReadablePieces(name) && FitsPieces(name) && Skipped(blank)
    requires next == "" || (next[0] as int > 32 && next[0] != ':') || next[0] == NUL
    ensures ParseMembers(before + (StringText(name) + (blank + next))) == Fail(next)
  {
    hide ParseString, StringText, PiecesMean, FitsPieces, ReadablePieces, Skipped;
    var s := StringText(name) + (blank + next);
    StringRead(name, blank + next);
    assert s[0] == '\"';
    SkipsTo(before, s);
    SkipsOver(blank, next);
  }

  /** A member is followed by neither a comma nor the brace: the error is what follows. */
  lemma {:induction false} EntriesFail(entries: seq<Entry>, next: string)
    requires entries != [] && Readable(SObject("", entries)) && Fits(SObject("", entries)) && Stops(next, '}')
    ensures ParseMembers(EntriesText(entries) + next) == Fail(next)
    decreases |entries|
  {
    hide ParseMembers, Text, Meaning, EntryText, Skipped, StringText, PiecesMean, FitsPieces, ReadablePieces, Readable, Fits;
    var e := entries[0];
    SecondOf(entries);
    if |entries| == 1 {
      assert EntriesText(entries) == EntryText(e, "") by { LastEntry(e, entries); }
      EntrySplits(e, "", next);
      assert "" + next == next;
      EntryFails(e, next);
    } else {
      var more := EntriesText(entries[1..]);
      assert EntriesText(entries) == EntryText(e, "," + more) by { FirstEntry(e, entries); }
      EntrySplits(e, "," + more, next);
      assert ("," + more) + next == "," + (more + next);
      EntriesFail(entries[1..], next);
      EntryFailsLater(e, more + next, next);
    }
  }

  ghost predicate ReadableEntry(e: Entry) {
    && Skipped(e.before) && ReadablePieces(e.name) && FitsPieces(e.name) && Skipped(e.colon) && Skipped(e.gap)
    && Readable(e.v) && Fits(e.v) && Skipped(e.after)
  }

  lemma SecondOf(entries: seq<Entry>)
    requires entries != [] && Readable(SObject("", entries)) && Fits(SObject("", entries))
    ensures ReadableEntry(entries[0]) && Readable(SObject("", entries[1..])) && Fits(SObject("", entries[1..]))
  {
    hide Skipped, ReadablePieces, FitsPieces;
  }

  lemma EntryFails(e: Entry, next: string)
    requires ReadableEntry(e) && Stops(next, '}')
    ensures ParseMembers(EntryText(e, next)) == Fail(next)
  {
    hide Text, Skip, Meaning, ParseValue, ParseName, StringText, PiecesMean, FitsPieces, ReadablePieces, Skipped, Readable, Fits;
    var value := Text(e.v) + (e.after + next);
    NameRead(e, value);
    TextStarts(e.v);
    StopsSkipped(e.after, next, '}');
    TextRead(e.v, e.after + next);
    SkipsTo(e.gap, value);
  }

  lemma EntryFailsLater(e: Entry, more: string, at: string)
    requires ReadableEntry(e) && ParseMembers(more) == Fail(at)
    ensures ParseMembers(EntryText(e, "," + more)) == Fail(at)
  {
    hide Skip, Meaning, ParseMember, EntryText, Skipped, Readable, Fits, PiecesMean, FitsPieces, ReadablePieces;
    EntryRead(e, "," + more);
    assert ("," + more)[1..] == more;
  }
}
