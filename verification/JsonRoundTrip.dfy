/**
 Parsing undoes printing: for every printable tree, at every depth, formatted or not, and whatever text follows.
 */
module JsonRoundTrip {
  import opened CText
  import opened JsonPrint
  import opened JsonParse
  import JsonParser
  import opened Transcode

  // ----- numbers

  /** `rest` would be read as more of a number whose digits end here. */
  predicate ContinuesNumber(rest: string) {
    IsDigit(At(rest, 0)) || HasFraction(rest) || HasExponent(rest)
  }

  lemma FoldIntAppend(i: int, a: string, b: string)
    ensures FoldInt(i, a + b) == FoldInt(FoldInt(i, a), b)
    decreases a
  {
    if a == "" {
      assert a + b == b;
    } else {
      assert (a + b)[1..] == a[1..] + b;
      FoldIntAppend(Wrap64(i * 10 + DigitValue(a[0])), a[1..], b);
    }
  }

  lemma NoWrap(x: int)
    requires -0x8000_0000_0000_0000 <= x < 0x8000_0000_0000_0000
    ensures Wrap64(x) == x
  {
  }

  lemma FoldOne(i: int, c: char)
    ensures FoldInt(i, [c]) == Wrap64(i * 10 + DigitValue(c))
  {
    assert [c][1..] == "";
  }

  /** Reading back the digits of an int64_t never wraps. */
  lemma {:induction false} FoldDigits(n: nat)
    requires n < 0x8000_0000_0000_0000
    ensures FoldInt(0, Digits(n)) == n
  {
    var q, c := n / 10, '0' + (n % 10) as char;
    assert DigitValue(c) == n % 10;
    NoWrap(n);
    FoldOne(q, c);
    if n >= 10 {
      FoldDigits(q);
      FoldIntAppend(0, Digits(q), [c]);
    }
  }

  lemma {:induction false} DigitCountAppend(a: string, rest: string)
    requires forall k :: 0 <= k < |a| ==> IsDigit(a[k])
    requires !IsDigit(At(rest, 0))
    ensures DigitCount(a + rest) == |a|
  {
    if a != "" {
      assert (a + rest)[1..] == a[1..] + rest;
      DigitCountAppend(a[1..], rest);
    }
  }

  lemma IntegerPartOf(d: string, rest: string)
    requires d != "" && forall k :: 0 <= k < |d| ==> IsDigit(d[k])
    requires d[0] == '0' ==> |d| == 1 && !('1' <= At(rest, 0) <= '9')
    requires d[0] != '0' ==> !IsDigit(At(rest, 0))
    ensures IntegerPart(d + rest) == |d|
  {
    var s := d + rest;
    if d[0] == '0' {
      assert At(s, 1) == At(rest, 0);
    } else {
      DigitCountAppend(d, rest);
    }
  }

  lemma ParseInteger(s1: string, n: nat, negative: bool)
    requires s1 != "" && s1[0] != '-' && n == IntegerPart(s1)
    requires !HasFraction(s1[n..]) && !HasExponent(s1[n..])
    ensures ParseNumber(if negative then "-" + s1 else s1)
         == (Number(Wrap64(Signed(negative, FoldInt(0, s1[..n])))), s1[n..])
  {
    assert ("-" + s1)[1..] == s1;
  }

  lemma NumberRoundTrip(n: int, rest: string)
    requires MIN_PRINTABLE <= n <= MAX_PRINTABLE && !ContinuesNumber(rest)
    ensures ParseNumber(Decimal(n) + rest) == (Number(n), rest)
  {
    NumberRead(n, rest);
  }

  lemma NumberRead(n: int, rest: string)
    requires MIN_PRINTABLE <= n <= MAX_PRINTABLE
    requires !ContinuesNumber(rest) || (n == 0 && At(rest, 0) == '0')
    ensures ParseNumber(Decimal(n) + rest) == (Number(n), rest)
  {
    var d := Digits(if n < 0 then -n else n);
    var s1 := d + rest;
    assert Decimal(n) + rest == if n < 0 then "-" + s1 else s1;
    IntegerPartOf(d, rest);
    assert s1[..|d|] == d && s1[|d|..] == rest;
    FoldDigits(if n < 0 then -n else n);
    NoWrap(n);
    ParseInteger(s1, |d|, n < 0);
  }

  // ----- strings

  lemma EscapeRoundTrip(c: char, rest: string)
    requires c != NUL && EscapeChar(c)[0] == '\\'
    ensures ParseEscape(EscapeChar(c) + rest) == Ok([c], rest)
  {
    var s := EscapeChar(c) + rest;
    if ShortEscape(c) != NUL {
      assert s[2..] == rest;
    } else {
      assert HasHex4(s, 2) && Hex4(s, 2) == c as int / 16 * 16 + c as int % 16;
      assert s[6..] == rest;
    }
  }

  lemma {:induction false} CharsRoundTrip(str: string, rest: string)
    requires NulFree(str)
    ensures ParseChars(Escape(str) + ("\"" + rest)) == Ok(str, rest)
  {
    var s := Escape(str) + ("\"" + rest);
    if str == "" {
      assert s[1..] == rest;
    } else {
      var tail := Escape(str[1..]) + ("\"" + rest);
      assert s == EscapeChar(str[0]) + tail;
      CharsRoundTrip(str[1..], rest);
      assert [str[0]] + str[1..] == str;
      if EscapeChar(str[0])[0] == '\\' {
        EscapeRoundTrip(str[0], tail);
      } else {
        assert s[1..] == tail;
      }
    }
  }

  lemma StringRoundTrip(str: string, rest: string)
    requires NulFree(str)
    ensures ParseString(Quoted(str) + rest) == Ok(str, rest)
  {
    CharsRoundTrip(str, rest);
    assert (Quoted(str) + rest)[1..] == Escape(str) + ("\"" + rest);
  }

  // ----- values

  /** The first character of a value is not skipped and opens no other kind of value. */
  lemma PrintStart(v: Json, depth: nat, fmt: bool)
    requires Printable(v)
    ensures |Print(v, depth, fmt)| > 0
    ensures var c := Print(v, depth, fmt)[0];
      match v
      case Null => c == 'n'
      case False => c == 'f'
      case True => c == 't'
      case Number(_) => c == '-' || IsDigit(c)
      case String(_) => c == '\"'
      case Array(_) => c == '['
      case _ => c == '{'
  {
  }

  lemma QuotedStart(s: string, t: string)
    ensures |Quoted(s) + t| > 0 && (Quoted(s) + t)[0] == '\"'
  {
  }

  lemma SkipNothing(s: string)
    requires s != "" && s[0] as int > 32
    ensures Skip(s) == s
  {
  }

  lemma {:induction false} SkipBlanks(blanks: string, s: string)
    requires forall k :: 0 <= k < |blanks| ==> blanks[k] != NUL && blanks[k] as int <= 32
    ensures Skip(blanks + s) == Skip(s)
  {
    if blanks == "" {
      assert blanks + s == s;
    } else {
      assert (blanks + s)[1..] == blanks[1..] + s;
      SkipBlanks(blanks[1..], s);
    }
  }

  /** Which routine parse_value hands the text to. */
  lemma Dispatch(s: string)
    requires s != "" && s[0] !in "nft"
    ensures s[0] == '\"' && ParseString(s).Ok? ==> ParseValue(s) == Ok(String(ParseString(s).value), ParseString(s).rest)
    ensures s[0] == '-' || IsDigit(s[0]) ==> ParseValue(s) == Ok(ParseNumber(s).0, ParseNumber(s).1)
    ensures s[0] == '[' ==> ParseValue(s) == ParseArray(s)
    ensures s[0] == '{' ==> ParseValue(s) == ParseObject(s)
  {
    assert "null"[0] == 'n' && "false"[0] == 'f' && "true"[0] == 't';
  }

  lemma Keywords(rest: string)
    ensures ParseValue("null" + rest) == Ok(Null, rest)
    ensures ParseValue("false" + rest) == Ok(False, rest)
    ensures ParseValue("true" + rest) == Ok(True, rest)
  {
    assert StartsWith("null" + rest, "null") && ("null" + rest)[4..] == rest;
    assert StartsWith("false" + rest, "false") && ("false" + rest)[5..] == rest && ("false" + rest)[0] == 'f';
    assert StartsWith("true" + rest, "true") && ("true" + rest)[4..] == rest && ("true" + rest)[0] == 't';
    assert "null"[0] == 'n' && "false"[0] == 'f' && "true"[0] == 't';
  }

  /** Whatever follows (more of the same number excepted), `text` is read as `v` and nothing more. */
  ghost predicate Reads(text: string, v: Json) {
    && text != "" && text[0] as int > 32 && text[0] != ']'
    && forall rest {:trigger ParseValue(text + rest)} :: (v.Number? ==> !ContinuesNumber(rest)) ==> ParseValue(text + rest) == Ok(v, rest)
  }

  /** The law, for every printable tree, depth, format and continuation. */
  lemma {:induction false} ValueRoundTrip(v: Json, depth: nat, fmt: bool, rest: string)
    requires Printable(v)
    requires v.Number? ==> !ContinuesNumber(rest)
    ensures ParseValue(Print(v, depth, fmt) + rest) == Ok(v, rest)
    decreases v, 1
  {
    PrintStart(v, depth, fmt);
    if v.Null? || v.False? || v.True? {
      Keywords(rest);
    } else {
      Dispatch(Print(v, depth, fmt) + rest);
      match v
      case Number(n) => NumberRoundTrip(n, rest);
      case String(str) => StringRoundTrip(str, rest);
      case Array(items) =>
        AllRead(items, depth + 1, fmt);
        ArrayRoundTrip(PrintItems(items, depth + 1, fmt), items, fmt, rest);
      case Object(members) =>
        AllMembersRead(members, depth + 1, fmt);
        ObjectRoundTrip(PrintMembers(members, depth + 1, fmt), members, depth, fmt, rest);
    }
  }

  lemma {:induction false} ValueReads(v: Json, depth: nat, fmt: bool)
    requires Printable(v)
    ensures Reads(Print(v, depth, fmt), v)
    decreases v, 2
  {
    PrintStart(v, depth, fmt);
    forall rest | v.Number? ==> !ContinuesNumber(rest)
      ensures ParseValue(Print(v, depth, fmt) + rest) == Ok(v, rest)
    {
      ValueRoundTrip(v, depth, fmt, rest);
    }
  }

  lemma {:induction false} AllRead(items: seq<Json>, depth: nat, fmt: bool)
    requires forall i :: 0 <= i < |items| ==> Printable(items[i])
    ensures forall i :: 0 <= i < |items| ==> Reads(PrintItems(items, depth, fmt)[i], items[i])
    decreases items, 0
  {
    forall i | 0 <= i < |items|
      ensures Reads(PrintItems(items, depth, fmt)[i], items[i])
    {
      ValueReads(items[i], depth, fmt);
    }
  }

  lemma {:induction false} AllMembersRead(members: seq<Member>, depth: nat, fmt: bool)
    requires forall i :: 0 <= i < |members| ==> Printable(members[i].value)
    ensures forall i :: 0 <= i < |members| ==> Reads(PrintMembers(members, depth, fmt)[i], members[i].value)
    decreases members, 0
  {
    forall i | 0 <= i < |members|
      ensures Reads(PrintMembers(members, depth, fmt)[i], members[i].value)
    {
      ValueReads(members[i].value, depth, fmt);
    }
  }

  // ----- arrays

  lemma ArrayRoundTrip(texts: seq<string>, items: seq<Json>, fmt: bool, rest: string)
    requires |texts| == |items| && forall i :: 0 <= i < |items| ==> Reads(texts[i], items[i])
    ensures ParseArray(("[" + Join(texts, fmt) + "]") + rest) == Ok(Array(items), rest)
  {
    var t := Join(texts, fmt) + ("]" + rest);
    assert (("[" + Join(texts, fmt) + "]") + rest)[1..] == t;
    if items == [] {
      assert t == "]" + rest;
      SkipNothing(t);
      assert t[1..] == rest;
    } else {
      assert t[0] == texts[0][0];
      SkipNothing(t);
      ItemsRoundTrip(texts, items, fmt, rest);
    }
  }

  lemma FirstItem(text: string, v: Json, t: string)
    requires Reads(text, v) && !ContinuesNumber(t)
    ensures ParseValue(Skip(text + t)) == Ok(v, t)
  {
    SkipNothing(text + t);
    assert ParseValue(text + t) == Ok(v, t);
  }

  lemma LastItem(text: string, v: Json, rest: string)
    requires Reads(text, v)
    ensures ParseItems(text + ("]" + rest)) == Ok([v], rest)
  {
    var t := "]" + rest;
    FirstItem(text, v, t);
    SkipNothing(t);
    assert t[1..] == rest;
  }

  lemma ItemsMore(s: string, v: Json, t: string, vs: seq<Json>, end: string)
    requires ParseValue(Skip(s)) == Ok(v, t) && At(Skip(t), 0) == ','
    requires ParseItems(Skip(t)[1..]) == Ok(vs, end)
    ensures ParseItems(s) == Ok([v] + vs, end)
  {
  }

  lemma {:induction false} ItemsRoundTrip(texts: seq<string>, items: seq<Json>, fmt: bool, rest: string)
    requires |texts| == |items| > 0 && forall i :: 0 <= i < |items| ==> Reads(texts[i], items[i])
    ensures ParseItems(Join(texts, fmt) + ("]" + rest)) == Ok(items, rest)
  {
    if |items| == 1 {
      LastItem(texts[0], items[0], rest);
      assert Join(texts, fmt) == texts[0];
      assert [items[0]] == items;
    } else {
      ItemsRoundTrip(texts[1..], items[1..], fmt, rest);
      MoreItems(texts[0], items[0], fmt, Join(texts[1..], fmt), items[1..], rest);
      assert [items[0]] + items[1..] == items;
    }
  }

  lemma MoreItems(text: string, v: Json, fmt: bool, more: string, vs: seq<Json>, rest: string)
    requires Reads(text, v) && ParseItems(more + ("]" + rest)) == Ok(vs, rest)
    ensures ParseItems((text + (if fmt then ", " else ",") + more) + ("]" + rest)) == Ok([v] + vs, rest)
  {
    var gap := if fmt then " " else "";
    var next := more + ("]" + rest);
    assert "," + gap == if fmt then ", " else ",";
    ItemsSplit(text, gap, more, "]" + rest);
    FirstItem(text, v, "," + (gap + next));
    NextItem(text + ("," + (gap + next)), v, gap, next, vs, rest);
  }

  lemma ItemsSplit(text: string, gap: string, more: string, end: string)
    ensures (text + ("," + gap) + more) + end == text + ("," + (gap + (more + end)))
  {
    Assoc(text + ("," + gap), more, end);
    Assoc(text, "," + gap, more + end);
    Assoc(",", gap, more + end);
  }

  lemma NextItem(s: string, v: Json, gap: string, next: string, vs: seq<Json>, rest: string)
    requires ParseValue(Skip(s)) == Ok(v, "," + (gap + next)) && (gap == "" || gap == " ")
    requires ParseItems(next) == Ok(vs, rest)
    ensures ParseItems(s) == Ok([v] + vs, rest)
  {
    var t := "," + (gap + next);
    assert t[1..] == gap + next;
    SkipNothing(t);
    SkipBlanks(gap, next);
    ItemsSkip(t[1..], next);
    ItemsMore(s, v, t, vs, rest);
  }

  /** Leading blanks make no difference to the items. */
  lemma ItemsSkip(s: string, t: string)
    requires Skip(s) == Skip(t)
    ensures ParseItems(s) == ParseItems(t)
  {
  }

  // ----- objects

  ghost predicate MembersReadAs(texts: seq<string>, members: seq<Member>) {
    |texts| == |members|
    && forall i :: 0 <= i < |members| ==> NulFree(members[i].name) && Reads(texts[i], members[i].value)
  }

  lemma ObjectRoundTrip(texts: seq<string>, members: seq<Member>, depth: nat, fmt: bool, rest: string)
    requires MembersReadAs(texts, members)
    ensures ParseObject(Enclosed(Lines(QuotedNames(members), texts, depth + 1, fmt), depth, fmt) + rest)
         == Ok(Object(members), rest)
  {
    hide ParseMembers, Skip;
    var lines := Lines(QuotedNames(members), texts, depth + 1, fmt);
    var s := Enclosed(lines, depth, fmt) + rest;
    var newline := if fmt then "\n" else "";
    var blanks := if fmt then Tabs(depth) else "";
    var t := lines + (blanks + ("}" + rest));
    ObjectSplit(newline, lines, blanks, rest);
    SkipBlanks(newline, t);
    if members == [] {
      assert t == blanks + ("}" + rest);
      SkipBlanks(blanks, "}" + rest);
      SkipNothing("}" + rest);
      assert ("}" + rest)[1..] == rest;
    } else {
      MembersRoundTrip(texts, members, depth + 1, fmt, blanks, rest);
      SkipIdempotent(t);
      MembersSkip(Skip(t), t);
      LinesStart(texts, members, depth + 1, fmt, blanks + ("}" + rest));
      ObjectMore(s, members, rest);
    }
  }

  lemma ObjectMore(s: string, members: seq<Member>, rest: string)
    requires At(s, 0) == '{' && At(Skip(s[1..]), 0) != '}' && ParseMembers(Skip(s[1..])) == Ok(members, rest)
    ensures ParseObject(s) == Ok(Object(members), rest)
  {
  }

  lemma ObjectSplit(newline: string, lines: string, blanks: string, rest: string)
    ensures (("{" + newline + lines + blanks + "}") + rest)[1..] == newline + (lines + (blanks + ("}" + rest)))
  {
    Assoc("{" + newline + lines + blanks, "}", rest);
    Assoc("{" + newline + lines, blanks, "}" + rest);
    Assoc("{" + newline, lines, blanks + ("}" + rest));
    Assoc("{", newline, lines + (blanks + ("}" + rest)));
  }

  lemma SkipIdempotent(s: string)
    ensures Skip(Skip(s)) == Skip(s)
  {
  }

  lemma MembersSkip(s: string, t: string)
    requires Skip(s) == Skip(t)
    ensures ParseMembers(s) == ParseMembers(t)
  {
  }

  /** Skipping a text that has something else than blanks does not depend on what follows. */
  lemma {:induction false} SkipPrefix(s: string, t: string)
    requires Skip(s) != ""
    ensures Skip(s + t) == Skip(s) + t
  {
    if s[0] != NUL && s[0] as int <= 32 {
      assert (s + t)[1..] == s[1..] + t;
      SkipPrefix(s[1..], t);
    }
  }

  lemma LinesStart(texts: seq<string>, members: seq<Member>, depth: nat, fmt: bool, end: string)
    requires |texts| == |members| > 0
    ensures At(Skip(Lines(QuotedNames(members), texts, depth, fmt) + end), 0) == '\"'
  {
    var names := QuotedNames(members);
    var tabs := if fmt then Tabs(depth) else "";
    var tail := names[0] + (":" + (if fmt then "\t" else "")) + texts[0] + LineEnd(|names| == 1, fmt);
    var more := Lines(names[1..], texts[1..], depth, fmt);
    Assoc(tabs + tail, more, end);
    Assoc(tabs, tail, more + end);
    SkipBlanks(tabs, tail + (more + end));
    SkipNothing(tail + (more + end));
  }

  /** One member, with whatever follows its value. */
  lemma MemberRoundTrip(m: Member, text: string, last: bool, depth: nat, fmt: bool, rest: string)
    requires NulFree(m.name) && Reads(text, m.value)
    requires last && !fmt ==> !ContinuesNumber(rest)
    ensures ParseMember(Line(Quoted(m.name), text, last, depth, fmt) + rest) == Ok(m, LineEnd(last, fmt) + rest)
  {
    hide ParseString, ParseValue, Skip, Quoted;
    var after := LineEnd(last, fmt) + rest;
    var gap := if fmt then "\t" else "";
    var tabs := if fmt then Tabs(depth) else "";
    var t := ":" + (gap + (text + after));
    LineSplit(tabs, Quoted(m.name), gap, text, LineEnd(last, fmt), rest);
    SkipBlanks(tabs, Quoted(m.name) + t);
    QuotedStart(m.name, t);
    SkipNothing(Quoted(m.name) + t);
    StringRoundTrip(m.name, t);
    SkipNothing(t);
    assert t[1..] == gap + (text + after);
    SkipBlanks(gap, text + after);
    SkipNothing(text + after);
    if last && !fmt {
      assert after == rest;
    }
    assert ParseValue(text + after) == Ok(m.value, after);
  }

  lemma Assoc(a: string, b: string, c: string)
    ensures (a + b) + c == a + (b + c)
  {
  }

  lemma LineSplit(tabs: string, name: string, gap: string, text: string, end: string, rest: string)
    ensures tabs + (name + (":" + gap) + text + end) + rest == tabs + (name + (":" + (gap + (text + (end + rest)))))
  {
    Assoc(tabs, name + (":" + gap) + text + end, rest);
    Assoc(name + (":" + gap) + text, end, rest);
    Assoc(name + (":" + gap), text, end + rest);
    Assoc(name, ":" + gap, text + (end + rest));
    Assoc(":", gap, text + (end + rest));
  }

  lemma MembersLast(s: string, m: Member, t: string)
    requires ParseMember(s) == Ok(m, t) && At(Skip(t), 0) == '}'
    ensures ParseMembers(s) == Ok([m], Skip(t)[1..])
  {
  }

  lemma MembersMore(s: string, m: Member, t: string, ms: seq<Member>, end: string)
    requires ParseMember(s) == Ok(m, t) && At(Skip(t), 0) == ','
    requires ParseMembers(Skip(t)[1..]) == Ok(ms, end)
    ensures ParseMembers(s) == Ok([m] + ms, end)
  {
  }

  lemma {:induction false} MembersRoundTrip(texts: seq<string>, members: seq<Member>, depth: nat, fmt: bool,
                                            blanks: string, rest: string)
    requires members != [] && MembersReadAs(texts, members)
    requires fmt || blanks == ""
    requires forall k :: 0 <= k < |blanks| ==> blanks[k] == '\t'
    ensures ParseMembers(Lines(QuotedNames(members), texts, depth, fmt) + (blanks + ("}" + rest))) == Ok(members, rest)
  {
    hide ParseMembers, Line;
    var names := QuotedNames(members);
    if |members| == 1 {
      OneMember(members[0], texts[0], depth, fmt, blanks, rest);
      assert Lines(names, texts, depth, fmt) == Line(names[0], texts[0], true, depth, fmt);
      assert [members[0]] == members;
    } else {
      assert names[1..] == QuotedNames(members[1..]);
      MembersRoundTrip(texts[1..], members[1..], depth, fmt, blanks, rest);
      MoreMembers(members[0], texts[0], depth, fmt, Lines(names[1..], texts[1..], depth, fmt),
                  blanks + ("}" + rest), members[1..], rest);
      assert [members[0]] + members[1..] == members;
    }
  }

  lemma OneMember(m: Member, text: string, depth: nat, fmt: bool, blanks: string, rest: string)
    requires NulFree(m.name) && Reads(text, m.value)
    requires (fmt || blanks == "") && forall k :: 0 <= k < |blanks| ==> blanks[k] == '\t'
    ensures ParseMembers(Line(Quoted(m.name), text, true, depth, fmt) + (blanks + ("}" + rest))) == Ok([m], rest)
  {
    var end := blanks + ("}" + rest);
    MemberRoundTrip(m, text, true, depth, fmt, end);
    LastMember(Line(Quoted(m.name), text, true, depth, fmt) + end, m, fmt, blanks, rest);
  }

  lemma MoreMembers(m: Member, text: string, depth: nat, fmt: bool, more: string, end: string, ms: seq<Member>,
                    rest: string)
    requires NulFree(m.name) && Reads(text, m.value)
    requires ParseMembers(more + end) == Ok(ms, rest)
    ensures ParseMembers((Line(Quoted(m.name), text, false, depth, fmt) + more) + end) == Ok([m] + ms, rest)
  {
    var line := Line(Quoted(m.name), text, false, depth, fmt);
    Assoc(line, more, end);
    MemberRoundTrip(m, text, false, depth, fmt, more + end);
    NextMember(line + (more + end), m, fmt, more + end, ms, rest);
  }

  lemma LastMember(s: string, m: Member, fmt: bool, blanks: string, rest: string)
    requires ParseMember(s) == Ok(m, LineEnd(true, fmt) + (blanks + ("}" + rest)))
    requires forall k :: 0 <= k < |blanks| ==> blanks[k] == '\t'
    ensures ParseMembers(s) == Ok([m], rest)
  {
    hide ParseMember, ParseMembers;
    var newline := if fmt then "\n" else "";
    var end := blanks + ("}" + rest);
    assert LineEnd(true, fmt) == newline by {
      assert "" + newline == newline;
    }
    SkipBlanks(newline, end);
    SkipBlanks(blanks, "}" + rest);
    SkipNothing("}" + rest);
    MembersLast(s, m, newline + end);
    assert ("}" + rest)[1..] == rest;
  }

  lemma NextMember(s: string, m: Member, fmt: bool, next: string, ms: seq<Member>, rest: string)
    requires ParseMember(s) == Ok(m, LineEnd(false, fmt) + next)
    requires ParseMembers(next) == Ok(ms, rest)
    ensures ParseMembers(s) == Ok([m] + ms, rest)
  {
    hide ParseMember, ParseMembers;
    var newline := if fmt then "\n" else "";
    var t := LineEnd(false, fmt) + next;
    assert t[1..] == newline + next && t[0] == ',';
    SkipNothing(t);
    SkipBlanks(newline, next);
    MembersSkip(newline + next, next);
    MembersMore(s, m, t, ms, rest);
  }

  // ----- the whole text

  /** cJSON_Parse undoes cJSON_Print and cJSON_PrintUnformatted. */
  lemma ParseUndoesPrint(v: Json, fmt: bool)
    requires Printable(v)
    ensures Parse(Print(v, 0, fmt)) == Ok(v, "")
  {
    PrintStart(v, 0, fmt);
    SkipNothing(Print(v, 0, fmt));
    ValueRoundTrip(v, 0, fmt, "");
    assert Print(v, 0, fmt) + "" == Print(v, 0, fmt);
  }

  // ----- what was parsed can be printed

  /** No number has a fraction or an exponent, and integers are in the range that is printed exactly. */
  predicate PlainNumbers(v: Json) {
    match v
    case Null | False | True => true
    case Number(n) => MIN_PRINTABLE <= n <= MAX_PRINTABLE
    case Float(_, _) => false
    case String(_) => true
    case Array(items) => forall i :: 0 <= i < |items| ==> PlainNumbers(items[i])
    case Object(members) => forall i :: 0 <= i < |members| ==> PlainNumbers(members[i].value)
  }

  lemma ParsedString(s: string)
    requires ParseString(s).Ok?
    ensures NulFree(ParseString(s).value)
  {
    JsonParser.ParsedIffWellFormed(s[1..]);
    JsonParser.ParsedNulFree(s[1..]);
  }

  /** A tree that was parsed is printable if and only if its numbers are plain: its strings are C strings. */
  lemma {:induction false} ParsedPrintable(s: string)
    requires ParseValue(s).Ok?
    ensures Printable(ParseValue(s).value) <==> PlainNumbers(ParseValue(s).value)
    decreases |s|, 1
  {
    hide ParseTail, ParseString, ParseItems, ParseMembers, NulFree;
    if At(s, 0) == '\"' {
      ParsedString(s);
    } else if At(s, 0) == '[' {
      if At(Skip(s[1..]), 0) != ']' {
        ItemsPrintable(Skip(s[1..]));
      }
    } else if At(s, 0) == '{' {
      if At(Skip(s[1..]), 0) != '}' {
        MembersPrintable(Skip(s[1..]));
      }
    }
  }

  lemma {:induction false} ItemsPrintable(s: string)
    requires ParseItems(s).Ok?
    ensures var vs := ParseItems(s).value; forall i :: 0 <= i < |vs| ==> (Printable(vs[i]) <==> PlainNumbers(vs[i]))
    decreases |s|, 2
  {
    hide ParseValue, Printable, PlainNumbers;
    ParsedPrintable(Skip(s));
    var t := Skip(ParseValue(Skip(s)).rest);
    if At(t, 0) == ',' {
      ItemsPrintable(t[1..]);
    }
  }

  lemma {:induction false} MembersPrintable(s: string)
    requires ParseMembers(s).Ok?
    ensures var ms := ParseMembers(s).value;
      forall i :: 0 <= i < |ms| ==> NulFree(ms[i].name) && (Printable(ms[i].value) <==> PlainNumbers(ms[i].value))
    decreases |s|, 3
  {
    hide ParseValue, ParseName, Printable, PlainNumbers, NulFree;
    NameParsed(s);
    ParsedPrintable(Skip(ParseName(s).rest));
    var t := Skip(ParseMember(s).rest);
    if At(t, 0) == ',' {
      MembersPrintable(t[1..]);
    }
  }

  lemma NameParsed(s: string)
    requires ParseName(s).Ok?
    ensures NulFree(ParseName(s).value)
  {
    hide ParseString, NulFree;
    ParsedString(Skip(s));
  }

  /** What cJSON_Parse reads from any text, printed in either format and parsed again, is the same tree. */
  lemma PrintUndoesParse(s: string, fmt: bool)
    requires Parse(s).Ok? && PlainNumbers(Parse(s).value)
    ensures var v := Parse(s).value; Printable(v) && Parse(Print(v, 0, fmt)) == Ok(v, "")
  {
    hide ParseValue, Printable, PlainNumbers;
    ParsedPrintable(Skip(s));
    ParseUndoesPrint(Parse(s).value, fmt);
  }

  /** Different trees print differently, even across formats and when one text starts with the other. */
  lemma PrintInjective(v: Json, w: Json, depth1: nat, depth2: nat, fmt1: bool, fmt2: bool)
    requires Printable(v) && Printable(w)
    requires Print(v, depth1, fmt1) == Print(w, depth2, fmt2)
    ensures v == w
  {
    ValueRoundTrip(v, depth1, fmt1, "");
    ValueRoundTrip(w, depth2, fmt2, "");
    assert Print(v, depth1, fmt1) + "" == Print(w, depth2, fmt2) + "";
  }

  /** The only texts after which an integer is not read back are those that continue it. */
  lemma NumberRoundTripExact(n: int, rest: string)
    requires MIN_PRINTABLE <= n <= MAX_PRINTABLE
    ensures ParseNumber(Decimal(n) + rest) == (Number(n), rest)
       <==> !ContinuesNumber(rest) || (n == 0 && At(rest, 0) == '0')
  {
    if !ContinuesNumber(rest) || (n == 0 && At(rest, 0) == '0') {
      NumberRead(n, rest);
    } else {
      NumberContinued(n, rest);
    }
  }

  lemma NumberContinued(n: int, rest: string)
    requires ContinuesNumber(rest) && !(n == 0 && At(rest, 0) == '0')
    ensures ParseNumber(Decimal(n) + rest) != (Number(n), rest)
  {
    var d := Digits(if n < 0 then -n else n);
    var s1 := d + rest;
    assert Decimal(n) + rest == if n < 0 then "-" + s1 else s1;
    if IsDigit(At(rest, 0)) {
      LongerInteger(d, rest);
    } else {
      IntegerPartOf(d, rest);
      assert s1[|d|..] == rest;
    }
    ParseBeyond(s1, n < 0, |rest|);
  }

  lemma ParseBeyond(s1: string, negative: bool, k: nat)
    requires s1 != "" && s1[0] != '-'
    requires var s2 := s1[IntegerPart(s1)..]; |s2| < k || HasFraction(s2) || HasExponent(s2)
    ensures var r := ParseNumber(if negative then "-" + s1 else s1); |r.1| < k || r.0.Float?
  {
    assert ("-" + s1)[1..] == s1;
  }

  lemma LongerInteger(d: string, rest: string)
    requires d != "" && forall k :: 0 <= k < |d| ==> IsDigit(d[k])
    requires IsDigit(At(rest, 0)) && (d[0] == '0' ==> rest[0] != '0' && |d| == 1)
    ensures IntegerPart(d + rest) > |d|
  {
    var more := d + [rest[0]];
    assert d + rest == more + rest[1..];
    DigitCountAtLeast(more, rest[1..]);
    DigitCountAtLeast(more[1..], rest[1..]);
    assert (d + rest)[1..] == more[1..] + rest[1..];
  }

  lemma {:induction false} DigitCountAtLeast(a: string, rest: string)
    requires forall k :: 0 <= k < |a| ==> IsDigit(a[k])
    ensures DigitCount(a + rest) >= |a|
  {
    if a != "" {
      assert (a + rest)[1..] == a[1..] + rest;
      DigitCountAtLeast(a[1..], rest);
    }
  }
}
