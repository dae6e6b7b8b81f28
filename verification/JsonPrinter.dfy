/**
 The printing routines of cjson.c: each measures its output, allocates, and fills the buffer.
 */
module JsonPrinter {
  import opened CText
  import opened JsonPrint

  // ----- numbers

  function Pow10(k: nat): (p: nat)
    ensures p > 0
  {
    if k == 0 then 1 else 10 * Pow10(k - 1)
  }

  lemma {:induction false} DigitsBound(n: nat, k: nat)
    requires k > 0 && n < Pow10(k)
    ensures |Digits(n)| <= k
  {
    if n >= 10 {
      DigitsBound(n / 10, k - 1);
    }
  }

  /** The 64 bytes of print_number are enough for every integer it prints with "%lld". */
  lemma DecimalFits(n: int)
    requires MIN_PRINTABLE <= n <= MAX_PRINTABLE
    ensures |Decimal(n)| <= 20
  {
    assert Pow10(9) == 1_000_000_000;
    assert Pow10(19) == 10_000_000_000_000_000_000;
    DigitsBound(if n < 0 then -n else n, 19);
  }

  method CopyText(s: string, size: nat) returns (out: array<char>)
    requires NulFree(s) && |s| < size
    ensures fresh(out) && out.Length == size && Holds(out, s)
  {
    out := new char[size];
    for i := 0 to |s|
      invariant forall j :: 0 <= j < i ==> out[j] == s[j]
    {
      out[i] := s[i];
    }
    out[|s|] := NUL;
  }

  lemma DecimalNulFree(n: int)
    ensures NulFree(Decimal(n))
  {
    var s := Digits(if n < 0 then -n else n);
    assert forall i :: 0 <= i < |s| ==> s[i] != NUL;
  }

  method PrintNumber(n: int) returns (out: array<char>)
    requires MIN_PRINTABLE <= n <= MAX_PRINTABLE
    ensures fresh(out) && Holds(out, Decimal(n))
  {
    DecimalFits(n);
    DecimalNulFree(n);
    out := CopyText(Decimal(n), 64);
  }

  // ----- strings

  lemma EscapeAppend(s: string, t: string)
    ensures Escape(s + t) == Escape(s) + Escape(t)
  {
    if s == "" {
      assert s + t == t;
    } else {
      assert (s + t)[1..] == s[1..] + t;
      EscapeAppend(s[1..], t);
    }
  }

  lemma EscapeSnoc(s: string, i: nat)
    requires i < |s|
    ensures Escape(s[..i + 1]) == Escape(s[..i]) + EscapeChar(s[i])
    ensures |Escape(s[..i + 1])| <= |Escape(s)|
  {
    assert s[..i + 1] == s[..i] + [s[i]];
    EscapeAppend(s[..i], [s[i]]);
    assert Escape([s[i]]) == EscapeChar(s[i]) + Escape([s[i]][1..]);
    assert s == s[..i + 1] + s[i + 1..];
    EscapeAppend(s[..i + 1], s[i + 1..]);
  }

  lemma QuotedNulFree(s: string)
    ensures NulFree(Escape(s)) && NulFree(Quoted(s))
  {
    if s != "" {
      QuotedNulFree(s[1..]);
    }
  }

  /** The first pass of print_string_ptr: the escaped length, quotes and terminator not counted. */
  method MeasureString(str: string) returns (len: nat)
    requires NulFree(str)
    ensures len == |Escape(str)|
  {
    len := 0;
    var i := 0;
    while At(str, i) != NUL
      invariant i <= |str|
      invariant len == |Escape(str[..i])|
      decreases |str| - i
    {
      EscapeSnoc(str, i);
      var token := str[i];
      len := len + 1;
      if ShortEscape(token) != NUL {
        len := len + 1;
      } else if token as int < 32 {
        len := len + 5;
      }
      i := i + 1;
    }
    assert str[..i] == str;
  }

  /** One round of the writing loop. */
  method WriteEscaped(out: array<char>, n: nat, token: char) returns (m: nat)
    requires token != NUL
    requires n + |EscapeChar(token)| <= out.Length
    modifies out
    ensures m == n + |EscapeChar(token)|
    ensures out[..m] == old(out[..n]) + EscapeChar(token)
  {
    if token as int > 31 && token != '\"' && token != '\\' {
      out[n] := token;
      m := n + 1;
    } else {
      out[n] := '\\';
      if ShortEscape(token) != NUL {
        out[n + 1] := ShortEscape(token);
        m := n + 2;
      } else {
        out[n + 1], out[n + 2], out[n + 3] := 'u', '0', '0';
        out[n + 4], out[n + 5] := HexDigit(token as int / 16), HexDigit(token as int % 16);
        m := n + 6;
      }
    }
  }

  /** The second pass writes exactly what the first measured: nothing is left over in the buffer. */
  method PrintStringPtr(str: string) returns (out: array<char>)
    requires NulFree(str)
    ensures fresh(out) && Holds(out, Quoted(str))
    ensures out.Length == |Quoted(str)| + 1
  {
    hide EscapeChar;
    var len := MeasureString(str);
    out := new char[len + 3];
    out[0] := '\"';
    var n := 1;
    var i := 0;
    while At(str, i) != NUL
      invariant i <= |str|
      invariant n == 1 + |Escape(str[..i])|
      invariant n <= len + 1
      invariant out[..n] == "\"" + Escape(str[..i])
      decreases |str| - i
    {
      EscapeSnoc(str, i);
      n := WriteEscaped(out, n, str[i]);
      i := i + 1;
    }
    assert str[..i] == str;
    out[n] := '\"';
    out[n + 1] := NUL;
    QuotedNulFree(str);
    HoldsPrefix(out, Quoted(str));
  }

  /** A buffer whose first bytes are `s` and whose next byte is the terminator holds `s`. */
  lemma HoldsPrefix(a: array<char>, s: string)
    requires |s| < a.Length && a[..|s|] == s && a[|s|] == NUL && NulFree(s)
    ensures Holds(a, s)
  {
    forall i | 0 <= i < |s|
      ensures a[i] == s[i]
    {
      assert a[..|s|][i] == a[i];
    }
  }

  // ----- arrays

  /** The buffers hold the texts, one by one. */
  ghost predicate HoldAll(buffers: seq<array<char>>, texts: seq<string>)
    reads buffers
  {
    |buffers| == |texts| && forall j :: 0 <= j < |texts| ==> Holds(buffers[j], texts[j])
  }

  lemma HoldSnoc(buffers: seq<array<char>>, texts: seq<string>, b: array<char>)
    requires |buffers| < |texts| && HoldAll(buffers, texts[..|buffers|]) && Holds(b, texts[|buffers|])
    ensures HoldAll(buffers + [b], texts[..|buffers| + 1])
  {
  }

  /** What the measuring loop of print_array adds for the entries. */
  function EntriesSize(texts: seq<string>, fmt: bool): nat {
    if texts == [] then 0 else |texts[0]| + 2 + (if fmt then 1 else 0) + EntriesSize(texts[1..], fmt)
  }

  lemma {:induction false} EntriesSizeStep(texts: seq<string>, i: nat, fmt: bool)
    requires i < |texts|
    ensures EntriesSize(texts[..i + 1], fmt) == EntriesSize(texts[..i], fmt) + |texts[i]| + 2 + (if fmt then 1 else 0)
  {
    if i > 0 {
      assert texts[..i + 1][1..] == texts[1..][..i] && texts[..i][1..] == texts[1..][..i - 1];
      EntriesSizeStep(texts[1..], i - 1, fmt);
    }
  }

  /** The bytes print_array writes between the brackets never exceed what it measured. */
  lemma {:induction false} EntriesFit(texts: seq<string>, fmt: bool)
    ensures |Join(texts, fmt)| <= EntriesSize(texts, fmt)
  {
    if texts != [] {
      EntriesFit(texts[1..], fmt);
    }
  }

  lemma {:induction false} JoinNulFree(texts: seq<string>, fmt: bool)
    requires forall j :: 0 <= j < |texts| ==> NulFree(texts[j])
    ensures NulFree(Join(texts, fmt))
  {
    if texts != [] {
      JoinNulFree(texts[1..], fmt);
    }
  }

  method PrintValue(v: Json, depth: nat, fmt: bool) returns (out: array<char>)
    requires Printable(v)
    ensures fresh(out) && Holds(out, Print(v, depth, fmt))
    decreases v, 1
  {
    match v
    case Null => out := CopyText("null", 5);
    case False => out := CopyText("false", 6);
    case True => out := CopyText("true", 5);
    case Number(n) => out := PrintNumber(n);
    case String(str) => out := PrintStringPtr(str);
    case Array(items) => out := PrintArray(items, depth, fmt);
    case Object(members) => out := PrintObject(members, depth, fmt);
  }

  /** print_array: every byte of the text and the terminator fit the measured buffer. */
  method PrintArray(items: seq<Json>, depth: nat, fmt: bool) returns (out: array<char>)
    requires forall i :: 0 <= i < |items| ==> Printable(items[i])
    ensures fresh(out) && Holds(out, Print(Array(items), depth, fmt))
    ensures out.Length == 5 + EntriesSize(PrintItems(items, depth + 1, fmt), fmt)
    decreases items, 0
  {
    ghost var texts := PrintItems(items, depth + 1, fmt);
    var entries: seq<array<char>> := [];
    var len := 5;
    var i := 0;
    while i < |items|
      invariant i <= |items| && HoldAll(entries, texts[..i])
      invariant len == 5 + EntriesSize(texts[..i], fmt)
    {
      var ret := PrintValue(items[i], depth + 1, fmt);
      var n := StrLen(ret, texts[i]);
      EntriesSizeStep(texts, i, fmt);
      HoldSnoc(entries, texts, ret);
      entries := entries + [ret];
      len := len + n + 2 + (if fmt then 1 else 0);
      i := i + 1;
    }
    assert texts[..i] == texts;
    EntriesFit(texts, fmt);
    out := ComposeArray(entries, texts, fmt, len);
  }

  method ComposeArray(entries: seq<array<char>>, ghost texts: seq<string>, fmt: bool, len: nat)
    returns (out: array<char>)
    requires HoldAll(entries, texts)
    requires |Join(texts, fmt)| + 3 <= len
    ensures fresh(out) && out.Length == len && Holds(out, "[" + Join(texts, fmt) + "]")
  {
    hide Join, Separated;
    ghost var whole := "[" + Join(texts, fmt) + "]";
    out := new char[len];
    out[0] := '[';
    var n: nat := 1;
    var i := 0;
    assert whole == "[" + Left(texts, 0, fmt) by {
      assert texts[0..] == texts;
    }
    while i < |entries|
      invariant i <= |texts| && HoldAll(entries, texts)
      invariant n + |Left(texts, i, fmt)| == |whole|
      invariant whole == out[..n] + Left(texts, i, fmt)
    {
      LeftStep(out[..n], texts, i, fmt);
      n := WriteItem(out, n, entries[i], texts[i], i == |entries| - 1, fmt);
      i := i + 1;
    }
    out[n] := ']';
    out[n + 1] := NUL;
    JoinNulFree(texts, fmt);
    LeftNothing(texts, fmt);
    HoldsPrefix(out, whole);
  }

  lemma LeftNothing(texts: seq<string>, fmt: bool)
    ensures Left(texts, |texts|, fmt) == "]"
  {
  }

  /** What is still to be written once `i` entries are. */
  ghost function Left(texts: seq<string>, i: nat, fmt: bool): string
    requires i <= |texts|
  {
    Join(texts[i..], fmt) + "]"
  }

  function Separated(text: string, last: bool, fmt: bool): string {
    text + (if last then "" else if fmt then ", " else ",")
  }

  lemma LeftStep(done: string, texts: seq<string>, i: nat, fmt: bool)
    requires i < |texts|
    ensures |Left(texts, i, fmt)| == |Separated(texts[i], i == |texts| - 1, fmt)| + |Left(texts, i + 1, fmt)|
    ensures done + Left(texts, i, fmt)
         == (done + Separated(texts[i], i == |texts| - 1, fmt)) + Left(texts, i + 1, fmt)
  {
    assert texts[i..][1..] == texts[i + 1..];
  }

  /** One round of the composing loop of print_array. */
  method WriteItem(out: array<char>, at: nat, entry: array<char>, ghost s: string, last: bool, fmt: bool)
    returns (n: nat)
    requires out != entry && Holds(entry, s)
    requires at + |Separated(s, last, fmt)| < out.Length
    modifies out
    ensures n == at + |Separated(s, last, fmt)|
    ensures out[..n] == old(out[..at]) + Separated(s, last, fmt)
  {
    var k := StrLen(entry, s);
    StrCpy(out, at, entry, s);
    n := at + k;
    if !last {
      out[n] := ',';
      n := n + 1;
      if fmt {
        out[n] := ' ';
        n := n + 1;
      }
      out[n] := NUL;
    }
  }

  // ----- objects

  /** What the measuring loop of print_object adds for the members. */
  function LinesSize(names: seq<string>, texts: seq<string>, depth: nat, fmt: bool): nat
    requires |names| == |texts|
  {
    if names == [] then 0
    else
      |texts[0]| + |names[0]| + 2 + (if fmt then 2 + depth else 0)
      + LinesSize(names[1..], texts[1..], depth, fmt)
  }

  lemma {:induction false} LinesSizeStep(names: seq<string>, texts: seq<string>, i: nat, depth: nat, fmt: bool)
    requires i < |names| == |texts|
    ensures LinesSize(names[..i + 1], texts[..i + 1], depth, fmt)
         == LinesSize(names[..i], texts[..i], depth, fmt) + |texts[i]| + |names[i]| + 2 + (if fmt then 2 + depth else 0)
  {
    if i > 0 {
      assert texts[..i + 1][1..] == texts[1..][..i] && texts[..i][1..] == texts[1..][..i - 1];
      assert names[..i + 1][1..] == names[1..][..i] && names[..i][1..] == names[1..][..i - 1];
      LinesSizeStep(names[1..], texts[1..], i - 1, depth, fmt);
    }
  }

  lemma LinesSizeNothing(depth: nat, fmt: bool)
    ensures LinesSize([], [], depth, fmt) == 0
  {
  }

  /** The bytes print_object writes for the members, indentation included, never exceed what it measured. */
  lemma {:induction false} LinesFit(names: seq<string>, texts: seq<string>, depth: nat, fmt: bool)
    requires |names| == |texts|
    ensures |Lines(names, texts, depth, fmt)| <= LinesSize(names, texts, depth, fmt)
  {
    if names != [] {
      LinesFit(names[1..], texts[1..], depth, fmt);
    }
  }

  lemma {:induction false} LinesNulFree(names: seq<string>, texts: seq<string>, depth: nat, fmt: bool)
    requires |names| == |texts|
    requires forall j :: 0 <= j < |texts| ==> NulFree(texts[j]) && NulFree(names[j])
    ensures NulFree(Lines(names, texts, depth, fmt))
  {
    if names != [] {
      LinesNulFree(names[1..], texts[1..], depth, fmt);
    }
  }

  /** print_object: indentation included, everything fits the measured buffer. */
  method PrintObject(members: seq<Member>, depth0: nat, fmt: bool) returns (out: array<char>)
    requires forall i :: 0 <= i < |members| ==> NulFree(members[i].name) && Printable(members[i].value)
    ensures fresh(out) && Holds(out, Print(Object(members), depth0, fmt))
    ensures out.Length == 7 + (if fmt then depth0 + 1 else 0)
                          + LinesSize(QuotedNames(members), PrintMembers(members, depth0 + 1, fmt), depth0 + 1, fmt)
    decreases members, 1
  {
    var depth := depth0 + 1;
    ghost var qnames, texts := QuotedNames(members), PrintMembers(members, depth, fmt);
    var names, entries, len := CollectMembers(members, depth, fmt);
    len := len + 7 + (if fmt then depth else 0);
    LinesFit(qnames, texts, depth, fmt);
    out := ComposeObject(names, entries, qnames, texts, depth, fmt, len);
  }

  /** The collecting loop of print_object, and the part of the size it adds up. */
  method CollectMembers(members: seq<Member>, depth: nat, fmt: bool)
    returns (names: seq<array<char>>, entries: seq<array<char>>, len: nat)
    requires forall i :: 0 <= i < |members| ==> NulFree(members[i].name) && Printable(members[i].value)
    ensures HoldAll(names, QuotedNames(members)) && HoldAll(entries, PrintMembers(members, depth, fmt))
    ensures len == LinesSize(QuotedNames(members), PrintMembers(members, depth, fmt), depth, fmt)
    decreases members, 0
  {
    ghost var qnames, texts := QuotedNames(members), PrintMembers(members, depth, fmt);
    hide Quoted, Print, QuotedNames, PrintMembers, LinesSize;
    LinesSizeNothing(depth, fmt);
    names, entries, len := [], [], 0;
    assert qnames[..0] == [] && texts[..0] == [];
    var i := 0;
    while i < |members|
      invariant i <= |members| && HoldAll(names, qnames[..i]) && HoldAll(entries, texts[..i])
      invariant len == LinesSize(qnames[..i], texts[..i], depth, fmt)
    {
      var str, ret, n := PrintMember(members[i], depth, fmt);
      LinesSizeStep(qnames, texts, i, depth, fmt);
      HoldSnoc(names, qnames, str);
      HoldSnoc(entries, texts, ret);
      names, entries := names + [str], entries + [ret];
      len := len + n + 2 + (if fmt then 2 + depth else 0);
      i := i + 1;
    }
    assert texts[..i] == texts && qnames[..i] == qnames;
  }

  method PrintMember(m: Member, depth: nat, fmt: bool) returns (str: array<char>, ret: array<char>, len: nat)
    requires NulFree(m.name) && Printable(m.value)
    ensures fresh(str) && fresh(ret) && Holds(str, Quoted(m.name)) && Holds(ret, Print(m.value, depth, fmt))
    ensures len == |Print(m.value, depth, fmt)| + |Quoted(m.name)|
    decreases m, 2
  {
    str := PrintStringPtr(m.name);
    ret := PrintValue(m.value, depth, fmt);
    var n := StrLen(ret, Print(m.value, depth, fmt));
    var k := StrLen(str, Quoted(m.name));
    len := n + k;
  }

  method ComposeObject(names: seq<array<char>>, entries: seq<array<char>>, ghost qnames: seq<string>,
                       ghost texts: seq<string>, depth: nat, fmt: bool, len: nat)
    returns (out: array<char>)
    requires HoldAll(names, qnames) && HoldAll(entries, texts) && |qnames| == |texts| && depth > 0
    requires |Enclosed(Lines(qnames, texts, depth, fmt), depth - 1, fmt)| < len
    ensures fresh(out) && out.Length == len
    ensures Holds(out, Enclosed(Lines(qnames, texts, depth, fmt), depth - 1, fmt))
  {
    hide Lines;
    ghost var lines := Lines(qnames, texts, depth, fmt);
    out := new char[len];
    out[0] := '{';
    var n: nat := 1;
    if fmt {
      out[1] := '\n';
      n := 2;
    }
    n := WriteLines(out, n, names, entries, qnames, texts, depth, fmt);
    LinesNulFree(qnames, texts, depth, fmt);
    CloseObject(out, n, "{" + (if fmt then "\n" else "") + lines, depth - 1, fmt);
    assert Enclosed(lines, depth - 1, fmt) ==
      ("{" + (if fmt then "\n" else "") + lines) + ((if fmt then Tabs(depth - 1) else "") + "}");
  }

  method CloseObject(out: array<char>, at: nat, ghost s: string, tabs: nat, fmt: bool)
    requires at + (if fmt then tabs else 0) + 1 < out.Length
    requires out[..at] == s && NulFree(s)
    modifies out
    ensures Holds(out, s + ((if fmt then Tabs(tabs) else "") + "}"))
  {
    var n := at;
    if fmt {
      n := WriteTabs(out, n, tabs);
    }
    out[n] := '}';
    out[n + 1] := NUL;
    HoldsPrefix(out, s + ((if fmt then Tabs(tabs) else "") + "}"));
  }

  /** The composing loop of print_object. */
  method WriteLines(out: array<char>, at: nat, names: seq<array<char>>, entries: seq<array<char>>,
                    ghost qnames: seq<string>, ghost texts: seq<string>, depth: nat, fmt: bool)
    returns (n: nat)
    requires HoldAll(names, qnames) && HoldAll(entries, texts) && |qnames| == |texts|
    requires out !in names && out !in entries
    requires at + |Lines(qnames, texts, depth, fmt)| < out.Length
    modifies out
    ensures n == at + |Lines(qnames, texts, depth, fmt)|
    ensures out[..n] == old(out[..at]) + Lines(qnames, texts, depth, fmt)
  {
    hide Line;
    ghost var whole := old(out[..at]) + Lines(qnames, texts, depth, fmt);
    n := at;
    var i := 0;
    assert texts[0..] == texts && qnames[0..] == qnames;
    while i < |entries|
      invariant i <= |texts| && HoldAll(names, qnames) && HoldAll(entries, texts)
      invariant n + |Lines(qnames[i..], texts[i..], depth, fmt)| == |whole|
      invariant whole == out[..n] + Lines(qnames[i..], texts[i..], depth, fmt)
    {
      LinesStep(out[..n], qnames, texts, i, depth, fmt);
      n := WriteLine(out, n, names[i], entries[i], qnames[i], texts[i], i == |entries| - 1, depth, fmt);
      i := i + 1;
    }
  }

  lemma LinesStep(done: string, names: seq<string>, texts: seq<string>, i: nat, depth: nat, fmt: bool)
    requires i < |names| == |texts|
    ensures var line := Line(names[i], texts[i], i == |texts| - 1, depth, fmt);
            var left, left' := Lines(names[i..], texts[i..], depth, fmt), Lines(names[i + 1..], texts[i + 1..], depth, fmt);
            |left| == |line| + |left'| && done + left == (done + line) + left'
  {
    assert texts[i..][1..] == texts[i + 1..] && names[i..][1..] == names[i + 1..];
  }

  method WriteTabs(out: array<char>, n: nat, count: nat) returns (m: nat)
    requires n + count <= out.Length
    modifies out
    ensures m == n + count && out[..m] == old(out[..n]) + Tabs(count)
  {
    m := n;
    for j := 0 to count
      invariant m == n + j && out[..m] == old(out[..n]) + Tabs(j)
    {
      out[m] := '\t';
      m := m + 1;
    }
  }

  /** One round of the composing loop of print_object. */
  method WriteLine(out: array<char>, at: nat, name: array<char>, entry: array<char>, ghost s: string, ghost t: string,
                   last: bool, depth: nat, fmt: bool)
    returns (n: nat)
    requires out != name && out != entry && Holds(name, s) && Holds(entry, t)
    requires at + |Line(s, t, last, depth, fmt)| < out.Length
    modifies out
    ensures n == at + |Line(s, t, last, depth, fmt)|
    ensures out[..n] == old(out[..at]) + Line(s, t, last, depth, fmt)
  {
    n := at;
    if fmt {
      n := WriteTabs(out, n, depth);
    }
    n := WriteName(out, n, name, s, fmt);
    n := WriteEntry(out, n, entry, t, last, fmt);
  }

  method WriteName(out: array<char>, at: nat, name: array<char>, ghost s: string, fmt: bool) returns (n: nat)
    requires out != name && Holds(name, s) && at + |s| + (if fmt then 2 else 1) < out.Length
    modifies out
    ensures n == at + |s| + (if fmt then 2 else 1)
    ensures out[..n] == old(out[..at]) + s + (":" + (if fmt then "\t" else ""))
  {
    var k := StrLen(name, s);
    StrCpy(out, at, name, s);
    n := at + k;
    out[n] := ':';
    n := n + 1;
    if fmt {
      out[n] := '\t';
      n := n + 1;
    }
  }

  method WriteEntry(out: array<char>, at: nat, entry: array<char>, ghost s: string, last: bool, fmt: bool)
    returns (n: nat)
    requires out != entry && Holds(entry, s)
    requires at + |s| + |LineEnd(last, fmt)| < out.Length
    modifies out
    ensures n == at + |s| + |LineEnd(last, fmt)|
    ensures out[..n] == old(out[..at]) + s + LineEnd(last, fmt)
  {
    var k := StrLen(entry, s);
    StrCpy(out, at, entry, s);
    n := at + k;
    if !last {
      out[n] := ',';
      n := n + 1;
    }
    if fmt {
      out[n] := '\n';
      n := n + 1;
    }
    out[n] := NUL;
  }

  /** What is printed is a C string. */
  lemma {:induction false} PrintNulFree(v: Json, depth: nat, fmt: bool)
    requires Printable(v)
    ensures NulFree(Print(v, depth, fmt))
    decreases v
  {
    match v
    case Number(n) => DecimalNulFree(n);
    case String(str) => QuotedNulFree(str);
    case Array(items) =>
      forall i | 0 <= i < |items|
        ensures NulFree(Print(items[i], depth + 1, fmt))
      {
        PrintNulFree(items[i], depth + 1, fmt);
      }
      JoinNulFree(PrintItems(items, depth + 1, fmt), fmt);
    case Object(members) =>
      forall i | 0 <= i < |members|
        ensures NulFree(Print(members[i].value, depth + 1, fmt)) && NulFree(Quoted(members[i].name))
      {
        PrintNulFree(members[i].value, depth + 1, fmt);
        QuotedNulFree(members[i].name);
      }
      LinesNulFree(QuotedNames(members), PrintMembers(members, depth + 1, fmt), depth + 1, fmt);
    case _ =>
  }
}
