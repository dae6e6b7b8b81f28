/**
 What parse_string writes against what it allocates: the second pass over a string as the code steps through it, for any
 escapes, and exactly when it fits the length that the first pass measured.
 */
module JsonBuffer {
  import opened CText
  import opened Transcode
  import opened JsonParse
  import opened JsonParser

  // ----- the second pass

  predicate IsSpace(c: char) {
    c == ' ' || '\t' <= c <= '\r'
  }

  function SignAt(s: string, at: nat): (n: nat)
    ensures n <= 1
  {
    if At(s, at) == '+' || At(s, at) == '-' then 1 else 0
  }

  function PrefixAt(s: string, at: nat): (n: nat)
    ensures n <= 2
  {
    if At(s, at) == '0' && (At(s, at + 1) == 'x' || At(s, at + 1) == 'X') then 2 else 0
  }

  /** How many blanks stand at `s[at..]`. */
  function Spaces(s: string, at: nat): (n: nat)
    ensures forall i :: at <= i < at + n ==> IsSpace(At(s, i))
    decreases |s| - at
  {
    if at < |s| && IsSpace(s[at]) then 1 + Spaces(s, at + 1) else 0
  }

  /** How many of at most `max` hexadecimal digits stand at `s[at..]`. */
  function HexRun(s: string, at: nat, max: nat): (n: nat)
    ensures n <= max
    ensures forall i :: at <= i < at + n ==> IsHexDigit(At(s, i))
    decreases max
  {
    if max == 0 || !IsHexDigit(At(s, at)) then 0 else 1 + HexRun(s, at + 1, max - 1)
  }

  function HexSum(s: string, at: nat, n: nat): nat {
    if n == 0 || !IsHexDigit(At(s, at + n - 1)) then 0 else HexSum(s, at, n - 1) * 0x10 + HexValue(At(s, at + n - 1))
  }

  /** What sscanf with "%4x" makes of a text: where the digits are, how many there are, and whether a minus is in front. */
  datatype Scan = Scan(at: nat, n: nat, minus: bool)

  function ScanAt(s: string, at: nat): (r: Scan)
    ensures r.at >= at && r.n <= 4
  {
    var p := at + Spaces(s, at);
    var sign := SignAt(s, p);
    var prefix := PrefixAt(s, p + sign);
    Scan(p + sign + prefix, HexRun(s, p + sign + prefix, 4 - sign - prefix), At(s, p) == '-')
  }

  /** The unsigned value that is read; None without a digit, where the variable keeps what it had. */
  function ScanHex(s: string, at: nat): Option<nat> {
    var r := ScanAt(s, at);
    var v := HexSum(s, r.at, r.n);
    if r.n == 0 then None else Some(if r.minus && v != 0 then 0x1_0000_0000 - v % 0x1_0000_0000 else v)
  }

  /** The variables uc and uc2 of parse_string, which live through the whole string; None before they are set. */
  datatype Units = Units(uc: Option<nat>, uc2: Option<nat>)

  const UNSET: Units := Units(None, None)

  function Either(a: Option<nat>, b: Option<nat>): Option<nat> {
    if a.Some? then a else b
  }

  /** What is left of `uc` when its bytes have been stored: it is shifted by six bits after all but the last. */
  function Shifted(uc: nat): nat {
    match Utf8Length(uc)
    case 1 => uc
    case 2 => uc / 0x40
    case 3 => uc / 0x40 / 0x40
    case _ => uc / 0x40 / 0x40 / 0x40
  }

  /** What a `\u` makes the second loop do: the characters it moves on by, the bytes it writes, the variables afterwards. */
  datatype Unit = Unit(step: nat, len: nat, after: Units)

  /** None when a variable is used that was never set. */
  function UnitAt(s: string, u: Units): (r: Option<Unit>)
    ensures r.Some? ==> r.value.step == 6 || (r.value.step == 12 && At(s, 6) == '\\' && At(s, 7) == 'u')
  {
    match Either(ScanHex(s, 2), u.uc)
    case None => None
    case Some(uc) =>
      if IsLowSurrogate(uc) || uc == 0 then Some(Unit(6, 0, u.(uc := Some(uc))))
      else if !IsHighSurrogate(uc) then Some(Unit(6, Utf8Length(uc), u.(uc := Some(Shifted(uc)))))
      else if At(s, 6) != '\\' || At(s, 7) != 'u' then Some(Unit(6, 0, u.(uc := Some(uc))))
      else PairAt(uc, Either(ScanHex(s, 8), u.uc2))
  }

  function PairAt(uc: nat, second: Option<nat>): (r: Option<Unit>)
    ensures r.Some? ==> r.value.step == 12
  {
    match second
    case None => None
    case Some(uc2) =>
      if !IsLowSurrogate(uc2) then Some(Unit(12, 0, Units(Some(uc), second)))
      else
        var code := CombineSurrogates(uc, uc2);
        Some(Unit(12, Utf8Length(code), Units(Some(Shifted(code)), second)))
  }

  /**
   The bytes that the second loop of parse_string writes: after a `\u` it moves on by four characters, whatever they are.
   None where that leads behind the end of the text, or where a variable is used that was never set.
   */
  function SecondPass(s: string, u: Units): Option<nat> {
    if At(s, 0) == NUL || s[0] == '\"' then Some(0)
    else if s[0] != '\\' then Add(1, SecondPass(s[1..], u))
    else if At(s, 1) == NUL then None
    else if s[1] != 'u' then Add(1, SecondPass(s[2..], u))
    else
      match UnitAt(s, u)
      case None => None
      case Some(r) => if |s| < r.step then None else Add(r.len, SecondPass(s[r.step..], r.after))
  }

  // ----- with well-formed escapes

  lemma ScanFour(s: string, at: nat)
    requires HasHex4(s, at)
    ensures ScanHex(s, at) == Some(Hex4(s, at))
  {
    assert Spaces(s, at) == 0;
    assert HexRun(s, at + 3, 1) == 1;
    assert HexRun(s, at + 2, 2) == 2;
    assert HexRun(s, at + 1, 3) == 3;
    assert HexRun(s, at, 4) == 4;
    assert HexSum(s, at, 1) == HexValue(s[at]);
    assert HexSum(s, at, 2) == HexValue(s[at]) * 0x10 + HexValue(s[at + 1]);
    assert HexSum(s, at, 3) == HexSum(s, at, 2) * 0x10 + HexValue(s[at + 2]);
  }

  /** With well-formed escapes the second loop writes what the parser stores. */
  lemma {:induction false} WritesParsed(s: string, u: Units)
    requires WellFormedEscapes(s)
    ensures ParseChars(s).Ok? && SecondPass(s, u) == Some(|ParseChars(s).value|)
    decreases |s|
  {
    hide ParseEscape, UnitAt;
    ParsedIffWellFormed(s);
    if At(s, 0) == NUL || s[0] == '\"' {
    } else if s[0] != '\\' {
      WritesParsed(s[1..], u);
    } else {
      var rest := ParseEscape(s).rest;
      ParsedIffWellFormed(rest);
      if s[1] != 'u' {
        EscapeOne(s);
        WritesParsed(rest, u);
      } else {
        EscapeWrites(s, u);
        WritesParsed(rest, UnitAt(s, u).value.after);
      }
    }
  }

  lemma EscapeOne(s: string)
    requires s != "" && s[0] == '\\' && ParseEscape(s).Ok? && s[1] != 'u'
    ensures |ParseEscape(s).value| == 1 && ParseEscape(s).rest == s[2..]
  {
  }

  lemma EscapeWrites(s: string, u: Units)
    requires s != "" && s[0] == '\\' && ParseEscape(s).Ok? && s[1] == 'u'
    ensures UnitAt(s, u).Some? && UnitAt(s, u).value.len == |ParseEscape(s).value|
    ensures |s| >= UnitAt(s, u).value.step && ParseEscape(s).rest == s[UnitAt(s, u).value.step..]
  {
    hide ScanHex, Utf8, Hex4, CombineSurrogates, Shifted;
    ScanFour(s, 2);
    if At(s, 6) == '\\' && At(s, 7) == 'u' && IsHighSurrogate(Hex4(s, 2)) {
      ScanFour(s, 8);
    }
  }

  /** With well-formed escapes the second pass never writes more than the first one counted. */
  lemma SecondPassFits(s: string)
    requires WellFormedEscapes(s)
    ensures Fits(s)
  {
    WritesParsed(s, UNSET);
    ParsedFits(s);
  }

  // ----- with any escapes

  /** The second pass is defined and writes no more than the first one counted. */
  ghost predicate Fits(s: string) {
    FirstPass(s).Some? && SecondPass(s, UNSET).Some? && SecondPass(s, UNSET).value <= FirstPass(s).value
  }

  /** The inside of a string: the first pass finds no end in it. */
  predicate Inside(b: string) {
    b == "" || (b[0] != NUL && b[0] != '\"' &&
                if b[0] != '\\' then Inside(b[1..]) else |b| >= 2 && b[1] != NUL && Inside(b[2..]))
  }

  /**
   The second pass steps through the inside of a string: each `\u` has a value, read from a digit or left by an earlier
   `\u`, and the characters it moves on by are there.
   */
  predicate StepsInside(b: string, u: Units) {
    if b == "" || b[0] == NUL || b[0] == '\"' then true
    else if b[0] != '\\' then StepsInside(b[1..], u)
    else if At(b, 1) == NUL then false
    else if b[1] != 'u' then StepsInside(b[2..], u)
    else
      match UnitAt(b, u)
      case None => false
      case Some(r) => |b| >= r.step && StepsInside(b[r.step..], r.after)
  }

  /** What the first pass counts for the inside of a string, from any place in it. */
  function Counted(b: string): nat {
    if b == "" then 0 else if b[0] != '\\' then 1 + Counted(b[1..]) else if |b| == 1 then 0 else 1 + Counted(b[2..])
  }

  lemma {:induction false} FirstPassCounts(b: string, tail: string)
    requires Inside(b) && tail != "" && tail[0] == '\"'
    ensures FirstPass(b + tail) == Some(Counted(b))
    decreases |b|
  {
    if b == "" {
      assert b + tail == tail;
    } else if b[0] != '\\' {
      assert (b + tail)[1..] == b[1..] + tail;
      FirstPassCounts(b[1..], tail);
    } else {
      assert (b + tail)[2..] == b[2..] + tail;
      FirstPassCounts(b[2..], tail);
    }
  }

  /** Stepping over a character does not raise the count, wherever the backslashes pair up. */
  lemma {:induction false} CountedDrop(b: string)
    requires b != ""
    ensures Counted(b[1..]) <= Counted(b)
    decreases |b|
  {
    if b[0] == '\\' && |b| >= 2 {
      assert b[1..][1..] == b[2..];
      if b[1] == '\\' && |b| >= 3 {
        assert b[1..][2..] == b[2..][1..];
        CountedDrop(b[2..]);
      }
    }
  }

  lemma {:induction false} CountedDrops(b: string, n: nat)
    requires n <= |b|
    ensures Counted(b[n..]) <= Counted(b)
    decreases n
  {
    if n > 0 {
      CountedDrop(b);
      CountedDrops(b[1..], n - 1);
      assert b[1..][n - 1..] == b[n..];
    } else {
      assert b[0..] == b;
    }
  }

  lemma {:induction false} CountedPlain(b: string, n: nat)
    requires n <= |b| && forall i :: 0 <= i < n ==> b[i] != '\\'
    ensures Counted(b) == n + Counted(b[n..])
    decreases n
  {
    if n > 0 {
      CountedPlain(b[1..], n - 1);
      assert b[1..][n - 1..] == b[n..];
    } else {
      assert b[0..] == b;
    }
  }

  lemma CountedTwo(b: string)
    requires |b| >= 2
    ensures Counted(b) >= 1 + Counted(b[2..])
  {
    if b[0] != '\\' {
      CountedDrop(b[1..]);
      assert b[1..][1..] == b[2..];
    }
  }

  lemma HexSumBound(s: string, at: nat, n: nat)
    requires n <= 4
    ensures n <= 1 ==> HexSum(s, at, n) < 0x10
    ensures n <= 2 ==> HexSum(s, at, n) < 0x100
    ensures n <= 3 ==> HexSum(s, at, n) < 0x1000
    ensures HexSum(s, at, n) < 0x10000
  {
    if n > 0 {
      HexSumBound(s, at, n - 1);
    }
  }

  lemma ScanPlain(s: string, at: nat)
    ensures var r := ScanAt(s, at); forall i :: at <= i < r.at + r.n ==> At(s, i) != '\\'
  {
    var r := ScanAt(s, at);
    var p := at + Spaces(s, at);
    var q := p + SignAt(s, p);
    forall i | at <= i < r.at + r.n
      ensures At(s, i) != '\\'
    {
      if i < p {
        assert IsSpace(At(s, i));
      } else if i >= r.at {
        assert IsHexDigit(At(s, i));
      }
    }
  }

  /** The bytes that a value read from `t` characters takes. */
  lemma DigitBytes(s: string, at: nat, uc: nat)
    requires ScanHex(s, at) == Some(uc)
    ensures var t := ScanAt(s, at).at + ScanAt(s, at).n - at;
      t > 0 && Utf8Length(uc) <= (if t < 2 then 1 + t else 4) && uc < 0x1_0000_0000
  {
    hide Spaces, PrefixAt, HexRun, HexSum;
    HexSumBound(s, ScanAt(s, at).at, ScanAt(s, at).n);
  }

  /** What the first pass counts for a `\u` and the four characters behind it, of which `m` are no backslashes. */
  lemma UnitCounted(b: string, m: nat)
    requires |b| >= 6 && b[0] == '\\' && b[1] == 'u' && m <= 4 && forall i :: 2 <= i < 2 + m ==> b[i] != '\\'
    ensures Counted(b) >= Counted(b[6..]) + (if m < 2 then 1 + m else 4)
  {
    CountedPlain(b[2..], m);
    assert b[2..][m..] == b[2 + m..];
    if m == 2 {
      CountedTwo(b[4..]);
      assert b[4..][2..] == b[6..];
    } else {
      CountedDrops(b[2 + m..], 4 - m);
      assert b[2 + m..][4 - m..] == b[6..];
    }
  }

  /** The digits behind a `\u` never give more bytes than the first pass counts for it and the four characters behind it. */
  lemma DigitsFit(b: string, uc: nat)
    requires |b| >= 6 && b[0] == '\\' && b[1] == 'u' && ScanHex(b, 2) == Some(uc)
    ensures Utf8Length(uc) + Counted(b[6..]) <= Counted(b) && uc < 0x1_0000_0000
  {
    hide ScanAt, ScanHex, Counted, Utf8Length;
    var t := ScanAt(b, 2).at + ScanAt(b, 2).n - 2;
    var m := if t < 4 then t else 4;
    ScanPlain(b, 2);
    DigitBytes(b, 2, uc);
    assert forall i :: 2 <= i < 2 + m ==> b[i] == At(b, i);
    UnitCounted(b, m);
  }

  /** A value left by an earlier `\u` is small. */
  predicate Small(u: Units) {
    u.uc.Some? ==> u.uc.value < 0x10000
  }

  lemma ValueFits(b: string, u: Units)
    requires |b| >= 6 && b[0] == '\\' && b[1] == 'u' && Small(u) && Either(ScanHex(b, 2), u.uc).Some?
    ensures var uc := Either(ScanHex(b, 2), u.uc).value;
      Utf8Length(uc) + Counted(b[6..]) <= Counted(b) && uc < 0x1_0000_0000
  {
    if ScanHex(b, 2).Some? {
      DigitsFit(b, ScanHex(b, 2).value);
    } else {
      CountedTwo(b[2..]);
      assert b[2..][2..] == b[4..];
      CountedTwo(b[4..]);
      assert b[4..][2..] == b[6..];
    }
    hide ScanHex;
  }

  lemma ShiftedSmall(uc: nat)
    requires uc < 0x1_0000_0000
    ensures Shifted(uc) < 0x10000
  {
  }

  /** A `\u`, or a pair, never gives more bytes than the first pass counts for the characters that are moved over. */
  lemma UnitFits(b: string, u: Units)
    requires |b| >= 2 && b[0] == '\\' && b[1] == 'u' && Small(u) && UnitAt(b, u).Some? && |b| >= UnitAt(b, u).value.step
    ensures var r := UnitAt(b, u).value; r.len + Counted(b[r.step..]) <= Counted(b) && Small(r.after)
  {
    hide ScanHex, Shifted;
    ValueFits(b, u);
    var uc := Either(ScanHex(b, 2), u.uc).value;
    ShiftedSmall(uc);
    if UnitAt(b, u).value.step == 12 {
      CountedDrops(b[8..], 4);
      assert b[6..][2..] == b[8..] && b[8..][4..] == b[12..];
      var second := Either(ScanHex(b, 8), u.uc2).value;
      ShiftedSmall(CombineSurrogates(uc, second));
    }
  }

  /** What the second pass writes within the inside of a string is never more than the first one counted. */
  lemma {:induction false} Written(b: string, u: Units)
    requires StepsInside(b, u) && Small(u)
    ensures SecondPass(b, u).Some? && SecondPass(b, u).value <= Counted(b)
    decreases |b|
  {
    hide UnitAt;
    if At(b, 0) == NUL || b[0] == '\"' {
    } else if b[0] != '\\' {
      Written(b[1..], u);
    } else if b[1] != 'u' {
      Written(b[2..], u);
    } else {
      var r := UnitAt(b, u).value;
      UnitFits(b, u);
      Written(b[r.step..], r.after);
    }
  }

  // ----- what follows the string makes no difference within it

  lemma SpacesSame(b: string, tail: string, at: nat)
    requires at <= |b| && tail != "" && tail[0] == '\"'
    ensures Spaces(b + tail, at) == Spaces(b, at) <= |b| - at
    decreases |b| - at
  {
    if at < |b| && IsSpace(b[at]) {
      SpacesSame(b, tail, at + 1);
    }
  }

  lemma RunSame(b: string, tail: string, at: nat, max: nat)
    requires at <= |b| && tail != "" && tail[0] == '\"'
    ensures HexRun(b + tail, at, max) == HexRun(b, at, max) <= |b| - at
    decreases max
  {
    if max > 0 && IsHexDigit(At(b, at)) {
      RunSame(b, tail, at + 1, max - 1);
    }
  }

  lemma SumSame(b: string, tail: string, at: nat, n: nat)
    requires at + n <= |b|
    ensures HexSum(b + tail, at, n) == HexSum(b, at, n)
    decreases n
  {
    if n > 0 {
      SumSame(b, tail, at, n - 1);
    }
  }

  lemma SignSame(b: string, tail: string, at: nat)
    requires at <= |b| && tail != "" && tail[0] == '\"'
    ensures SignAt(b + tail, at) == SignAt(b, at) <= |b| - at && (At(b + tail, at) == '-' <==> At(b, at) == '-')
  {
  }

  lemma PrefixSame(b: string, tail: string, at: nat)
    requires at <= |b| && tail != "" && tail[0] == '\"'
    ensures PrefixAt(b + tail, at) == PrefixAt(b, at) <= |b| - at
  {
    if at < |b| {
      assert (b + tail)[at] == b[at];
      assert at + 1 < |b| ==> (b + tail)[at + 1] == b[at + 1];
      assert at + 1 == |b| ==> (b + tail)[at + 1] == '\"';
    }
  }

  lemma ScanAtSame(b: string, tail: string, at: nat)
    requires at <= |b| && tail != "" && tail[0] == '\"'
    ensures ScanAt(b + tail, at) == ScanAt(b, at) && ScanAt(b, at).at + ScanAt(b, at).n <= |b|
  {
    hide Spaces, SignAt, PrefixAt, HexRun, At;
    SpacesSame(b, tail, at);
    var p := at + Spaces(b, at);
    var q := p + SignAt(b, p);
    SignSame(b, tail, p);
    PrefixSame(b, tail, q);
    RunSame(b, tail, q + PrefixAt(b, q), 4 - SignAt(b, p) - PrefixAt(b, q));
  }

  lemma ScanSame(b: string, tail: string, at: nat)
    requires at <= |b| && tail != "" && tail[0] == '\"'
    ensures ScanHex(b + tail, at) == ScanHex(b, at)
  {
    hide ScanAt, HexSum;
    ScanAtSame(b, tail, at);
    var r := ScanAt(b, at);
    SumSame(b, tail, r.at, r.n);
  }

  /** What decides over a `\u` lies before the closing quote, or is neither there nor behind it. */
  lemma UnitSame(b: string, tail: string, u: Units)
    requires |b| >= 2 && tail != "" && tail[0] == '\"' && (|b| >= 6 || forall i :: 1 <= i < |tail| ==> tail[i] == 'A')
    ensures UnitAt(b + tail, u) == UnitAt(b, u)
  {
    hide ScanHex, PairAt, Shifted;
    ScanSame(b, tail, 2);
    EdgeSame(b, tail);
    if At(b, 6) == '\\' && At(b, 7) == 'u' {
      ScanSame(b, tail, 8);
    }
  }

  lemma EdgeSame(b: string, tail: string)
    requires tail != "" && tail[0] == '\"' && (|b| >= 6 || forall i :: 1 <= i < |tail| ==> tail[i] == 'A')
    ensures At(b, 6) == '\\' && At(b, 7) == 'u' <==> At(b + tail, 6) == '\\' && At(b + tail, 7) == 'u'
  {
  }

  lemma PlainSteps(s: string, u: Units)
    requires s != "" && s[0] != NUL && s[0] != '\"'
    ensures s[0] != '\\' ==> SecondPass(s, u) == Add(1, SecondPass(s[1..], u))
    ensures s[0] == '\\' && At(s, 1) != NUL && s[1] != 'u' ==> SecondPass(s, u) == Add(1, SecondPass(s[2..], u))
    ensures s[0] == '\\' && At(s, 1) == 'u' && UnitAt(s, u).Some? && |s| >= UnitAt(s, u).value.step ==>
              var r := UnitAt(s, u).value; SecondPass(s, u) == Add(r.len, SecondPass(s[r.step..], r.after))
    ensures s[0] == '\\' && At(s, 1) == 'u' && UnitAt(s, u).None? ==> SecondPass(s, u) == None
  {
    hide UnitAt;
  }

  lemma {:induction false} WrittenSame(b: string, tail: string, u: Units)
    requires StepsInside(b, u) && NulFree(b) && tail != "" && tail[0] == '\"'
    ensures SecondPass(b + tail, u) == SecondPass(b, u)
    decreases |b|
  {
    if b == "" || b[0] == '\"' {
      return;
    }
    hide UnitAt, SecondPass;
    PlainSteps(b, u);
    PlainSteps(b + tail, u);
    if b[0] != '\\' {
      assert (b + tail)[1..] == b[1..] + tail;
      WrittenSame(b[1..], tail, u);
    } else if b[1] != 'u' {
      assert (b + tail)[2..] == b[2..] + tail;
      WrittenSame(b[2..], tail, u);
    } else {
      WrittenSame(b[UnitAt(b, u).value.step..], tail, UnitAt(b, u).value.after);
      UnitTail(b, tail, u);
    }
  }

  lemma UnitTail(b: string, tail: string, u: Units)
    requires |b| >= 2 && b[0] == '\\' && b[1] == 'u' && tail != "" && tail[0] == '\"'
    requires UnitAt(b, u).Some? && |b| >= UnitAt(b, u).value.step
    requires var r := UnitAt(b, u).value; SecondPass(b[r.step..] + tail, r.after) == SecondPass(b[r.step..], r.after)
    ensures SecondPass(b + tail, u) == SecondPass(b, u)
  {
    hide UnitAt, SecondPass;
    var r := UnitAt(b, u).value;
    UnitSame(b, tail, u);
    PlainSteps(b, u);
    PlainSteps(b + tail, u);
    assert (b + tail)[r.step..] == b[r.step..] + tail;
  }

  // ----- beyond the end of the string

  function Letters(n: nat): (s: string)
    ensures |s| == n && forall i :: 0 <= i < n ==> s[i] == 'A'
  {
    if n == 0 then "" else "A" + Letters(n - 1)
  }

  lemma {:induction false} LettersWritten(s: string, u: Units)
    requires forall i :: 0 <= i < |s| ==> s[i] == 'A'
    ensures SecondPass(s, u) == Some(|s|)
  {
    if s != "" {
      LettersWritten(s[1..], u);
    }
  }

  /** A step that leads out of the string makes the second pass write what follows it. */
  lemma {:induction false} Overrun(b: string, tail: string, u: Units)
    requires NulFree(b) && !StepsInside(b, u) && |tail| >= 5 && tail[0] == '\"'
    requires forall i :: 1 <= i < |tail| ==> tail[i] == 'A'
    ensures SecondPass(b + tail, u).Some? ==> SecondPass(b + tail, u).value >= |tail| - 4
    decreases |b|
  {
    hide SecondPass, UnitAt;
    var s := b + tail;
    PlainSteps(s, u);
    if b[0] != '\\' {
      assert s[1..] == b[1..] + tail;
      Overrun(b[1..], tail, u);
    } else if |b| == 1 {
      assert s[2..] == tail[1..];
      LettersWritten(tail[1..], u);
    } else if b[1] != 'u' {
      assert s[2..] == b[2..] + tail;
      Overrun(b[2..], tail, u);
    } else if UnitAt(b, u).Some? {
      UnitSame(b, tail, u);
      var r := UnitAt(b, u).value;
      if |b| >= r.step {
        assert s[r.step..] == b[r.step..] + tail;
        Overrun(b[r.step..], tail, r.after);
      } else {
        LettersWritten(s[r.step..], r.after);
      }
    } else {
      UnitSame(b, tail, u);
    }
  }

  lemma InsideNulFree(b: string)
    requires Inside(b)
    ensures NulFree(b)
  {
    if b != "" {
      if b[0] != '\\' {
        InsideNulFree(b[1..]);
        assert b == b[..1] + b[1..];
      } else {
        InsideNulFree(b[2..]);
        assert b == b[..2] + b[2..];
      }
    }
  }

  /**
   The buffer of a string suffices whatever text follows the string if and only if the second pass steps through the
   inside of the string: no `\u` is without a value, and none has the closing quote within its four characters.
   */
  lemma SecondPassFitsIff(b: string)
    requires Inside(b)
    ensures StepsInside(b, UNSET) <==> forall rest: string | NulFree(rest) :: Fits(b + ("\"" + rest))
  {
    InsideNulFree(b);
    if StepsInside(b, UNSET) {
      forall rest: string | NulFree(rest)
        ensures Fits(b + ("\"" + rest))
      {
        FirstPassCounts(b, "\"" + rest);
        Written(b, UNSET);
        WrittenSame(b, "\"" + rest, UNSET);
      }
    } else {
      var rest := Letters(Counted(b) + 4);
      FirstPassCounts(b, "\"" + rest);
      Overrun(b, "\"" + rest, UNSET);
      assert !Fits(b + ("\"" + rest));
    }
  }

  /** The value of an earlier `\u` serves one without digits: in `\u0041\uzzzz` both write the letter A. */
  lemma KeptValue(rest: string)
    ensures var b := "\\u0041\\uzzzz";
      StepsInside(b, UNSET) && !WellFormedEscapes(b) && SecondPass(b + ("\"" + rest), UNSET) == Some(2)
  {
    var b := "\\u0041\\uzzzz";
    var u := Units(Some(0x41), None);
    assert b[6..] == "\\uzzzz" && NulFree(b);
    KeptFirst(b);
    KeptSecond(b[6..]);
    hide UnitAt, FirstPass, NulFree, SecondPass, StepsInside, WellFormedEscapes;
    WrittenSame(b, "\"" + rest, UNSET);
  }

  lemma KeptFirst(s: string)
    requires |s| == 12 && s[0] == '\\' && s[1] == 'u' && s[2] == s[3] == '0' && s[4] == '4' && s[5] == '1'
    requires s[6] == '\\' && s[7] == 'u'
    ensures var u := Units(Some(0x41), None);
      && (StepsInside(s[6..], u) ==> StepsInside(s, UNSET)) && SecondPass(s, UNSET) == Add(1, SecondPass(s[6..], u))
      && (WellFormedEscapes(s) ==> WellFormedEscapes(s[6..]))
  {
    ScanFour(s, 2);
    assert Hex4(s, 2) == 0x41;
    assert UnitAt(s, UNSET) == Some(Unit(6, 1, Units(Some(0x41), None))) by { hide ScanHex; }
    hide UnitAt, ScanHex;
  }

  lemma KeptSecond(s: string)
    requires |s| == 6 && s[0] == '\\' && s[1] == 'u' && s[2] == 'z'
    ensures var u := Units(Some(0x41), None);
      StepsInside(s, u) && SecondPass(s, u) == Some(1) && !WellFormedEscapes(s)
  {
    var u := Units(Some(0x41), None);
    NoDigits(s);
    assert UnitAt(s, u) == Some(Unit(6, 1, u)) by { hide ScanHex; }
    hide UnitAt, ScanHex;
    assert s[6..] == "";
  }

  lemma NoDigits(s: string)
    requires |s| >= 6 && s[2] == 'z'
    ensures ScanHex(s, 2) == None
  {
    assert Spaces(s, 2) == 0;
    assert HexRun(s, 2, 4) == 0;
  }

  /** For one: `\u1"` is measured as two, and then the second pass steps over the quote. */
  lemma OneDigitEscape(n: nat)
    ensures var s := "\\u1\"AA" + Letters(n);
      !WellFormedEscapes(s) && FirstPass(s) == Some(2) && SecondPass(s, UNSET) == Some(1 + n)
  {
    var s := "\\u1\"AA" + Letters(n);
    assert s[6..] == Letters(n);
    OneDigitMeasured(s);
    OneDigitWritten(s);
    LettersWritten(Letters(n), Units(Some(1), None));
    hide FirstPass, SecondPass, Letters;
  }

  lemma OneDigitMeasured(s: string)
    requires |s| >= 6 && s[0] == '\\' && s[1] == 'u' && s[2] == '1' && s[3] == '\"'
    ensures FirstPass(s) == Some(2)
  {
    assert s[2..][1..] == s[3..];
    assert FirstPass(s[3..]) == Some(0);
    assert FirstPass(s[2..]) == Some(1);
  }

  lemma OneDigitWritten(s: string)
    requires |s| >= 6 && s[0] == '\\' && s[1] == 'u' && s[2] == '1' && s[3] == '\"'
    ensures SecondPass(s, UNSET) == Add(1, SecondPass(s[6..], Units(Some(1), None)))
  {
    assert Spaces(s, 2) == 0;
    assert HexRun(s, 3, 3) == 0;
    assert HexRun(s, 2, 4) == 1;
    assert HexSum(s, 2, 0) == 0;
    assert HexSum(s, 2, 1) == 1;
    assert ScanHex(s, 2) == Some(1);
  }
}
