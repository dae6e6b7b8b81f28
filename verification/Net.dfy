/**
 Reading and writing on a stream socket that moves its bytes in chunks of any size, and the length-prefixed frames in
 which client and server exchange JSON texts.
 */
module Net {
  import opened CText
  import opened JsonPrint
  import JsonParse
  import JsonPrinter
  import JsonRoundTrip

  const NET_SOFTERROR: int := -1
  const NET_HARDERROR: int := -2

  function Min(a: nat, b: nat): nat {
    if a < b then a else b
  }

  /**
   A connected socket: the bytes that have arrived and those that have been handed to the network, whether the peer has
   closed it, how many more calls a signal will interrupt, and whether calls may fail for any other reason.
   */
  class Socket {
    var input: string
    var output: string
    var closed: bool
    var interrupts: nat
    const faulty: bool

    constructor (faulty: bool)
      ensures input == output == "" && !closed && interrupts == 0 && this.faulty == faulty
    {
      input, output, closed, interrupts := "", "", false, 0;
      this.faulty := faulty;
    }

    /** read(2): some of the bytes there are, 0 at the end of the stream; -1 with `eintr`, or for good. */
    method Read(want: nat) returns (r: int, chunk: string, eintr: bool)
      requires want > 0 && (input != "" || closed)
      modifies this`input, this`interrupts
      ensures r >= 0 ==> r == |chunk| <= want && old(input) == chunk + input && interrupts == old(interrupts)
      ensures r == 0 <==> chunk == "" && r >= 0
      ensures r == 0 ==> old(input) == ""
      ensures r < 0 ==> input == old(input) && (if eintr then interrupts < old(interrupts) else faulty)
    {
      eintr := false;
      var interrupted: bool := *;
      var fails: bool := *;
      if interrupted && interrupts > 0 {
        interrupts := interrupts - 1;
        return -1, "", true;
      }
      if fails && faulty {
        return -1, "", false;
      }
      if input == "" {
        return 0, "", false;
      }
      var limit := Min(want, |input|);
      var n: nat :| 0 < n <= limit;
      chunk := input[..n];
      input := input[n..];
      r := n;
    }

    /** write(2): a first part of the bytes is taken, at least one of them unless the socket is faulty. */
    method Write(bytes: string) returns (r: int, eintr: bool, again: bool)
      requires bytes != ""
      modifies this`output
      ensures r >= 0 ==> r <= |bytes| && output == old(output) + bytes[..r]
      ensures r < 0 ==> output == old(output)
      ensures r <= 0 ==> faulty
    {
      r :| 0 < r <= |bytes|;
      eintr := *;
      again := *;
      var fails: bool := *;
      if fails && faulty {
        r :| -1 <= r <= 0;
      }
      if r > 0 {
        output := output + bytes[..r];
      }
    }
  }

  method Store(buf: array<char>, at: nat, chunk: string)
    requires at + |chunk| <= buf.Length
    modifies buf
    ensures buf[..] == old(buf[..at]) + chunk + old(buf[at + |chunk|..])
  {
    for i := 0 to |chunk|
      invariant buf[..] == old(buf[..at]) + chunk[..i] + old(buf[at + i..])
    {
      buf[at + i] := chunk[i];
    }
  }

  /** Nread: all of the bytes wanted, fewer only at the end of the stream; what follows them stays unread. */
  method Nread(s: Socket, buf: array<char>, count: nat) returns (n: int)
    requires count <= buf.Length && (s.closed || |s.input| >= count)
    modifies s`input, s`interrupts, buf
    ensures n >= 0 ==> n == Min(count, |old(s.input)|) && buf[..n] == old(s.input)[..n] && s.input == old(s.input)[n..]
    ensures buf[count..] == old(buf[count..])
    ensures n < 0 ==> n == NET_HARDERROR && s.faulty
  {
    var nleft := count;
    while nleft > 0
      invariant 0 <= nleft <= count && count - nleft <= |old(s.input)|
      invariant buf[..count - nleft] == old(s.input)[..count - nleft]
      invariant s.input == old(s.input)[count - nleft..]
      invariant buf[count..] == old(buf[count..])
      decreases nleft + s.interrupts
    {
      var r, chunk, eintr := s.Read(nleft);
      var at := count - nleft;
      if r < 0 {
        if eintr {
          r := 0;
        } else {
          return NET_HARDERROR;
        }
      } else if r == 0 {
        break;
      } else {
        assert old(s.input)[at..][..r] == chunk && s.input == old(s.input)[at + r..];
        Store(buf, at, chunk);
        assert old(s.input)[..at + r] == old(s.input)[..at] + chunk;
      }
      nleft := nleft - r;
    }
    return count - nleft;
  }

  /** Nwrite: all of the bytes, in order; on a fault a first part of them, whose length a non-negative result gives. */
  method Nwrite(s: Socket, buf: array<char>, count: nat) returns (n: int)
    requires count <= buf.Length
    modifies s`output
    ensures |old(s.output)| <= |s.output| <= |old(s.output)| + count
    ensures s.output == old(s.output) + buf[..|s.output| - |old(s.output)|]
    ensures (n >= 0 ==> |s.output| == |old(s.output)| + n) && (n == count || s.faulty)
    ensures n >= 0 || n == NET_SOFTERROR || n == NET_HARDERROR
  {
    var nleft := count;
    assert buf[..0] == "";
    while nleft > 0
      invariant 0 <= nleft <= count
      invariant s.output == old(s.output) + buf[..count - nleft]
    {
      var at := count - nleft;
      var r, eintr, again := s.Write(buf[at..count]);
      if r < 0 {
        if eintr {
          return count - nleft;
        } else if again {
          return NET_SOFTERROR;
        } else {
          return NET_HARDERROR;
        }
      } else if r == 0 {
        return NET_SOFTERROR;
      }
      assert buf[..at + r] == buf[..at] + buf[at..count][..r];
      nleft := nleft - r;
    }
    return count;
  }

  // ----- frames

  const WORD: int := 0x1_0000_0000

  /** htonl: the four bytes of a 32-bit number, the most significant first. */
  function Htonl(n: nat): (s: string)
    ensures |s| == 4
  {
    [(n / 0x1000000 % 256) as char, (n / 0x10000 % 256) as char, (n / 0x100 % 256) as char, (n % 256) as char]
  }

  function Ntohl(s: string): nat
    requires |s| == 4
  {
    s[0] as nat * 0x1000000 + s[1] as nat * 0x10000 + s[2] as nat * 0x100 + s[3] as nat
  }

  lemma Multiple(e: int, d: nat)
    ensures e >= 1 ==> e * d >= d
    ensures e <= -1 ==> e * d <= 0 - d
  {
  }

  lemma Quotient(n: nat, q: nat, r: nat, d: nat)
    requires n == q * d + r && r < d
    ensures n / d == q && n % d == r
  {
    var e := n / d - q;
    assert e * d == n / d * d - q * d;
    Multiple(e, d);
  }

  lemma NtohlHtonl(n: nat)
    ensures Ntohl(Htonl(n)) == n % WORD
  {
    var a := n / 0x100;
    var b := a / 0x100;
    var c := b / 0x100;
    var d0, d1, d2 := n % 0x100, a % 0x100, b % 0x100;
    Quotient(n, b, d1 * 0x100 + d0, 0x10000);
    Quotient(n, c, d2 * 0x10000 + d1 * 0x100 + d0, 0x1000000);
    Quotient(n, c / 0x100, c % 0x100 * 0x1000000 + d2 * 0x10000 + d1 * 0x100 + d0, WORD);
  }

  /** The bytes of a number go out in the order of their weight. */
  lemma NetworkOrder(a: nat, b: nat, c: nat, d: nat)
    requires a < 256 && b < 256 && c < 256 && d < 256
    ensures Htonl(a * 0x1000000 + b * 0x10000 + c * 0x100 + d) == [a as char, b as char, c as char, d as char]
  {
    var n := a * 0x1000000 + b * 0x10000 + c * 0x100 + d;
    Quotient(n, a, b * 0x10000 + c * 0x100 + d, 0x1000000);
    Quotient(n, a * 0x100 + b, c * 0x100 + d, 0x10000);
    Quotient(n, a * 0x10000 + b * 0x100 + c, d, 0x100);
    Quotient(a * 0x100 + b, a, b, 0x100);
    Quotient(a * 0x10000 + b * 0x100 + c, a * 0x100 + b, c, 0x100);
  }

  /** What JSON_write sends: the length of the text, cut to 32 bits, and so much of the text. */
  function Frame(text: string): (s: string)
    ensures |s| == 4 + |text| % WORD
  {
    Htonl(|text| % WORD) + text[..|text| % WORD]
  }

  /** A text as a C string ends at its first NUL. */
  function CString(s: string): (r: string)
    ensures NulFree(r) && (NulFree(s) ==> r == s)
  {
    if s == "" || s[0] == NUL then "" else [s[0]] + CString(s[1..])
  }

  /** What JSON_read finds at the front of its input, and what follows. */
  function Unframe(input: string): (JsonParse.Parsed<Json>, string)
    requires |input| >= 4 && |input| >= 4 + Ntohl(input[..4])
  {
    var end := 4 + Ntohl(input[..4]);
    (JsonParse.Parse(CString(input[4..end])), input[end..])
  }

  method ToBuffer(text: string) returns (buf: array<char>)
    ensures fresh(buf) && buf[..] == text
  {
    buf := new char[|text|](i requires 0 <= i < |text| => text[i]);
  }

  /**
   JSON_write: the frame of the printed tree.  A write cut short by a signal counts as success, so that a faulty
   socket may have taken only a part of the frame.
   */
  method JsonWrite(s: Socket, v: Json) returns (r: int)
    requires Printable(v)
    modifies s`output
    ensures !s.faulty ==> r == 0 && s.output == old(s.output) + Frame(Print(v, 0, false))
    ensures |s.output| >= |old(s.output)| && s.output[..|old(s.output)|] == old(s.output)
  {
    r := WriteFrame(s, Print(v, 0, false));
  }

  method WriteFrame(s: Socket, str: string) returns (r: int)
    modifies s`output
    ensures !s.faulty ==> r == 0 && s.output == old(s.output) + Frame(str)
    ensures |s.output| >= |old(s.output)| && s.output[..|old(s.output)|] == old(s.output)
  {
    hide Htonl;
    var hsize := |str| % WORD;
    var nsize := ToBuffer(Htonl(hsize));
    var text := ToBuffer(str);
    var n := Nwrite(s, nsize, 4);
    if n < 0 {
      return -1;
    }
    n := Nwrite(s, text, hsize);
    r := if n < 0 then -1 else 0;
    if !s.faulty {
      assert nsize[..4] == Htonl(hsize) && text[..hsize] == str[..hsize];
      assert s.output == old(s.output) + (Htonl(hsize) + str[..hsize]);
    }
  }

  /** JSON_read, when a whole frame arrives and no read fails: what cJSON_Parse makes of it, and no byte further. */
  method JsonRead(s: Socket) returns (json: Option<JsonParse.Parsed<Json>>)
    requires |s.input| >= 4 && |s.input| >= 4 + Ntohl(s.input[..4])
    modifies s`input, s`interrupts
    ensures json == None ==> s.faulty
    ensures json != None ==> json.value == Unframe(old(s.input)).0 && s.input == Unframe(old(s.input)).1
  {
    var nsize := ToBuffer(Htonl(0));
    var n := Nread(s, nsize, 4);
    if n < 0 {
      return None;
    }
    assert nsize[..4] == nsize[..] == old(s.input)[..4];
    var hsize := Ntohl(nsize[..4]);
    var str := new char[hsize + 1](_ => NUL);
    n := Nread(s, str, hsize);
    if n < 0 {
      return None;
    }
    str[hsize] := NUL;
    assert str[..hsize] == old(s.input)[4..4 + hsize];
    assert old(s.input)[4..][hsize..] == old(s.input)[4 + hsize..];
    return Some(JsonParse.Parse(CString(str[..hsize])));
  }

  /** The reader of a frame finds its text, and what follows it. */
  lemma FrameParts(text: string, rest: string)
    requires |text| < WORD
    ensures var input := Frame(text) + rest;
      |input| >= 4 && Ntohl(input[..4]) == |text| && |input| >= 4 + |text|
      && input[4..4 + |text|] == text && input[4 + |text|..] == rest
  {
    NtohlHtonl(|text|);
    hide Htonl, Ntohl;
    assert |text| % WORD == |text|;
    assert Frame(text) == Htonl(|text|) + text;
    assert (Frame(text) + rest)[..4] == Htonl(|text|);
  }

  /** What is written as a frame is read back, and the reader stops where the frame ends, whatever follows. */
  lemma FrameRoundTrip(v: Json, rest: string)
    requires Printable(v) && |Print(v, 0, false)| < WORD
    ensures var input := Frame(Print(v, 0, false)) + rest;
      && |input| >= 4 && |input| >= 4 + Ntohl(input[..4])
      && Unframe(input) == (JsonParse.Ok(v, ""), rest)
  {
    var text := Print(v, 0, false);
    FrameParts(text, rest);
    JsonPrinter.PrintNulFree(v, 0, false);
    JsonRoundTrip.ParseUndoesPrint(v, false);
    hide Print, Printable, JsonParse.Parse, Htonl, Ntohl, Frame, CString;
  }
}
