/**
 The parameters of a test: what the client sends of them, what a server makes of it, and what stays from test to test.
 */
module Settings {
  import opened CText
  import opened JsonPrint
  import JsonList
  import JsonParse
  import Net

  datatype Protocol = Tcp | Udp | Sctp

  const DEFAULT_TCP_BLKSIZE: int := 128 * 1024
  const OMIT: int := 0
  const DURATION: int := 10

  /** The fields of a test that its parameters set, `window` and `blksize` standing for the size of socket buffers and blocks. */
  datatype Params = Params(
    protocol: Protocol, omit: int, serverAffinity: int, duration: int, bytes: int, blocks: int, mss: int, noDelay: bool,
    streams: int, reverse: bool, sender: bool, window: int, blksize: int, rate: int, burst: int, tos: int, flowlabel: int,
    title: Option<string>, congestion: Option<string>)
  {
    /** The fields fit those of the C structures, with a rate below 2^53; strings are C strings. */
    ghost predicate Valid() {
      && Int32(omit) && Int32(serverAffinity) && Int32(duration) && Int32(blocks) && Int32(mss) && Int32(streams)
      && Int32(window) && Int32(blksize) && Int32(burst) && Int32(tos) && Int32(flowlabel)
      && 0 <= bytes < 0x20_0000_0000_0000 && 0 <= rate < 0x20_0000_0000_0000
      && (title.Some? ==> NulFree(title.value)) && (congestion.Some? ==> NulFree(congestion.value))
    }
  }

  predicate Int32(n: int) {
    -0x8000_0000 <= n < 0x8000_0000
  }

  // ----- looking a name up

  /** cJSON_GetObjectItem: the value of the first member with the name, in any case. */
  function Get(members: seq<Member>, name: string): Option<Json> {
    if members == [] then None
    else if JsonList.SameName(members[0].name, name) then Some(members[0].value)
    else Get(members[1..], name)
  }

  /** `valueint` of an item read from text. */
  function ValueInt(v: Json): int {
    match v
    case Number(n) => n
    case True => 1
    case _ => 0
  }

  /** `valuestring`, NULL for other items. */
  function ValueString(v: Json): Option<string> {
    if v.String? then Some(v.valuestring) else None
  }

  // ----- send_parameters

  function Flag(b: bool): Option<Json> {
    if b then Some(True) else None
  }

  function NonZero(n: int): Option<Json> {
    if n != 0 then Some(Number(n)) else None
  }

  function Text(s: Option<string>): Option<Json> {
    match s case None => None case Some(t) => Some(String(t))
  }

  const COUNT: nat := 20

  /** The parameters in the order in which they are sent: the name of each. */
  function Name(i: nat): string
    requires i < COUNT
  {
    match i
    case 0 => "tcp"
    case 1 => "udp"
    case 2 => "sctp"
    case 3 => "omit"
    case 4 => "server_affinity"
    case 5 => "time"
    case 6 => "num"
    case 7 => "blockcount"
    case 8 => "MSS"
    case 9 => "nodelay"
    case 10 => "parallel"
    case 11 => "reverse"
    case 12 => "window"
    case 13 => "len"
    case 14 => "bandwidth"
    case 15 => "burst"
    case 16 => "TOS"
    case 17 => "flowlabel"
    case 18 => "title"
    case _ => "congestion"
  }

  /** What is sent under the name, if anything. */
  function Entry(p: Params, i: nat): Option<Json>
    requires i < COUNT
  {
    match i
    case 0 => Flag(p.protocol == Tcp)
    case 1 => Flag(p.protocol == Udp)
    case 2 => Flag(p.protocol == Sctp)
    case 3 => Some(Number(p.omit))
    case 4 => if p.serverAffinity != -1 then Some(Number(p.serverAffinity)) else None
    case 5 => NonZero(p.duration)
    case 6 => NonZero(p.bytes)
    case 7 => NonZero(p.blocks)
    case 8 => NonZero(p.mss)
    case 9 => Flag(p.noDelay)
    case 10 => Some(Number(p.streams))
    case 11 => Flag(p.reverse)
    case 12 => NonZero(p.window)
    case 13 => NonZero(p.blksize)
    case 14 => NonZero(p.rate)
    case 15 => NonZero(p.burst)
    case 16 => NonZero(p.tos)
    case 17 => NonZero(p.flowlabel)
    case 18 => Text(p.title)
    case _ => Text(p.congestion)
  }

  function Added(ms: seq<Member>, name: string, v: Option<Json>): seq<Member> {
    if v == None then ms else ms + [Member(name, v.value)]
  }

  /** The members of the object when the first `n` parameters are in it. */
  function Members(p: Params, n: nat): seq<Member>
    requires n <= COUNT
  {
    if n == 0 then [] else Added(Members(p, n - 1), Name(n - 1), Entry(p, n - 1))
  }

  // ----- get_parameters

  /** The value of a number under the name, or what the field holds. */
  function IntOr(members: seq<Member>, name: string, n: int): int {
    match Get(members, name) case None => n case Some(v) => ValueInt(v)
  }

  function TextOr(members: seq<Member>, name: string, t: Option<string>): Option<string> {
    match Get(members, name) case None => t case Some(v) => ValueString(v)
  }

  /** What a test has learned when the parameters are read: names that are missing leave their fields alone. */
  function Learn(p: Params, j: seq<Member>): Params {
    LearnRest(LearnFirst(p, j), j)
  }

  function LearnFirst(p: Params, j: seq<Member>): Params {
    p.(protocol := ProtocolOr(j, p.protocol), omit := IntOr(j, "omit", p.omit),
       serverAffinity := IntOr(j, "server_affinity", p.serverAffinity), duration := IntOr(j, "time", p.duration),
       bytes := IntOr(j, "num", p.bytes), blocks := IntOr(j, "blockcount", p.blocks), mss := IntOr(j, "MSS", p.mss),
       noDelay := p.noDelay || Get(j, "nodelay").Some?, streams := IntOr(j, "parallel", p.streams))
  }

  function LearnRest(p: Params, j: seq<Member>): Params {
    p.(reverse := p.reverse || Get(j, "reverse").Some?,
       sender := if Get(j, "reverse").Some? then !p.sender else p.sender,
       window := IntOr(j, "window", p.window), blksize := IntOr(j, "len", p.blksize), rate := IntOr(j, "bandwidth", p.rate),
       burst := IntOr(j, "burst", p.burst), tos := IntOr(j, "TOS", p.tos), flowlabel := IntOr(j, "flowlabel", p.flowlabel),
       title := TextOr(j, "title", p.title), congestion := TextOr(j, "congestion", p.congestion))
  }

  function ProtocolOr(j: seq<Member>, protocol: Protocol): Protocol {
    if Get(j, "sctp").Some? then Sctp else if Get(j, "udp").Some? then Udp else if Get(j, "tcp").Some? then Tcp else protocol
  }

  /** set_protocol, once for each protocol named. */
  method FieldProtocol(j: seq<Member>, protocol: Protocol) returns (r: Protocol)
    ensures r == ProtocolOr(j, protocol)
  {
    r := protocol;
    if Get(j, "tcp").Some? {
      r := Tcp;
    }
    if Get(j, "udp").Some? {
      r := Udp;
    }
    if Get(j, "sctp").Some? {
      r := Sctp;
    }
  }

  /** A field is set when its name is there. */
  method FieldInt(j: seq<Member>, name: string, field: int) returns (n: int)
    ensures n == IntOr(j, name, field)
  {
    n := field;
    var item := Get(j, name);
    if item != None {
      n := ValueInt(item.value);
    }
  }

  method FieldText(j: seq<Member>, name: string, field: Option<string>) returns (t: Option<string>)
    ensures t == TextOr(j, name, field)
  {
    t := field;
    var item := Get(j, name);
    if item != None {
      t := ValueString(item.value);
    }
  }

  /** cJSON_AddItemToObject of a new item, when there is something to send. */
  method AddTo(ms: seq<Member>, name: string, v: Option<Json>) returns (r: seq<Member>)
    ensures r == Added(ms, name, v)
  {
    r := ms;
    if v != None {
      r := r + [Member(name, v.value)];
    }
  }

  // ----- the test, updated in place

  class Test {
    var p: Params

    /** iperf_defaults, and the fresh, zeroed structure. */
    constructor ()
      ensures p == Params(Tcp, OMIT, -1, DURATION, 0, 0, 0, false, 1, false, false, 0, DEFAULT_TCP_BLKSIZE, 0, 0, 0, 0, None, None)
    {
      p := Params(Tcp, OMIT, -1, DURATION, 0, 0, 0, false, 1, false, false, 0, DEFAULT_TCP_BLKSIZE, 0, 0, 0, 0, None, None);
    }

    /** iperf_set_test_role: a client sends, a server does not, and -R turns that round. */
    method SetTestRole(client: bool)
      modifies this
      ensures p == old(p).(sender := client != old(p).reverse)
    {
      p := p.(sender := client);
      if p.reverse {
        p := p.(sender := !p.sender);
      }
    }

    /** iperf_set_test_reverse: each call turns the direction round, also a second one. */
    method SetTestReverse(r: bool)
      modifies this
      ensures p == old(p).(reverse := r, sender := old(p).sender != r)
    {
      p := p.(reverse := r);
      if p.reverse {
        p := p.(sender := !p.sender);
      }
    }

    /** send_parameters: the object that is written to the control channel. */
    method SendParameters() returns (j: Json)
      ensures j == Object(Members(p, COUNT))
    {
      var ms := AddFirst();
      ms := AddRest(ms);
      j := Object(ms);
    }

    method AddFirst() returns (ms: seq<Member>)
      ensures ms == Members(p, 10)
    {
      hide Flag, NonZero, Text, Added;
      ms := [];
      ms := AddTo(ms, "tcp", Flag(p.protocol == Tcp));
      assert ms == Members(p, 1);
      ms := AddTo(ms, "udp", Flag(p.protocol == Udp));
      assert ms == Members(p, 2);
      ms := AddTo(ms, "sctp", Flag(p.protocol == Sctp));
      assert ms == Members(p, 3);
      ms := AddTo(ms, "omit", Some(Number(p.omit)));
      assert ms == Members(p, 4);
      ms := AddTo(ms, "server_affinity", if p.serverAffinity != -1 then Some(Number(p.serverAffinity)) else None);
      assert ms == Members(p, 5);
      ms := AddTo(ms, "time", NonZero(p.duration));
      assert ms == Members(p, 6);
      ms := AddTo(ms, "num", NonZero(p.bytes));
      assert ms == Members(p, 7);
      ms := AddTo(ms, "blockcount", NonZero(p.blocks));
      assert ms == Members(p, 8);
      ms := AddTo(ms, "MSS", NonZero(p.mss));
      assert ms == Members(p, 9);
      ms := AddTo(ms, "nodelay", Flag(p.noDelay));
      assert ms == Members(p, 10);
    }

    method AddRest(first: seq<Member>) returns (ms: seq<Member>)
      requires first == Members(p, 10)
      ensures ms == Members(p, COUNT)
    {
      hide Flag, NonZero, Text, Added;
      ms := first;
      ms := AddTo(ms, "parallel", Some(Number(p.streams)));
      assert ms == Members(p, 11);
      ms := AddTo(ms, "reverse", Flag(p.reverse));
      assert ms == Members(p, 12);
      ms := AddTo(ms, "window", NonZero(p.window));
      assert ms == Members(p, 13);
      ms := AddTo(ms, "len", NonZero(p.blksize));
      assert ms == Members(p, 14);
      ms := AddTo(ms, "bandwidth", NonZero(p.rate));
      assert ms == Members(p, 15);
      ms := AddTo(ms, "burst", NonZero(p.burst));
      assert ms == Members(p, 16);
      ms := AddTo(ms, "TOS", NonZero(p.tos));
      assert ms == Members(p, 17);
      ms := AddTo(ms, "flowlabel", NonZero(p.flowlabel));
      assert ms == Members(p, 18);
      ms := AddTo(ms, "title", Text(p.title));
      assert ms == Members(p, 19);
      ms := AddTo(ms, "congestion", Text(p.congestion));
      assert ms == Members(p, 20);
    }

    /** get_parameters: each field is set when its name is there. */
    method GetParameters(j: seq<Member>)
      modifies this
      ensures p == Learn(old(p), j)
    {
      GetFirst(j);
      GetRest(j);
    }

    method GetFirst(j: seq<Member>)
      modifies this
      ensures p == LearnFirst(old(p), j)
    {
      hide Get, IntOr, TextOr, ProtocolOr;
      var protocol := FieldProtocol(j, p.protocol);
      p := p.(protocol := protocol);
      var omit := FieldInt(j, "omit", p.omit);
      p := p.(omit := omit);
      var serverAffinity := FieldInt(j, "server_affinity", p.serverAffinity);
      p := p.(serverAffinity := serverAffinity);
      var duration := FieldInt(j, "time", p.duration);
      p := p.(duration := duration);
      var bytes := FieldInt(j, "num", p.bytes);
      p := p.(bytes := bytes);
      var blocks := FieldInt(j, "blockcount", p.blocks);
      p := p.(blocks := blocks);
      var mss := FieldInt(j, "MSS", p.mss);
      p := p.(mss := mss);
      p := p.(noDelay := p.noDelay || Get(j, "nodelay").Some?);
      var streams := FieldInt(j, "parallel", p.streams);
      p := p.(streams := streams);
    }

    method GetRest(j: seq<Member>)
      modifies this
      ensures p == LearnRest(old(p), j)
    {
      hide Get, IntOr, TextOr, ProtocolOr;
      if Get(j, "reverse").Some? {
        SetTestReverse(true);
      }
      var window := FieldInt(j, "window", p.window);
      p := p.(window := window);
      var blksize := FieldInt(j, "len", p.blksize);
      p := p.(blksize := blksize);
      var rate := FieldInt(j, "bandwidth", p.rate);
      p := p.(rate := rate);
      var burst := FieldInt(j, "burst", p.burst);
      p := p.(burst := burst);
      var tos := FieldInt(j, "TOS", p.tos);
      p := p.(tos := tos);
      var flowlabel := FieldInt(j, "flowlabel", p.flowlabel);
      p := p.(flowlabel := flowlabel);
      var title := FieldText(j, "title", p.title);
      p := p.(title := title);
      var congestion := FieldText(j, "congestion", p.congestion);
      p := p.(congestion := congestion);
    }

    /** iperf_reset_test: bytes, blocks, TOS and flow label are not among what it clears. */
    method ResetTest()
      modifies this
      ensures p == Reset(old(p))
    {
      p := p.(sender := false, protocol := Tcp, omit := OMIT, duration := DURATION, serverAffinity := -1);
      p := p.(title := None, congestion := None, reverse := false, noDelay := false);
      p := p.(streams := 1, window := 0, blksize := DEFAULT_TCP_BLKSIZE, rate := 0, burst := 0, mss := 0);
    }
  }

  function Reset(p: Params): Params {
    Params(Tcp, OMIT, -1, DURATION, p.bytes, p.blocks, 0, false, 1, false, false, 0, DEFAULT_TCP_BLKSIZE, 0, 0, p.tos,
           p.flowlabel, None, None)
  }

  // ----- what arrives

  /** The place of a name, told from its length and its first two letters, whatever their case. */
  function Place(name: string): int {
    if |name| < 2 then -1
    else
      var a, b := JsonList.ToLower(name[0]), JsonList.ToLower(name[1]);
      if a == 't' && b == 'c' then 0
      else if a == 'u' && b == 'd' then 1
      else if a == 's' && b == 'c' then 2
      else if a == 'o' && b == 'm' then 3
      else if a == 's' && b == 'e' then 4
      else if a == 'n' && b == 'u' then 6
      else if a == 'b' && b == 'l' then 7
      else if a == 'm' && b == 's' then 8
      else if a == 'n' && b == 'o' then 9
      else if a == 'p' && b == 'a' then 10
      else if a == 'r' && b == 'e' then 11
      else if a == 'w' && b == 'i' then 12
      else if a == 'l' && b == 'e' then 13
      else if a == 'b' && b == 'a' then 14
      else if a == 'b' && b == 'u' then 15
      else if a == 't' && b == 'o' then 16
      else if a == 'f' && b == 'l' then 17
      else if a == 'c' && b == 'o' then 19
      else if |name| == 4 then 5
      else 18
  }

  lemma Places(i: nat)
    requires i < COUNT
    ensures Place(Name(i)) == i
  {
  }

  lemma SamePlace(a: string, b: string)
    requires JsonList.SameName(a, b)
    ensures Place(a) == Place(b)
  {
    if |a| >= 2 {
      assert JsonList.ToLower(a[0]) == JsonList.ToLower(b[0]) && JsonList.ToLower(a[1]) == JsonList.ToLower(b[1]);
    }
    hide JsonList.ToLower;
  }

  /** The values under a name in a longer object. */
  lemma GetAdded(ms: seq<Member>, name: string, v: Option<Json>, key: string)
    ensures Get(Added(ms, name, v), key)
         == if Get(ms, key).Some? then Get(ms, key) else if JsonList.SameName(name, key) then v else None
  {
    if v != None && ms != [] {
      var m := [Member(name, v.value)];
      assert (ms + m)[1..] == ms[1..] + m;
      GetAdded(ms[1..], name, v, key);
    }
  }

  /** No two parameters have names that differ in case only. */
  lemma NamesDiffer(i: nat, k: nat)
    requires i < COUNT && k < COUNT
    ensures JsonList.SameName(Name(i), Name(k)) <==> i == k
  {
    Places(i);
    Places(k);
    if JsonList.SameName(Name(i), Name(k)) {
      SamePlace(Name(i), Name(k));
    }
    hide Name, Place;
  }

  /** Looked up under its name, each of the parameters sent is found, and one that was not sent is not. */
  lemma {:induction false} GetSent(p: Params, n: nat, i: nat)
    requires n <= COUNT && i < COUNT
    ensures Get(Members(p, n), Name(i)) == if i < n then Entry(p, i) else None
  {
    if n > 0 {
      GetSent(p, n - 1, i);
      GetAdded(Members(p, n - 1), Name(n - 1), Entry(p, n - 1), Name(i));
      NamesDiffer(n - 1, i);
    }
    hide Get, Added, Name, Entry, JsonList.SameName;
  }

  function Or(n: int, otherwise: int): int {
    if n != 0 then n else otherwise
  }

  /** The server's settings after the exchange: numbers that are zero are not sent. */
  function Arrived(s: Params, c: Params): Params {
    Params(c.protocol, c.omit, if c.serverAffinity != -1 then c.serverAffinity else s.serverAffinity, Or(c.duration, s.duration),
           Or(c.bytes, s.bytes), Or(c.blocks, s.blocks), Or(c.mss, s.mss), c.noDelay || s.noDelay, c.streams,
           c.reverse || s.reverse, s.sender != c.reverse, Or(c.window, s.window), Or(c.blksize, s.blksize), Or(c.rate, s.rate),
           Or(c.burst, s.burst), Or(c.tos, s.tos), Or(c.flowlabel, s.flowlabel),
           if c.title.Some? then c.title else s.title, if c.congestion.Some? then c.congestion else s.congestion)
  }

  lemma GetNamed(c: Params, i: nat, name: string)
    requires i < COUNT && name == Name(i)
    ensures Get(Members(c, COUNT), name) == Entry(c, i)
  {
    GetSent(c, COUNT, i);
  }

  /** A number that is sent unless it is zero. */
  lemma IntArrives(c: Params, i: nat, name: string, v: int, field: int)
    requires i < COUNT && name == Name(i) && Entry(c, i) == NonZero(v)
    ensures IntOr(Members(c, COUNT), name, field) == Or(v, field)
  {
    GetNamed(c, i, name);
  }

  lemma ProtocolArrives(c: Params, protocol: Protocol)
    ensures ProtocolOr(Members(c, COUNT), protocol) == c.protocol
  {
    hide Get, Members;
    GetNamed(c, 0, "tcp");
    GetNamed(c, 1, "udp");
    GetNamed(c, 2, "sctp");
  }

  lemma OthersArrive(s: Params, c: Params)
    ensures var j := Members(c, COUNT);
      && IntOr(j, "omit", s.omit) == c.omit && IntOr(j, "parallel", s.streams) == c.streams
      && IntOr(j, "server_affinity", s.serverAffinity) == (if c.serverAffinity != -1 then c.serverAffinity else s.serverAffinity)
      && (Get(j, "nodelay").Some? <==> c.noDelay) && (Get(j, "reverse").Some? <==> c.reverse)
      && TextOr(j, "title", s.title) == (if c.title.Some? then c.title else s.title)
      && TextOr(j, "congestion", s.congestion) == (if c.congestion.Some? then c.congestion else s.congestion)
  {
    hide Get, Members;
    GetNamed(c, 3, "omit");
    GetNamed(c, 4, "server_affinity");
    GetNamed(c, 9, "nodelay");
    GetNamed(c, 10, "parallel");
    GetNamed(c, 11, "reverse");
    GetNamed(c, 18, "title");
    GetNamed(c, 19, "congestion");
  }

  lemma LearnsAll(s: Params, c: Params)
    ensures Learn(s, Members(c, COUNT)) == Arrived(s, c)
  {
    hide Get, Members, IntOr, TextOr, ProtocolOr, NonZero, Or;
    ProtocolArrives(c, s.protocol);
    OthersArrive(s, c);
    IntArrives(c, 5, "time", c.duration, s.duration);
    IntArrives(c, 6, "num", c.bytes, s.bytes);
    IntArrives(c, 7, "blockcount", c.blocks, s.blocks);
    IntArrives(c, 8, "MSS", c.mss, s.mss);
    IntArrives(c, 12, "window", c.window, s.window);
    IntArrives(c, 13, "len", c.blksize, s.blksize);
    IntArrives(c, 14, "bandwidth", c.rate, s.rate);
    IntArrives(c, 15, "burst", c.burst, s.burst);
    IntArrives(c, 16, "TOS", c.tos, s.tos);
    IntArrives(c, 17, "flowlabel", c.flowlabel, s.flowlabel);
  }

  /** An entry is a flag, a number within the printer's range, or a C string. */
  ghost predicate Plain(v: Json) {
    v.True? || (v.Number? && MIN_PRINTABLE <= v.valueint <= MAX_PRINTABLE) || (v.String? && NulFree(v.valuestring))
  }

  lemma EntryPlain(c: Params, i: nat)
    requires c.Valid() && i < COUNT
    ensures Entry(c, i).Some? ==> Plain(Entry(c, i).value)
  {
    hide NulFree;
  }

  lemma AddedPrintable(ms: seq<Member>, name: string, v: Option<Json>)
    requires Printable(Object(ms)) && NulFree(name) && (v.Some? ==> Plain(v.value))
    ensures Printable(Object(Added(ms, name, v)))
  {
    hide NulFree;
  }

  lemma {:induction false} MembersPrintable(c: Params, n: nat)
    requires c.Valid() && n <= COUNT
    ensures Printable(Object(Members(c, n)))
  {
    if n == 0 {
      return;
    }
    MembersPrintable(c, n - 1);
    EntryPlain(c, n - 1);
    NameNulFree(n - 1);
    AddedPrintable(Members(c, n - 1), Name(n - 1), Entry(c, n - 1));
    hide Name, Entry, Added, Plain, Printable;
  }

  lemma NameNulFree(i: nat)
    requires i < COUNT
    ensures NulFree(Name(i))
  {
    var name := Name(i);
    assert forall k :: 0 <= k < |name| ==> name[k] != NUL;
  }

  /** The text of the parameters, as send_parameters writes it. */
  ghost function Wire(c: Params): string
    requires c.Valid()
  {
    MembersPrintable(c, COUNT);
    Print(Object(Members(c, COUNT)), 0, false)
  }

  /** Sent in a frame and read back, the parameters of the client become those of the server; nothing else is read. */
  lemma ParametersArrive(s: Params, c: Params, rest: string)
    requires c.Valid() && |Wire(c)| < Net.WORD
    ensures var input := Net.Frame(Wire(c)) + rest;
      |input| >= 4 && |input| >= 4 + Net.Ntohl(input[..4]) &&
      var (json, after) := Net.Unframe(input);
      json.Ok? && json.value.Object? && Learn(s, json.value.members) == Arrived(s, c) && after == rest
  {
    MembersPrintable(c, COUNT);
    Net.FrameRoundTrip(Object(Members(c, COUNT)), rest);
    LearnsAll(s, c);
    hide Members, Learn, Arrived, Net.Frame, Net.Ntohl, Net.Unframe, Print, Printable;
  }

  // ----- test after test

  const DEFAULTS: Params :=
    Params(Tcp, OMIT, -1, DURATION, 0, 0, 0, false, 1, false, false, 0, DEFAULT_TCP_BLKSIZE, 0, 0, 0, 0, None, None)

  /** A server that has been through the parameters of these tests, and a reset before each. */
  ghost function Served(tests: seq<Params>): Params {
    if tests == [] then DEFAULTS else Arrived(Reset(Served(tests[..|tests| - 1])), tests[|tests| - 1])
  }

  ghost function LastNonZero(tests: seq<Params>, field: Params -> int): int {
    if tests == [] then 0 else Or(field(tests[|tests| - 1]), LastNonZero(tests[..|tests| - 1], field))
  }

  /**
   After any history the server has the client's settings; but the amount to send, the TOS and the flow label that no
   reset clears, are the last that any of its clients gave.
   */
  lemma {:induction false} ServerFollowsClient(tests: seq<Params>)
    requires tests != []
    ensures var s, c := Served(tests), tests[|tests| - 1];
      && s.protocol == c.protocol && s.omit == c.omit && s.streams == c.streams && s.mss == c.mss && s.noDelay == c.noDelay
      && s.reverse == c.reverse && s.sender == c.reverse && s.window == c.window && s.rate == c.rate && s.burst == c.burst
      && s.blksize == Or(c.blksize, DEFAULT_TCP_BLKSIZE) && s.duration == Or(c.duration, DURATION)
      && s.serverAffinity == c.serverAffinity && s.title == c.title && s.congestion == c.congestion
    ensures var s := Served(tests);
      && s.bytes == LastNonZero(tests, (p: Params) => p.bytes) && s.blocks == LastNonZero(tests, (p: Params) => p.blocks)
      && s.tos == LastNonZero(tests, (p: Params) => p.tos) && s.flowlabel == LastNonZero(tests, (p: Params) => p.flowlabel)
  {
    var front := tests[..|tests| - 1];
    if front != [] {
      ServerFollowsClient(front);
    }
  }

  // ----- who sends

  /** The options of the client's command line that decide who sends: -c and -R. */
  datatype Direction = C | R

  function Parsed(options: seq<Direction>): (bool, bool) {  // reverse, sender
    if options == [] then (false, false)
    else
      var (reverse, sender) := Parsed(options[..|options| - 1]);
      match options[|options| - 1]
      case C => (reverse, !reverse)
      case R => (true, !sender)
  }

  /** iperf_parse_arguments, of these options, on the fresh test of a client. */
  method ParseArguments(options: seq<Direction>) returns (t: Test)
    ensures fresh(t) && t.p == DEFAULTS.(reverse := Parsed(options).0, sender := Parsed(options).1)
  {
    t := new Test();
    var k := 0;
    while k < |options|
      invariant k <= |options|
      invariant t.p == DEFAULTS.(reverse := Parsed(options[..k]).0, sender := Parsed(options[..k]).1)
    {
      assert options[..k + 1][..k] == options[..k];
      if options[k] == C {
        t.SetTestRole(true);
      } else {
        t.SetTestReverse(true);
      }
      k := k + 1;
    }
    assert options[..k] == options;
  }

  function Repeated(k: nat): (r: seq<Direction>)
    ensures |r| == k && forall i :: 0 <= i < k ==> r[i] == R
  {
    seq(k, _ => R)
  }

  lemma {:induction false} ParsedReverse(options: seq<Direction>)
    ensures Parsed(options).0 <==> R in options
  {
    if options != [] {
      var front, last := options[..|options| - 1], options[|options| - 1];
      ParsedReverse(front);
      assert options == front + [last];
    }
  }

  lemma {:induction false} ParsedSender(before: seq<Direction>, k: nat)
    ensures Parsed(before + [C] + Repeated(k)).1 <==> (R !in before) == (k % 2 == 0)
  {
    var options := before + [C] + Repeated(k);
    if k == 0 {
      assert options[..|options| - 1] == before;
      ParsedReverse(before);
    } else {
      assert options[..|options| - 1] == before + [C] + Repeated(k - 1);
      ParsedSender(before, k - 1);
    }
  }

  /**
   Exactly one end sends just when the -R flags come to what one of them, or none, would do: with none before the last
   -c, no flag or an odd number of them; otherwise an even number after it.
   */
  lemma OneEndSendsIff(before: seq<Direction>, k: nat)
    ensures var (reverse, sender) := Parsed(before + [C] + Repeated(k));
      sender != reverse <==> if R in before then k % 2 == 0 else k == 0 || k % 2 == 1
  {
    var options := before + [C] + Repeated(k);
    ParsedReverse(options);
    ParsedSender(before, k);
    assert R in options <==> R in before || k > 0 by {
      if k > 0 {
        assert options[|before| + 1] == R;
      }
    }
  }
}
