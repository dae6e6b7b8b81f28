/**
 The exchange of results: each end sends what it counted for its streams, and takes over what only the other end knows.
 */
module Results {
  import opened CText
  import opened JsonPrint
  import opened Settings
  import opened Protocol
  import JsonList
  import JsonParse
  import Net
  import ProtocolSafety

  /** What a test knows of a stream; the jitter in whole units. */
  datatype Stats = Stats(id: int, sent: int, received: int, retrans: int, jitter: int, errors: int, packets: int)

  /** The number iperf_add_stream gives the stream at place `i`: 1, 3, 4, 5, ... */
  function IdAt(i: nat): int {
    if i == 0 then 1 else i + 2
  }

  ghost predicate Numbered(streams: seq<Stats>) {
    forall i :: 0 <= i < |streams| ==> streams[i].id == IdAt(i)
  }

  /** `valueint` of the member with a name; only the members of an object have one. */
  function Field(v: Json, name: string): Option<int> {
    if !v.Object? then None
    else match Get(v.members, name) case None => None case Some(x) => Some(ValueInt(x))
  }

  /** The children of an array or object. */
  function Children(v: Json): seq<Json> {
    match v
    case Array(items) => items
    case Object(members) => seq(|members|, i requires 0 <= i < |members| => members[i].value)
    case _ => []
  }

  // ----- what is sent

  function Item(sender: bool, hasRetransmits: int, s: Stats): Json {
    Object([Member("id", Number(s.id)), Member("bytes", Number(if sender then s.sent else s.received)),
            Member("retransmits", Number(if sender && hasRetransmits != 0 then s.retrans else -1)),
            Member("jitter", Number(s.jitter)), Member("errors", Number(s.errors)), Member("packets", Number(s.packets))])
  }

  function Items(sender: bool, hasRetransmits: int, streams: seq<Stats>): (r: seq<Json>)
    ensures |r| == |streams| && forall i :: 0 <= i < |r| ==> r[i] == Item(sender, hasRetransmits, streams[i])
  {
    seq(|streams|, i requires 0 <= i < |streams| => Item(sender, hasRetransmits, streams[i]))
  }

  // ----- what is made of it

  /** The place of the first stream with this id. */
  function Find(streams: seq<Stats>, id: int): (k: nat)
    ensures k <= |streams| && (k < |streams| ==> streams[k].id == id)
    ensures forall i :: 0 <= i < k ==> streams[i].id != id
  {
    if streams == [] || streams[0].id == id then 0 else 1 + Find(streams[1..], id)
  }

  /** What an end takes from the other's figures: the sender all that the receiver counted, the receiver the rest. */
  function Takes(sender: bool, s: Stats, bytes: int, retrans: int, jitter: int, errors: int, packets: int): Stats {
    if sender then s.(jitter := jitter, errors := errors, packets := packets, received := bytes)
    else s.(sent := bytes, retrans := retrans)
  }

  /** One item of the array; None for one that lacks a figure or whose stream is not known. */
  function TakeItem(sender: bool, streams: seq<Stats>, item: Json): Option<seq<Stats>> {
    match (Field(item, "id"), Field(item, "bytes"), Field(item, "retransmits"), Field(item, "jitter"), Field(item, "errors"),
           Field(item, "packets"))
    case (Some(id), Some(bytes), Some(retrans), Some(jitter), Some(errors), Some(packets)) =>
      var k := Find(streams, id);
      if k == |streams| then None
      else Some(streams[k := Takes(sender, streams[k], bytes, retrans, jitter, errors, packets)])
    case _ => None
  }

  /** The items in order; those that are refused are passed over and make the result a failure. */
  function TakeItems(sender: bool, streams: seq<Stats>, items: seq<Json>): (seq<Stats>, bool) {
    if items == [] then (streams, true)
    else
      var (before, ok) := TakeItems(sender, streams, items[..|items| - 1]);
      match TakeItem(sender, before, items[|items| - 1])
      case None => (before, false)
      case Some(after) => (after, ok)
  }

  /** One end of a test. */
  class End {
    var sender: bool
    var hasRetransmits: int
    var cpuUtil: (int, int, int)
    var remoteCpuUtil: (int, int, int)
    var streams: seq<Stats>

    constructor (sender: bool)
      ensures this.sender == sender && streams == []
    {
      this.sender, hasRetransmits, cpuUtil, remoteCpuUtil, streams := sender, 0, (0, 0, 0), (0, 0, 0), [];
    }

    /** iperf_add_stream: the count starts at two and goes up once for each stream there is. */
    method AddStream(s: Stats)
      requires Numbered(streams)
      modifies this`streams
      ensures |streams| == |old(streams)| + 1 && streams[..|old(streams)|] == old(streams)
      ensures streams[|old(streams)|] == s.(id := IdAt(|old(streams)|)) && Numbered(streams)
    {
      if streams == [] {
        streams := [s.(id := 1)];
      } else {
        var i, n := 2, 0;
        while n < |streams|
          invariant n <= |streams| && i == n + 2
        {
          n := n + 1;
          i := i + 1;
        }
        streams := streams + [s.(id := i)];
      }
    }

    ghost function Report(): Json
      reads this
    {
      var h := if sender then hasRetransmits else -1;
      Object([Member("cpu_util_total", Number(cpuUtil.0)), Member("cpu_util_user", Number(cpuUtil.1)),
              Member("cpu_util_system", Number(cpuUtil.2)), Member("sender_has_retransmits", Number(h)),
              Member("streams", Array(Items(sender, hasRetransmits, streams)))])
    }

    /** send_results */
    method SendResults() returns (j: Json)
      ensures j == Report()
    {
      var h := if sender then hasRetransmits else -1;
      var items: seq<Json> := [];
      var i := 0;
      while i < |streams|
        invariant i <= |streams| && items == Items(sender, hasRetransmits, streams)[..i]
      {
        var s := streams[i];
        var bytes := if sender then s.sent else s.received;
        var retransmits := if sender && hasRetransmits != 0 then s.retrans else -1;
        var item := [Member("id", Number(s.id)), Member("bytes", Number(bytes)), Member("retransmits", Number(retransmits)),
                     Member("jitter", Number(s.jitter)), Member("errors", Number(s.errors)), Member("packets", Number(s.packets))];
        items := items + [Object(item)];
        i := i + 1;
      }
      assert items == Items(sender, hasRetransmits, streams);
      j := Object([Member("cpu_util_total", Number(cpuUtil.0)), Member("cpu_util_user", Number(cpuUtil.1)),
                   Member("cpu_util_system", Number(cpuUtil.2)), Member("sender_has_retransmits", Number(h)),
                   Member("streams", Array(items))]);
    }

    /** One item of get_results: the figures, the search for the stream, and the fields that are set. */
    method TakeStream(item: Json) returns (r: int)
      modifies this`streams
      ensures match TakeItem(sender, old(streams), item)
              case None => r == -1 && streams == old(streams)
              case Some(after) => r == 0 && streams == after
    {
      var id, bytes, retrans := Field(item, "id"), Field(item, "bytes"), Field(item, "retransmits");
      var jitter, errors, packets := Field(item, "jitter"), Field(item, "errors"), Field(item, "packets");
      if id == None || bytes == None || retrans == None || jitter == None || errors == None || packets == None {
        return -1;
      }
      var k := 0;
      while k < |streams| && streams[k].id != id.value
        invariant k <= Find(streams, id.value)
      {
        k := k + 1;
      }
      if k == |streams| {
        return -1;
      }
      streams := streams[k := Takes(sender, streams[k], bytes.value, retrans.value, jitter.value, errors.value, packets.value)];
      r := 0;
    }

    /** The loop of get_results over the items. */
    method TakeStreams(items: seq<Json>) returns (r: int)
      modifies this`streams
      ensures (streams, r == 0) == TakeItems(sender, old(streams), items)
      ensures r == 0 || r == -1
    {
      r := 0;
      var i := 0;
      assert items[..0] == [];
      while i < |items|
        invariant i <= |items| && (r == 0 || r == -1)
        invariant (streams, r == 0) == TakeItems(sender, old(streams), items[..i])
      {
        assert items[..i + 1][..i] == items[..i];
        var taken := TakeStream(items[i]);
        if taken < 0 {
          r := -1;
        }
        i := i + 1;
      }
      assert items[..|items|] == items;
    }

    /** get_results */
    method GetResults(j: Json) returns (r: int)
      modifies this`streams, this`hasRetransmits, this`remoteCpuUtil
      ensures var (total, user, system) := (Field(j, "cpu_util_total"), Field(j, "cpu_util_user"), Field(j, "cpu_util_system"));
        var h := Field(j, "sender_has_retransmits");
        if total == None || user == None || system == None || h == None then
          r == -1 && streams == old(streams) && hasRetransmits == old(hasRetransmits) && remoteCpuUtil == old(remoteCpuUtil)
        else
          && remoteCpuUtil == (total.value, user.value, system.value)
          && hasRetransmits == (if sender then old(hasRetransmits) else h.value)
          && match Get(j.members, "streams")
             case None => r == -1 && streams == old(streams)
             case Some(list) => (streams, r == 0) == TakeItems(sender, old(streams), Children(list))
    {
      var total, user, system := Field(j, "cpu_util_total"), Field(j, "cpu_util_user"), Field(j, "cpu_util_system");
      var h := Field(j, "sender_has_retransmits");
      if total == None || user == None || system == None || h == None {
        return -1;
      }
      remoteCpuUtil := (total.value, user.value, system.value);
      if !sender {
        hasRetransmits := h.value;
      }
      var list := Get(j.members, "streams");
      if list == None {
        return -1;
      }
      r := TakeStreams(Children(list.value));
    }
  }

  // ----- both ends agree

  lemma {:induction false} GetAt(ms: seq<Member>, k: nat, name: string)
    requires k < |ms| && JsonList.SameName(ms[k].name, name)
    requires forall i :: 0 <= i < k ==> !JsonList.SameName(ms[i].name, name)
    ensures Get(ms, name) == Some(ms[k].value)
  {
    if k > 0 {
      GetAt(ms[1..], k - 1, name);
    }
    hide JsonList.SameName;
  }

  /** Every figure of an item is found under its name. */
  lemma ItemFields(sender: bool, h: int, s: Stats)
    ensures var item := Item(sender, h, s);
      && Field(item, "id") == Some(s.id) && Field(item, "bytes") == Some(if sender then s.sent else s.received)
      && Field(item, "retransmits") == Some(if sender && h != 0 then s.retrans else -1)
      && Field(item, "jitter") == Some(s.jitter) && Field(item, "errors") == Some(s.errors)
      && Field(item, "packets") == Some(s.packets)
  {
    hide JsonList.SameName, Get;
    var ms := Item(sender, h, s).members;
    SixNames();
    GetAt(ms, 0, "id");
    GetAt(ms, 1, "bytes");
    GetAt(ms, 2, "retransmits");
    GetAt(ms, 3, "jitter");
    GetAt(ms, 4, "errors");
    GetAt(ms, 5, "packets");
  }

  lemma SixNames()
    ensures forall a, b | a in FIGURES && b in FIGURES :: JsonList.SameName(a, b) <==> a == b
  {
  }

  const FIGURES: set<string> := {"id", "bytes", "retransmits", "jitter", "errors", "packets"}

  /** The other end's stream at the same place has the same id, and is the one found. */
  lemma FindNumbered(streams: seq<Stats>, k: nat)
    requires Numbered(streams) && k < |streams|
    ensures Find(streams, IdAt(k)) == k
  {
  }

  /** A stream's figures when the other end's have been taken over. */
  ghost function TakenFrom(sender: bool, h: int, own: Stats, other: Stats): Stats {
    Takes(sender, own, if sender then other.received else other.sent, if !sender && h != 0 then other.retrans else -1,
          other.jitter, other.errors, other.packets)
  }

  /** What an end has when it has taken the first `n` items of the other's report. */
  ghost function Taken(sender: bool, h: int, own: seq<Stats>, other: seq<Stats>, n: nat): (r: seq<Stats>)
    requires n <= |own| == |other|
    ensures |r| == |own|
    ensures forall i :: 0 <= i < |own| ==> r[i] == if i < n then TakenFrom(sender, h, own[i], other[i]) else own[i]
  {
    seq(|own|, i requires 0 <= i < |own| => if i < n then TakenFrom(sender, h, own[i], other[i]) else own[i])
  }

  lemma TakeOne(sender: bool, h: int, streams: seq<Stats>, k: nat, other: Stats)
    requires Numbered(streams) && k < |streams| && other.id == IdAt(k)
    ensures TakeItem(sender, streams, Item(!sender, h, other)) == Some(streams[k := TakenFrom(sender, h, streams[k], other)])
  {
    ItemFields(!sender, h, other);
    FindNumbered(streams, k);
    hide Field, Item, Numbered, Takes;
  }

  lemma TakenKeepsIds(sender: bool, h: int, own: seq<Stats>, other: seq<Stats>, n: nat)
    requires n <= |own| == |other| && Numbered(own)
    ensures Numbered(Taken(sender, h, own, other, n))
  {
  }

  lemma {:induction false} TakesAll(sender: bool, h: int, own: seq<Stats>, other: seq<Stats>, n: nat)
    requires n <= |own| == |other| && Numbered(own) && Numbered(other)
    ensures TakeItems(sender, own, Items(!sender, h, other)[..n]) == (Taken(sender, h, own, other, n), true)
  {
    hide TakeItem, Takes, Item;
    var items := Items(!sender, h, other)[..n];
    var now := Taken(sender, h, own, other, n);
    if n == 0 {
      assert now == own;
    } else {
      assert items[..n - 1] == Items(!sender, h, other)[..n - 1] && items[n - 1] == Item(!sender, h, other[n - 1]);
      TakesAll(sender, h, own, other, n - 1);
      var before := Taken(sender, h, own, other, n - 1);
      TakenKeepsIds(sender, h, own, other, n - 1);
      TakeOne(sender, h, before, n - 1, other[n - 1]);
      assert before[n - 1 := TakenFrom(sender, h, before[n - 1], other[n - 1])] == now;
    }
  }

  /** The sender's own count of what it sent, and the receiver's of all else, are at both ends. */
  ghost predicate Agree(a: Stats, b: Stats, sent: Stats, got: Stats) {
    && a.id == b.id == sent.id == got.id && a.sent == b.sent == sent.sent && a.received == b.received == got.received
    && a.errors == b.errors == got.errors && a.packets == b.packets == got.packets && a.jitter == b.jitter == got.jitter
  }

  /** The retransmissions are the sender's own, and those the receiver learns of if the sender counts them. */
  ghost predicate Retransmitted(a: Stats, b: Stats, clientSends: bool, h: int, sent: Stats) {
    var (sender, receiver) := if clientSends then (a, b) else (b, a);
    sender.retrans == sent.retrans && receiver.retrans == if h != 0 then sent.retrans else -1
  }

  /**
   The exchange: the client reports first, the server takes that over and reports, the client takes that over.  With as
   many streams at both ends, in either direction of the test, both end up with the same figures for every stream.
   */
  lemma ExchangeAgrees(clientSends: bool, hc: int, hs: int, client: seq<Stats>, server: seq<Stats>)
    requires |client| == |server| && Numbered(client) && Numbered(server)
    ensures var (server', ok1) := TakeItems(!clientSends, server, Items(clientSends, hc, client));
      var (client', ok2) := TakeItems(clientSends, client, Items(!clientSends, hs, server'));
      && ok1 && ok2 && |client'| == |server'| == |client|
      && forall i :: 0 <= i < |client| ==>
           var (sent, got) := if clientSends then (client[i], server[i]) else (server[i], client[i]);
           && Agree(client'[i], server'[i], sent, got)
           && Retransmitted(client'[i], server'[i], clientSends, if clientSends then hc else hs, sent)
  {
    hide TakeItems, Item, Numbered;
    var n := |client|;
    var r1 := Items(clientSends, hc, client);
    assert r1[..n] == r1;
    TakesAll(!clientSends, hc, server, client, n);
    var server' := Taken(!clientSends, hc, server, client, n);
    assert Numbered(server') by { TakenKeepsIds(!clientSends, hc, server, client, n); }
    var r2 := Items(!clientSends, hs, server');
    assert r2[..n] == r2;
    TakesAll(clientSends, hs, client, server', n);
    var client' := Taken(clientSends, hs, client, server', n);
    forall i | 0 <= i < n
      ensures var (sent, got) := if clientSends then (client[i], server[i]) else (server[i], client[i]);
        && Agree(client'[i], server'[i], sent, got)
        && Retransmitted(client'[i], server'[i], clientSends, if clientSends then hc else hs, sent)
    {
      BothTaken(clientSends, hc, hs, client, server, i);
    }
  }

  /** A stream whose figures the server has taken over from the client, and then the client from the server. */
  lemma BothTaken(clientSends: bool, hc: int, hs: int, client: seq<Stats>, server: seq<Stats>, i: nat)
    requires i < |client| == |server| && Numbered(client) && Numbered(server)
    ensures var server' := Taken(!clientSends, hc, server, client, |client|);
      var client' := Taken(clientSends, hs, client, server', |client|);
      var (sent, got) := if clientSends then (client[i], server[i]) else (server[i], client[i]);
      && Agree(client'[i], server'[i], sent, got)
      && Retransmitted(client'[i], server'[i], clientSends, if clientSends then hc else hs, sent)
  {
    SameIds(client, server, i);
    hide Numbered;
  }

  lemma SameIds(a: seq<Stats>, b: seq<Stats>, i: nat)
    requires Numbered(a) && Numbered(b) && i < |a| && i < |b|
    ensures a[i].id == IdAt(i) == b[i].id
  {
  }

  /** No two streams of a test have the same id: n of them have the numbers from 1 to n + 1 but for 2. */
  lemma IdsDistinct(streams: seq<Stats>)
    requires Numbered(streams)
    ensures forall i, k :: 0 <= i < k < |streams| ==> streams[i].id != streams[k].id
    ensures forall id :: id in Ids(streams) <==> streams != [] && 1 <= id <= |streams| + 1 && id != 2
  {
    forall id | streams != [] && 1 <= id <= |streams| + 1 && id != 2
      ensures id in Ids(streams)
    {
      assert streams[if id == 1 then 0 else id - 2].id == id;
    }
  }

  ghost function Ids(streams: seq<Stats>): set<int> {
    set i | 0 <= i < |streams| :: streams[i].id
  }

  /** The five names of a report are told apart, so that each of its parts is found. */
  lemma ReportFields(ms: seq<Member>)
    requires |ms| == 5 && ms[0].name == "cpu_util_total" && ms[1].name == "cpu_util_user" && ms[2].name == "cpu_util_system"
    requires ms[3].name == "sender_has_retransmits" && ms[4].name == "streams"
    ensures Get(ms, "cpu_util_total") == Some(ms[0].value) && Get(ms, "cpu_util_user") == Some(ms[1].value)
    ensures Get(ms, "cpu_util_system") == Some(ms[2].value) && Get(ms, "sender_has_retransmits") == Some(ms[3].value)
    ensures Get(ms, "streams") == Some(ms[4].value)
  {
    hide JsonList.SameName, Get;
    FiveNames();
    GetAt(ms, 0, "cpu_util_total");
    GetAt(ms, 1, "cpu_util_user");
    GetAt(ms, 2, "cpu_util_system");
    GetAt(ms, 3, "sender_has_retransmits");
    GetAt(ms, 4, "streams");
  }

  lemma FiveNames()
    ensures forall a, b | a in TOTALS && b in TOTALS :: JsonList.SameName(a, b) <==> a == b
  {
  }

  const TOTALS: set<string> := {"cpu_util_total", "cpu_util_user", "cpu_util_system", "sender_has_retransmits", "streams"}

  /** An end takes over the other end's report whole. */
  method TakeReport(e: End, j: Json, ghost other: End, ghost figures: seq<Stats>, ghost h: int) returns (r: int)
    requires e != other && Numbered(e.streams) && Numbered(figures) && |e.streams| == |figures| && e.sender != other.sender
    requires j.Object? && |j.members| == 5 && ReportNames(j.members)
    requires j.members[4].value == Array(Items(other.sender, h, figures))
    requires ReportValues(j.members, other.cpuUtil, if other.sender then h else -1)
    modifies e`streams, e`hasRetransmits, e`remoteCpuUtil
    ensures e.remoteCpuUtil == other.cpuUtil && e.hasRetransmits == if e.sender then old(e.hasRetransmits) else h
    ensures r == 0 && e.sender == old(e.sender) && e.streams == Taken(e.sender, h, old(e.streams), figures, |figures|)
  {
    ReportFields(j.members);
    ghost var items := Items(other.sender, h, figures);
    assert items[..|figures|] == items;
    TakesAll(e.sender, h, e.streams, figures, |figures|);
    hide Get, Items, Taken, Numbered, TakeItems, Children;
    assert Children(j.members[4].value) == items by { ChildrenOf(items); }
    r := e.GetResults(j);
  }

  lemma ChildrenOf(items: seq<Json>)
    ensures Children(Array(items)) == items
  {
  }

  ghost predicate ReportValues(ms: seq<Member>, cpu: (int, int, int), h: int)
    requires |ms| == 5
  {
    && ms[0].value == Number(cpu.0) && ms[1].value == Number(cpu.1) && ms[2].value == Number(cpu.2)
    && ms[3].value == Number(h)
  }

  ghost predicate ReportNames(ms: seq<Member>)
    requires |ms| == 5
  {
    && ms[0].name == "cpu_util_total" && ms[1].name == "cpu_util_user" && ms[2].name == "cpu_util_system"
    && ms[3].name == "sender_has_retransmits" && ms[4].name == "streams"
  }

  /**
   iperf_exchange_results on both sides of one channel: the client's report goes to the server, and then the server's to
   the client.  Neither is refused, and both ends hold the same figures for every stream.
   */
  method Exchange(client: End, server: End) returns (atServer: int, atClient: int)
    requires client != server && client.sender != server.sender && |client.streams| == |server.streams|
    requires Numbered(client.streams) && Numbered(server.streams)
    modifies client, server
    ensures atServer == 0 && atClient == 0
    ensures |client.streams| == |server.streams| == |old(client.streams)|
    ensures forall i :: 0 <= i < |client.streams| ==>
      Agree(client.streams[i], server.streams[i],
            if client.sender then old(client.streams[i]) else old(server.streams[i]),
            if client.sender then old(server.streams[i]) else old(client.streams[i]))
    ensures forall i :: 0 <= i < |client.streams| ==>
      Retransmitted(client.streams[i], server.streams[i], client.sender,
                    if client.sender then old(client.hasRetransmits) else old(server.hasRetransmits),
                    if client.sender then old(client.streams[i]) else old(server.streams[i]))
    ensures client.hasRetransmits == server.hasRetransmits
         == if client.sender then old(client.hasRetransmits) else old(server.hasRetransmits)
    ensures client.remoteCpuUtil == server.cpuUtil == old(server.cpuUtil)
    ensures server.remoteCpuUtil == client.cpuUtil == old(client.cpuUtil)
    ensures client.sender == old(client.sender) && server.sender == old(server.sender)
  {
    hide Agree, Retransmitted, Numbered, Items, Takes;
    ghost var n := |client.streams|;
    ghost var c, s := client.streams, server.streams;
    ghost var hc, hs := client.hasRetransmits, server.hasRetransmits;
    var report := client.SendResults();
    atServer := TakeReport(server, report, client, c, hc);
    ghost var s1 := server.streams;
    TakenKeepsIds(server.sender, hc, s, c, n);
    ghost var hs1 := server.hasRetransmits;
    report := server.SendResults();
    atClient := TakeReport(client, report, server, s1, hs1);
    forall i | 0 <= i < n
      ensures Agree(client.streams[i], server.streams[i], if client.sender then c[i] else s[i], if client.sender then s[i] else c[i])
      ensures Retransmitted(client.streams[i], server.streams[i], client.sender, if client.sender then hc else hs,
                            if client.sender then c[i] else s[i])
    {
      BothTaken(client.sender, hc, hs1, c, s, i);
    }
  }

  /**
   Without an omitted period an end's counters are the bytes of its streams, and those no longer change when reports are
   made: so no stream is reported, at either end, to have received more than was sent on it.
   */
  lemma ReceivedAtMostSent(cfg: Config, cookie: nat, steps: seq<Step>, sent: seq<Stats>, got: seq<Stats>,
                           a: seq<Stats>, b: seq<Stats>)
    requires cfg.Valid() && ProtocolSafety.Reach(cfg, cookie, steps).Some?
    requires var s := ProtocolSafety.Reach(cfg, cookie, steps).value;
      && s.crecv >= 5 && |sent| == |got| == |a| == |b| == cfg.streams
      && forall k :: 0 <= k < cfg.streams ==> sent[k].sent == s.pipes[k].written && got[k].received == s.pipes[k].read
    requires forall k :: 0 <= k < cfg.streams ==> Agree(a[k], b[k], sent[k], got[k])
    ensures forall k :: 0 <= k < cfg.streams ==> a[k].received <= a[k].sent && b[k].received <= b[k].sent
  {
    hide ProtocolSafety.Reach;
    forall k | 0 <= k < cfg.streams
      ensures a[k].received <= a[k].sent && b[k].received <= b[k].sent
    {
      ProtocolSafety.ReportedBytes(cfg, cookie, steps, k);
    }
  }

  // ----- over the wire

  ghost predicate Figures(s: Stats) {
    && Int53(s.id) && Int53(s.sent) && Int53(s.received) && Int53(s.retrans) && Int53(s.jitter) && Int53(s.errors)
    && Int53(s.packets)
  }

  predicate Int53(n: int) {
    -0x20_0000_0000_0000 < n < 0x20_0000_0000_0000
  }

  lemma NamesNulFree()
    ensures forall a | a in FIGURES :: NulFree(a)
  {
  }

  lemma ItemPrintable(sender: bool, h: int, s: Stats)
    requires Figures(s)
    ensures Printable(Item(sender, h, s))
  {
    var ms := Item(sender, h, s).members;
    NamesNulFree();
    forall i | 0 <= i < |ms|
      ensures NulFree(ms[i].name) && Printable(ms[i].value)
    {
      assert ms[i].name in FIGURES;
    }
    hide NulFree;
  }

  /** A report is read as it was written, and no further, so that the other end takes what was sent. */
  lemma ReportArrives(e: End, rest: string)
    requires (forall s <- e.streams :: Figures(s)) && Int53(e.hasRetransmits)
    requires Int53(e.cpuUtil.0) && Int53(e.cpuUtil.1) && Int53(e.cpuUtil.2)
    ensures Printable(e.Report())
    ensures |Print(e.Report(), 0, false)| < Net.WORD ==>
      var input := Net.Frame(Print(e.Report(), 0, false)) + rest;
      && |input| >= 4 && |input| >= 4 + Net.Ntohl(input[..4])
      && Net.Unframe(input) == (JsonParse.Ok(e.Report(), ""), rest)
  {
    var items := Items(e.sender, e.hasRetransmits, e.streams);
    forall i | 0 <= i < |items|
      ensures Printable(items[i])
    {
      ItemPrintable(e.sender, e.hasRetransmits, e.streams[i]);
    }
    hide Item, Items;
    assert Printable(Array(items));
    ReportPrintable(e.Report().members, items);
    if |Print(e.Report(), 0, false)| < Net.WORD {
      Net.FrameRoundTrip(e.Report(), rest);
    }
    hide Printable, Print, Net.Frame, Net.Unframe, Net.Ntohl;
  }

  lemma ReportPrintable(ms: seq<Member>, items: seq<Json>)
    requires |ms| == 5 && Printable(Array(items)) && ms[4] == Member("streams", Array(items))
    requires ms[0].name == "cpu_util_total" && ms[1].name == "cpu_util_user" && ms[2].name == "cpu_util_system"
    requires ms[3].name == "sender_has_retransmits"
    requires forall i :: 0 <= i < 4 ==> ms[i].value.Number? && Int53(ms[i].value.valueint)
    ensures Printable(Object(ms))
  {
    TotalsNulFree();
    assert NulFree("streams");
    hide NulFree;
  }

  lemma TotalsNulFree()
    ensures NulFree("cpu_util_total") && NulFree("cpu_util_user") && NulFree("cpu_util_system")
    ensures NulFree("sender_has_retransmits")
  {
  }
}
