/**
 The sending and receiving loops of a test over its streams: pacing, the limits on bytes and blocks, and the totals.
 */
module Sending {
  import opened Streams
  import Net
  import UdpCount

  function Max(a: int, b: int): int {
    if a > b then a else b
  }

  ghost function Sum(ns: seq<nat>): nat {
    if ns == [] then 0 else ns[0] + Sum(ns[1..])
  }

  lemma {:induction false} SumUpdate(ns: seq<nat>, k: nat, n: nat)
    requires k < |ns|
    ensures Sum(ns[k := n]) == Sum(ns) - ns[k] + n
  {
    if k > 0 {
      SumUpdate(ns[1..], k - 1, n);
      assert ns[k := n][1..] == ns[1..][k - 1 := n];
    } else {
      assert ns[k := n][1..] == ns[1..];
    }
  }

  /** What each stream has sent, and has received. */
  ghost function Sents(ss: seq<Stream>): (r: seq<nat>)
    reads ss`sent
    ensures |r| == |ss| && forall i :: 0 <= i < |r| ==> r[i] == ss[i].sent
  {
    if ss == [] then [] else [ss[0].sent] + Sents(ss[1..])
  }

  ghost function Receiveds(ss: seq<Stream>): (r: seq<nat>)
    reads ss`received
    ensures |r| == |ss| && forall i :: 0 <= i < |r| ==> r[i] == ss[i].received
  {
    if ss == [] then [] else [ss[0].received] + Receiveds(ss[1..])
  }

  /** Which streams may be sent to. */
  ghost function Lights(ss: seq<Stream>): (r: seq<bool>)
    reads ss`green
    ensures |r| == |ss| && forall i :: 0 <= i < |r| ==> r[i] == ss[i].green
  {
    if ss == [] then [] else [ss[0].green] + Lights(ss[1..])
  }

  ghost predicate NoRepeats(ss: seq<Stream>) {
    forall i, j :: 0 <= i < j < |ss| ==> ss[i] != ss[j]
  }

  /** The intervals of a stream, the bytes of the one that has begun, and its beginning. */
  datatype Progress = Progress(intervals: seq<Interval>, bytes: nat, endTime: int)

  datatype Sent = Go | Break | Fail

  // ----- the counters of a call whose writes all take whole blocks

  datatype Counts = Counts(bytes: nat, blocks: nat)

  predicate Hit(c: Counts, limit: Counts) {
    (limit.bytes != 0 && c.bytes >= limit.bytes) || (limit.blocks != 0 && c.blocks >= limit.blocks)
  }

  function Block(c: Counts, blksize: nat): Counts {
    Counts(c.bytes + blksize, c.blocks + 1)
  }

  /** A round in which `k` streams still have their turn: at a limit all but the last round break off. */
  function RoundOf(c: Counts, k: nat, left: nat, blksize: nat, limit: Counts): Counts
    decreases k
  {
    if k == 0 then c
    else
      var next := Block(c, blksize);
      if left > 1 && Hit(next, limit) then next else RoundOf(next, k - 1, left, blksize, limit)
  }

  function CallOf(c: Counts, left: nat, streams: nat, blksize: nat, limit: Counts): Counts
    decreases left
  {
    if left == 0 then c else CallOf(RoundOf(c, streams, left, blksize, limit), left - 1, streams, blksize, limit)
  }

  lemma {:induction false} LastRound(c: Counts, k: nat, blksize: nat, limit: Counts)
    ensures RoundOf(c, k, 1, blksize, limit).bytes == c.bytes + k * blksize
    decreases k
  {
    if k > 0 {
      LastRound(Block(c, blksize), k - 1, blksize, limit);
      assert (k - 1) * blksize + blksize == k * blksize;
    }
  }

  /** The inner break leaves only the loop over the streams: at a limit each further round sends one more block. */
  lemma {:induction false} CallPastLimit(c: Counts, left: nat, streams: nat, blksize: nat, limit: Counts)
    requires left > 0 && streams > 0 && blksize > 0 && limit.bytes > 0 && limit.blocks == 0 && c.bytes >= limit.bytes - 1
    ensures CallOf(c, left, streams, blksize, limit).bytes == c.bytes + (left - 1 + streams) * blksize
    decreases left
  {
    if left == 1 {
      LastRound(c, streams, blksize, limit);
      assert CallOf(c, 1, streams, blksize, limit) == CallOf(RoundOf(c, streams, 1, blksize, limit), 0, streams, blksize, limit);
    } else {
      var next := Block(c, blksize);
      assert RoundOf(c, streams, left, blksize, limit) == next;
      CallPastLimit(next, left - 1, streams, blksize, limit);
      assert (left - 2 + streams) * blksize + blksize == (left - 1 + streams) * blksize;
    }
  }

  lemma {:induction false} RoundGrows(c: Counts, k: nat, left: nat, blksize: nat, limit: Counts)
    ensures RoundOf(c, k, left, blksize, limit).bytes >= c.bytes + (if k > 0 then blksize else 0)
    ensures RoundOf(c, k, left, blksize, limit).blocks >= c.blocks + (if k > 0 then 1 else 0)
    decreases k
  {
    if k > 0 {
      RoundGrows(Block(c, blksize), k - 1, left, blksize, limit);
    }
  }

  /** A call that nothing holds up sends at least one block. */
  lemma {:induction false} CallGrows(c: Counts, left: nat, streams: nat, blksize: nat, limit: Counts)
    ensures var more := if left > 0 && streams > 0 then 1 else 0;
      && CallOf(c, left, streams, blksize, limit).bytes >= c.bytes + more * blksize
      && CallOf(c, left, streams, blksize, limit).blocks >= c.blocks + more
    decreases left
  {
    if left > 0 {
      RoundGrows(c, streams, left, blksize, limit);
      CallGrows(RoundOf(c, streams, left, blksize, limit), left - 1, streams, blksize, limit);
    }
  }

  /** The bytes counted when a call ends that began with `b` bytes and `n` blocks, against a limit of `bytes`. */
  function EndsAt(b: nat, n: nat, left: nat, streams: nat, blksize: nat, bytes: nat): nat {
    CallOf(Counts(b, n), left, streams, blksize, Counts(bytes, 0)).bytes
  }

  /**
   How far a call overshoots a limit on bytes: a call that starts one byte short of it goes all the way to the bound, and
   so a call ends within a block of the limit, wherever it starts, if and only if it has one round and one stream.
   */
  lemma OvershootIff(left: nat, streams: nat, blksize: nat, bytes: nat, blocks: nat)
    requires left > 0 && streams > 0 && blksize > 0 && bytes > 0
    ensures EndsAt(bytes - 1, blocks, left, streams, blksize, bytes) == bytes - 1 + (left + streams - 1) * blksize
    ensures (forall b: nat, n: nat :: b < bytes ==> EndsAt(b, n, left, streams, blksize, bytes) < bytes + blksize)
         <==> left == 1 && streams == 1
  {
    CallPastLimit(Counts(bytes - 1, blocks), left, streams, blksize, Counts(bytes, 0));
    if left == 1 && streams == 1 {
      forall b: nat, n: nat | b < bytes
        ensures EndsAt(b, n, left, streams, blksize, bytes) < bytes + blksize
      {
        OneRound(Counts(b, n), blksize, Counts(bytes, 0));
      }
    } else {
      Twice(left + streams - 1, blksize);
      assert EndsAt(bytes - 1, blocks, left, streams, blksize, bytes) >= bytes + blksize;
    }
  }

  lemma OneRound(c: Counts, blksize: nat, limit: Counts)
    ensures CallOf(c, 1, 1, blksize, limit).bytes == c.bytes + blksize
  {
    LastRound(c, 1, blksize, limit);
    assert CallOf(c, 1, 1, blksize, limit) == CallOf(RoundOf(c, 1, 1, blksize, limit), 0, 1, blksize, limit);
  }

  lemma Twice(a: nat, b: nat)
    requires a >= 2
    ensures a * b >= 2 * b
  {
  }

  class Test {
    const sender: bool
    const rate: nat
    const burst: nat
    const bytes: nat
    const blocks: nat
    const blksize: nat
    const multisend: nat
    var streams: seq<Stream>
    var bytesSent: nat
    var blocksSent: nat
    var done: bool
    var now: int

    /** iperf_init_test and iperf_create_send_timers for `n` streams: they start now, and may all be sent to. */
    constructor (sender: bool, rate: nat, burst: nat, bytes: nat, blocks: nat, blksize: nat, multisend: nat, n: nat, now: int)
      ensures this.sender == sender && this.rate == rate && this.burst == burst && this.bytes == bytes
      ensures this.blocks == blocks && this.blksize == blksize && this.multisend == multisend && this.now == now
      ensures |streams| == n && fresh(streams) && !done && bytesSent == 0 && blocksSent == 0
      ensures Accounts() && Paced() && AllGreen()
    {
      this.sender, this.rate, this.burst, this.bytes, this.blocks := sender, rate, burst, bytes, blocks;
      this.blksize, this.multisend, this.now, done := blksize, multisend, now, false;
      streams, bytesSent, blocksSent := [], 0, 0;
      new;
      while |streams| < n
        invariant |streams| <= n && fresh(streams) && NoRepeats(streams)
        invariant forall i :: 0 <= i < |streams| ==> New(streams[i])
        modifies this`streams
      {
        var s := new Stream(sender, blksize, now);
        streams := streams + [s];
      }
      NewAccounts();
    }

    /** A stream that has just begun. */
    ghost predicate New(s: Stream)
      reads this, s
    {
      && s.Valid() && s.sender == sender && s.blksize == blksize && s.startTime == now && s.sent == 0 && s.received == 0
      && s.green
    }

    lemma NewAccounts()
      requires NoRepeats(streams) && (forall i :: 0 <= i < |streams| ==> New(streams[i])) && bytesSent == 0
      ensures Accounts() && Paced() && AllGreen()
    {
      SumsZero(streams);
      forall i | 0 <= i < |streams|
        ensures streams[i].Ahead(rate, Ahead(), 0, now)
      {
        assert New(streams[i]);
        NothingSent(rate, 0, blksize, Ahead());
        NothingSent(rate, 0, blksize, 0);
      }
    }

    ghost predicate AllGreen()
      reads `streams, streams`green
    {
      forall i :: 0 <= i < |streams| ==> streams[i].green
    }

    /** No stream may be sent to. */
    ghost predicate NoneGreen()
      reads `streams, streams`green
    {
      forall i :: 0 <= i < |streams| ==> !streams[i].green
    }

    function Count(): Counts
      reads this
    {
      Counts(bytesSent, blocksSent)
    }

    function Limit(): Counts {
      Counts(bytes, blocks)
    }

    /** Every stream is in order, and the total is theirs. */
    ghost predicate Accounts()
      reads this, streams
    {
      && NoRepeats(streams)
      && (forall s <- streams :: s.Valid() && s.sender == sender && s.blksize == blksize && s.startTime <= now)
      && bytesSent == Sum(if sender then Sents(streams) else Receiveds(streams))
    }

    /** The most blocks a stream may send in one call while its light is green. */
    function Ahead(): nat {
      if burst > 1 then burst else 1
    }

    /** Every stream is at most `slack` blocks ahead of the rate while its light is green, and never more than the most. */
    ghost predicate AllAhead(slack: nat)
      reads `streams, `now, streams`sent, streams`startTime, streams`green
    {
      rate != 0 ==> forall i :: 0 <= i < |streams| ==> streams[i].Ahead(rate, Ahead(), slack, now)
    }

    /** 8 * sent <= rate * elapsed + 8 * blksize * max(1, burst), in microseconds, for each stream. */
    ghost predicate Paced()
      reads `streams, `now, streams`sent, streams`startTime, streams`green
    {
      sender ==> AllAhead(0)
    }

    /** The rounds of a call of iperf_send. */
    function Rounds(): nat {
      if burst != 0 then burst else if rate == 0 then multisend else 1
    }

    method Advance(later: int, ghost slack: nat)
      requires Accounts() && (sender ==> AllAhead(slack)) && later >= now
      modifies this`now
      ensures now == later && Accounts() && (sender ==> AllAhead(slack))
      ensures old(Started()) || old(now) < now ==> Started()
    {
      hide Sum, Sents, Receiveds, Stream.Valid, Within;
      forall i | 0 <= i < |streams| && sender && rate != 0
        ensures var s := streams[i]; Within(rate, s.sent, later - s.startTime, blksize, Ahead())
        ensures var s := streams[i]; s.green ==> Within(rate, s.sent, later - s.startTime, blksize, slack)
      {
        var s := streams[i];
        assert s in streams;
        WithinMore(rate, s.sent, now - s.startTime, blksize, Ahead(), later - s.startTime, Ahead());
        if s.green {
          WithinMore(rate, s.sent, now - s.startTime, blksize, slack, later - s.startTime, slack);
        }
      }
      assert forall i :: 0 <= i < |streams| ==> streams[i] in streams;
      now := later;
    }

    /** The clock goes on, or has not moved. */
    method GetTimeOfDay(ghost slack: nat)
      requires Accounts() && (sender ==> AllAhead(slack))
      modifies this`now
      ensures now >= old(now) && Accounts() && (sender ==> AllAhead(slack)) && (old(Started()) ==> Started())
    {
      hide Accounts, AllAhead, Started;
      var later: int := *;
      if later > now {
        Advance(later, slack);
      }
    }

    /** The clock has moved since each stream's start, so that the checks do not divide by zero. */
    ghost predicate Started()
      reads `streams, `now, streams`startTime
    {
      forall i :: 0 <= i < |streams| ==> streams[i].startTime < now
    }

    /** The slack of a stream after a block: none when each block is followed by a check on a clock that has moved. */
    function Next(slack: nat, timed: bool): nat {
      if burst == 0 && timed then 0 else slack + 1
    }

    /** The limits of the test, which end a round that is not the last. */
    predicate Reached()
      reads this
    {
      (bytes != 0 && bytesSent >= bytes) || (blocks != 0 && blocksSent >= blocks)
    }

    /** Less was sent on the stream than the rate allows by a time. */
    ghost predicate Slow(s: Stream, at: int)
      reads s`sent, s`startTime
    {
      8 * s.sent * MICRO < rate * Distance(s.startTime, at)
    }

    /** A block is sent and counted. */
    method Transmit(s: Stream, ghost k: nat, whole: bool) returns (n: int)
      requires Accounts() && sender && k < |streams| && s == streams[k]
      modifies this`bytesSent, this`blocksSent, s`sent, s`sentThisInterval
      ensures Accounts() && n <= blksize && (whole ==> n == blksize)
      ensures n < 0 ==> s.sent == old(s.sent) && bytesSent == old(bytesSent) && blocksSent == old(blocksSent)
      ensures n >= 0 ==> s.sent == old(s.sent) + n && bytesSent == old(bytesSent) + n && blocksSent == old(blocksSent) + 1
    {
      hide Sum, Sents;
      ghost var sents := Sents(streams);
      n := s.Send(whole);
      assert forall i :: 0 <= i < |streams| && i != k ==> streams[i] != s;
      SumUpdate(sents, k, s.sent);
      assert Sents(streams) == sents[k := s.sent];
      if n >= 0 {
        bytesSent := bytesSent + n;
        blocksSent := blocksSent + 1;
      }
    }

    /** The check after a block keeps the stream's bound, and tightens it. */
    method CheckSent(s: Stream, ghost slack: nat, ghost before: nat, ghost timed: bool)
      requires Accounts() && sender && !done && s in streams && rate != 0 && (timed ==> s.startTime < now)
      requires before <= s.sent <= before + blksize && slack < Ahead()
      requires Within(rate, before, now - s.startTime, blksize, slack)
      modifies s`green
      ensures Accounts() && s.Ahead(rate, Ahead(), Next(slack, timed), now)
      ensures if burst != 0 then s.green == old(s.green) else s.startTime != now ==> s.green == Slow(s, now)
    {
      Sends(s, slack, before);
      hide Within, Sum, Sents, Receiveds, Stream.Valid;
      if burst == 0 {
        s.CheckThrottle(rate, done, now);
      }
    }

    /** The body of the loop over the streams in iperf_send, for a stream that may be sent to. */
    method SendOne(s: Stream, ghost k: nat, left: nat, whole: bool, ghost slack: nat, ghost timed: bool) returns (r: Sent)
      requires Accounts() && sender && !done && k < |streams| && s == streams[k] && (burst == 0 && timed ==> slack == 0)
      requires rate != 0 ==> (timed ==> s.startTime < now) && s.green && slack < Ahead() && s.Ahead(rate, Ahead(), slack, now)
      modifies this`bytesSent, this`blocksSent, s`sent, s`sentThisInterval, s`green
      ensures Accounts()
      ensures rate != 0 ==> s.Ahead(rate, Ahead(), Next(slack, timed), now)
      ensures old(bytesSent) <= bytesSent <= old(bytesSent) + blksize && old(blocksSent) <= blocksSent <= old(blocksSent) + 1
      ensures r == Go && left > 1 ==> !Reached()
      ensures rate == 0 || burst != 0 ==> s.green == old(s.green)
      ensures old(s.sent) <= s.sent <= old(s.sent) + blksize && (s.green ==> old(s.green) || burst == 0)
      ensures whole ==> s.sent == old(s.sent) + blksize
      ensures whole && rate != 0 && burst == 0 && s.startTime != now ==> s.green == Slow(s, now)
      ensures whole ==> Count() == Block(old(Count()), blksize) && r == if left > 1 && Reached() then Break else Go
    {
      hide Sum, Sents, Receiveds, Stream.Valid, Within;
      assert s in streams;
      ghost var before := s.sent;
      var n := Transmit(s, k, whole);
      if n < 0 {
        if rate != 0 {
          AheadMore(s, slack, timed);
        }
        return if n == Net.NET_SOFTERROR then Break else Fail;
      }
      if rate != 0 {
        CheckSent(s, slack, before, timed);
      }
      r := if left > 1 && Reached() then Break else Go;
    }

    /** Streams before `k` have had their turn in a round. */
    ghost predicate Upto(k: nat, slack: nat, timed: bool)
      reads this, streams
    {
      rate != 0 ==>
        forall i :: 0 <= i < |streams| ==> streams[i].Ahead(rate, Ahead(), if i < k then Next(slack, timed) else slack, now)
    }

    lemma UptoNone(slack: nat, timed: bool)
      requires AllAhead(slack)
      ensures Upto(0, slack, timed)
    {
    }

    lemma UptoAll(k: nat, slack: nat, timed: bool)
      requires Accounts() && Upto(k, slack, timed) && (burst == 0 && timed ==> slack == 0)
      ensures AllAhead(Next(slack, timed))
    {
      if rate != 0 {
        forall i | 0 <= i < |streams|
          ensures streams[i].Ahead(rate, Ahead(), Next(slack, timed), now)
        {
          if i >= k {
            assert streams[i] in streams;
            AheadMore(streams[i], slack, timed);
          }
        }
      }
    }

    /**
     What a round makes of a stream, by what it had sent and its light before, and by whether it has had its turn: one that
     is not ready, or may not be sent to, is left alone; another sends at most a block, and that when the network takes it;
     and with a rate, but no burst, its light is set by a check.
     */
    ghost predicate Served(turn: bool, ready: bool, whole: bool, timed: bool, sent: nat, light: bool, s: Stream)
      reads `now, s`sent, s`green, s`startTime
    {
      && sent <= s.sent <= sent + blksize
      && (!turn || !ready || !light ==> s.sent == sent && s.green == light)
      && (turn && ready && light && whole ==>
            s.sent == sent + blksize && (rate != 0 && burst == 0 && timed ==> s.green == Slow(s, now)))
      && (rate == 0 || burst != 0 ==> s.green == light)
    }

    /** Each stream when the first `k` of them have had their turn in a round. */
    ghost predicate ServedUpto(k: nat, ready: seq<bool>, whole: bool, timed: bool, sents: seq<nat>, lights: seq<bool>)
      requires |ready| == |sents| == |lights| == |streams|
      reads `streams, `now, streams`sent, streams`green, streams`startTime
    {
      forall i :: 0 <= i < |streams| ==> Served(i < k, ready[i], whole, timed, sents[i], lights[i], streams[i])
    }

    /** Stream `k` has its turn. */
    method Turn(k: nat, ready: bool, left: nat, whole: bool, ghost slack: nat, ghost timed: bool) returns (r: Sent)
      requires Accounts() && sender && !done && k < |streams| && (timed ==> Started()) && Upto(k, slack, timed)
      requires (rate != 0 ==> slack < Ahead()) && (burst == 0 && timed ==> slack == 0)
      modifies this`bytesSent, this`blocksSent, streams`sent, streams`sentThisInterval, streams`green
      ensures Accounts() && (timed ==> Started()) && Upto(k + 1, slack, timed)
      ensures old(bytesSent) <= bytesSent <= old(bytesSent) + blksize && old(blocksSent) <= blocksSent <= old(blocksSent) + 1
      ensures r == Go && left > 1 ==> (bytesSent == old(bytesSent) && blocksSent == old(blocksSent)) || !Reached()
      ensures forall i :: 0 <= i < |streams| && i != k ==>
                streams[i].sent == old(streams[i].sent) && streams[i].green == old(streams[i].green)
      ensures Served(true, ready, whole, timed, old(streams[k].sent), old(streams[k].green), streams[k])
      ensures whole && (left == 1 || Limit() == Counts(0, 0)) ==> r == Go
      ensures rate == 0 && old(AllGreen()) ==> AllGreen()
      ensures old(NoneGreen()) ==> NoneGreen() && Count() == old(Count())
      ensures whole && ready && old(AllGreen()) ==>
                Count() == Block(old(Count()), blksize) && r == if left > 1 && Reached() then Break else Go
    {
      hide Within, Sum, Sents, Receiveds, Stream.Valid;
      var s := streams[k];
      if s.green && ready {
        r := SendOne(s, k, left, whole, slack, timed);
      } else {
        r := Go;
        if rate != 0 {
          AheadMore(s, slack, timed);
        }
      }
      assert forall i :: 0 <= i < |streams| && i != k ==> streams[i] != s;
    }

    /** The turn of stream `k` in a round. */
    method TurnUpto(k: nat, ready: seq<bool>, left: nat, whole: bool, ghost slack: nat, ghost timed: bool,
                    ghost sents: seq<nat>, ghost lights: seq<bool>)
      returns (r: Sent)
      requires Accounts() && sender && !done && k < |streams| && (timed ==> Started()) && Upto(k, slack, timed)
      requires (rate != 0 ==> slack < Ahead()) && (burst == 0 && timed ==> slack == 0)
      requires |ready| == |sents| == |lights| == |streams| && ServedUpto(k, ready, whole, timed, sents, lights)
      modifies this`bytesSent, this`blocksSent, streams`sent, streams`sentThisInterval, streams`green
      ensures Accounts() && (timed ==> Started()) && Upto(k + 1, slack, timed)
      ensures ServedUpto(k + 1, ready, whole, timed, sents, lights)
      ensures old(bytesSent) <= bytesSent <= old(bytesSent) + blksize && old(blocksSent) <= blocksSent <= old(blocksSent) + 1
      ensures r == Go && left > 1 ==> (bytesSent == old(bytesSent) && blocksSent == old(blocksSent)) || !Reached()
      ensures whole && (left == 1 || Limit() == Counts(0, 0)) ==> r == Go
      ensures rate == 0 && old(AllGreen()) ==> AllGreen()
      ensures old(NoneGreen()) ==> NoneGreen() && Count() == old(Count())
      ensures whole && ready[k] && old(AllGreen()) ==>
                Count() == Block(old(Count()), blksize) && r == if left > 1 && Reached() then Break else Go
    {
      hide Accounts, Started, Upto, AllGreen, NoneGreen;
      assert Served(false, ready[k], whole, timed, sents[k], lights[k], streams[k]);
      r := Turn(k, ready[k], left, whole, slack, timed);
      assert forall i :: 0 <= i < |streams| && i != k ==> Slow(streams[i], now) == old(Slow(streams[i], now));
    }

    /** What decides how many blocks a call sends, when neither the network nor the pace holds a stream up. */
    ghost predicate Unhindered(ready: seq<bool>, whole: bool)
      reads this, streams
    {
      whole && rate == 0 && AllGreen() && forall i :: 0 <= i < |ready| ==> ready[i]
    }

    /** One round of iperf_send over the streams; `left` rounds are left, with this one. */
    method SendRound(ready: seq<bool>, left: nat, whole: bool, ghost slack: nat, ghost timed: bool)
      returns (ok: bool, ghost turns: nat)
      requires Accounts() && sender && !done && |ready| == |streams| && left > 0 && (timed ==> Started())
      requires AllAhead(slack) && (rate != 0 ==> slack < Ahead()) && (burst == 0 && timed ==> slack == 0)
      modifies this`bytesSent, this`blocksSent, streams`sent, streams`sentThisInterval, streams`green
      ensures Accounts() && AllAhead(Next(slack, timed)) && (timed ==> Started())
      ensures old(bytesSent) <= bytesSent <= old(bytesSent) + |streams| * blksize
      ensures old(blocksSent) <= blocksSent <= old(blocksSent) + |streams|
      ensures turns <= |streams| && ServedUpto(turns, ready, whole, timed, old(Sents(streams)), old(Lights(streams)))
      ensures whole && (left == 1 || Limit() == Counts(0, 0)) ==> ok && turns == |streams|
      ensures old(Unhindered(ready, whole)) ==> turns == blocksSent - old(blocksSent)
      ensures left > 1 && bytes != 0 ==> bytesSent <= Max(old(bytesSent), bytes - 1) + blksize
      ensures left > 1 && blocks != 0 ==> blocksSent <= Max(old(blocksSent), blocks - 1) + 1
      ensures old(Unhindered(ready, whole)) ==>
                ok && Unhindered(ready, whole) && Count() == RoundOf(old(Count()), |streams|, left, blksize, Limit())
      ensures old(NoneGreen()) ==> NoneGreen() && Count() == old(Count())
    {
      hide Accounts, Upto, Started, AllAhead, AllGreen, NoneGreen, ServedUpto, Sents, Lights, Sum, Cap;
      var k := 0;
      ok := true;
      UptoNone(slack, timed);
      ghost var sents, lights := Sents(streams), Lights(streams);
      ServedNone(ready, whole, timed);
      while k < |streams|
        invariant k <= |streams| && Accounts() && Upto(k, slack, timed) && (timed ==> Started()) && ok
        invariant old(bytesSent) <= bytesSent <= old(bytesSent) + k * blksize
        invariant old(blocksSent) <= blocksSent <= old(blocksSent) + k
        invariant left > 1 ==> (bytesSent == old(bytesSent) && blocksSent == old(blocksSent)) || !Reached()
        invariant ServedUpto(k, ready, whole, timed, sents, lights)
        invariant old(Unhindered(ready, whole)) ==> blocksSent == old(blocksSent) + k
        invariant old(NoneGreen()) ==> NoneGreen() && Count() == old(Count())
        invariant old(Unhindered(ready, whole)) ==> Unhindered(ready, whole)
        invariant old(Unhindered(ready, whole)) ==>
                    RoundOf(old(Count()), |streams|, left, blksize, Limit()) == RoundOf(Count(), |streams| - k, left, blksize, Limit())
      {
        var r := TurnUpto(k, ready, left, whole, slack, timed, sents, lights);
        assert (k + 1) * blksize == k * blksize + blksize;
        k := k + 1;
        if r != Go {
          ok := r != Fail;
          break;
        }
      }
      turns := k;
      UptoAll(k, slack, timed);
      AtMost(k, |streams|, blksize);
    }

    lemma ServedNone(ready: seq<bool>, whole: bool, timed: bool)
      requires |ready| == |streams|
      ensures ServedUpto(0, ready, whole, timed, Sents(streams), Lights(streams))
    {
    }

    /** Streams before `k` have been checked. */
    ghost predicate Checked(k: nat, slack: nat, timed: bool)
      reads this, streams
    {
      rate != 0 ==>
        forall i :: 0 <= i < |streams| ==> streams[i].Ahead(rate, Ahead(), if i < k && timed then 0 else slack, now)
    }

    /** The lights of the first `k` streams are set by what was sent until now. */
    ghost predicate SetUpto(k: nat)
      reads `streams, `now, streams`sent, streams`green, streams`startTime
    {
      forall i :: 0 <= i < |streams| && i < k ==> streams[i].green == Slow(streams[i], now)
    }

    /** Without a rate no check leaves a light green. */
    lemma AllRed()
      requires rate == 0 && SetUpto(|streams|)
      ensures NoneGreen()
    {
    }

    lemma CheckedEnds(slack: nat, timed: bool)
      ensures AllAhead(slack) ==> Checked(0, slack, timed)
      ensures Checked(|streams|, slack, timed) ==> AllAhead(if timed then 0 else slack)
    {
    }

    method CheckOne(k: nat, ghost slack: nat, ghost timed: bool)
      requires Accounts() && sender && !done && (timed ==> Started()) && burst != 0 && k < |streams| && Checked(k, slack, timed)
      requires slack == Ahead()
      modifies streams`green
      ensures Accounts() && (timed ==> Started()) && Checked(k + 1, slack, timed)
      ensures timed && old(SetUpto(k)) ==> SetUpto(k + 1)
    {
      hide Within, Sum, Sents, Receiveds, Stream.Valid;
      var s := streams[k];
      s.CheckThrottle(rate, done, now);
      assert forall i :: 0 <= i < |streams| && i != k ==> streams[i] != s;
    }

    /** The checks at the end of a call with bursts. */
    method CheckAll(ghost slack: nat, ghost timed: bool)
      requires Accounts() && sender && !done && (timed ==> Started()) && burst != 0 && AllAhead(slack) && slack == Ahead()
      modifies streams`green
      ensures Accounts() && AllAhead(if timed then 0 else slack) && (timed ==> Started())
      ensures timed ==> SetUpto(|streams|)
      ensures rate == 0 && timed ==> NoneGreen()
    {
      hide Accounts, Checked, Started, AllAhead, SetUpto, NoneGreen;
      assert SetUpto(0) by { NoneSet(); }
      var k := 0;
      CheckedEnds(slack, timed);
      while k < |streams|
        invariant k <= |streams| && Accounts() && (timed ==> Started()) && Checked(k, slack, timed)
        invariant timed ==> SetUpto(k)
      {
        CheckOne(k, slack, timed);
        k := k + 1;
      }
      CheckedEnds(slack, timed);
      if rate == 0 && timed {
        AllRed();
      }
    }

    lemma NoneSet()
      ensures SetUpto(0)
    {
    }

    /** The most a counter can be after `n` more units when it may not start one at its limit. */
    ghost function Cap(limit: nat, before: nat, n: int, unit: nat): int {
      Max(before, limit - 1) + n * unit
    }

    lemma CapRound(limit: nat, before: nat, n: nat, unit: nat, now: int, next: int, streams: nat)
      requires now <= Cap(limit, before, n, unit)
      ensures next <= Max(now, limit - 1) + unit ==> next <= Cap(limit, before, n + 1, unit)
      ensures next <= now + streams * unit ==> next <= Cap(limit, before, n + streams, unit)
    {
      assert (n + 1) * unit == n * unit + unit && (n + streams) * unit == n * unit + streams * unit;
    }

    lemma CapMore(limit: nat, before: nat, n: nat, more: nat, unit: nat)
      requires n <= more
      ensures Cap(limit, before, n, unit) <= Cap(limit, before, more, unit)
    {
      AtMost(n, more, unit);
    }

    /** The limits after the rounds so far. */
    ghost predicate Limited(left: nat, bytesBefore: nat, blocksBefore: nat)
      reads this
      requires left <= Rounds()
    {
      var n := if left > 0 then Rounds() - left else Rounds() + |streams| - 1;
      && (bytes != 0 ==> bytesSent <= Cap(bytes, bytesBefore, n, blksize))
      && (blocks != 0 ==> blocksSent <= Cap(blocks, blocksBefore, n, 1))
    }

    /** What the first `m` rounds of a call have sent on a stream, by what it had sent and its light before the call. */
    ghost predicate CallSends(m: nat, ready: bool, whole: bool, sent: nat, light: bool, s: Stream)
      reads s`sent
    {
      && sent <= s.sent <= sent + m * blksize
      && (!ready || !light ==> s.sent == sent)
      && (whole && Limit() == Counts(0, 0) && ready && light ==> s.sent == sent + m * blksize)
    }

    /** What they have made of its light. */
    ghost predicate CallLights(m: nat, ready: bool, whole: bool, timed: bool, light: bool, s: Stream)
      reads `now, s`sent, s`green, s`startTime
    {
      && (m == 0 || !ready || !light || rate == 0 || burst != 0 ==> s.green == light)
      && (m > 0 && whole && Limit() == Counts(0, 0) && ready && light && rate != 0 && burst == 0 && timed ==> s.green == Slow(s, now))
    }

    ghost predicate CallUpto(m: nat, ready: seq<bool>, whole: bool, timed: bool, sents: seq<nat>, lights: seq<bool>)
      requires |ready| == |sents| == |lights| == |streams|
      reads `streams, `now, streams`sent, streams`green, streams`startTime
    {
      forall i :: 0 <= i < |streams| ==>
        CallSends(m, ready[i], whole, sents[i], lights[i], streams[i]) && CallLights(m, ready[i], whole, timed, lights[i], streams[i])
    }

    /** A round takes a stream one round further. */
    lemma CallGoesOn(m: nat, turn: bool, ready: bool, whole: bool, timed: bool, sent: nat, light: bool, sent1: nat, light1: bool, s: Stream)
      requires m < Rounds() && Served(turn, ready, whole, timed, sent1, light1, s)
      requires whole && Limit() == Counts(0, 0) ==> turn
      requires sent <= sent1 <= sent + m * blksize && (!ready || !light ==> sent1 == sent)
      requires whole && Limit() == Counts(0, 0) && ready && light ==> sent1 == sent + m * blksize
      requires !ready || !light || rate == 0 || burst != 0 || m == 0 ==> light1 == light
      ensures CallSends(m + 1, ready, whole, sent, light, s) && CallLights(m + 1, ready, whole, timed, light, s)
    {
      assert (m + 1) * blksize == m * blksize + blksize;
      hide Slow;
    }

    /** The body of the outer loop of iperf_send. */
    method SendOnce(ready: seq<bool>, left: nat, whole: bool, ghost slack: nat, ghost timed: bool,
                    ghost bytesBefore: nat, ghost blocksBefore: nat)
      returns (ok: bool, ghost turns: nat)
      requires Accounts() && sender && !done && |ready| == |streams| > 0 && 0 < left <= Rounds() && (timed ==> Started())
      requires slack == (if burst == 0 && timed then 0 else Rounds() - left)
      requires AllAhead(slack) && Limited(left, bytesBefore, blocksBefore)
      modifies this`now, this`bytesSent, this`blocksSent, streams`sent, streams`sentThisInterval, streams`green
      ensures Accounts() && AllAhead(Next(slack, timed)) && (timed ==> Started())
      ensures Limited(left - 1, bytesBefore, blocksBefore)
      ensures turns <= |streams| && ServedUpto(turns, ready, whole, timed, old(Sents(streams)), old(Lights(streams)))
      ensures whole && (left == 1 || Limit() == Counts(0, 0)) ==> ok && turns == |streams|
      ensures old(Unhindered(ready, whole)) ==>
                ok && Unhindered(ready, whole) && Count() == RoundOf(old(Count()), |streams|, left, blksize, Limit())
      ensures old(NoneGreen()) ==> NoneGreen() && Count() == old(Count())
    {
      hide Accounts, Started, AllAhead, Cap, AllGreen, NoneGreen, ServedUpto, Sents, Lights, Sum, RoundOf;
      if rate != 0 && burst == 0 {
        GetTimeOfDay(slack);
      }
      ghost var n, b, k := Rounds() - left, bytesSent, blocksSent;
      ok, turns := SendRound(ready, left, whole, slack, timed);
      if bytes != 0 {
        CapRound(bytes, bytesBefore, n, blksize, b, bytesSent, |streams|);
      }
      if blocks != 0 {
        CapRound(blocks, blocksBefore, n, 1, k, blocksSent, |streams|);
      }
    }

    /** A round, and what the rounds so far come to. */
    method SendUpto(ready: seq<bool>, left: nat, whole: bool, ghost slack: nat, ghost timed: bool,
                    ghost bytesBefore: nat, ghost blocksBefore: nat, ghost sents: seq<nat>, ghost lights: seq<bool>)
      returns (ok: bool)
      requires Accounts() && sender && !done && |ready| == |streams| > 0 && 0 < left <= Rounds() && (timed ==> Started())
      requires slack == (if burst == 0 && timed then 0 else Rounds() - left)
      requires AllAhead(slack) && Limited(left, bytesBefore, blocksBefore)
      requires |sents| == |lights| == |streams| && CallUpto(Rounds() - left, ready, whole, timed, sents, lights)
      modifies this`now, this`bytesSent, this`blocksSent, streams`sent, streams`sentThisInterval, streams`green
      ensures Accounts() && AllAhead(Next(slack, timed)) && (timed ==> Started())
      ensures Limited(left - 1, bytesBefore, blocksBefore)
      ensures CallUpto(Rounds() - left + 1, ready, whole, timed, sents, lights)
      ensures whole && Limit() == Counts(0, 0) ==> ok
      ensures old(Unhindered(ready, whole)) ==>
                ok && Unhindered(ready, whole) && Count() == RoundOf(old(Count()), |streams|, left, blksize, Limit())
      ensures old(NoneGreen()) ==> NoneGreen() && Count() == old(Count())
    {
      hide Accounts, Started, AllAhead, AllGreen, NoneGreen, Limited, Sents, Lights, Slow, RoundOf, Sum;
      ghost var m, before, lit := Rounds() - left, Sents(streams), Lights(streams);
      assert forall i :: 0 <= i < |streams| ==>
        CallSends(m, ready[i], whole, sents[i], lights[i], streams[i]) && CallLights(m, ready[i], whole, timed, lights[i], streams[i]);
      ghost var turns: nat;
      ok, turns := SendOnce(ready, left, whole, slack, timed, bytesBefore, blocksBefore);
      forall i | 0 <= i < |streams|
        ensures CallSends(m + 1, ready[i], whole, sents[i], lights[i], streams[i])
        ensures CallLights(m + 1, ready[i], whole, timed, lights[i], streams[i])
      {
        assert Served(i < turns, ready[i], whole, timed, before[i], lit[i], streams[i]);
        CallGoesOn(m, i < turns, ready[i], whole, timed, sents[i], lights[i], before[i], lit[i], streams[i]);
      }
    }

    lemma CallBegins(ready: seq<bool>, whole: bool, timed: bool)
      requires |ready| == |streams|
      ensures CallUpto(0, ready, whole, timed, Sents(streams), Lights(streams))
    {
    }

    /** A call that ended early was held up, so that less is said of it. */
    lemma CallEnds(m: nat, ready: seq<bool>, whole: bool, timed: bool, sents: seq<nat>, lights: seq<bool>)
      requires |ready| == |sents| == |lights| == |streams| && CallUpto(m, ready, whole, timed, sents, lights)
      requires m <= Rounds() && (whole && Limit() == Counts(0, 0) ==> m == Rounds())
      ensures CallUpto(Rounds(), ready, whole, timed, sents, lights)
    {
      AtMost(m, Rounds(), blksize);
      hide Slow;
      forall i | 0 <= i < |streams|
        ensures CallSends(Rounds(), ready[i], whole, sents[i], lights[i], streams[i])
        ensures CallLights(Rounds(), ready[i], whole, timed, lights[i], streams[i])
      {
        assert CallSends(m, ready[i], whole, sents[i], lights[i], streams[i]);
        assert CallLights(m, ready[i], whole, timed, lights[i], streams[i]);
      }
    }

    lemma Unlimited(bytesBefore: nat, blocksBefore: nat)
      requires bytesBefore == bytesSent && blocksBefore == blocksSent && |streams| > 0
      ensures Limited(Rounds(), bytesBefore, blocksBefore)
    {
      CapMore(bytes, bytesBefore, 0, |streams| - 1, blksize);
      CapMore(blocks, blocksBefore, 0, |streams| - 1, 1);
    }

    /** No stream is further ahead of the rate than it may be. */
    ghost predicate WithinBound()
      reads this, streams
    {
      rate != 0 ==> forall i :: 0 <= i < |streams| ==>
        var s := streams[i]; Within(rate, s.sent, now - s.startTime, blksize, Max(1, burst))
    }

    lemma AheadBound(slack: nat)
      requires Accounts() && AllAhead(slack)
      ensures WithinBound()
    {
      hide Within;
      assert forall i :: 0 <= i < |streams| ==> streams[i] in streams;
    }

    /** The rounds of a call of iperf_send. */
    method SendRounds(ready: seq<bool>, whole: bool, ghost timed: bool, ghost sents: seq<nat>, ghost lights: seq<bool>)
      returns (ok: bool, ghost slack: nat)
      requires Accounts() && Paced() && sender && !done && |ready| == |streams| > 0 && timed == Started()
      requires sents == Sents(streams) && lights == Lights(streams)
      modifies this`now, this`bytesSent, this`blocksSent, streams`sent, streams`sentThisInterval, streams`green
      ensures Accounts() && AllAhead(slack) && (timed ==> Started())
      ensures (burst == 0 && timed ==> slack == 0) && (burst != 0 && ok ==> slack == Ahead())
      ensures bytes != 0 && old(bytesSent) < bytes ==> bytesSent < bytes + (Rounds() + |streams| - 1) * blksize
      ensures blocks != 0 && old(blocksSent) < blocks ==> blocksSent < blocks + (Rounds() + |streams| - 1)
      ensures CallUpto(Rounds(), ready, whole, timed, sents, lights) && (whole && Limit() == Counts(0, 0) ==> ok)
      ensures old(NoneGreen()) ==> NoneGreen() && Count() == old(Count())
      ensures old(Unhindered(ready, whole)) ==>
                ok && AllGreen() && Count() == CallOf(old(Count()), Rounds(), |streams|, blksize, Limit())
    {
      hide Accounts, AllAhead, Started, Limited, AllGreen, NoneGreen, CallUpto, Sents, Lights;
      var left := Rounds();
      slack, ok := 0, true;
      CallBegins(ready, whole, timed);
      Unlimited(bytesSent, blocksSent);
      while left > 0 && ok
        invariant 0 <= left <= Rounds() && slack == (if burst == 0 && timed then 0 else Rounds() - left)
        invariant Accounts() && AllAhead(slack) && (timed ==> Started()) && Limited(left, old(bytesSent), old(blocksSent))
        invariant CallUpto(Rounds() - left, ready, whole, timed, sents, lights) && (whole && Limit() == Counts(0, 0) ==> ok)
        invariant old(NoneGreen()) ==> NoneGreen() && Count() == old(Count())
        invariant old(Unhindered(ready, whole)) ==> ok && Unhindered(ready, whole)
        invariant old(Unhindered(ready, whole)) ==>
                    CallOf(old(Count()), Rounds(), |streams|, blksize, Limit()) == CallOf(Count(), left, |streams|, blksize, Limit())
        decreases left, ok
      {
        ok := SendUpto(ready, left, whole, slack, timed, old(bytesSent), old(blocksSent), sents, lights);
        slack := Next(slack, timed);
        left := left - 1;
      }
      CallEnds(Rounds() - left, ready, whole, timed, sents, lights);
      LimitsHold(left, old(bytesSent), old(blocksSent));
    }

    /**
     iperf_send, on a sender whose test goes on: no stream gets further ahead of the rate than a burst, and a limit on
     bytes or blocks that had not been reached is passed by less than a block for each round and each further stream.
     Each stream that is ready, and may be sent to, sends a block in each round if the network takes them and there is no
     limit, and no other stream sends.
     That the lights are set for the next call takes a clock that has moved since the streams' start.
     */
    method Send(ready: seq<bool>, whole: bool) returns (ok: bool)
      requires Accounts() && Paced() && sender && !done && |ready| == |streams| > 0
      modifies this`now, this`bytesSent, this`blocksSent, streams`sent, streams`sentThisInterval, streams`green
      ensures Accounts() && WithinBound() && (ok && old(Started()) ==> Paced()) && (old(Started()) ==> Started())
      ensures Rounds() == if burst != 0 then burst else if rate == 0 then multisend else 1
      ensures bytes != 0 && old(bytesSent) < bytes ==> bytesSent < bytes + (Rounds() + |streams| - 1) * blksize
      ensures blocks != 0 && old(blocksSent) < blocks ==> blocksSent < blocks + (Rounds() + |streams| - 1)
      ensures old(Unhindered(ready, whole)) ==> ok && Count() == CallOf(old(Count()), Rounds(), |streams|, blksize, Limit())
      ensures forall i :: 0 <= i < |streams| ==>
                CallSends(Rounds(), ready[i], whole, old(streams[i].sent), old(streams[i].green), streams[i])
      ensures burst == 0 || !ok ==> forall i :: 0 <= i < |streams| ==>
                CallLights(Rounds(), ready[i], whole, old(Started()), old(streams[i].green), streams[i])
      ensures burst != 0 && ok && old(Started()) ==> forall i :: 0 <= i < |streams| ==> streams[i].green == Slow(streams[i], now)
      ensures whole && Limit() == Counts(0, 0) ==> ok
      ensures burst == 0 && old(Unhindered(ready, whole)) ==> AllGreen()
      ensures burst != 0 && rate == 0 && ok && old(Started()) ==> NoneGreen()
      ensures rate == 0 && old(NoneGreen()) && old(Started()) ==> NoneGreen() && Count() == old(Count())
    {
      hide Accounts, AllAhead, Started, WithinBound, AllGreen, NoneGreen, Sents, Lights, Slow, CallSends, CallLights;
      ghost var timed, sents, lights := Started(), Sents(streams), Lights(streams);
      ghost var slack: nat;
      ok, slack := SendRounds(ready, whole, timed, sents, lights);
      AheadBound(slack);
      if ok && burst != 0 {
        GetTimeOfDay(slack);
        CheckAll(slack, timed);
        AheadBound(if timed then 0 else slack);
      }
    }

    lemma LimitsHold(left: nat, bytesBefore: nat, blocksBefore: nat)
      requires left <= Rounds() && |streams| > 0 && Limited(left, bytesBefore, blocksBefore)
      ensures bytes != 0 && bytesBefore < bytes ==> bytesSent < bytes + (Rounds() + |streams| - 1) * blksize
      ensures blocks != 0 && blocksBefore < blocks ==> blocksSent < blocks + (Rounds() + |streams| - 1)
    {
      var n := Rounds() + |streams| - 1;
      if left > 0 {
        CapMore(bytes, bytesBefore, Rounds() - left, n, blksize);
        CapMore(blocks, blocksBefore, Rounds() - left, n, 1);
      }
    }

    lemma AtMost(a: nat, b: nat, c: nat)
      requires a <= b
      ensures a * c <= b * c
    {
    }

    lemma AheadMore(s: Stream, slack: nat, timed: bool)
      requires s.blksize == blksize && s.Ahead(rate, Ahead(), slack, now) && (burst == 0 && timed ==> slack == 0)
      ensures s.Ahead(rate, Ahead(), Next(slack, timed), now)
    {
      if s.green {
        WithinMore(rate, s.sent, now - s.startTime, blksize, slack, now - s.startTime, Next(slack, timed));
      }
    }

    lemma Sends(s: Stream, slack: nat, before: nat)
      requires s.blksize == blksize && before <= s.sent <= before + blksize && slack < Ahead()
      requires Within(rate, before, now - s.startTime, blksize, slack)
      ensures Within(rate, s.sent, now - s.startTime, blksize, slack + 1)
      ensures Within(rate, s.sent, now - s.startTime, blksize, Ahead())
    {
      WithinBlock(rate, before, now - s.startTime, blksize, slack, s.sent - before);
      WithinMore(rate, s.sent, now - s.startTime, blksize, slack + 1, now - s.startTime, Ahead());
    }
  
    /** Time passes: the clock shows a later microsecond. */
    method Wait()
      requires Accounts() && Paced() && sender
      modifies this`now
      ensures Accounts() && Paced() && Started()
    {
      hide Accounts, AllAhead, Started;
      var later: int :| later > now;
      Advance(later, 0);
    }

    /** How far the counters may be beyond the limits of the test. */
    ghost predicate Overshoot()
      reads this
    {
      && (bytes != 0 ==> bytesSent < bytes + (Rounds() + |streams| - 1) * blksize)
      && (blocks != 0 ==> blocksSent < blocks + (Rounds() + |streams| - 1))
    }

    /** A stream's light can be set from a time `at`: it is later than the stream's start, or nothing was sent since. */
    ghost predicate Settable(at: int)
      reads `streams, streams`sent, streams`startTime
    {
      forall i :: 0 <= i < |streams| ==> streams[i].startTime < at || streams[i].sent == 0
    }

    /** send_timer_proc, with the time `at` that tmr_run was given. */
    method SendTimer(k: nat, at: int)
      requires Accounts() && Paced() && k < |streams| && at <= now && Settable(at)
      modifies streams`green
      ensures Accounts() && Paced()
      ensures forall i :: 0 <= i < |streams| && i != k ==> streams[i].green == old(streams[i].green)
      ensures if done then streams[k].green == old(streams[k].green)
              else at != streams[k].startTime ==> streams[k].green == Slow(streams[k], at)
    {
      hide Within, Sum, Sents, Receiveds, Stream.Valid;
      var s := streams[k];
      assert s in streams;
      s.CheckThrottle(rate, done, at);
      if s.sent == 0 {
        NothingSent(rate, now - s.startTime, blksize, 0);
      } else if !done && s.green {
        WithinMore(rate, s.sent, at - s.startTime, blksize, 0, now - s.startTime, 0);
      }
      assert forall i :: 0 <= i < |streams| && i != k ==> streams[i] != s;
    }

    /** The callback of one timer: the end of an omitted period, the statistics, or a check of a light. */
    method RunTimer(at: int, omitting: bool) returns (still: bool)
      requires Accounts() && Paced() && |streams| > 0 && at <= now && Settable(at)
      modifies this`now, this`bytesSent, this`blocksSent, streams
      ensures Accounts() && Paced() && at <= now && Settable(at) && (still ==> omitting)
      ensures still == omitting ==> Count() == old(Count()) && (old(Started()) ==> Started())
      ensures still != omitting ==> Count() == Counts(0, 0)
      ensures rate == 0 ==> (old(AllGreen()) ==> AllGreen()) && (old(NoneGreen()) ==> NoneGreen())
    {
      hide Accounts, AllAhead, Settable, AllGreen, NoneGreen, Started;
      still := omitting;
      var what: nat := *;
      if what == 0 && omitting {
        still := false;
        GetTimeOfDay(0);
        ResetStats();
        ResetSettable(at);
      } else if what == 1 {
        GatherStats();
      } else if rate != 0 {
        SendTimer(what % |streams|, at);
      }
    }

    /**
     tmr_run, given the time `at`, with any timers due: the checks of the lights, the statistics, and while a period is
     omitted the timer that ends it, which resets the statistics as of the clock's own time.
     */
    method RunTimers(at: int, omitting: bool) returns (still: bool)
      requires Accounts() && Paced() && |streams| > 0 && at == now && Settable(at)
      modifies this`now, this`bytesSent, this`blocksSent, streams
      ensures Accounts() && Paced() && (still ==> omitting)
      ensures still == omitting ==> Count() == old(Count()) && (old(Started()) ==> Started())
      ensures still != omitting ==> Count() == Counts(0, 0)
      ensures rate == 0 ==> (old(AllGreen()) ==> AllGreen()) && (old(NoneGreen()) ==> NoneGreen())
    {
      hide Accounts, AllAhead, Settable, AllGreen, NoneGreen, Started;
      still := omitting;
      var due: nat := *;
      while due > 0
        invariant Accounts() && Paced() && |streams| > 0 && at <= now && Settable(at) && (still ==> omitting)
        invariant still == omitting ==> Count() == old(Count()) && (old(Started()) ==> Started())
        invariant still != omitting ==> Count() == Counts(0, 0)
        invariant rate == 0 ==> (old(AllGreen()) ==> AllGreen()) && (old(NoneGreen()) ==> NoneGreen())
      {
        still := RunTimer(at, still);
        due := due - 1;
      }
    }

    lemma ResetSettable(at: int)
      requires forall i :: 0 <= i < |streams| ==> streams[i].sent == 0
      ensures Settable(at)
    {
    }

    lemma StartedSettable()
      requires Started()
      ensures Settable(now)
    {
    }

    /** The counters so far and a block for each turn come to a limit. */
    ghost predicate Enough(turns: nat)
      reads this
    {
      (bytes != 0 && bytesSent + turns * blksize >= bytes) || (blocks != 0 && blocksSent + turns >= blocks)
    }

    /** All streams are ready in a turn, and nothing paces them. */
    ghost predicate Free(ready: seq<bool>, whole: bool) {
      whole && rate == 0 && burst == 0 && multisend > 0 && forall k :: 0 <= k < |ready| ==> ready[k]
    }

    /** One turn of the loop of a client that sends; the clock has moved since the streams' start, or their restart. */
    method ServeTurn(ready: seq<bool>, whole: bool, restarted: bool, omitting: bool) returns (ok: bool, still: bool)
      requires Accounts() && Paced() && sender && !done && (!restarted ==> Started()) && (omitting || !Reached())
      requires |ready| == |streams| > 0
      modifies this`now, this`bytesSent, this`blocksSent, streams
      ensures Accounts() && WithinBound() && (still ==> omitting)
      ensures ok ==> Paced() && (still == omitting ==> Started()) && (!still ==> Overshoot())
      ensures Free(ready, whole) && old(AllGreen()) ==> ok && AllGreen()
      ensures Free(ready, whole) && old(AllGreen()) && still == omitting ==>
                bytesSent >= old(bytesSent) + blksize && blocksSent >= old(blocksSent) + 1
      ensures rate == 0 && old(NoneGreen()) ==>
                NoneGreen() && Count() == if still == omitting then old(Count()) else Counts(0, 0)
    {
      hide Accounts, AllAhead, Started, WithinBound, AllGreen, NoneGreen, Within, CallOf;
      TellTime(restarted);
      CallGrows(Count(), Rounds(), |streams|, blksize, Limit());
      still := omitting;
      ok := Send(ready, whole);
      if !ok {
        return;
      }
      assert omitting || Overshoot();
      hide Overshoot, Reached;
      still := Expire(omitting);
      AheadBound(0);
      if still != omitting {
        NoOvershoot();
      }
    }

    /** The clock at the beginning of a turn. */
    method TellTime(restarted: bool)
      requires Accounts() && Paced() && sender && (!restarted ==> Started())
      modifies this`now
      ensures Accounts() && Paced() && Started()
    {
      hide Accounts, AllAhead, Started;
      if restarted {
        Wait();
      } else {
        GetTimeOfDay(0);
      }
    }

    lemma NoOvershoot()
      requires Count() == Counts(0, 0) && |streams| > 0
      ensures Overshoot()
    {
      assert (Rounds() + |streams| - 1) * blksize >= 0;
    }

    /** The timers run, or the timeout of select has not passed. */
    method Expire(omitting: bool) returns (still: bool)
      requires Accounts() && Paced() && sender && |streams| > 0 && Started()
      modifies this`now, this`bytesSent, this`blocksSent, streams
      ensures Accounts() && Paced() && (still ==> omitting)
      ensures still == omitting ==> Count() == old(Count()) && Started()
      ensures still != omitting ==> Count() == Counts(0, 0)
      ensures rate == 0 ==> (old(AllGreen()) ==> AllGreen()) && (old(NoneGreen()) ==> NoneGreen())
    {
      hide Accounts, AllAhead, Started, AllGreen, NoneGreen, Settable;
      still := omitting;
      var expired: bool := *;
      if expired {
        GetTimeOfDay(0);
        StartedSettable();
        still := RunTimers(now, omitting);
      }
    }

    /**
     The loop of a client that sends: in each turn the streams that are ready are served, the timers may run, and outside
     an omitted period a limit that is reached ends the test.  Unpaced, it ends after so many turns; without a rate, and no
     stream that may be sent to, it never does.
     */
    method SendLoop(turns: seq<seq<bool>>, whole: bool, omit: bool) returns (ended: bool)
      requires Accounts() && Paced() && sender && !done && (omit || !Reached())
      requires |streams| > 0 && forall i :: 0 <= i < |turns| ==> |turns[i]| == |streams|
      modifies this`now, this`bytesSent, this`blocksSent, streams
      ensures Accounts() && WithinBound()
      ensures ended ==> Reached() && Overshoot()
      ensures !omit && old(AllGreen()) && old(Enough(|turns|)) && (forall i :: 0 <= i < |turns| ==> Free(turns[i], whole)) ==> ended
      ensures rate == 0 && old(NoneGreen()) ==> !ended && NoneGreen() && (Count() == old(Count()) || (omit && Count() == Counts(0, 0)))
    {
      hide Accounts, AllAhead, Started, WithinBound, AllGreen, NoneGreen, Overshoot;
      var omitting, restarted := omit, true;
      var i := 0;
      ended := false;
      AheadBound(0);
      while i < |turns| && !ended
        invariant i <= |turns| && Accounts() && AllAhead(0) && WithinBound() && (!restarted ==> Started()) && (omitting ==> omit)
        invariant ended ==> Reached() && Overshoot()
        invariant !ended && !omitting ==> !Reached()
        invariant !omit && old(AllGreen()) && (forall j :: 0 <= j < |turns| ==> Free(turns[j], whole)) ==>
                    AllGreen() && bytesSent >= old(bytesSent) + i * blksize && blocksSent >= old(blocksSent) + i
        invariant rate == 0 && old(NoneGreen()) ==>
                    NoneGreen() && !ended && Count() == if omitting == omit then old(Count()) else Counts(0, 0)
      {
        var ok, still := ServeTurn(turns[i], whole, restarted, omitting);
        if !ok {
          return;
        }
        restarted := still != omitting;
        omitting := still;
        ended := !omitting && Reached();
        assert (i + 1) * blksize == i * blksize + blksize;
        i := i + 1;
      }
    }

    /**
     A burst without a rate, as `-b 0/10` asks for: the checks at the end of the first call turn every light red, and no
     timer turns one green again.  The test ends if and only if that call reaches a limit, however many turns follow.
     */
    method BurstLoop(first: seq<bool>, turns: seq<seq<bool>>, whole: bool) returns (ok: bool, ghost reached: bool, ended: bool)
      requires Accounts() && Paced() && sender && !done && !Reached() && burst != 0 && rate == 0
      requires |first| == |streams| > 0 && forall i :: 0 <= i < |turns| ==> |turns[i]| == |streams|
      modifies this`now, this`bytesSent, this`blocksSent, streams
      ensures ok ==> (ended <==> reached) && (ended <==> Reached()) && NoneGreen()
      ensures whole && old(AllGreen()) && (forall k :: 0 <= k < |first| ==> first[k]) ==>
                ok && (ended <==> Hit(CallOf(old(Count()), burst, |streams|, blksize, Limit()), Limit()))
    {
      hide Accounts, AllAhead, Started, WithinBound, AllGreen, NoneGreen, CallOf;
      Wait();
      ok := Send(first, whole);
      ended, reached := Reached(), Reached();
      if ok && !ended {
        ended := SendLoop(turns, whole, false);
      }
    }

    // ----- receiving, resetting, gathering

    /** One stream of iperf_recv; with `whole` a block has arrived. */
    method ReceiveOne(s: Stream, ghost k: nat, whole: bool) returns (n: int)
      requires Accounts() && !sender && k < |streams| && s == streams[k]
      modifies this`bytesSent, this`blocksSent, s`received, s`receivedThisInterval
      ensures Accounts() && n <= blksize && (whole ==> n == blksize)
      ensures bytesSent == old(bytesSent) + (if n < 0 then 0 else n) && blocksSent == old(blocksSent) + (if n < 0 then 0 else 1)
      ensures s.received == old(s.received) + (if n < 0 then 0 else n)
    {
      hide Sum, Receiveds;
      ghost var receiveds := Receiveds(streams);
      n := s.Receive(whole);
      assert forall i :: 0 <= i < |streams| && i != k ==> streams[i] != s;
      SumUpdate(receiveds, k, s.received);
      assert Receiveds(streams) == receiveds[k := s.received];
      if n >= 0 {
        bytesSent := bytesSent + n;
        blocksSent := blocksSent + 1;
      }
    }

    /** What the first `k` streams' turns in iperf_recv have received: only ready ones do, at most a block each. */
    ghost predicate ReceivedUpto(k: nat, ready: seq<bool>, whole: bool, receiveds: seq<nat>)
      requires |ready| == |receiveds| == |streams|
      reads `streams, streams`received
    {
      forall i :: 0 <= i < |streams| ==>
        && receiveds[i] <= streams[i].received <= receiveds[i] + blksize
        && (i >= k || !ready[i] ==> streams[i].received == receiveds[i])
        && (i < k && ready[i] && whole ==> streams[i].received == receiveds[i] + blksize)
    }

    /** The turn of stream `k` in iperf_recv. */
    method ReceiveUpto(k: nat, ready: seq<bool>, whole: bool, ghost receiveds: seq<nat>) returns (n: int)
      requires Accounts() && !sender && k < |streams| && |ready| == |receiveds| == |streams|
      requires ReceivedUpto(k, ready, whole, receiveds)
      modifies this`bytesSent, this`blocksSent, streams`received, streams`receivedThisInterval
      ensures Accounts() && ReceivedUpto(k + 1, ready, whole, receiveds) && (whole ==> n >= 0)
      ensures blocksSent == old(blocksSent) + (if ready[k] && n >= 0 then 1 else 0)
    {
      hide Sum, Receiveds, Sents, Stream.Valid;
      n := 0;
      assert forall i :: 0 <= i < |streams| && i != k ==> streams[i] != streams[k];
      if ready[k] {
        n := ReceiveOne(streams[k], k, whole);
      }
    }

    function Ones(ready: seq<bool>): nat {
      if ready == [] then 0 else Ones(ready[..|ready| - 1]) + (if ready[|ready| - 1] then 1 else 0)
    }

    /**
     iperf_recv: each stream that is ready receives a block, if one has arrived, until a read fails; no other does.  The total
     of the receiver, too, is that of its streams.
     */
    method Receive(ready: seq<bool>, whole: bool) returns (r: int, ghost turns: nat)
      requires Accounts() && !sender && |ready| == |streams|
      modifies this`bytesSent, this`blocksSent, streams`received, streams`receivedThisInterval
      ensures Accounts() && turns <= |streams| && ReceivedUpto(turns, ready, whole, old(Receiveds(streams)))
      ensures (r >= 0 ==> r == 0 && turns == |streams| && blocksSent == old(blocksSent) + Ones(ready)) && (whole ==> r == 0)
    {
      hide Accounts, ReceivedUpto, Receiveds;
      ghost var receiveds := Receiveds(streams);
      NoneReceived(ready, whole);
      r := 0;
      var k := 0;
      while k < |streams|
        invariant k <= |streams| && Accounts() && ReceivedUpto(k, ready, whole, receiveds)
        invariant blocksSent == old(blocksSent) + Ones(ready[..k])
      {
        var n := ReceiveUpto(k, ready, whole, receiveds);
        assert ready[..k + 1][..k] == ready[..k];
        k := k + 1;
        if n < 0 {
          return n, k;
        }
      }
      assert ready[..k] == ready;
      turns := k;
    }

    lemma NoneReceived(ready: seq<bool>, whole: bool)
      requires |ready| == |streams|
      ensures ReceivedUpto(0, ready, whole, Receiveds(streams))
    {
    }

    ghost function AllCounters(): (r: seq<UdpCount.Counters>)
      reads streams, this
      ensures |r| == |streams| && forall i :: 0 <= i < |r| ==> r[i] == streams[i].counters
    {
      seq(|streams|, i requires 0 <= i < |streams| reads streams, this => streams[i].counters)
    }

    /** Streams before `k` have been reset, those from `k` on have not. */
    ghost predicate ResetUpto(k: nat, was: seq<UdpCount.Counters>)
      reads `streams, `now, streams
    {
      && NoRepeats(streams) && |was| == |streams|
      && forall i :: 0 <= i < |streams| ==> ResetIf(streams[i], i < k, was[i])
    }

    ghost predicate ResetIf(s: Stream, yes: bool, was: UdpCount.Counters)
      reads `now, s
    {
      && s.Valid() && s.sender == sender && s.blksize == blksize
      && (if yes then s.counters == UdpCount.Forget(was) && s.startTime == now && s.sent == 0 && s.received == 0 && s.jitter == 0.0
          else s.counters == was)
    }

    method ResetOne(k: nat, ghost was: seq<UdpCount.Counters>)
      requires k < |streams| && ResetUpto(k, was)
      modifies streams`counters, streams`jitter, streams`sent, streams`received, streams`sentThisInterval,
               streams`receivedThisInterval, streams`startTime, streams`mark
      ensures ResetUpto(k + 1, was)
    {
      var s := streams[k];
      assert ResetIf(s, false, was[k]);
      s.ResetStats(now);
      assert ResetIf(s, true, was[k]);
      hide UdpCount.Forget;
    }

    lemma ResetOf(s: Stream, was: seq<UdpCount.Counters>)
      requires ResetUpto(|streams|, was) && s in streams
      ensures s.Valid() && s.sender == sender && s.blksize == blksize && s.startTime == now && s.sent == 0 && s.received == 0
    {
      var i :| 0 <= i < |streams| && streams[i] == s;
      assert ResetIf(streams[i], true, was[i]);
    }

    lemma ResetAccounts(was: seq<UdpCount.Counters>)
      requires ResetUpto(|streams|, was) && bytesSent == 0
      ensures Accounts()
    {
      assert NoRepeats(streams);
      hide ResetUpto;
      forall s | s in streams
        ensures s.Valid() && s.sender == sender && s.blksize == blksize && s.startTime <= now && s.sent == 0 && s.received == 0
      {
        ResetOf(s, was);
      }
      SumsZero(streams);
    }

    lemma ResetPaced(was: seq<UdpCount.Counters>)
      requires ResetUpto(|streams|, was)
      ensures Paced()
    {
      hide ResetUpto;
      forall i | 0 <= i < |streams|
        ensures streams[i].Ahead(rate, Ahead(), 0, now)
      {
        var s := streams[i];
        ResetOf(s, was);
        assert rate * (now - s.startTime) == 0 && blksize * Ahead() >= 0 && blksize * 0 == 0;
      }
    }

    lemma ResetCounters(was: seq<UdpCount.Counters>)
      requires ResetUpto(|streams|, was)
      ensures forall i :: 0 <= i < |streams| ==> streams[i].sent == 0 && streams[i].counters == UdpCount.Forget(was[i])
    {
      assert forall i :: 0 <= i < |streams| ==> ResetIf(streams[i], true, was[i]);
      hide UdpCount.Forget;
    }

    method ResetStreams(ghost was: seq<UdpCount.Counters>)
      requires ResetUpto(0, was)
      modifies streams`counters, streams`jitter, streams`sent, streams`received, streams`sentThisInterval,
               streams`receivedThisInterval, streams`startTime, streams`mark
      ensures ResetUpto(|streams|, was)
    {
      hide ResetUpto;
      var k := 0;
      while k < |streams|
        invariant k <= |streams| && ResetUpto(k, was)
      {
        ResetOne(k, was);
        k := k + 1;
      }
    }

    lemma ResetBegins()
      requires Accounts()
      ensures ResetUpto(0, AllCounters())
    {
      hide Sum, Sents, Receiveds, Stream.Valid;
      assert forall i :: 0 <= i < |streams| ==> streams[i] in streams;
    }

    /** iperf_reset_stats: all counts start again from now, and pacing with them. */
    method ResetStats()
      requires Accounts() && Paced()
      modifies this`bytesSent, this`blocksSent, streams`counters, streams`jitter, streams`sent, streams`received, streams`sentThisInterval,
               streams`receivedThisInterval, streams`startTime, streams`mark
      ensures Accounts() && Paced() && bytesSent == 0 && blocksSent == 0
      ensures forall i :: 0 <= i < |streams| ==> streams[i].sent == 0 && streams[i].counters == UdpCount.Forget(old(AllCounters())[i])
    {
      hide Accounts, Paced, ResetUpto, AllCounters, UdpCount.Forget;
      ghost var was := AllCounters();
      ResetBegins();
      ResetStreams(was);
      bytesSent, blocksSent := 0, 0;
      ResetAccounts(was);
      ResetPaced(was);
      ResetCounters(was);
    }

    lemma SumsZero(ss: seq<Stream>)
      requires forall s <- ss :: s.sent == 0 && s.received == 0
      ensures Sum(Sents(ss)) == 0 && Sum(Receiveds(ss)) == 0
    {
      assert forall i :: 0 <= i < |ss| ==> ss[i] in ss;
      AllZero(Sents(ss));
      AllZero(Receiveds(ss));
    }

    lemma AllZero(ns: seq<nat>)
      requires forall i :: 0 <= i < |ns| ==> ns[i] == 0
      ensures Sum(ns) == 0
    {
    }

    /** A stream's intervals, and the one that has begun. */
    ghost function AllProgress(): (r: seq<Progress>)
      reads streams, this
      ensures |r| == |streams|
      ensures forall i :: 0 <= i < |r| ==> r[i] == Progress(streams[i].intervals, streams[i].ThisInterval(), streams[i].endTime)
    {
      seq(|streams|, i requires 0 <= i < |streams| reads streams, this =>
        Progress(streams[i].intervals, streams[i].ThisInterval(), streams[i].endTime))
    }

    /** Streams before `k` have one interval more than before, up to now, and have begun another. */
    ghost predicate GatheredUpto(k: nat, was: seq<Progress>)
      reads this, streams
    {
      |was| == |streams| && forall i :: 0 <= i < |streams| ==> GatheredIf(streams[i], i < k, was[i])
    }

    ghost predicate GatheredIf(s: Stream, yes: bool, was: Progress)
      reads `now, s
    {
      if yes then
        var start := if was.intervals == [] then s.startTime else was.endTime;
        && s.intervals == was.intervals + [NextInterval(was.intervals, was.bytes, start, now, s.counters)]
        && s.ThisInterval() == 0 && s.endTime == now
      else s.intervals == was.intervals && s.ThisInterval() == was.bytes && s.endTime == was.endTime
    }

    method GatherFrom(s: Stream, ghost was: Progress)
      requires s.Valid() && GatheredIf(s, false, was)
      modifies s`intervals, s`endTime, s`sentThisInterval, s`receivedThisInterval
      ensures s.Valid() && GatheredIf(s, true, was)
    {
      hide NextInterval, Stream.Valid;
      s.GatherStats(now);
    }

    method GatherOne(k: nat, ghost was: seq<Progress>)
      requires Accounts() && k < |streams| && GatheredUpto(k, was)
      modifies streams`intervals, streams`endTime, streams`sentThisInterval, streams`receivedThisInterval
      ensures Accounts() && GatheredUpto(k + 1, was)
    {
      hide Sum, Sents, Receiveds, NextInterval, Stream.Valid;
      var s := streams[k];
      assert s in streams && GatheredIf(s, false, was[k]);
      GatherFrom(s, was[k]);
      assert forall i :: 0 <= i < |streams| && i != k ==> streams[i] != s;
    }

    /** iperf_stats_callback: each stream records an interval, and begins the next. */
    method GatherStats()
      requires Accounts()
      modifies streams`intervals, streams`endTime, streams`sentThisInterval, streams`receivedThisInterval
      ensures Accounts() && GatheredUpto(|streams|, old(AllProgress())) && (old(Paced()) ==> Paced())
    {
      ghost var was := AllProgress();
      assert GatheredUpto(0, was);
      hide Accounts, GatheredUpto, AllProgress, Paced;
      var k := 0;
      while k < |streams|
        invariant k <= |streams| && Accounts() && GatheredUpto(k, was)
      {
        GatherOne(k, was);
        k := k + 1;
      }
    }
  }
}
