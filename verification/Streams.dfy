/**
 A stream of a test: its byte counters, the light that paces it, its UDP counters and its list of intervals.
 */
module Streams {
  import opened UdpCount
  import Net

  const MICRO: int := 1000000

  // ----- intervals

  /** What iperf_stats_callback records; the counts of the interval, and the counters themselves at its end. */
  datatype Interval = Interval(bytes: nat, start: int, end: int, packets: int, outOfOrder: int, errors: int, counters: Counters)

  function SumBytes(list: seq<Interval>): nat {
    if list == [] then 0 else SumBytes(list[..|list| - 1]) + list[|list| - 1].bytes
  }

  /** Each interval begins when the one before it ended. */
  ghost predicate Abut(list: seq<Interval>) {
    forall i :: 0 < i < |list| ==> list[i].start == list[i - 1].end
  }

  /** The counters before interval `i`. */
  function Before(list: seq<Interval>, i: nat): Counters
    requires i <= |list|
  {
    if i == 0 then ZERO else list[i - 1].counters
  }

  /** Each interval has the differences of the counters over it. */
  ghost predicate Differences(list: seq<Interval>) {
    forall i :: 0 <= i < |list| ==>
      && list[i].packets == list[i].counters.packets - Before(list, i).packets
      && list[i].outOfOrder == list[i].counters.outOfOrder - Before(list, i).outOfOrder
      && list[i].errors == list[i].counters.errors - Before(list, i).errors
  }

  function SumPackets(list: seq<Interval>): int {
    if list == [] then 0 else SumPackets(list[..|list| - 1]) + list[|list| - 1].packets
  }

  function SumErrors(list: seq<Interval>): int {
    if list == [] then 0 else SumErrors(list[..|list| - 1]) + list[|list| - 1].errors
  }

  function SumOutOfOrder(list: seq<Interval>): int {
    if list == [] then 0 else SumOutOfOrder(list[..|list| - 1]) + list[|list| - 1].outOfOrder
  }

  /** The counts of the intervals add up to the counters at the end of the last one. */
  lemma {:induction false} CountsTelescope(list: seq<Interval>)
    requires Differences(list)
    ensures var c := Before(list, |list|);
      SumPackets(list) == c.packets && SumErrors(list) == c.errors && SumOutOfOrder(list) == c.outOfOrder
  {
    if list != [] {
      var front := list[..|list| - 1];
      assert forall i :: 0 <= i <= |front| ==> Before(front, i) == Before(list, i);
      CountsTelescope(front);
    }
  }

  function CountFrom(c: Counters, events: seq<Event>): Counters {
    if events == [] then c else Step(CountFrom(c, events[..|events| - 1]), events[|events| - 1])
  }

  lemma SumBytesSnoc(list: seq<Interval>, i: Interval)
    ensures SumBytes(list + [i]) == SumBytes(list) + i.bytes
  {
    assert (list + [i])[..|list|] == list;
  }

  /** The interval that follows those of a list. */
  function NextInterval(list: seq<Interval>, bytes: nat, start: int, end: int, c: Counters): Interval {
    var b := Before(list, |list|);
    Interval(bytes, start, end, c.packets - b.packets, c.outOfOrder - b.outOfOrder, c.errors - b.errors, c)
  }

  lemma NextKeeps(list: seq<Interval>, mark: nat, bytes: nat, start: int, end: int, c: Counters)
    requires mark <= |list| && Abut(list) && Differences(list) && (list != [] ==> start == list[|list| - 1].end)
    ensures var next := list + [NextInterval(list, bytes, start, end, c)];
      Abut(next) && Differences(next) && SumBytes(next[mark..]) == SumBytes(list[mark..]) + bytes
  {
    hide Abut, Differences, SumBytes;
    var last := NextInterval(list, bytes, start, end, c);
    SumFrom(list, mark, last);
    DifferencesSnoc(list, last);
    AbutSnoc(list, last);
  }

  lemma SumFrom(list: seq<Interval>, mark: nat, last: Interval)
    requires mark <= |list|
    ensures SumBytes((list + [last])[mark..]) == SumBytes(list[mark..]) + last.bytes
  {
    assert (list + [last])[mark..] == list[mark..] + [last];
    SumBytesSnoc(list[mark..], last);
  }

  lemma DifferencesSnoc(list: seq<Interval>, last: Interval)
    requires Differences(list)
    requires var b, c := Before(list, |list|), last.counters;
      last.packets == c.packets - b.packets && last.outOfOrder == c.outOfOrder - b.outOfOrder && last.errors == c.errors - b.errors
    ensures Differences(list + [last])
  {
    var next := list + [last];
    forall i | 0 <= i < |next|
      ensures next[i] == (if i == |list| then last else list[i]) && Before(next, i) == Before(list, i)
    {
    }
  }

  lemma AbutSnoc(list: seq<Interval>, last: Interval)
    requires Abut(list) && (list != [] ==> last.start == list[|list| - 1].end)
    ensures Abut(list + [last])
  {
  }

  // ----- pacing

  /** What has been sent is within what the rate allows by now, with `blocks` blocks over. */
  ghost predicate Within(rate: nat, sent: int, elapsed: int, blksize: nat, blocks: nat) {
    8 * sent * MICRO <= rate * elapsed + 8 * MICRO * (blksize * blocks)
  }

  lemma WithinMore(rate: nat, sent: int, elapsed: int, blksize: nat, blocks: nat, elapsed': int, blocks': nat)
    requires Within(rate, sent, elapsed, blksize, blocks) && elapsed <= elapsed' && blocks <= blocks'
    ensures Within(rate, sent, elapsed', blksize, blocks')
  {
    assert rate * elapsed <= rate * elapsed' && blksize * blocks <= blksize * blocks';
  }

  lemma WithinBlock(rate: nat, sent: int, elapsed: int, blksize: nat, blocks: nat, r: int)
    requires Within(rate, sent, elapsed, blksize, blocks) && r <= blksize
    ensures Within(rate, sent + r, elapsed, blksize, blocks + 1)
  {
    assert blksize * (blocks + 1) == blksize * blocks + blksize;
  }

  /** timeval_diff, in microseconds. */
  function Distance(a: int, b: int): (d: nat)
    ensures d == a - b || d == b - a
  {
    if a <= b then b - a else a - b
  }

  lemma NothingSent(rate: nat, elapsed: nat, blksize: nat, blocks: nat)
    ensures Within(rate, 0, elapsed, blksize, blocks)
  {
    assert rate * elapsed >= 0 && blksize * blocks >= 0;
  }

  function BitsPerSecond(sent: nat, elapsed: int): int
    requires elapsed > 0
  {
    (8.0 * sent as real / (elapsed as real / 1000000.0)).Floor
  }

  lemma Larger(x: real, y: real, e: real)
    requires e > 0.0
    ensures x < y <==> x * e < y * e
  {
    if x < y {
      assert (y - x) * e > 0.0;
    } else {
      assert (x - y) * e >= 0.0;
    }
  }

  lemma Scaled(r: real, e: real)
    ensures r * (e * 1000000.0) == r * e * 1000000.0
  {
  }

  lemma CastProduct(a: int, b: int)
    ensures (a * b) as real == a as real * b as real
  {
  }

  lemma FloorLess(q: real, n: int)
    ensures q.Floor < n <==> q < n as real
  {
  }

  /** The comparison of the truncated quotient with the rate says on which side of the rate the stream is. */
  lemma GreenIff(sent: nat, elapsed: int, rate: nat)
    requires elapsed > 0
    ensures BitsPerSecond(sent, elapsed) < rate <==> 8 * sent * MICRO < rate * elapsed
  {
    var b, e, r := 8.0 * sent as real, elapsed as real / 1000000.0, rate as real;
    FloorLess(b / e, rate);
    Larger(b / e, r, e);
    assert b / e * e == b;
    Scaled(r, e);
    CastProduct(rate, elapsed);
    assert e * 1000000.0 == elapsed as real;
  }

  lemma Behind(rate: nat, sent: int, elapsed: int, blksize: nat)
    requires 8 * sent * MICRO < rate * elapsed
    ensures Within(rate, sent, elapsed, blksize, 0)
  {
    assert blksize * 0 == 0;
  }

  function AbsReal(x: real): real {
    if x < 0.0 then -x else x
  }

  /** When the sender put the packet together. */
  function SentAt(packet: string): real
    requires |packet| >= 12
  {
    HeaderWord(packet, 0) as real + HeaderWord(packet, 1) as real / 1000000.0
  }

  /** The arrivals as the counters see them. */
  function Arrived(arrivals: seq<(string, real)>): (r: seq<Event>)
    requires forall i :: 0 <= i < |arrivals| ==> |arrivals[i].0| >= 12
    ensures |r| == |arrivals|
  {
    seq(|arrivals|, i requires 0 <= i < |arrivals| => Packet(HeaderWord(arrivals[i].0, 2)))
  }

  class Stream {
    const sender: bool
    const blksize: nat
    var green: bool
    var sent: nat
    var received: nat
    var sentThisInterval: nat
    var receivedThisInterval: nat
    var startTime: int
    var endTime: int
    var intervals: seq<Interval>
    var counters: Counters
    var jitter: real
    var prevTransit: real
    ghost var mark: nat  // the intervals there were at the last reset

    constructor (sender: bool, blksize: nat, now: int)
      ensures this.sender == sender && this.blksize == blksize && green && sent == received == 0 && startTime == now
      ensures Valid() && intervals == [] && counters == ZERO
    {
      this.sender, this.blksize, green, startTime, endTime := sender, blksize, true, now, now;
      sent, received, sentThisInterval, receivedThisInterval := 0, 0, 0, 0;
      intervals, counters, jitter, prevTransit, mark := [], ZERO, 0.0, 0.0, 0;
    }

    function Transferred(): nat
      reads this
    {
      if sender then sent else received
    }

    function ThisInterval(): nat
      reads this
    {
      if sender then sentThisInterval else receivedThisInterval
    }

    /** The intervals since the last reset and the one that has begun hold all bytes; they abut, and their counts add up. */
    ghost predicate Valid()
      reads this
    {
      && mark <= |intervals| && SumBytes(intervals[mark..]) + ThisInterval() == Transferred()
      && Abut(intervals) && (intervals != [] ==> intervals[|intervals| - 1].end == endTime)
      && Differences(intervals)
    }

    /** At most `blocks` blocks ahead of the rate, and at most `slack` while the light is green. */
    ghost predicate Ahead(rate: nat, blocks: nat, slack: nat, now: int)
      reads `sent, `startTime, `green
    {
      && Within(rate, sent, now - startTime, blksize, blocks)
      && (green ==> Within(rate, sent, now - startTime, blksize, slack))
    }

    /**
     iperf_check_throttle, called with a time that need not be later than the start: timeval_diff has no sign.  With no
     time between them the code divides by zero and converts the result, which may come out either way.
     */
    method CheckThrottle(rate: nat, done: bool, now: int)
      requires Valid()
      modifies this`green
      ensures Valid()
      ensures done ==> green == old(green)
      ensures !done && now != startTime ==> green == (8 * sent * MICRO < rate * Distance(startTime, now))
      ensures !done && now > startTime && green ==> Within(rate, sent, now - startTime, blksize, 0)
    {
      hide SumBytes, Abut, Differences, Within;
      if done {
        return;
      }
      var elapsed := Distance(startTime, now);
      if elapsed == 0 {
        green := *;
        return;
      }
      GreenIff(sent, elapsed, rate);
      green := BitsPerSecond(sent, elapsed) < rate;
      if green {
        Behind(rate, sent, elapsed, blksize);
      }
    }

    /**
     iperf_tcp_send: a block, or the part of it that was written before a signal; or a soft or hard error.  With `whole`
     the network takes the whole block.
     */
    method Send(whole: bool) returns (r: int)
      requires Valid() && sender
      modifies this`sent, this`sentThisInterval
      ensures Valid() && r <= blksize && (whole ==> r == blksize)
      ensures sent == old(sent) + (if r < 0 then 0 else r)
    {
      r := *;
      if r > blksize || whole {
        r := blksize;
      }
      if r < 0 {
        return;
      }
      sent := sent + r;
      sentThisInterval := sentThisInterval + r;
    }

    /** iperf_tcp_recv; with `whole` a block has arrived. */
    method Receive(whole: bool) returns (r: int)
      requires Valid() && !sender
      modifies this`received, this`receivedThisInterval
      ensures Valid() && r <= blksize && (whole ==> r == blksize)
      ensures received == old(received) + (if r < 0 then 0 else r)
    {
      r := *;
      if r > blksize || whole {
        r := blksize;
      }
      if r < 0 {
        return;
      }
      received := received + r;
      receivedThisInterval := receivedThisInterval + r;
    }

    /** The header of iperf_udp_send: the number is used up also when the packet cannot be sent. */
    method NextHeader(sec: nat, usec: nat) returns (header: string)
      requires Valid() && counters.packets >= -1
      modifies this`counters
      ensures Valid() && counters == old(counters).(packets := old(counters).packets + 1)
      ensures header == Header(sec, usec, counters.packets)
    {
      counters := counters.(packets := counters.packets + 1);
      header := Header(sec, usec, counters.packets);
    }

    /** A run of iperf_udp_send on one stream: the packets are numbered one after the other, a new stream's from one. */
    method Headers(times: seq<(nat, nat)>) returns (headers: seq<string>)
      requires Valid() && counters.packets >= 0
      modifies this`counters
      ensures Valid() && counters == old(counters).(packets := old(counters).packets + |times|)
      ensures |headers| == |times|
      ensures forall i :: 0 <= i < |times| ==> headers[i] == Header(times[i].0, times[i].1, old(counters).packets + 1 + i)
    {
      hide SumBytes, Abut, Differences, Header;
      headers := [];
      var k := 0;
      while k < |times|
        invariant k <= |times| && Valid() && counters == old(counters).(packets := old(counters).packets + k)
        invariant |headers| == k
        invariant forall i :: 0 <= i < k ==> headers[i] == Header(times[i].0, times[i].1, old(counters).packets + 1 + i)
      {
        var header := NextHeader(times[k].0, times[k].1);
        headers := headers + [header];
        k := k + 1;
      }
    }

    /** iperf_udp_recv, for a packet that arrived at the given time; timeval_diff has no sign. */
    method UdpReceive(packet: string, arrival: real)
      requires Valid() && !sender && |packet| >= 12
      modifies this`received, this`receivedThisInterval, this`counters, this`jitter, this`prevTransit
      ensures Valid() && received == old(received) + |packet|
      ensures counters == UdpCount.Receive(old(counters), HeaderWord(packet, 2))
      ensures prevTransit == AbsReal(arrival - SentAt(packet))
      ensures jitter == old(jitter) + (AbsReal(prevTransit - old(prevTransit)) - old(jitter)) / 16.0
    {
      hide SumBytes, Abut, Differences, HeaderWord;
      received := received + |packet|;
      receivedThisInterval := receivedThisInterval + |packet|;
      CountPacket(HeaderWord(packet, 2));
      var transit := AbsReal(SentAt(packet) - arrival);
      var d := transit - prevTransit;
      if d < 0.0 {
        d := -d;
      }
      prevTransit := transit;
      jitter := jitter + (d - jitter) / 16.0;
    }

    method CountPacket(pcount: nat)
      modifies this`counters
      ensures counters == UdpCount.Receive(old(counters), pcount)
    {
      if pcount >= counters.packets + 1 {
        if pcount > counters.packets + 1 {
          counters := counters.(errors := counters.errors + ((pcount - 1) - counters.packets));
        }
        counters := counters.(packets := pcount);
      } else {
        counters := counters.(outOfOrder := counters.outOfOrder + 1);
      }
    }

    /** Packets that arrive one after the other, each with its time. */
    method UdpReceiveAll(arrivals: seq<(string, real)>)
      requires Valid() && !sender && forall i :: 0 <= i < |arrivals| ==> |arrivals[i].0| >= 12
      modifies this`received, this`receivedThisInterval, this`counters, this`jitter, this`prevTransit
      ensures Valid() && counters == CountFrom(old(counters), Arrived(arrivals))
    {
      hide SumBytes, Abut, Differences, HeaderWord, UdpCount.Receive;
      var k := 0;
      while k < |arrivals|
        invariant k <= |arrivals| && Valid() && counters == CountFrom(old(counters), Arrived(arrivals[..k]))
      {
        UdpReceive(arrivals[k].0, arrivals[k].1);
        assert Arrived(arrivals[..k + 1])[..k] == Arrived(arrivals[..k]);
        k := k + 1;
      }
      assert arrivals[..k] == arrivals;
    }

    /** The part of iperf_reset_stats for this stream. */
    method ResetStats(now: int)
      requires Valid()
      modifies this`counters, this`jitter, this`sent, this`received, this`sentThisInterval, this`receivedThisInterval,
               this`startTime, this`mark
      ensures Valid() && sent == received == 0 && startTime == now && counters == Forget(old(counters)) && jitter == 0.0
      ensures green == old(green) && intervals == old(intervals) && endTime == old(endTime) && prevTransit == old(prevTransit)
      ensures mark == |intervals|
    {
      hide Abut, Differences;
      counters := counters.(omitted := counters.packets, outOfOrder := 0, errors := 0);
      jitter := 0.0;
      sent, received, sentThisInterval, receivedThisInterval := 0, 0, 0, 0;
      startTime := now;
      mark := |intervals|;
      assert intervals[mark..] == [];
    }

    /** The part of iperf_stats_callback for this stream. */
    method GatherStats(now: int)
      requires Valid()
      modifies this`intervals, this`endTime, this`sentThisInterval, this`receivedThisInterval
      ensures Valid() && |intervals| == |old(intervals)| + 1 && intervals[..|old(intervals)|] == old(intervals)
      ensures ThisInterval() == 0 && endTime == now
      ensures var last := intervals[|old(intervals)|];
        && last.bytes == old(ThisInterval()) && last.end == now && last.counters == counters
        && last.start == (if old(intervals) == [] then startTime else old(endTime))
        && last == NextInterval(old(intervals), last.bytes, last.start, now, counters)
    {
      hide Abut, Differences, SumBytes;
      var bytes := if sender then sentThisInterval else receivedThisInterval;
      var start := if intervals != [] then endTime else startTime;
      endTime := now;
      var packets, outOfOrder, errors := counters.packets, counters.outOfOrder, counters.errors;
      if intervals != [] {
        var last := intervals[|intervals| - 1].counters;
        packets, outOfOrder, errors := packets - last.packets, outOfOrder - last.outOfOrder, errors - last.errors;
      }
      var interval := Interval(bytes, start, endTime, packets, outOfOrder, errors, counters);
      NextKeeps(intervals, mark, bytes, start, endTime, counters);
      assert interval == NextInterval(intervals, bytes, start, endTime, counters);
      intervals := intervals + [interval];
      sentThisInterval, receivedThisInterval := 0, 0;
    }
  }

  /**
   An interval with a reset of the counters in it: packets arrive, the statistics are reset, packets arrive, and the
   interval is recorded.  The errors recorded are those counted since the reset if and only if the interval before had
   ended with a count of zero.
   */
  method IntervalAcrossReset(s: Stream, first: seq<(string, real)>, second: seq<(string, real)>, reset: int, end: int)
    requires s.Valid() && !s.sender
    requires forall i :: 0 <= i < |first| ==> |first[i].0| >= 12
    requires forall i :: 0 <= i < |second| ==> |second[i].0| >= 12
    modifies s
    ensures s.Valid() && |s.intervals| == |old(s.intervals)| + 1
    ensures var since := CountFrom(Forget(CountFrom(old(s.counters), Arrived(first))), Arrived(second));
      && s.counters == since
      && (s.intervals[|old(s.intervals)|].errors == since.errors
          <==> Before(old(s.intervals), |old(s.intervals)|).errors == 0)
  {
    hide CountFrom, Arrived;
    s.UdpReceiveAll(first);
    s.ResetStats(reset);
    s.UdpReceiveAll(second);
    s.GatherStats(end);
    assert Differences(s.intervals);
    assert Before(s.intervals, |old(s.intervals)|) == Before(old(s.intervals), |old(s.intervals)|);
  }
}
