/**
 Numbering UDP packets, and telling from the numbers that arrive how many packets were lost.
 */
module UdpCount {
  import Net

  /** The counters of a receiving stream. */
  datatype Counters = Counters(packets: int, omitted: int, outOfOrder: int, errors: int)

  /** A packet with its number arrives, or the statistics are reset. */
  datatype Event = Packet(n: nat) | Reset

  const ZERO: Counters := Counters(0, 0, 0, 0)

  /** The counting of iperf_udp_recv: a gap counts as lost, a number below the highest as out of order. */
  function Receive(c: Counters, n: nat): Counters {
    if n >= c.packets + 1 then c.(packets := n, errors := c.errors + ((n - 1) - c.packets))
    else c.(outOfOrder := c.outOfOrder + 1)
  }

  /** iperf_reset_stats */
  function Forget(c: Counters): Counters {
    c.(omitted := c.packets, outOfOrder := 0, errors := 0)
  }

  function Step(c: Counters, e: Event): Counters {
    match e case Packet(n) => Receive(c, n) case Reset => Forget(c)
  }

  function Count(events: seq<Event>): Counters {
    if events == [] then ZERO else Step(Count(events[..|events| - 1]), events[|events| - 1])
  }

  /** The packets that arrived since the last reset. */
  function SinceReset(events: seq<Event>): nat {
    if events == [] || events[|events| - 1] == Reset then 0 else 1 + SinceReset(events[..|events| - 1])
  }

  /** Whatever arrives, in whatever order and with whatever resets between, every number passed is accounted for. */
  lemma {:induction false} CountsBalance(events: seq<Event>)
    ensures var c := Count(events);
      SinceReset(events) - c.outOfOrder + c.errors == c.packets - c.omitted && c.packets >= c.omitted >= 0
  {
    if events != [] {
      CountsBalance(events[..|events| - 1]);
    }
  }

  // ----- each counter on its own

  /** Event `i` is a packet whose number is above 0 and above that of every packet before it. */
  ghost predicate Above(events: seq<Event>, i: nat)
    requires i < |events|
  {
    events[i].Packet? && events[i].n >= 1 && forall j :: 0 <= j < i && events[j].Packet? ==> events[j].n < events[i].n
  }

  /** The arrivals since the last reset that are above all before them. */
  ghost function Advances(events: seq<Event>): nat {
    if events == [] || events[|events| - 1] == Reset then 0
    else Advances(events[..|events| - 1]) + (if Above(events, |events| - 1) then 1 else 0)
  }

  /** The other arrivals since the last reset. */
  ghost function Late(events: seq<Event>): nat {
    if events == [] || events[|events| - 1] == Reset then 0
    else Late(events[..|events| - 1]) + (if Above(events, |events| - 1) then 0 else 1)
  }

  /** What came before the last reset. */
  function BeforeReset(events: seq<Event>): seq<Event> {
    if events == [] then []
    else if events[|events| - 1] == Reset then events[..|events| - 1]
    else BeforeReset(events[..|events| - 1])
  }

  ghost predicate Highest(events: seq<Event>, n: int) {
    && (forall i :: 0 <= i < |events| && events[i].Packet? ==> events[i].n <= n)
    && n >= 0 && (n == 0 || exists i :: 0 <= i < |events| && events[i] == Packet(n))
  }

  /**
   The counters in terms of what arrived: the highest number, and the one at the last reset; as out of order the arrivals
   that are not above all before them; as lost the numbers passed since the reset that no such arrival accounts for.
   */
  lemma {:induction false} CountersAre(events: seq<Event>)
    ensures var c := Count(events);
      && Highest(events, c.packets) && Highest(BeforeReset(events), c.omitted)
      && c.outOfOrder == Late(events)
      && c.errors == c.packets - c.omitted - Advances(events)
  {
    if events != [] {
      var front, last := events[..|events| - 1], events[|events| - 1];
      CountersAre(front);
      assert forall i :: 0 <= i < |front| ==> events[i] == front[i];
      var c := Count(front);
      if last.Packet? {
        assert Above(events, |events| - 1) <==> last.n >= c.packets + 1;
        HighestNext(events, c.packets);
      } else {
        assert Highest(events, c.packets);
      }
    }
  }

  lemma HighestNext(events: seq<Event>, n: int)
    requires events != [] && events[|events| - 1].Packet? && Highest(events[..|events| - 1], n) && n >= 0
    ensures var last := events[|events| - 1].n; Highest(events, if last > n then last else n)
  {
    var front, last := events[..|events| - 1], events[|events| - 1].n;
    assert forall i :: 0 <= i < |front| ==> events[i] == front[i];
    if last > n {
      assert events[|events| - 1] == Packet(last);
    } else if n != 0 {
      var i :| 0 <= i < |front| && front[i] == Packet(n);
      assert events[i] == Packet(n);
    }
  }

  // ----- loss

  function Packets(arrivals: seq<nat>): seq<Event> {
    seq(|arrivals|, i requires 0 <= i < |arrivals| => Packet(arrivals[i]))
  }

  function Numbers(arrivals: seq<nat>): set<nat> {
    set n | n in arrivals
  }

  ghost predicate NoDuplicates(arrivals: seq<nat>) {
    forall i, j :: 0 <= i < j < |arrivals| ==> arrivals[i] != arrivals[j]
  }

  /** How many of the numbers 1..n are not among those seen. */
  function Missing(seen: set<nat>, n: nat): nat {
    if n == 0 then 0 else Missing(seen, n - 1) + (if n in seen then 0 else 1)
  }

  lemma {:induction false} MissingIs(seen: set<nat>, n: nat)
    requires forall k <- seen :: 1 <= k <= n
    ensures Missing(seen, n) == n - |seen|
  {
    if n == 0 {
      assert seen == {};
    } else {
      var below := seen - {n};
      MissingBelow(seen, n - 1, n);
      MissingIs(below, n - 1);
      if n in seen {
        assert seen == below + {n};
      } else {
        assert seen == below;
      }
    }
  }

  lemma MissingBelow(seen: set<nat>, n: nat, top: nat)
    requires n < top
    ensures Missing(seen, n) == Missing(seen - {top}, n)
  {
  }

  lemma {:induction false} HighestArrived(arrivals: seq<nat>)
    requires forall n <- arrivals :: n >= 1
    ensures var c := Count(Packets(arrivals));
      c.omitted == 0 && c.packets >= 0 && forall n <- arrivals :: n <= c.packets
    ensures SinceReset(Packets(arrivals)) == |arrivals|
  {
    if arrivals != [] {
      var front, last := arrivals[..|arrivals| - 1], arrivals[|arrivals| - 1];
      assert Packets(arrivals)[..|arrivals| - 1] == Packets(front);
      assert arrivals == front + [last];
      forall n | n in front
        ensures n >= 1
      {
        assert n in arrivals;
      }
      HighestArrived(front);
    }
  }

  lemma {:induction false} DistinctNumbers(arrivals: seq<nat>)
    ensures |Numbers(arrivals)| <= |arrivals|
    ensures |Numbers(arrivals)| == |arrivals| <==> NoDuplicates(arrivals)
  {
    if arrivals == [] {
      assert Numbers(arrivals) == {};
    } else {
      var front, last := arrivals[..|arrivals| - 1], arrivals[|arrivals| - 1];
      assert arrivals == front + [last];
      assert Numbers(arrivals) == Numbers(front) + {last};
      DistinctNumbers(front);
    }
  }

  /**
   The numbers from 1 up to the highest that never arrived are as many as the errors counted less the packets counted
   out of order, just when no packet arrived twice.
   */
  lemma LostExactIff(arrivals: seq<nat>)
    requires forall n <- arrivals :: n >= 1
    ensures var c := Count(Packets(arrivals));
      c.packets >= 0 && (Missing(Numbers(arrivals), c.packets) == c.errors - c.outOfOrder <==> NoDuplicates(arrivals))
  {
    var c := Count(Packets(arrivals));
    HighestArrived(arrivals);
    CountsBalance(Packets(arrivals));
    MissingIs(Numbers(arrivals), c.packets);
    DistinctNumbers(arrivals);
  }

  // ----- the header of a packet

  /** The 12 bytes that iperf_udp_send puts at the front: the time of sending and the number. */
  function Header(sec: nat, usec: nat, number: nat): (h: string)
    ensures |h| == 12
  {
    Net.Htonl(sec) + Net.Htonl(usec) + Net.Htonl(number)
  }

  function HeaderWord(packet: string, i: nat): nat
    requires i < 3 && |packet| >= 12
  {
    Net.Ntohl(packet[4 * i..4 * i + 4])
  }

  /** The receiver reads the number and the time that the sender wrote. */
  lemma HeaderRoundTrip(sec: nat, usec: nat, number: nat, payload: string)
    requires sec < Net.WORD && usec < Net.WORD && number < Net.WORD
    ensures var p := Header(sec, usec, number) + payload;
      HeaderWord(p, 0) == sec && HeaderWord(p, 1) == usec && HeaderWord(p, 2) == number
  {
    hide Net.Htonl, Net.Ntohl, HeaderWord;
    Net.NtohlHtonl(sec);
    Net.NtohlHtonl(usec);
    Net.NtohlHtonl(number);
    Words(Net.Htonl(sec), Net.Htonl(usec), Net.Htonl(number), payload);
  }

  lemma Words(a: string, b: string, c: string, payload: string)
    requires |a| == |b| == |c| == 4
    ensures var p := a + b + c + payload;
      |p| >= 12 && HeaderWord(p, 0) == Net.Ntohl(a) && HeaderWord(p, 1) == Net.Ntohl(b) && HeaderWord(p, 2) == Net.Ntohl(c)
  {
    var p := a + b + c + payload;
    hide Net.Ntohl;
    assert p[4 * 0..4 * 0 + 4] == a && p[4 * 1..4 * 1 + 4] == b && p[4 * 2..4 * 2 + 4] == c;
  }
}
