/**
 What one tmr_run promises, proved about TimerSpec.RunFrom: termination, order, conservation, and which due
 timers it reaches although the successor of a timer is taken before its callback runs.
 */
module TimerRun {
  import opened CText
  import opened TimerSpec

  ghost function FiredCount<T>(fired: seq<(T, int)>, x: T): nat {
    if fired == [] then 0 else (if fired[0].0 == x then 1 else 0) + FiredCount(fired[1..], x)
  }

  // ----- every run

  /** The run ends: it makes at most as many callbacks as expirations were pending, and the queue stays well formed. */
  lemma {:induction false} RunKeeps<T>(q: Queue<T>, cur: Option<T>, now: int)
    requires WellFormed(q) && (cur.Some? ==> cur.value in Ids(q))
    ensures WellFormed(RunFrom(q, cur, now).queue)
    ensures |RunFrom(q, cur, now).fired| + Pending(RunFrom(q, cur, now).queue, now) <= Pending(q, now)
    ensures Periodics(RunFrom(q, cur, now).queue) == Periodics(q)
    decreases Pending(q, now)
  {
    hide WellFormed, Pending, Ids, Get, Fire, Next;
    if cur.Some? && Get(q, cur.value).at <= now {
      FireKeeps(q, cur.value, now);
      NextStays(q, cur.value, now);
      RunKeeps(Fire(q, cur.value, now), Next(q, cur.value), now);
    }
  }

  /** The cached successor is still active after the round. */
  lemma NextStays<T>(q: Queue<T>, t: T, now: int)
    requires WellFormed(q) && t in Ids(q) && Get(q, t).at <= now
    ensures Next(q, t).Some? ==> Next(q, t).value in Ids(q) && Next(q, t).value != t && Next(q, t).value in Ids(Fire(q, t, now))
    ensures Next(q, t).Some? ==> Get(q, t).at <= Get(q, Next(q, t).value).at
  {
    hide Fire;
    if Next(q, t).Some? {
      NextIs(q, t);
      FireKeeps(q, t, now);
    }
  }

  /** A callback is made for no timer before it is due, and due times never go back. */
  lemma {:induction false} RunOrdered<T>(q: Queue<T>, cur: Option<T>, now: int)
    requires WellFormed(q) && (cur.Some? ==> cur.value in Ids(q))
    ensures var fired := RunFrom(q, cur, now).fired;
      && (forall i :: 0 <= i < |fired| ==> fired[i].1 <= now)
      && (forall i, j :: 0 <= i < j < |fired| ==> fired[i].1 <= fired[j].1)
      && (fired != [] ==> cur.Some? && fired[0] == (cur.value, Get(q, cur.value).at))
    decreases Pending(q, now)
  {
    hide WellFormed, Pending, Ids, Get, Fire, Next;
    if cur.Some? && Get(q, cur.value).at <= now {
      var t, q1, n := cur.value, Fire(q, cur.value, now), Next(q, cur.value);
      FireKeeps(q, t, now);
      NextStays(q, t, now);
      RunOrdered(q1, n, now);
      var rest := RunFrom(q1, n, now).fired;
      assert RunFrom(q, cur, now).fired == [(t, Get(q, t).at)] + rest;
      if rest != [] {
        NextNotEarlier(q, t, n.value, now);
      }
    }
  }

  lemma NextNotEarlier<T>(q: Queue<T>, t: T, n: T, now: int)
    requires WellFormed(q) && t in Ids(q) && Get(q, t).at <= now && Next(q, t) == Some(n)
    ensures n in Ids(Fire(q, t, now)) && Get(q, t).at <= Get(Fire(q, t, now), n).at
  {
    hide Fire, Periodics, Next;
    NextStays(q, t, now);
    FireGet(q, t, now, n);
    if n in Get(q, t).resets {
      ResetIsPositive(q, t, n);
    }
  }

  lemma ResetIsPositive<T>(q: Queue<T>, t: T, x: T)
    requires WellFormed(q) && t in Ids(q) && x in Get(q, t).resets && x in Ids(q)
    ensures x != t && Get(q, x).usecs > 0
  {
    hide Get;
    AllowedOf(q, Fixed(q), t);
    FixedOf(q, x);
  }

  /** Active timers are conserved: exactly the one-shots that fired leave the queue, each after one callback. */
  lemma {:induction false} RunConserves<T>(q: Queue<T>, cur: Option<T>, now: int, x: T)
    requires WellFormed(q) && (cur.Some? ==> cur.value in Ids(q)) && x in Ids(q)
    ensures var run := RunFrom(q, cur, now);
      && (x in Ids(run.queue) <==> x !in run.freed)
      && (!Get(q, x).periodic ==> FiredCount(run.fired, x) == if x in run.freed then 1 else 0)
      && (Get(q, x).periodic ==> x !in run.freed)
    decreases Pending(q, now)
  {
    hide WellFormed, Pending, Ids, Get, Fire, Next;
    var run := RunFrom(q, cur, now);
    if cur.Some? && Get(q, cur.value).at <= now {
      var t, q1, n := cur.value, Fire(q, cur.value, now), Next(q, cur.value);
      FireKeeps(q, t, now);
      NextStays(q, t, now);
      var rest := RunFrom(q1, n, now);
      assert run.fired[1..] == rest.fired;
      if x != t {
        FireGet(q, t, now, x);
        RunConserves(q1, n, now, x);
      } else if Get(q, t).periodic {
        FiredStaysPeriodic(q, t, now);
        RunConserves(q1, n, now, x);
      } else {
        GoneStaysGone(q1, n, now, x);
      }
    }
  }

  lemma FiredStaysPeriodic<T>(q: Queue<T>, t: T, now: int)
    requires WellFormed(q) && t in Ids(q) && Get(q, t).at <= now && Get(q, t).periodic
    ensures t in Ids(Fire(q, t, now)) && Get(Fire(q, t, now), t).periodic
  {
    FireKeeps(q, t, now);
    hide Fire, Get;
    PeriodicOf(q, t);
    PeriodicOf(Fire(q, t, now), t);
  }

  lemma {:induction false} GoneStaysGone<T>(q: Queue<T>, cur: Option<T>, now: int, x: T)
    requires WellFormed(q) && (cur.Some? ==> cur.value in Ids(q)) && x !in Ids(q)
    ensures var run := RunFrom(q, cur, now); x !in Ids(run.queue) && x !in run.freed && FiredCount(run.fired, x) == 0
    decreases Pending(q, now)
  {
    hide WellFormed, Pending, Ids, Get, Fire, Next;
    if cur.Some? && Get(q, cur.value).at <= now {
      var t := cur.value;
      FireKeeps(q, t, now);
      NextStays(q, t, now);
      GoneStaysGone(Fire(q, t, now), Next(q, t), now, x);
      assert RunFrom(q, cur, now).fired[1..] == RunFrom(Fire(q, t, now), Next(q, t), now).fired;
    }
  }

  // ----- nothing due is missed

  /** `x` stands at or behind `id` in the list. */
  ghost predicate Behind<T>(q: Queue<T>, id: T, x: T) {
    q != [] && if q[0].id == id then x in Ids(q) else Behind(q[1..], id, x)
  }

  /** The callback of `t` resets none of the timers that are due. */
  ghost predicate Harmless<T>(q: Queue<T>, t: T, now: int)
    requires t in Ids(q)
  {
    forall x :: x in Get(q, t).resets && x in Ids(q) ==> Get(q, x).at > now
  }

  /** No callback that can be made at `now`, but perhaps those of some timers, resets a timer that is due. */
  ghost predicate HarmlessBut<T>(q: Queue<T>, now: int, s: set<T>) {
    forall t :: t in Ids(q) && t !in s && Get(q, t).at <= now ==> Harmless(q, t, now)
  }

  ghost predicate AllHarmless<T>(q: Queue<T>, now: int) {
    HarmlessBut(q, now, {})
  }

  /** No callback that can be made at `now` touches the lists. */
  ghost predicate DueResetNothing<T>(q: Queue<T>, now: int) {
    forall x :: x in Ids(q) && Get(q, x).at <= now ==> Get(q, x).resets == []
  }

  lemma WellFormedOrder<T>(q: Queue<T>)
    requires WellFormed(q)
    ensures Sorted(q) && Distinct(q)
  {
  }

  lemma BehindIn<T>(q: Queue<T>, id: T, x: T)
    requires Behind(q, id, x)
    ensures x in Ids(q) && id in Ids(q)
  {
  }

  lemma BehindHead<T>(q: Queue<T>, x: T)
    requires x in Ids(q)
    ensures Behind(q, q[0].id, x)
  {
  }

  /** Of two timers each stands behind the other only if they are one. */
  lemma BehindOrder<T>(q: Queue<T>, x: T, y: T)
    requires Distinct(q) && x in Ids(q) && y in Ids(q)
    ensures Behind(q, x, y) || Behind(q, y, x)
    ensures Behind(q, x, y) && Behind(q, y, x) ==> x == y
  {
    if q[0].id != x && q[0].id != y {
      BehindOrder(q[1..], x, y);
    } else if q[0].id == x && x != y && Behind(q, y, x) {
      BehindIn(q[1..], y, x);
    } else if q[0].id == y && x != y && Behind(q, x, y) {
      BehindIn(q[1..], x, y);
    }
  }

  lemma BehindLater<T>(q: Queue<T>, id: T, x: T)
    requires Sorted(q) && Distinct(q) && Behind(q, id, x)
    ensures x in Ids(q) && id in Ids(q) && Get(q, id).at <= Get(q, x).at
  {
    BehindIn(q, id, x);
    if q[0].id == id {
      SortedHead(q, x);
    } else {
      BehindLater(q[1..], id, x);
      BehindIn(q[1..], id, x);
    }
  }

  /** What stands behind a timer stands at or behind its successor. */
  lemma BehindNext<T>(q: Queue<T>, t: T, x: T)
    requires Distinct(q) && Behind(q, t, x) && x != t
    ensures Next(q, t).Some? && Next(q, t).value != t && Behind(q, Next(q, t).value, x)
  {
    if q[0].id == t {
      assert x in Ids(q[1..]);
      BehindHead(q[1..], x);
    } else {
      BehindNext(q[1..], t, x);
      BehindIn(q[1..], Next(q, t).value, x);
    }
  }

  lemma InsertBehind<T>(q: Queue<T>, e: Entry<T>, id: T, x: T)
    requires Behind(q, id, x) && e.id != id
    ensures Behind(Insert(q, e), id, x)
  {
    if e.at < q[0].at {
      assert Insert(q, e)[1..] == q;
    } else {
      assert Insert(q, e)[1..] == Insert(q[1..], e);
      if q[0].id != id {
        InsertBehind(q[1..], e, id, x);
      } else {
        InsertKeeps(q, e);
      }
    }
  }

  lemma RemoveOtherBehind<T>(q: Queue<T>, id: T, n: T, x: T)
    requires Distinct(q) && Behind(q, n, x) && id != n && id != x
    ensures Behind(Remove(q, id), n, x)
  {
    if q[0].id == n {
      BehindIn(q, n, x);
      if id in Ids(q) {
        RemoveKeeps(q, id);
      } else {
        RemoveAbsent(q, id);
      }
    } else if q[0].id != id {
      RemoveOtherBehind(q[1..], id, n, x);
      assert Remove(q, id)[1..] == Remove(q[1..], id);
    }
  }

  lemma RemoveAbsent<T>(q: Queue<T>, id: T)
    requires id !in Ids(q)
    ensures Remove(q, id) == q
  {
  }

  lemma MoveBehind<T>(q: Queue<T>, id: T, at: int, n: T, x: T)
    requires Distinct(q) && Behind(q, n, x) && id != n && id != x
    ensures Behind(Move(q, id, at), n, x)
  {
    hide Insert, Remove, Behind;
    if id in Ids(q) {
      RemoveOtherBehind(q, id, n, x);
      InsertBehind(Remove(q, id), Get(q, id).(at := at), n, x);
    }
  }

  lemma {:induction false} ResetsBehind<T>(q: Queue<T>, ids: seq<T>, now: int, n: T, x: T)
    requires WellFormed(q) && (forall k :: 0 <= k < |ids| ==> ids[k] !in Fixed(q))
    requires Behind(q, n, x) && n !in ids && x !in ids
    ensures Behind(ResetAll(q, ids, now), n, x)
    decreases |ids|
  {
    if ids != [] {
      hide Move, Behind, Ids, Get, Sorted, Distinct, AllAllowed, Pending, Fixed;
      if ids[0] !in Ids(q) {
        ResetsBehind(q, ids[1..], now, n, x);
      } else {
        var at := now + Get(q, ids[0]).usecs;
        MoveBehind(q, ids[0], at, n, x);
        MoveAllowed(q, ids[0], at, now);
        ResetsBehind(Move(q, ids[0], at), ids[1..], now, n, x);
      }
    }
  }

  /** A round leaves the order of all timers but the one that fires and those it resets. */
  lemma FireBehind<T>(q: Queue<T>, t: T, now: int, n: T, x: T)
    requires WellFormed(q) && t in Ids(q) && Get(q, t).at <= now
    requires Behind(q, n, x) && n != t && x != t && n !in Get(q, t).resets && x !in Get(q, t).resets
    ensures Behind(Fire(q, t, now), n, x)
  {
    hide Ids, Behind, Remove, Move, Sorted, Distinct, AllAllowed, Periodics, ResetAll, Get, Fixed;
    var e := Get(q, t);
    AllowedOf(q, Fixed(q), t);
    ResetsBehind(q, e.resets, now, n, x);
    ResetsKeep(q, e.resets, now);
    ResetsGet(q, e.resets, now, t);
    var q1 := ResetAll(q, e.resets, now);
    if e.periodic {
      MoveBehind(q1, t, e.at + e.usecs, n, x);
    } else {
      RemoveOtherBehind(q1, t, n, x);
    }
  }

  /** Re-sorting the timer that fired loses no timer behind it: the cached successor leads to all that were not reset. */
  lemma StillBehind<T>(q: Queue<T>, t: T, now: int, x: T)
    requires WellFormed(q) && t in Ids(q) && Get(q, t).at <= now && Behind(q, t, x) && x != t
    requires x !in Get(q, t).resets && (Next(q, t).Some? ==> Next(q, t).value !in Get(q, t).resets)
    ensures Next(q, t).Some? && Behind(Fire(q, t, now), Next(q, t).value, x)
  {
    hide Fire, Behind, Get, Next;
    WellFormedOrder(q);
    BehindNext(q, t, x);
    FireBehind(q, t, now, Next(q, t).value, x);
  }

  /** A harmless callback resets neither a due timer nor the cached successor that leads to one. */
  lemma HarmlessSpares<T>(q: Queue<T>, t: T, now: int, x: T)
    requires WellFormed(q) && t in Ids(q) && Harmless(q, t, now) && Behind(q, t, x) && x != t
    requires x in Ids(q) && Get(q, x).at <= now
    ensures Next(q, t).Some? && x !in Get(q, t).resets && Next(q, t).value !in Get(q, t).resets
    ensures Next(q, t).value in Ids(q) && Get(q, Next(q, t).value).at <= now
  {
    hide Behind, Get, Next;
    WellFormedOrder(q);
    BehindIn(q, t, x);
    BehindNext(q, t, x);
    BehindLater(q, Next(q, t).value, x);
  }

  /** After a round no more timers are due than before, and those have the callbacks they had. */
  lemma FireDue<T>(q: Queue<T>, t: T, now: int, x: T)
    requires WellFormed(q) && t in Ids(q) && Get(q, t).at <= now && x in Ids(Fire(q, t, now))
    ensures x in Ids(q) && Get(Fire(q, t, now), x).resets == Get(q, x).resets
    ensures Get(Fire(q, t, now), x).at <= now ==> Get(q, x).at <= now && (x in Get(q, t).resets ==> x == t)
    ensures Get(q, x).at > now ==> Get(Fire(q, t, now), x).at > now
    ensures x == t ==> Get(Fire(q, t, now), x) == Get(q, t).(at := Get(q, t).at + Get(q, t).usecs)
  {
    FireKeeps(q, t, now);
    hide Fire, Get, Ids;
    if x != t {
      FireGet(q, t, now, x);
      if x in Get(q, t).resets {
        ResetIsPositive(q, t, x);
      }
    } else {
      FiredGet(q, t, now);
    }
  }

  lemma FiredGet<T>(q: Queue<T>, t: T, now: int)
    requires WellFormed(q) && t in Ids(q) && Get(q, t).at <= now && t in Ids(Fire(q, t, now))
    ensures Get(Fire(q, t, now), t) == Get(q, t).(at := Get(q, t).at + Get(q, t).usecs)
  {
    hide Ids, Remove, Move, Sorted, Distinct, AllAllowed, Periodics, ResetAll, Get, Fixed, Pending;
    var e := Get(q, t);
    AllowedOf(q, Fixed(q), t);
    ResetsKeep(q, e.resets, now);
    ResetsGet(q, e.resets, now, t);
    FireKeeps(q, t, now);
    MoveKeeps(ResetAll(q, e.resets, now), t, e.at + e.usecs);
  }

  lemma StaysHarmless<T>(q: Queue<T>, t: T, now: int, s: set<T>)
    requires WellFormed(q) && t in Ids(q) && Get(q, t).at <= now && HarmlessBut(q, now, s)
    ensures HarmlessBut(Fire(q, t, now), now, s)
  {
    hide Fire, Get, Ids, WellFormed;
    var q1 := Fire(q, t, now);
    forall y, x | y in Ids(q1) && y !in s && Get(q1, y).at <= now && x in Get(q1, y).resets && x in Ids(q1)
      ensures Get(q1, x).at > now
    {
      FireDue(q, t, now, y);
      FireDue(q, t, now, x);
      assert Harmless(q, y, now);
    }
  }

  /**
   If no callback resets a timer that is due, every timer due on entry, at or behind the current one, gets its
   callback, and if it is a one-shot it is active no more afterwards: nothing is skipped although the successor of a
   timer is taken before the timer is re-sorted.
   */
  lemma {:induction false} RunMissesNothing<T>(q: Queue<T>, cur: T, now: int, x: T)
    requires WellFormed(q) && Behind(q, cur, x) && x in Ids(q) && cur in Ids(q) && Get(q, x).at <= now
    requires AllHarmless(q, now)
    ensures var run := RunFrom(q, Some(cur), now);
      && FiredCount(run.fired, x) >= 1
      && (!Get(q, x).periodic ==> x !in Ids(run.queue))
    decreases Pending(q, now)
  {
    hide Pending, Fire, Behind, Next, Get, Ids, WellFormed, HarmlessBut, Harmless;
    WellFormedOrder(q);
    BehindLater(q, cur, x);
    assert Harmless(q, cur, now) by { HarmlessWhenDue(q, cur, now); }
    StaysHarmless(q, cur, now, {});
    FireKeeps(q, cur, now);
    NextStays(q, cur, now);
    var q1, n := Fire(q, cur, now), Next(q, cur);
    var run, rest := RunFrom(q, Some(cur), now), RunFrom(q1, n, now);
    assert run.fired[1..] == rest.fired && run.fired[0].0 == cur && run.queue == rest.queue;
    if x != cur {
      HarmlessSpares(q, cur, now, x);
      FireGet(q, cur, now, x);
      StillBehind(q, cur, now, x);
      RunMissesNothing(q1, n.value, now, x);
    } else if !Get(q, x).periodic {
      GoneStaysGone(q1, n, now, x);
    }
  }

  lemma HarmlessWhenDue<T>(q: Queue<T>, t: T, now: int)
    requires AllHarmless(q, now) && t in Ids(q) && Get(q, t).at <= now
    ensures Harmless(q, t, now)
  {
  }

  lemma QuietIsHarmless<T>(q: Queue<T>, now: int)
    requires DueResetNothing(q, now)
    ensures AllHarmless(q, now)
  {
  }

  // ----- how far a periodic timer gets

  lemma OneMore(c: nat, u: int)
    ensures (c + 1) * u == u + c * u
  {
  }

  lemma QuietStays<T>(q: Queue<T>, t: T, now: int)
    requires WellFormed(q) && t in Ids(q) && Get(q, t).at <= now && DueResetNothing(q, now)
    ensures DueResetNothing(Fire(q, t, now), now)
  {
    hide Fire, Get, Ids, WellFormed;
    forall x | x in Ids(Fire(q, t, now)) && Get(Fire(q, t, now), x).at <= now
      ensures Get(Fire(q, t, now), x).resets == []
    {
      FireDue(q, t, now, x);
    }
  }

  /** With a quiet callback only the timer itself moves. */
  lemma QuietGet<T>(q: Queue<T>, t: T, now: int, x: T)
    requires WellFormed(q) && t in Ids(q) && Get(q, t).at <= now && DueResetNothing(q, now) && x in Ids(Fire(q, t, now))
    ensures x in Ids(q)
    ensures Get(Fire(q, t, now), x) == if x == t then Get(q, t).(at := Get(q, t).at + Get(q, t).usecs) else Get(q, x)
  {
    hide Fire, Get, Ids, WellFormed;
    FireDue(q, t, now, x);
    if x != t {
      FireGet(q, t, now, x);
    }
  }

  /**
   With quiet callbacks a periodic timer advances by exactly one interval per callback: its phase never drifts,
   however late the run is, and a timer that is not due does not move.
   */
  lemma {:induction false} RunAdvances<T>(q: Queue<T>, cur: Option<T>, now: int, x: T)
    requires WellFormed(q) && (cur.Some? ==> cur.value in Ids(q)) && x in Ids(q)
    requires DueResetNothing(q, now)
    ensures var run := RunFrom(q, cur, now);
      x in Ids(run.queue) ==> Get(run.queue, x) == Get(q, x).(at := Get(q, x).at + FiredCount(run.fired, x) * Get(q, x).usecs)
    decreases Pending(q, now)
  {
    hide Pending, Fire, Next, Get, Ids, WellFormed, DueResetNothing;
    if cur.Some? && Get(q, cur.value).at <= now {
      var t, q1, n := cur.value, Fire(q, cur.value, now), Next(q, cur.value);
      FireKeeps(q, t, now);
      NextStays(q, t, now);
      QuietStays(q, t, now);
      var rest := RunFrom(q1, n, now);
      assert RunFrom(q, cur, now).fired[1..] == rest.fired;
      if x in Ids(q1) {
        QuietGet(q, t, now, x);
        RunAdvances(q1, n, now, x);
        OneMore(FiredCount(rest.fired, x), Get(q, x).usecs);
      } else {
        GoneStaysGone(q1, n, now, x);
      }
    }
  }

  /** What stands in front of the current timer gets no callback in the rest of the run. */
  lemma {:induction false} NotReached<T>(q: Queue<T>, cur: Option<T>, now: int, x: T)
    requires WellFormed(q) && (cur.Some? ==> cur.value in Ids(q) && Behind(q, x, cur.value) && x != cur.value)
    requires AllHarmless(q, now)
    ensures FiredCount(RunFrom(q, cur, now).fired, x) == 0
    decreases Pending(q, now)
  {
    hide Pending, Fire, Behind, Next, Get, Ids, WellFormed, HarmlessBut;
    if cur.Some? && Get(q, cur.value).at <= now {
      var t, q1, n := cur.value, Fire(q, cur.value, now), Next(q, cur.value);
      FireKeeps(q, t, now);
      NextStays(q, t, now);
      StaysHarmless(q, t, now, {});
      assert RunFrom(q, cur, now).fired[1..] == RunFrom(q1, n, now).fired;
      if n.Some? && Get(q1, n.value).at <= now {
        FrontStays(q, t, now, x);
        NotReached(q1, n, now, x);
      }
    }
  }

  /** A timer that is not due gets no callback, and is due no sooner for it. */
  lemma {:induction false} NotDueNotCalled<T>(q: Queue<T>, cur: Option<T>, now: int, x: T)
    requires WellFormed(q) && (cur.Some? ==> cur.value in Ids(q)) && x in Ids(q) && Get(q, x).at > now
    ensures FiredCount(RunFrom(q, cur, now).fired, x) == 0
    ensures x in Ids(RunFrom(q, cur, now).queue) && Get(RunFrom(q, cur, now).queue, x).at > now
    decreases Pending(q, now)
  {
    hide Pending, Fire, Next, Get, Ids, WellFormed;
    if cur.Some? && Get(q, cur.value).at <= now {
      var t, q1, n := cur.value, Fire(q, cur.value, now), Next(q, cur.value);
      FireKeeps(q, t, now);
      NextStays(q, t, now);
      FireDue(q, t, now, x);
      NotDueNotCalled(q1, n, now, x);
      assert RunFrom(q, cur, now).fired[1..] == RunFrom(q1, n, now).fired;
    }
  }

  lemma FrontStays<T>(q: Queue<T>, t: T, now: int, x: T)
    requires WellFormed(q) && t in Ids(q) && Get(q, t).at <= now && AllHarmless(q, now)
    requires Behind(q, x, t) && x != t
    requires Next(q, t).Some? && Next(q, t).value in Ids(Fire(q, t, now)) && Get(Fire(q, t, now), Next(q, t).value).at <= now
    ensures Behind(Fire(q, t, now), x, Next(q, t).value) && x != Next(q, t).value
  {
    hide Fire, Behind, Next, Get, Ids, WellFormed;
    var n := Next(q, t).value;
    WellFormedOrder(q);
    NextBehind(q, t);
    BehindIn(q, x, t);
    BehindTrans(q, x, t, n);
    BehindOrder(q, x, t);
    FireDue(q, t, now, n);
    BehindLater(q, x, t);
    HarmlessWhenDue(q, t, now);
    FireBehind(q, t, now, x, n);
  }

  lemma NextBehind<T>(q: Queue<T>, t: T)
    requires Distinct(q) && t in Ids(q) && Next(q, t).Some?
    ensures Behind(q, t, Next(q, t).value) && Next(q, t).value != t && Next(q, t).value in Ids(q)
  {
    if q[0].id != t {
      NextBehind(q[1..], t);
    }
  }

  lemma BehindTrans<T>(q: Queue<T>, x: T, y: T, z: T)
    requires Distinct(q) && Behind(q, x, y) && Behind(q, y, z)
    ensures Behind(q, x, z) && z in Ids(q)
  {
    BehindIn(q, y, z);
    BehindIn(q, x, y);
    if q[0].id != x {
      if q[0].id == y {
        BehindIn(q[1..], x, y);
      } else {
        BehindTrans(q[1..], x, y, z);
      }
    }
  }

  lemma InsertAfter<T>(q: Queue<T>, e: Entry<T>, n: T)
    requires Sorted(q) && Distinct(q) && e.id !in Ids(q) && n in Ids(q)
    ensures Get(q, n).at <= e.at ==> Behind(Insert(q, e), n, e.id)
    ensures Get(q, n).at > e.at ==> Behind(Insert(q, e), e.id, n)
  {
    InsertKeeps(q, e);
    if e.at < q[0].at {
      assert Insert(q, e)[1..] == q;
      BehindHead(q, n);
      SortedFirst(q, n);
    } else {
      assert Insert(q, e)[1..] == Insert(q[1..], e);
      if q[0].id != n {
        InsertAfter(q[1..], e, n);
      }
    }
  }

  lemma SortedFirst<T>(q: Queue<T>, n: T)
    requires Sorted(q) && n in Ids(q)
    ensures q[0].at <= Get(q, n).at
  {
    SortedHead(q, n);
  }

  /** Where a periodic timer that fired stands to the cached successor: behind it just when that is due no later. */
  lemma FiredStands<T>(q: Queue<T>, t: T, now: int)
    requires WellFormed(q) && t in Ids(q) && Get(q, t).at <= now && Get(q, t).periodic && Next(q, t).Some?
    ensures var at, n, q1 := Get(q, t).at + Get(q, t).usecs, Next(q, t).value, Fire(q, t, now);
      && n in Ids(q1) && n != t
      && (Get(q1, n).at <= at ==> Behind(q1, n, t)) && (Get(q1, n).at > at ==> Behind(q1, t, n))
  {
    hide Insert, Behind, Next, Get, Ids, ResetAll, Remove, Sorted, Distinct, Fixed, AllAllowed, Pending, Periodics;
    WellFormedOrder(q);
    NextStays(q, t, now);
    var e, n := Get(q, t), Next(q, t).value;
    AllowedOf(q, Fixed(q), t);
    ResetsKeep(q, e.resets, now);
    ResetsGet(q, e.resets, now, t);
    var r := ResetAll(q, e.resets, now);
    WellFormedOrder(r);
    RemoveKeeps(r, t);
    RemoveSorted(r, t);
    assert n in Ids(r) by { NextBehind(q, t); }
    RemoveGet(r, t, n);
    InsertAfter(Remove(r, t), e.(at := e.at + e.usecs), n);
    InsertGet(Remove(r, t), e.(at := e.at + e.usecs), n);
  }

  /**
   When a run makes up for a timer's further expirations: the timer is called again in this run if and only if it is
   still due and the timer behind it is due no later than its next expiration.
   */
  lemma CalledAgainIff<T>(q: Queue<T>, t: T, now: int)
    requires WellFormed(q) && t in Ids(q) && Get(q, t).at <= now && Get(q, t).periodic && AllHarmless(q, now)
    ensures var next := Get(q, t).at + Get(q, t).usecs;
      FiredCount(RunFrom(q, Some(t), now).fired, t) >= 2
      <==> next <= now && Next(q, t).Some? && Next(q, t).value in Ids(q) && Get(q, Next(q, t).value).at <= next
  {
    hide Pending, Fire, Behind, Next, Get, Ids, WellFormed, HarmlessBut;
    var q1, n := Fire(q, t, now), Next(q, t);
    var next := Get(q, t).at + Get(q, t).usecs;
    FireKeeps(q, t, now);
    NextStays(q, t, now);
    FiredGet(q, t, now);
    StaysHarmless(q, t, now, {});
    assert RunFrom(q, Some(t), now).fired[1..] == RunFrom(q1, n, now).fired;
    if n.Some? {
      FireGet(q, t, now, n.value);
      FiredStands(q, t, now);
      HarmlessWhenDue(q, t, now);
      if n.value in Get(q, t).resets {
        ResetIsPositive(q, t, n.value);
      }
      if Get(q, n.value).at <= next <= now {
        RunMissesNothing(q1, n.value, now, t);
      } else if Get(q1, n.value).at <= now && next < Get(q1, n.value).at {
        NotReached(q1, n, now, t);
      } else if next > now && Get(q1, n.value).at <= now {
        NotDueNotCalled(q1, n, now, t);
      }
    }
  }

  /**
   A run from the head makes up for every timer that has only one expiration to make up for: afterwards it is gone, or
   not due.
   */
  lemma RunCatchesUp<T>(q: Queue<T>, now: int, x: T)
    requires WellFormed(q) && q != [] && x in Ids(q) && DueResetNothing(q, now)
    requires !Get(q, x).periodic || Get(q, x).at + Get(q, x).usecs > now
    ensures var run := RunFrom(q, Some(q[0].id), now); x in Ids(run.queue) ==> Get(run.queue, x).at > now
  {
    var run := RunFrom(q, Some(q[0].id), now);
    RunAdvances(q, Some(q[0].id), now, x);
    if Get(q, x).at <= now {
      QuietIsHarmless(q, now);
      BehindHead(q, x);
      RunMissesNothing(q, q[0].id, now, x);
      if Get(q, x).periodic {
        AllowedOf(q, Fixed(q), x);
        AtLeast(FiredCount(run.fired, x), Get(q, x).usecs);
      }
    } else {
      NotDueNotCalled(q, Some(q[0].id), now, x);
    }
  }

  lemma AtLeast(c: nat, u: nat)
    ensures c >= 1 ==> c * u >= u
  {
  }

  /** A timer alone in the list gets one callback per run: it is made up for if and only if one expiration was pending. */
  lemma LoneTimerCatchesUpIff<T>(e: Entry<T>, now: int)
    requires WellFormed([e]) && e.at <= now && e.resets == []
    ensures var run := RunFrom([e], Some(e.id), now);
      && run.fired == [(e.id, e.at)]
      && ((e.id in Ids(run.queue) ==> Get(run.queue, e.id).at > now) <==> Expirations(e, now) == 1)
  {
    var q := [e];
    FireKeeps(q, e.id, now);
    assert Next(q, e.id) == None;
    assert Get(q, e.id) == e;
    var run := RunFrom(q, Some(e.id), now);
    var rest := RunFrom(Fire(q, e.id, now), None, now);
    assert rest == Run(Fire(q, e.id, now), [], []);
    assert run.queue == rest.queue && run.fired == [(e.id, e.at)] + rest.fired;
    if e.periodic {
      FiredGet(q, e.id, now);
      NextExpiration(e, now);
      ExpirationsZero(e.(at := e.at + e.usecs), now);
    }
  }

  lemma ExpirationsZero<T>(e: Entry<T>, now: int)
    requires e.periodic && e.usecs > 0
    ensures Expirations(e, now) == 0 <==> e.at > now
  {
    if e.at <= now {
      assert (now - e.at) / e.usecs >= 0;
    }
  }

  /**
   Two periodic timers without an interval, due at the same time, hand over to each other for ever: after two rounds the
   loop is where it was.
   */
  lemma ZeroPeriodsCycle<T>(a: Entry<T>, b: Entry<T>, now: int)
    requires a.id != b.id && a.at == b.at <= now && a.periodic && b.periodic && a.usecs == b.usecs == 0
    requires a.resets == [] && b.resets == []
    ensures Next([a, b], a.id) == Some(b.id) && Fire([a, b], a.id, now) == [b, a]
    ensures Next([b, a], b.id) == Some(a.id) && Fire([b, a], b.id, now) == [a, b]
  {
    assert [a, b][1..] == [b] && [b, a][1..] == [a];
    FireSwaps(a, b, now);
    FireSwaps(b, a, now);
  }

  lemma FireSwaps<T>(a: Entry<T>, b: Entry<T>, now: int)
    requires a.id != b.id && a.at == b.at <= now && a.periodic && a.usecs == 0 && a.resets == []
    ensures Fire([a, b], a.id, now) == [b, a]
  {
    assert [a, b][1..] == [b];
    assert Remove([a, b], a.id) == [b];
    assert Insert([b], a) == [b] + Insert([], a);
  }

  // ----- a callback that resets timers that are due

  /** The run is at `cur`, in front of the due timer `h`, and only the callback of `h` may reset timers that are due. */
  ghost predicate Turn<T>(q: Queue<T>, cur: T, h: T, now: int) {
    && WellFormed(q) && cur in Ids(q) && h in Ids(q) && Behind(q, cur, h) && Get(q, h).at <= now
    && HarmlessBut(q, now, {h})
  }

  lemma TurnGoesOn<T>(q: Queue<T>, cur: T, h: T, now: int)
    requires Turn(q, cur, h, now) && cur != h
    ensures Get(q, cur).at <= now && Next(q, cur).Some? && WellFormed(Fire(q, cur, now))
    ensures Pending(Fire(q, cur, now), now) < Pending(q, now)
    ensures Turn(Fire(q, cur, now), Next(q, cur).value, h, now)
    ensures Harmless(q, cur, now) && Get(Fire(q, cur, now), h) == Get(q, h)
  {
    hide Pending, Fire, Behind, Next, Get, Ids, Harmless;
    WellFormedOrder(q);
    BehindLater(q, cur, h);
    assert Harmless(q, cur, now);
    FireKeeps(q, cur, now);
    NextStays(q, cur, now);
    StaysHarmless(q, cur, now, {h});
    HarmlessSpares(q, cur, now, h);
    StillBehind(q, cur, now, h);
    FireGet(q, cur, now, h);
  }

  /** The queue when the run reaches `h`. */
  ghost function AtTurn<T>(q: Queue<T>, cur: T, h: T, now: int): (r: Queue<T>)
    requires Turn(q, cur, h, now)
    ensures Turn(r, h, h, now) && Get(r, h) == Get(q, h)
    decreases Pending(q, now)
  {
    if cur == h then q
    else
      TurnGoesOn(q, cur, h, now);
      AtTurn(Fire(q, cur, now), Next(q, cur).value, h, now)
  }

  /** The callbacks made from the turn of `h` on are the last ones of the run. */
  lemma {:induction false} TurnCounts<T>(q: Queue<T>, cur: T, h: T, now: int, x: T)
    requires Turn(q, cur, h, now)
    ensures FiredCount(RunFrom(q, Some(cur), now).fired, x)
         >= FiredCount(RunFrom(AtTurn(q, cur, h, now), Some(h), now).fired, x)
    decreases Pending(q, now)
  {
    hide Pending, Fire, Next, Get, Ids, Turn;
    if cur != h {
      assert WellFormed(q) && cur in Ids(q) by { TurnWellFormed(q, cur, h, now); }
      TurnGoesOn(q, cur, h, now);
      TurnWellFormed(Fire(q, cur, now), Next(q, cur).value, h, now);
      TurnCounts(Fire(q, cur, now), Next(q, cur).value, h, now, x);
      assert RunFrom(q, Some(cur), now).fired[1..] == RunFrom(Fire(q, cur, now), Next(q, cur), now).fired;
    }
  }

  lemma TurnWellFormed<T>(q: Queue<T>, cur: T, h: T, now: int)
    requires Turn(q, cur, h, now)
    ensures WellFormed(q) && cur in Ids(q) && h in Ids(q)
  {
  }

  /** A due timer behind `h` is still behind it at the turn of `h`, and has had no callback. */
  lemma {:induction false} TurnSparesBehind<T>(q: Queue<T>, cur: T, h: T, now: int, x: T)
    requires Turn(q, cur, h, now) && Behind(q, h, x) && x != h && x in Ids(q) && Get(q, x).at <= now
    ensures var r := AtTurn(q, cur, h, now);
      && Behind(r, h, x) && x in Ids(r) && Get(r, x) == Get(q, x)
      && FiredCount(RunFrom(q, Some(cur), now).fired, x) == FiredCount(RunFrom(r, Some(h), now).fired, x)
    decreases Pending(q, now)
  {
    hide Pending, Fire, Next, Get, Ids, Behind, HarmlessBut, WellFormed, Harmless;
    if cur != h {
      WellFormedOrder(q);
      TurnGoesOn(q, cur, h, now);
      var q1, n := Fire(q, cur, now), Next(q, cur).value;
      BehindTrans(q, cur, h, x);
      if x == cur {
        BehindOrder(q, cur, h);
      }
      HarmlessSpares(q, cur, now, x);
      HarmlessSpares(q, cur, now, h);
      FireBehind(q, cur, now, h, x);
      FireGet(q, cur, now, x);
      TurnSparesBehind(q1, n, h, now, x);
      assert RunFrom(q, Some(cur), now).fired[1..] == RunFrom(q1, Some(n), now).fired;
    }
  }

  /** A timer between the current one and `h` gets its callback before `h` does. */
  lemma {:induction false} FiresBeforeTurn<T>(q: Queue<T>, cur: T, h: T, now: int, x: T)
    requires Turn(q, cur, h, now) && Behind(q, cur, x) && Behind(q, x, h) && x != h
    ensures FiredCount(RunFrom(q, Some(cur), now).fired, x) >= 1
    decreases Pending(q, now)
  {
    hide Pending, Fire, Next, Get, Ids, Behind, HarmlessBut, WellFormed, Harmless;
    WellFormedOrder(q);
    BehindIn(q, x, h);
    if cur == h {
      BehindOrder(q, x, h);
    }
    TurnGoesOn(q, cur, h, now);
    var q1, n := Fire(q, cur, now), Next(q, cur).value;
    var run := RunFrom(q, Some(cur), now);
    assert run.fired[1..] == RunFrom(q1, Some(n), now).fired && run.fired[0].0 == cur;
    if x != cur {
      BehindLater(q, x, h);
      HarmlessSpares(q, cur, now, x);
      HarmlessSpares(q, cur, now, h);
      StillBehind(q, cur, now, x);
      FireBehind(q, cur, now, x, h);
      FiresBeforeTurn(q1, n, h, now, x);
    }
  }

  /** After the callback of `h` none is left that resets a timer that is due. */
  lemma FireMakesHarmless<T>(q: Queue<T>, h: T, now: int)
    requires WellFormed(q) && h in Ids(q) && Get(q, h).at <= now && HarmlessBut(q, now, {h})
    ensures AllHarmless(Fire(q, h, now), now)
  {
    hide Fire, Get, Ids, WellFormed;
    var q1 := Fire(q, h, now);
    forall y, x | y in Ids(q1) && Get(q1, y).at <= now && x in Get(q1, y).resets && x in Ids(q1)
      ensures Get(q1, x).at > now
    {
      FireDue(q, h, now, y);
      FireDue(q, h, now, x);
      if y == h {
        assert x in Ids(q) && x in Get(q, h).resets;
        ResetIsPositive(q, h, x);
      } else {
        assert Harmless(q, y, now);
      }
    }
  }

  /** A due timer, other than `h`, that the callback of `h` does not reset. */
  ghost predicate Awaits<T>(q: Queue<T>, h: T, now: int, x: T)
    requires h in Ids(q)
  {
    x in Ids(q) && x != h && Get(q, x).at <= now && x !in Get(q, h).resets
  }

  /** The callback of `h` resets the timer that the loop goes to next. */
  ghost predicate ResetsNext<T>(q: Queue<T>, h: T)
    requires h in Ids(q)
  {
    Next(q, h).Some? && Next(q, h).value in Get(q, h).resets
  }

  /** From the turn of `h` on, what awaits its callback behind `h` gets it unless the callback of `h` resets the next. */
  lemma TurnDecides<T>(q: Queue<T>, h: T, now: int, x: T)
    requires Turn(q, h, h, now) && Awaits(q, h, now, x) && Behind(q, h, x)
    ensures ResetsNext(q, h) ==> FiredCount(RunFrom(q, Some(h), now).fired, x) == 0
    ensures !ResetsNext(q, h) ==> FiredCount(RunFrom(q, Some(h), now).fired, x) >= 1
  {
    hide Pending, Fire, Behind, Next, Get, Ids, HarmlessBut, WellFormed;
    FireKeeps(q, h, now);
    NextStays(q, h, now);
    WellFormedOrder(q);
    BehindNext(q, h, x);
    var q1, n := Fire(q, h, now), Next(q, h).value;
    assert RunFrom(q, Some(h), now).fired[1..] == RunFrom(q1, Some(n), now).fired;
    if n in Get(q, h).resets {
      FireGet(q, h, now, n);
      ResetIsPositive(q, h, n);
    } else {
      FireMakesHarmless(q, h, now);
      StillBehind(q, h, now, x);
      FireGet(q, h, now, x);
      RunMissesNothing(q1, n, now, x);
    }
  }

  /**
   A timer anywhere in the list whose callback resets other timers (the omit timer): every other timer that is due and
   not reset gets its callback in this run, unless that callback resets the timer the loop was to go to next.  In that
   case the run ends there, and what is due behind it waits for the next run.
   */
  lemma ResetterMissesIff<T>(q: Queue<T>, h: T, now: int)
    requires q != [] && Turn(q, q[0].id, h, now)
    ensures var fired := RunFrom(q, Some(q[0].id), now).fired;
      (forall x :: Awaits(q, h, now, x) ==> FiredCount(fired, x) >= 1)
      <==> !(ResetsNext(AtTurn(q, q[0].id, h, now), h) && exists x :: Awaits(q, h, now, x) && Behind(q, h, x))
  {
    var first := q[0].id;
    var fired, r := RunFrom(q, Some(first), now).fired, AtTurn(q, first, h, now);
    forall x | Awaits(q, h, now, x)
      ensures Behind(q, h, x) || FiredCount(fired, x) >= 1
      ensures Behind(q, h, x) ==> (FiredCount(fired, x) >= 1 <==> !ResetsNext(r, h))
    {
      AwaitsItsTurn(q, h, now, x);
    }
  }

  lemma AwaitsItsTurn<T>(q: Queue<T>, h: T, now: int, x: T)
    requires q != [] && Turn(q, q[0].id, h, now) && Awaits(q, h, now, x)
    ensures var fired := RunFrom(q, Some(q[0].id), now).fired;
      && (Behind(q, h, x) || FiredCount(fired, x) >= 1)
      && (Behind(q, h, x) ==> (FiredCount(fired, x) >= 1 <==> !ResetsNext(AtTurn(q, q[0].id, h, now), h)))
  {
    var first := q[0].id;
    BehindHead(q, x);
    BehindOrder(q, h, x);
    hide Pending, Fire, Behind, Next, Get, HarmlessBut, WellFormed, ResetsNext;
    if Behind(q, h, x) {
      TurnSparesBehind(q, first, h, now, x);
      TurnDecides(AtTurn(q, first, h, now), h, now, x);
    } else {
      FiresBeforeTurn(q, first, h, now, x);
    }
  }

  // ----- when the timer behind the resetting one is known before the run

  /** No timer in front of `h` is due again after its callback: it is a one-shot, or has one expiration pending. */
  ghost predicate OnceBefore<T>(q: Queue<T>, h: T, now: int) {
    forall y :: y in Ids(q) && Behind(q, y, h) && y != h ==> !Get(q, y).periodic || Get(q, y).at + Get(q, y).usecs > now
  }

  /** A timer that is due after the round of `cur`, in front of `h`, was due before, is not `cur` and was not touched. */
  lemma DueUntouched<T>(q: Queue<T>, cur: T, h: T, now: int, y: T)
    requires Turn(q, cur, h, now) && cur != h && OnceBefore(q, h, now)
    requires y in Ids(Fire(q, cur, now)) && Get(Fire(q, cur, now), y).at <= now
    ensures y != cur && y in Ids(q) && y !in Get(q, cur).resets && Get(Fire(q, cur, now), y) == Get(q, y)
  {
    hide Fire, Get, Ids, Behind, WellFormed, Next, Pending, HarmlessBut;
    TurnGoesOn(q, cur, h, now);
    FireKeeps(q, cur, now);
    FireDue(q, cur, now, y);
    if y != cur {
      FireGet(q, cur, now, y);
    }
  }

  /** Two due timers that are not `cur` are in the order after the round that they were in before. */
  lemma DueOrder<T>(q: Queue<T>, cur: T, h: T, now: int, y: T, z: T)
    requires Turn(q, cur, h, now) && cur != h && OnceBefore(q, h, now)
    requires var q1 := Fire(q, cur, now);
      y in Ids(q1) && z in Ids(q1) && Get(q1, y).at <= now && Get(q1, z).at <= now && Behind(q1, y, z)
    ensures y in Ids(q) && z in Ids(q) && Behind(q, y, z)
  {
    hide Fire, Get, Ids, Behind, WellFormed, Next, Pending, HarmlessBut, OnceBefore;
    TurnGoesOn(q, cur, h, now);
    DueUntouched(q, cur, h, now, y);
    DueUntouched(q, cur, h, now, z);
    WellFormedOrder(q);
    WellFormedOrder(Fire(q, cur, now));
    BehindOrder(q, y, z);
    if Behind(q, z, y) {
      FireBehind(q, cur, now, z, y);
      BehindOrder(Fire(q, cur, now), y, z);
      assert y == z;
    }
  }

  lemma OnceStays<T>(q: Queue<T>, cur: T, h: T, now: int)
    requires Turn(q, cur, h, now) && cur != h && OnceBefore(q, h, now)
    ensures OnceBefore(Fire(q, cur, now), h, now)
  {
    hide Fire, Get, Ids, Behind, WellFormed, Next, Pending, HarmlessBut;
    TurnGoesOn(q, cur, h, now);
    var q1 := Fire(q, cur, now);
    WellFormedOrder(q1);
    forall y | y in Ids(q1) && Behind(q1, y, h) && y != h
      ensures !Get(q1, y).periodic || Get(q1, y).at + Get(q1, y).usecs > now
    {
      BehindLater(q1, y, h);
      DueOrder(q, cur, h, now, y, h);
      DueUntouched(q, cur, h, now, y);
    }
  }

  lemma SameNext<T>(q: Queue<T>, cur: T, h: T, now: int, x: T)
    requires Turn(q, cur, h, now) && cur != h && OnceBefore(q, h, now)
    requires x in Ids(q) && Behind(q, h, x) && x != h && Get(q, x).at <= now
    ensures var q1 := Fire(q, cur, now);
      && Next(q1, h) == Next(q, h) && x in Ids(q1) && Behind(q1, h, x) && Get(q1, x) == Get(q, x)
  {
    hide Fire, Get, Ids, Behind, WellFormed, Next, Pending, HarmlessBut, Harmless, OnceBefore;
    TurnGoesOn(q, cur, h, now);
    var q1 := Fire(q, cur, now);
    WellFormedOrder(q);
    WellFormedOrder(q1);
    BehindTrans(q, cur, h, x);
    BehindOrder(q, cur, h);
    HarmlessSpares(q, cur, now, x);
    HarmlessSpares(q, cur, now, h);
    FireGet(q, cur, now, x);
    FireBehind(q, cur, now, h, x);
    BehindNext(q, h, x);
    var n := Next(q, h).value;
    NextBehind(q, h);
    BehindLater(q, n, x);
    BehindTrans(q, cur, h, n);
    if n != x {
      HarmlessSpares(q, cur, now, n);
      FireGet(q, cur, now, n);
    }
    FireBehind(q, cur, now, h, n);
    BehindNext(q1, h, n);
    var m := Next(q1, h).value;
    NextBehind(q1, h);
    BehindLater(q1, m, n);
    DueOrder(q, cur, h, now, h, m);
    BehindNext(q, h, m);
    DueUntouched(q, cur, h, now, m);
    FireBehind(q, cur, now, n, m);
    BehindOrder(q1, n, m);
  }

  lemma {:induction false} NextAtTurn<T>(q: Queue<T>, cur: T, h: T, now: int, x: T)
    requires Turn(q, cur, h, now) && OnceBefore(q, h, now)
    requires x in Ids(q) && Behind(q, h, x) && x != h && Get(q, x).at <= now
    ensures Next(AtTurn(q, cur, h, now), h) == Next(q, h)
    decreases Pending(q, now)
  {
    hide Fire, Get, Ids, Behind, WellFormed, Next, Pending, HarmlessBut, OnceBefore, Turn;
    if cur != h {
      TurnGoesOn(q, cur, h, now);
      SameNext(q, cur, h, now, x);
      OnceStays(q, cur, h, now);
      NextAtTurn(Fire(q, cur, now), Next(q, cur).value, h, now, x);
    }
  }

  /**
   The same in terms of the list before the run, when no timer in front of the resetting one is called twice: then the
   timer the loop goes to next is the one that stands behind it now.
   */
  lemma ResetterMissesIffNow<T>(q: Queue<T>, h: T, now: int)
    requires q != [] && Turn(q, q[0].id, h, now) && OnceBefore(q, h, now)
    ensures var fired := RunFrom(q, Some(q[0].id), now).fired;
      (forall x :: Awaits(q, h, now, x) ==> FiredCount(fired, x) >= 1)
      <==> !(ResetsNext(q, h) && exists x :: Awaits(q, h, now, x) && Behind(q, h, x))
  {
    hide Fire, Get, Behind, Next, Pending, HarmlessBut, OnceBefore, RunFrom;
    ResetterMissesIff(q, h, now);
    if x :| Awaits(q, h, now, x) && Behind(q, h, x) {
      NextAtTurn(q, q[0].id, h, now, x);
    }
  }
}
