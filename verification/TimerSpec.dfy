/**
 The timer queue of timer.c as a value: a sorted sequence of entries, and what one tmr_run does to it.

 Times are total microseconds here; module TimerQueue relates them to the struct timeval of the code.
 `T` identifies a timer (a pointer in the code).
 */
module TimerSpec {
  import opened CText

  /** An active timer: when it is due, its interval, and the timers its callback resets (client data). */
  datatype Entry<T> = Entry(id: T, at: int, usecs: int, periodic: bool, resets: seq<T>)

  type Queue<T> = seq<Entry<T>>

  // ----- the list

  ghost predicate Sorted<T>(q: Queue<T>) {
    |q| > 1 ==> q[0].at <= q[1].at && Sorted(q[1..])
  }

  ghost function Ids<T>(q: Queue<T>): set<T> {
    if q == [] then {} else {q[0].id} + Ids(q[1..])
  }

  ghost predicate Distinct<T>(q: Queue<T>) {
    q != [] ==> q[0].id !in Ids(q[1..]) && Distinct(q[1..])
  }

  /** list_add: before the first timer that is due later. */
  ghost function Insert<T>(q: Queue<T>, e: Entry<T>): Queue<T> {
    if q == [] || e.at < q[0].at then [e] + q else [q[0]] + Insert(q[1..], e)
  }

  /** list_remove */
  ghost function Remove<T>(q: Queue<T>, id: T): Queue<T> {
    if q == [] then [] else if q[0].id == id then q[1..] else [q[0]] + Remove(q[1..], id)
  }

  ghost function Get<T>(q: Queue<T>, id: T): (e: Entry<T>)
    requires id in Ids(q)
    ensures e.id == id && e in q
  {
    if q[0].id == id then q[0] else Get(q[1..], id)
  }

  /** `t->next` */
  ghost function Next<T>(q: Queue<T>, id: T): Option<T> {
    if q == [] then None
    else if q[0].id == id then (if |q| == 1 then None else Some(q[1].id))
    else Next(q[1..], id)
  }

  /** An assignment to the time of an active timer, followed by list_resort. */
  ghost function Move<T>(q: Queue<T>, id: T, at: int): Queue<T>
  {
    if id in Ids(q) then Insert(Remove(q, id), Get(q, id).(at := at)) else q
  }

  lemma InsertKeeps<T>(q: Queue<T>, e: Entry<T>)
    ensures Ids(Insert(q, e)) == Ids(q) + {e.id}
    ensures Distinct(q) && e.id !in Ids(q) ==> Distinct(Insert(q, e)) && Get(Insert(q, e), e.id) == e
    ensures |Insert(q, e)| == |q| + 1
  {
    if q == [] || e.at < q[0].at {
      assert Insert(q, e)[1..] == q;
    } else {
      InsertKeeps(q[1..], e);
      assert Insert(q, e)[1..] == Insert(q[1..], e);
    }
  }

  lemma InsertSorted<T>(q: Queue<T>, e: Entry<T>)
    requires Sorted(q)
    ensures Sorted(Insert(q, e))
    ensures Insert(q, e)[0] == (if q == [] || e.at < q[0].at then e else q[0])
  {
    if q == [] || e.at < q[0].at {
      assert Insert(q, e)[1..] == q;
    } else {
      InsertSorted(q[1..], e);
      assert Insert(q, e)[1..] == Insert(q[1..], e);
    }
  }

  lemma InsertGet<T>(q: Queue<T>, e: Entry<T>, x: T)
    requires x in Ids(q) && x != e.id
    ensures x in Ids(Insert(q, e)) && Get(Insert(q, e), x) == Get(q, x)
  {
    InsertKeeps(q, e);
    if e.at < q[0].at {
      assert Insert(q, e)[1..] == q;
    } else {
      assert Insert(q, e)[1..] == Insert(q[1..], e);
      if q[0].id != x {
        InsertGet(q[1..], e, x);
      }
    }
  }

  lemma RemoveKeeps<T>(q: Queue<T>, id: T)
    requires Distinct(q) && id in Ids(q)
    ensures Ids(Remove(q, id)) == Ids(q) - {id}
    ensures Distinct(Remove(q, id))
    ensures |Remove(q, id)| == |q| - 1
  {
    if q[0].id != id {
      RemoveKeeps(q[1..], id);
      assert Remove(q, id)[1..] == Remove(q[1..], id);
    }
  }

  lemma RemoveSorted<T>(q: Queue<T>, id: T)
    requires Sorted(q)
    ensures Sorted(Remove(q, id))
    ensures Remove(q, id) != [] ==> q[0].at <= Remove(q, id)[0].at
  {
    if q != [] && q[0].id != id {
      RemoveSorted(q[1..], id);
      assert Remove(q, id)[1..] == Remove(q[1..], id);
    }
  }

  lemma RemoveGet<T>(q: Queue<T>, id: T, x: T)
    requires Distinct(q) && id in Ids(q) && x in Ids(q) && x != id
    ensures x in Ids(Remove(q, id)) && Get(Remove(q, id), x) == Get(q, x)
  {
    RemoveKeeps(q, id);
    if q[0].id != id {
      assert Remove(q, id)[1..] == Remove(q[1..], id);
      if q[0].id != x {
        RemoveGet(q[1..], id, x);
      }
    }
  }

  lemma SortedHead<T>(q: Queue<T>, x: T)
    requires Sorted(q) && x in Ids(q)
    ensures q[0].at <= Get(q, x).at
  {
    if q[0].id != x {
      SortedHead(q[1..], x);
    }
  }

  lemma GetOf<T>(q: Queue<T>, e: Entry<T>)
    requires Distinct(q) && e in q
    ensures e.id in Ids(q) && Get(q, e.id) == e
  {
    if q[0] != e {
      GetOf(q[1..], e);
    }
  }

  /** What Move keeps: the timers, their order in time, and everything but one time. */
  lemma MoveKeeps<T>(q: Queue<T>, id: T, at: int)
    requires Sorted(q) && Distinct(q) && id in Ids(q)
    ensures Sorted(Move(q, id, at)) && Distinct(Move(q, id, at)) && Ids(Move(q, id, at)) == Ids(q)
    ensures Get(Move(q, id, at), id) == Get(q, id).(at := at)
  {
    RemoveKeeps(q, id);
    RemoveSorted(q, id);
    InsertKeeps(Remove(q, id), Get(q, id).(at := at));
    InsertSorted(Remove(q, id), Get(q, id).(at := at));
  }

  lemma MoveGet<T>(q: Queue<T>, id: T, at: int, x: T)
    requires Distinct(q) && id in Ids(q) && x in Ids(q) && x != id
    ensures x in Ids(Move(q, id, at)) && Get(Move(q, id, at), x) == Get(q, x)
  {
    RemoveGet(q, id, x);
    InsertGet(Remove(q, id), Get(q, id).(at := at), x);
  }

  // ----- tmr_run

  ghost function Periodics<T>(q: Queue<T>): set<T> {
    if q == [] then {} else (if q[0].periodic then {q[0].id} else {}) + Periodics(q[1..])
  }

  /** The timers without a positive interval. */
  ghost function Fixed<T>(q: Queue<T>): set<T> {
    if q == [] then {} else (if q[0].usecs <= 0 then {q[0].id} else {}) + Fixed(q[1..])
  }

  /** Periodic timers have a positive interval, and so have the timers, other than its own, that a callback resets. */
  ghost predicate Allowed<T>(e: Entry<T>, fixed: set<T>) {
    && (e.periodic ==> e.usecs > 0)
    && forall k :: 0 <= k < |e.resets| ==> e.resets[k] != e.id && e.resets[k] !in fixed
  }

  ghost predicate AllAllowed<T>(q: Queue<T>, fixed: set<T>) {
    q != [] ==> Allowed(q[0], fixed) && AllAllowed(q[1..], fixed)
  }

  ghost predicate WellFormed<T>(q: Queue<T>) {
    Sorted(q) && Distinct(q) && AllAllowed(q, Fixed(q))
  }

  /** The expirations of a timer up to `now`; a one-shot counts one however late it is due. */
  ghost function Expirations<T>(e: Entry<T>, now: int): nat {
    if !e.periodic then 1 else if e.at > now || e.usecs <= 0 then 0 else (now - e.at) / e.usecs + 1
  }

  ghost function Pending<T>(q: Queue<T>, now: int): nat {
    if q == [] then 0 else Expirations(q[0], now) + Pending(q[1..], now)
  }

  /**
   tmr_reset by a callback of the run, for those of the timers that are still active: due one interval from `now`.
   */
  ghost function ResetAll<T>(q: Queue<T>, ids: seq<T>, now: int): Queue<T>
    decreases |ids|
  {
    if ids == [] then q
    else if ids[0] !in Ids(q) then ResetAll(q, ids[1..], now)
    else ResetAll(Move(q, ids[0], now + Get(q, ids[0]).usecs), ids[1..], now)
  }

  /** One round of the loop body: the callback, then the timer itself is rescheduled or cancelled. */
  ghost function Fire<T>(q: Queue<T>, t: T, now: int): Queue<T> {
    if t !in Ids(q) then q
    else
      var q1 := ResetAll(q, Get(q, t).resets, now);
      if t !in Ids(q1) then q1
      else if Get(q1, t).periodic then Move(q1, t, Get(q1, t).at + Get(q1, t).usecs)
      else Remove(q1, t)
  }

  // ----- what one round keeps

  lemma AllowedOf<T>(q: Queue<T>, ps: set<T>, x: T)
    requires AllAllowed(q, ps) && x in Ids(q)
    ensures Allowed(Get(q, x), ps)
  {
    if q[0].id != x {
      AllowedOf(q[1..], ps, x);
    }
  }

  lemma PeriodicOf<T>(q: Queue<T>, x: T)
    requires Distinct(q)
    ensures x in Periodics(q) <==> x in Ids(q) && Get(q, x).periodic
  {
    if q != [] && q[0].id != x {
      PeriodicOf(q[1..], x);
    } else if q != [] {
      PeriodicsAreIds(q[1..]);
    }
  }

  lemma PeriodicsAreIds<T>(q: Queue<T>)
    ensures Periodics(q) <= Ids(q)
  {
  }

  lemma FixedOf<T>(q: Queue<T>, x: T)
    requires Distinct(q)
    ensures x in Fixed(q) <==> x in Ids(q) && Get(q, x).usecs <= 0
  {
    if q != [] && q[0].id != x {
      FixedOf(q[1..], x);
    } else if q != [] {
      FixedAreIds(q[1..]);
    }
  }

  lemma FixedAreIds<T>(q: Queue<T>)
    ensures Fixed(q) <= Ids(q)
  {
  }

  lemma AllowedMore<T>(q: Queue<T>, a: set<T>, b: set<T>)
    requires AllAllowed(q, a) && b <= a
    ensures AllAllowed(q, b)
  {
  }

  lemma InsertAllowed<T>(q: Queue<T>, e: Entry<T>, ps: set<T>, now: int)
    ensures AllAllowed(Insert(q, e), ps) <==> AllAllowed(q, ps) && Allowed(e, ps)
    ensures Periodics(Insert(q, e)) == Periodics(q) + (if e.periodic then {e.id} else {})
    ensures Fixed(Insert(q, e)) == Fixed(q) + (if e.usecs <= 0 then {e.id} else {})
    ensures Pending(Insert(q, e), now) == Pending(q, now) + Expirations(e, now)
  {
    if q == [] || e.at < q[0].at {
      assert Insert(q, e)[1..] == q;
    } else {
      InsertAllowed(q[1..], e, ps, now);
      assert Insert(q, e)[1..] == Insert(q[1..], e);
    }
  }

  lemma RemoveAllowed<T>(q: Queue<T>, id: T, ps: set<T>, now: int)
    requires Distinct(q) && id in Ids(q)
    ensures AllAllowed(q, ps) ==> AllAllowed(Remove(q, id), ps)
    ensures Pending(q, now) == Pending(Remove(q, id), now) + Expirations(Get(q, id), now)
  {
    if q[0].id != id {
      RemoveAllowed(q[1..], id, ps, now);
      assert Remove(q, id)[1..] == Remove(q[1..], id);
    }
  }

  lemma RemoveSets<T>(q: Queue<T>, id: T)
    requires Distinct(q) && id in Ids(q)
    ensures Periodics(Remove(q, id)) == Periodics(q) - {id} && Fixed(Remove(q, id)) == Fixed(q) - {id}
  {
    if q[0].id != id {
      RemoveSets(q[1..], id);
      assert Remove(q, id)[1..] == Remove(q[1..], id);
    } else {
      PeriodicsAreIds(q[1..]);
      FixedAreIds(q[1..]);
    }
  }

  lemma MoveAllowed<T>(q: Queue<T>, id: T, at: int, now: int)
    requires WellFormed(q) && id in Ids(q)
    ensures WellFormed(Move(q, id, at)) && Ids(Move(q, id, at)) == Ids(q)
    ensures Periodics(Move(q, id, at)) == Periodics(q) && Fixed(Move(q, id, at)) == Fixed(q)
    ensures Pending(Move(q, id, at), now) ==
            Pending(q, now) - Expirations(Get(q, id), now) + Expirations(Get(q, id).(at := at), now)
  {
    hide Insert, Remove;
    var e, fixed := Get(q, id), Fixed(q);
    AllowedOf(q, fixed, id);
    PeriodicOf(q, id);
    FixedOf(q, id);
    RemoveAllowed(q, id, fixed, now);
    RemoveSets(q, id);
    InsertAllowed(Remove(q, id), e.(at := at), fixed, now);
    assert Fixed(Move(q, id, at)) == fixed;
    assert Periodics(Move(q, id, at)) == Periodics(q);
    MoveKeeps(q, id, at);
  }

  /** After the resets of a callback: only the timers named are moved, and those are not due. */
  lemma {:induction false} ResetsKeep<T>(q: Queue<T>, ids: seq<T>, now: int)
    requires WellFormed(q) && forall k :: 0 <= k < |ids| ==> ids[k] !in Fixed(q)
    ensures WellFormed(ResetAll(q, ids, now)) && Ids(ResetAll(q, ids, now)) == Ids(q)
    ensures Periodics(ResetAll(q, ids, now)) == Periodics(q) && Fixed(ResetAll(q, ids, now)) == Fixed(q)
    ensures Pending(ResetAll(q, ids, now), now) <= Pending(q, now)
    decreases |ids|
  {
    hide Move, AllAllowed, Sorted, Distinct, Fixed, Periodics;
    if ids != [] {
      var id := ids[0];
      if id !in Ids(q) {
        ResetsKeep(q, ids[1..], now);
      } else {
        assert Distinct(q);
        FixedOf(q, id);
        MoveAllowed(q, id, now + Get(q, id).usecs, now);
        ResetsKeep(Move(q, id, now + Get(q, id).usecs), ids[1..], now);
      }
    }
  }

  /** A timer's entry after the resets of a callback. */
  lemma {:induction false} ResetsGet<T>(q: Queue<T>, ids: seq<T>, now: int, x: T)
    requires WellFormed(q) && (forall k :: 0 <= k < |ids| ==> ids[k] !in Fixed(q)) && x in Ids(q)
    ensures x in Ids(ResetAll(q, ids, now))
    ensures x !in ids ==> Get(ResetAll(q, ids, now), x) == Get(q, x)
    ensures x in ids ==> Get(ResetAll(q, ids, now), x) == Get(q, x).(at := now + Get(q, x).usecs)
    decreases |ids|
  {
    if ids != [] {
      hide Move, WellFormed, Ids, Get, Fixed, Pending, Distinct, Sorted;
      var id := ids[0];
      assert x in ids <==> x == id || x in ids[1..];
      if id !in Ids(q) {
        ResetsGet(q, ids[1..], now, x);
      } else {
        var at := now + Get(q, id).usecs;
        MoveAllowed(q, id, at, now);
        MoveOne(q, id, at, x);
        ResetsGet(Move(q, id, at), ids[1..], now, x);
      }
    }
  }

  lemma MoveOne<T>(q: Queue<T>, id: T, at: int, x: T)
    requires WellFormed(q) && id in Ids(q) && x in Ids(q)
    ensures x in Ids(Move(q, id, at))
    ensures Get(Move(q, id, at), x) == if x == id then Get(q, x).(at := at) else Get(q, x)
  {
    hide Move, Get, Ids;
    MoveKeeps(q, id, at);
    if x != id {
      MoveGet(q, id, at, x);
    }
  }

  /** The expirations of a periodic timer fall by one when it is due and is moved on by its interval. */
  lemma NextExpiration<T>(e: Entry<T>, now: int)
    requires e.periodic && e.usecs > 0 && e.at <= now
    ensures Expirations(e, now) == Expirations(e.(at := e.at + e.usecs), now) + 1
  {
    var a, u := now - e.at, e.usecs;
    if a >= u {
      DivStep(a, u);
    }
  }

  lemma DivStep(a: int, u: int)
    requires a >= u > 0
    ensures a / u == (a - u) / u + 1
  {
    var k := (a - u) / u;
    assert a - u == u * k + (a - u) % u;
    assert a == u * (k + 1) + (a - u) % u;
    DivUnique(a, u, k + 1, (a - u) % u);
  }

  lemma Multiple(u: int, d: int)
    requires u > 0
    ensures d >= 1 ==> u * d >= u
    ensures d <= -1 ==> u * d <= -u
  {
  }

  lemma DivUnique(a: int, u: int, k: int, r: int)
    requires u > 0 && 0 <= r < u && a == u * k + r
    ensures a / u == k
  {
    var d := a / u - k;
    assert u * d == r - a % u by {
      assert a == u * (a / u) + a % u;
    }
    Multiple(u, d);
  }

  /** What one round keeps: the timer that fired is moved on or gone, and fewer expirations are pending. */
  lemma FireKeeps<T>(q: Queue<T>, t: T, now: int)
    requires WellFormed(q) && t in Ids(q) && Get(q, t).at <= now
    ensures WellFormed(Fire(q, t, now)) && Pending(Fire(q, t, now), now) < Pending(q, now)
    ensures Periodics(Fire(q, t, now)) == Periodics(q)
    ensures Ids(Fire(q, t, now)) == if Get(q, t).periodic then Ids(q) else Ids(q) - {t}
  {
    hide Move, Remove, AllAllowed, Sorted, Distinct, Ids, Get, Periodics, Fixed, Pending, ResetAll;
    var e := Get(q, t);
    AllowedOf(q, Fixed(q), t);
    ResetsKeep(q, e.resets, now);
    ResetsGet(q, e.resets, now, t);
    var q1 := ResetAll(q, e.resets, now);
    PeriodicOf(q, t);
    if e.periodic {
      NextExpiration(e, now);
      MoveAllowed(q1, t, e.at + e.usecs, now);
    } else {
      RemoveKeeps(q1, t);
      RemoveSorted(q1, t);
      RemoveAllowed(q1, t, Fixed(q1), now);
      RemoveSets(q1, t);
      AllowedMore(Remove(q1, t), Fixed(q1), Fixed(Remove(q1, t)));
      assert Periodics(q1) - {t} == Periodics(q1);
    }
  }

  /** The other timers after one round: untouched, or reset to one interval from `now`. */
  lemma FireGet<T>(q: Queue<T>, t: T, now: int, x: T)
    requires WellFormed(q) && t in Ids(q) && Get(q, t).at <= now && x in Ids(q) && x != t
    ensures x in Ids(Fire(q, t, now))
    ensures Get(Fire(q, t, now), x) ==
            if x in Get(q, t).resets then Get(q, x).(at := now + Get(q, x).usecs) else Get(q, x)
  {
    hide Move, Remove, AllAllowed, Sorted, Distinct, Ids, Get, Periodics, Fixed, Pending, ResetAll;
    var e := Get(q, t);
    AllowedOf(q, Fixed(q), t);
    ResetsKeep(q, e.resets, now);
    ResetsGet(q, e.resets, now, t);
    ResetsGet(q, e.resets, now, x);
    var q1 := ResetAll(q, e.resets, now);
    if e.periodic {
      MoveGet(q1, t, e.at + e.usecs, x);
    } else {
      RemoveGet(q1, t, x);
    }
    FireKeeps(q, t, now);
  }

  lemma NextIs<T>(q: Queue<T>, t: T)
    requires Distinct(q) && Sorted(q) && t in Ids(q) && Next(q, t).Some?
    ensures Next(q, t).value in Ids(q) && Next(q, t).value != t
    ensures Get(q, t).at <= Get(q, Next(q, t).value).at
  {
    if q[0].id != t {
      NextIs(q[1..], t);
      var n := Next(q, t).value;
      assert n in Ids(q[1..]) && q[0].id != n;
    }
  }

  // ----- the run

  /** Outcome of tmr_run: the active list, the callbacks made (timer and due time), the one-shots cancelled. */
  datatype Run<T> = Run(queue: Queue<T>, fired: seq<(T, int)>, freed: seq<T>)

  /** The loop of tmr_run from `cur`; the successor is taken before the callback, as the code does. */
  ghost function RunFrom<T>(q: Queue<T>, cur: Option<T>, now: int): Run<T>
    requires WellFormed(q) && (cur.Some? ==> cur.value in Ids(q))
    decreases Pending(q, now)
  {
    if cur.None? || Get(q, cur.value).at > now then Run(q, [], [])
    else
      var t := cur.value;
      FireKeeps(q, t, now);
      assert Next(q, t).Some? ==> Next(q, t).value in Ids(Fire(q, t, now)) by {
        if Next(q, t).Some? {
          NextIs(q, t);
        }
      }
      var rest := RunFrom(Fire(q, t, now), Next(q, t), now);
      Run(rest.queue, [(t, Get(q, t).at)] + rest.fired, (if Get(q, t).periodic then [] else [t]) + rest.freed)
  }
}
