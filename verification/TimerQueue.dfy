/**
 timer.c on the heap: the active timers are a doubly linked list sorted by time, the cancelled ones a singly linked
 list through the same `next` field.  Every operation is proved against the values of TimerSpec.
 */
module TimerQueue {
  import opened CText
  import opened TimerSpec
  import opened TimerRun

  // ----- struct timeval

  const MILLION: int := 1_000_000

  datatype Timeval = Timeval(sec: int, usec: int) {
    ghost predicate Normal() {
      0 <= usec < MILLION
    }

    /** The time in microseconds. */
    ghost function Usecs(): int {
      sec * MILLION + usec
    }
  }

  /** C division and remainder truncate toward zero. */
  function Quotient(a: int, b: int): int
    requires b > 0
  {
    if a >= 0 then a / b else -(-a / b)
  }

  function Remainder(a: int, b: int): int
    requires b > 0
  {
    a - Quotient(a, b) * b
  }

  /** add_usecs */
  function AddUsecs(t: Timeval, usecs: int): Timeval {
    var u := Timeval(t.sec + Quotient(usecs, MILLION), t.usec + Remainder(usecs, MILLION));
    if u.usec >= MILLION then Timeval(u.sec + Quotient(u.usec, MILLION), Remainder(u.usec, MILLION)) else u
  }

  /** The addition is exact for every interval; the result is normalised exactly when the microseconds stay non-negative. */
  lemma AddUsecsExact(t: Timeval, usecs: int)
    requires t.Normal()
    ensures AddUsecs(t, usecs).Usecs() == t.Usecs() + usecs
    ensures AddUsecs(t, usecs).Normal() <==> t.usec + Remainder(usecs, MILLION) >= 0
    ensures usecs >= 0 ==> AddUsecs(t, usecs).Normal()
  {
  }

  /** The comparisons of list_add and tmr_run. */
  predicate Earlier(a: Timeval, b: Timeval) {
    a.sec < b.sec || (a.sec == b.sec && a.usec < b.usec)
  }

  lemma EarlierIsLess(a: Timeval, b: Timeval)
    requires a.Normal() && b.Normal()
    ensures Earlier(a, b) <==> a.Usecs() < b.Usecs()
  {
  }

  // ----- the lists

  class Timer {
    var usecs: int
    var periodic: bool
    var resets: seq<Timer>  // what timer_proc does with its client data: the timers it resets
    var time: Timeval
    var prev: Timer?
    var next: Timer?

    constructor () {
      usecs, periodic, resets, time, prev, next := 0, false, [], Timeval(0, 0), null, null;
    }

    ghost function Entry(): Entry<Timer>
      reads `time, `usecs, `periodic, `resets
    {
      TimerSpec.Entry(this, time.Usecs(), usecs, periodic, resets)
    }
  }

  ghost function View(ts: seq<Timer>): (q: Queue<Timer>)
    reads ts`time, ts`usecs, ts`periodic, ts`resets
    ensures |q| == |ts| && forall i :: 0 <= i < |ts| ==> q[i] == ts[i].Entry()
  {
    if ts == [] then [] else [ts[0].Entry()] + View(ts[1..])
  }

  ghost predicate NoRepeats(ts: seq<Timer>) {
    forall i, j :: 0 <= i < j < |ts| ==> ts[i] != ts[j]
  }

  ghost predicate Normal(ts: seq<Timer>)
    reads ts`time
  {
    forall i :: 0 <= i < |ts| ==> ts[i].time.Normal()
  }

  ghost function Members(ts: seq<Timer>): set<Timer> {
    set t | t in ts
  }

  ghost function Reverse(ts: seq<Timer>): seq<Timer> {
    if ts == [] then [] else Reverse(ts[1..]) + [ts[0]]
  }

  // ----- bridges between positions and the recursive list functions

  lemma {:induction false} InsertSplit<T>(q: Queue<T>, e: Entry<T>, k: nat)
    requires k <= |q| && (forall i :: 0 <= i < k ==> q[i].at <= e.at) && (k < |q| ==> e.at < q[k].at)
    ensures Insert(q, e) == q[..k] + [e] + q[k..]
  {
    if k > 0 {
      InsertSplit(q[1..], e, k - 1);
      assert q[1..][..k - 1] == q[..k][1..] && q[1..][k - 1..] == q[k..];
    }
  }

  lemma {:induction false} RemoveSplit<T>(q: Queue<T>, k: nat)
    requires k < |q| && forall i :: 0 <= i < k ==> q[i].id != q[k].id
    ensures Remove(q, q[k].id) == q[..k] + q[k + 1..]
    ensures q[k].id in Ids(q) && Get(q, q[k].id) == q[k]
  {
    if k > 0 {
      RemoveSplit(q[1..], k - 1);
      assert q[1..][..k - 1] == q[..k][1..] && q[1..][k - 1 + 1..] == q[k + 1..];
    }
  }

  lemma {:induction false} NextSplit<T>(q: Queue<T>, k: nat)
    requires k < |q| && forall i :: 0 <= i < k ==> q[i].id != q[k].id
    ensures Next(q, q[k].id) == if k + 1 < |q| then Some(q[k + 1].id) else None
  {
    if k > 0 {
      NextSplit(q[1..], k - 1);
    }
  }

  lemma InMembers(ts: seq<Timer>, t: Timer)
    ensures t in Members(ts) <==> t in ts
  {
  }

  lemma NormalAt(ts: seq<Timer>, t: Timer)
    requires Normal(ts) && t in ts
    ensures t.time.Normal()
  {
  }

  lemma MembersApart(a: seq<Timer>, b: seq<Timer>, t: Timer)
    requires Members(a) !! Members(b) && t in a
    ensures t !in b
  {
    InMembers(a, t);
    InMembers(b, t);
  }

  lemma TailApart(whole: seq<Timer>, t: Timer, tail: seq<Timer>, other: seq<Timer>)
    requires whole == [t] + tail && Members(whole) !! Members(other)
    ensures Members(tail) !! Members(other)
  {
  }

  lemma InIds(ts: seq<Timer>, t: Timer)
    ensures t in Ids(View(ts)) <==> t in ts
  {
    if ts != [] {
      InIds(ts[1..], t);
      assert View(ts)[1..] == View(ts[1..]);
      assert t in ts <==> t == ts[0] || t in ts[1..];
    }
  }

  lemma ViewDistinct(ts: seq<Timer>)
    requires NoRepeats(ts)
    ensures Distinct(View(ts))
  {
    if ts != [] {
      ViewDistinct(ts[1..]);
      assert View(ts)[1..] == View(ts[1..]);
      InIds(ts[1..], ts[0]);
    }
  }

  /** Timers are told apart by their pointers. */
  lemma ViewIds(ts: seq<Timer>, k: nat)
    requires NoRepeats(ts) && k < |ts|
    ensures View(ts)[k].id == ts[k] && forall i :: 0 <= i < k ==> View(ts)[i].id != View(ts)[k].id
  {
    hide View;
  }

  lemma ViewAppend(a: seq<Timer>, b: seq<Timer>)
    ensures View(a + b) == View(a) + View(b)
  {
    hide View, Timer.Entry;
    var v, w := View(a + b), View(a) + View(b);
    assert |v| == |w|;
    forall i | 0 <= i < |v|
      ensures v[i] == w[i]
    {
      assert v[i] == (a + b)[i].Entry();
    }
  }

  lemma ViewSplit(ts: seq<Timer>, k: nat)
    requires k <= |ts|
    ensures View(ts[..k]) == View(ts)[..k] && View(ts[k..]) == View(ts)[k..]
  {
    hide View;
    ViewAppend(ts[..k], ts[k..]);
    assert ts == ts[..k] + ts[k..];
  }

  lemma ViewInsert(ts: seq<Timer>, t: Timer, k: nat)
    requires k <= |ts|
    ensures View(ts[..k] + [t] + ts[k..]) == View(ts)[..k] + [t.Entry()] + View(ts)[k..]
  {
    ViewSplit(ts, k);
    ViewAppend(ts[..k] + [t], ts[k..]);
    ViewAppend(ts[..k], [t]);
    assert View([t]) == [t.Entry()];
  }

  lemma Inserted(ts: seq<Timer>, t: Timer, k: nat)
    requires k <= |ts|
    ensures Members(ts[..k] + [t] + ts[k..]) == Members(ts) + {t}
    ensures Normal(ts) && t.time.Normal() ==> Normal(ts[..k] + [t] + ts[k..])
  {
    assert ts == ts[..k] + ts[k..];
  }

  ghost function Without(ts: seq<Timer>, k: nat): seq<Timer>
    requires k < |ts|
  {
    ts[..k] + ts[k + 1..]
  }

  /** The view of a list that lost one timer. */
  lemma Removing(ts: seq<Timer>, k: nat)
    requires NoRepeats(ts) && k < |ts|
    ensures View(Without(ts, k)) == Remove(View(ts), ts[k])
  {
    hide View, Remove;
    ViewIds(ts, k);
    RemoveSplit(View(ts), k);
    ViewSplit(ts, k);
    ViewSplit(ts, k + 1);
    ViewAppend(ts[..k], ts[k + 1..]);
  }

  lemma RemovedMembers(ts: seq<Timer>, k: nat)
    requires NoRepeats(ts) && k < |ts|
    ensures Members(Without(ts, k)) == Members(ts) - {ts[k]}
    ensures Normal(ts) ==> Normal(Without(ts, k))
  {
    assert ts == ts[..k] + [ts[k]] + ts[k + 1..];
  }

  class TimerQueue {
    var timers: Timer?
    var freeTimers: Timer?
    ghost var active: seq<Timer>
    ghost var free: seq<Timer>

    /** The active list as a value. */
    ghost function Queue(): Queue<Timer>
      reads `active, active`time, active`usecs, active`periodic, active`resets
    {
      View(active)
    }

    ghost predicate Linked()
      reads `timers, `active, active`prev, active`next
    {
      && timers == (if active == [] then null else active[0])
      && (forall i {:trigger active[i].prev} :: 0 <= i < |active| ==> active[i].prev == if i == 0 then null else active[i - 1])
      && (forall i {:trigger active[i].next} :: 0 <= i < |active| ==> active[i].next == if i + 1 < |active| then active[i + 1] else null)
      && NoRepeats(active)
    }

    ghost predicate FreeLinked()
      reads `freeTimers, `free, free`next
    {
      && freeTimers == (if free == [] then null else free[0])
      && (forall i {:trigger free[i].next} :: 0 <= i < |free| ==> free[i].next == if i + 1 < |free| then free[i + 1] else null)
      && NoRepeats(free)
    }

    ghost predicate Valid()
      reads this, active, free
    {
      && Linked() && FreeLinked()
      && Members(active) !! Members(free)
      && Normal(active) && Sorted(Queue())
    }

    constructor ()
      ensures Valid() && active == [] && free == []
    {
      timers, freeTimers, active, free := null, null, [], [];
    }

    /** The position list_add finds: behind every timer due no later, before the first one due later. */
    ghost predicate IsSlot(time: Timeval, k: nat)
      reads `active, active`time
    {
      && k <= |active|
      && (forall i :: 0 <= i < k ==> active[i].time.Usecs() <= time.Usecs())
      && (k < |active| ==> time.Usecs() < active[k].time.Usecs())
    }

    /** The walk of list_add: the timers between which `t` goes. */
    method FindSlot(t: Timer) returns (t2prev: Timer?, t2: Timer?, ghost k: nat)
      requires Linked() && Normal(active) && t.time.Normal()
      ensures IsSlot(t.time, k)
      ensures t2prev == (if k == 0 then null else active[k - 1]) && t2 == if k < |active| then active[k] else null
    {
      if timers == null {
        return null, null, 0;
      }
      EarlierIsLess(t.time, timers.time);
      if Earlier(t.time, timers.time) {
        return null, timers, 0;
      }
      t2prev, t2, k := timers, timers.next, 1;
      while t2 != null
        invariant 0 < k <= |active| && t2prev == active[k - 1]
        invariant t2 == if k < |active| then active[k] else null
        invariant forall i :: 0 <= i < k ==> active[i].time.Usecs() <= t.time.Usecs()
        decreases |active| - k
      {
        EarlierIsLess(t.time, t2.time);
        if Earlier(t.time, t2.time) {
          return;
        }
        t2prev, t2 := t2, t2.next;
        k := k + 1;
      }
    }

    /** The assignments of list_add once the place is found. */
    method LinkBetween(t: Timer, t2prev: Timer?, t2: Timer?, ghost k: nat)
      requires Linked() && t !in active && k <= |active|
      requires t2prev == (if k == 0 then null else active[k - 1]) && t2 == if k < |active| then active[k] else null
      modifies this`timers, this`active, active`prev, active`next, t`prev, t`next
      ensures Linked() && active == old(active)[..k] + [t] + old(active)[k..]
    {
      if t2prev == null {
        timers := t;
      } else {
        t2prev.next := t;
      }
      t.prev, t.next := t2prev, t2;
      if t2 != null {
        t2.prev := t;
      }
      active := active[..k] + [t] + active[k..];
    }

    /** list_add: a stable insertion into the list sorted by time. */
    method ListAdd(t: Timer)
      requires Linked() && Normal(active) && t.time.Normal() && t !in active
      modifies this`timers, this`active, active`prev, active`next, t`prev, t`next
      ensures Linked()
      ensures Queue() == Insert(old(Queue()), t.Entry())
      ensures Normal(active) && Members(active) == Members(old(active)) + {t}
    {
      hide View, Insert, NoRepeats;
      ghost var q, was := Queue(), active;
      var t2prev, t2, k := FindSlot(t);
      LinkBetween(t, t2prev, t2, k);
      InsertSplit(q, t.Entry(), k);
      ViewInsert(was, t, k);
      Inserted(was, t, k);
    }

    /** The assignments of list_remove. */
    method Unlink(t: Timer, ghost k: nat)
      requires Linked() && k < |active| && active[k] == t
      modifies this`timers, this`active, active`prev, active`next
      ensures Linked() && active == Without(old(active), k)
    {
      ghost var was := active;
      if t.prev == null {
        timers := t.next;
      } else {
        t.prev.next := t.next;
      }
      if t.next != null {
        t.next.prev := t.prev;
      }
      active := Without(was, k);
      Unlinked(was, k);
    }

    /** The pointers around the place of a timer that was taken out. */
    ghost predicate Bridged(was: seq<Timer>, k: nat)
      reads was`prev, was`next
    {
      && (forall i {:trigger was[i].prev} :: 0 <= i < |was| && i != k ==>
            was[i].prev == if i == 0 || (i == 1 && k == 0) then null else if i == k + 1 then was[i - 2] else was[i - 1])
      && (forall i {:trigger was[i].next} :: 0 <= i < |was| && i != k ==>
            was[i].next == (var j := if i + 1 == k then i + 2 else i + 1; if j < |was| then was[j] else null))
    }

    lemma Unlinked(was: seq<Timer>, k: nat)
      requires k < |was| && NoRepeats(was) && Bridged(was, k) && active == Without(was, k)
      requires timers == (if k > 0 then was[0] else if |was| > 1 then was[1] else null)
      ensures Linked()
    {
      assert |active| == |was| - 1;
      assert forall i :: 0 <= i < |active| ==> active[i] == if i < k then was[i] else was[i + 1];
    }

    /** list_remove */
    method ListRemove(t: Timer)
      requires Linked() && Normal(active) && t in active
      modifies this`timers, this`active, active`prev, active`next
      ensures Linked()
      ensures Queue() == Remove(old(Queue()), t)
      ensures Normal(active) && Members(active) == Members(old(active)) - {t}
    {
      hide View, Remove, Linked, NoRepeats, Without, Timer.Entry, Members, Normal;
      LinkedNoRepeats();
      ghost var k :| 0 <= k < |active| && active[k] == t;
      ghost var was := active;
      Unlink(t, k);
      Removing(was, k);
      RemovedMembers(was, k);
    }

    /** list_resort */
    method ListResort(t: Timer)
      requires Linked() && t in active && Normal(active)
      modifies this`timers, this`active, active`prev, active`next
      ensures Linked() && Queue() == Insert(Remove(old(Queue()), t), t.Entry())
      ensures Normal(active) && Members(active) == Members(old(active))
    {
      assert t.time.Normal();
      hide View, Insert, Remove, Linked, Normal, Members, NoRepeats;
      ghost var was := active;
      ListRemove(t);
      forall i | 0 <= i < |active|
        ensures active[i] in was
      {
        InMembers(active, active[i]);
        InMembers(was, active[i]);
      }
      InMembers(active, t);
      InMembers(was, t);
      ListAdd(t);
    }

    /** An assignment to `t->time` and the resort that follows it in tmr_reset and tmr_run. */
    method Reschedule(t: Timer, time: Timeval)
      requires Valid() && t in active && time.Normal()
      modifies this`timers, this`active, active`prev, active`next, t`time
      ensures Valid() && Queue() == Move(old(Queue()), t, time.Usecs())
      ensures Normal(active) && Members(active) == Members(old(active))
    {
      ghost var q := Queue();
      hide View, Insert, Remove, Sorted, Get, Ids, Linked, FreeLinked, NoRepeats;
      assert Linked() && FreeLinked();
      assert Sorted(Move(q, t, time.Usecs())) && t in Ids(q) && Get(q, t) == t.Entry() by {
        LinkedNoRepeats();
        MoveSorted(active, t, time.Usecs());
      }
      t.time := time;
      assert Remove(Queue(), t) == Remove(q, t) by {
        LinkedNoRepeats();
        ViewChanged(active, t, q);
      }
      forall i | 0 <= i < |free|
        ensures free[i] !in active
      {
        MembersApart(free, active, free[i]);
      }
      assert FreeLinked();
      ListResort(t);
      assert Get(q, t).(at := time.Usecs()) == t.Entry();
    }

    lemma LinkedNoRepeats()
      requires Linked()
      ensures NoRepeats(active)
    {
    }

    /** tmr_reset */
    method TmrReset(now: Timeval, t: Timer)
      requires Valid() && t in active && AddUsecs(now, t.usecs).Normal() && now.Normal()
      modifies this`timers, this`active, active`prev, active`next, t`time
      ensures Valid() && Queue() == Move(old(Queue()), t, now.Usecs() + t.usecs)
      ensures Normal(active) && Members(active) == Members(old(active))
    {
      hide AddUsecs, Move;
      AddUsecsExact(now, t.usecs);
      Reschedule(t, AddUsecs(now, t.usecs));
    }

    /** tmr_cancel */
    method TmrCancel(t: Timer)
      requires Valid() && t in active
      modifies this, active`prev, active`next
      ensures Valid() && Queue() == Remove(old(Queue()), t) && free == [t] + old(free)
      ensures Members(active) == Members(old(active)) - {t}
    {
      hide View, Remove, Sorted;
      RemoveSorted(Queue(), t);
      forall i | 0 <= i < |free|
        ensures free[i] !in active
      {
        MembersApart(free, active, free[i]);
      }
      MembersApart(active, free, t);
      ListRemove(t);
      hide Linked;
      FreePush(t);
    }

    /** A cancelled timer goes to the head of the free list. */
    method FreePush(t: Timer)
      requires FreeLinked() && t !in free
      modifies this`freeTimers, this`free, t`prev, t`next
      ensures FreeLinked() && free == [t] + old(free)
    {
      t.next := freeTimers;
      freeTimers := t;
      t.prev := null;
      free := [t] + free;
    }

    /** tmr_create: recycles a cancelled timer if there is one. */
    method TmrCreate(now: Timeval, resets: seq<Timer>, usecs: int, periodic: bool) returns (t: Timer)
      requires Valid() && now.Normal() && AddUsecs(now, usecs).Normal()
      modifies this, active`prev, active`next, free
      ensures Valid()
      ensures Queue() == Insert(old(Queue()), TimerSpec.Entry(t, now.Usecs() + usecs, usecs, periodic, resets))
      ensures old(free) == [] ==> fresh(t) && free == []
      ensures old(free) != [] ==> t == old(free)[0] && free == old(free)[1..]
      ensures Members(active) == Members(old(active)) + {t}
    {
      hide View, Insert, Sorted, Linked, Members, NoRepeats;
      if freeTimers != null {
        MembersApart(free, active, freeTimers);
        ghost var idle := free;
        t := FreePop();
        TailApart(idle, t, free, active);
      } else {
        t := new Timer();
      }
      Activate(t, now, resets, usecs, periodic);
    }

    /** The fields of a timer that is in neither list. */
    method SetTimer(t: Timer, now: Timeval, resets: seq<Timer>, usecs: int, periodic: bool)
      requires now.Normal() && AddUsecs(now, usecs).Normal()
      modifies t`resets, t`usecs, t`periodic, t`time
      ensures t.Entry() == TimerSpec.Entry(t, now.Usecs() + usecs, usecs, periodic, resets) && t.time.Normal()
    {
      hide AddUsecs;
      t.resets, t.usecs, t.periodic := resets, usecs, periodic;
      AddUsecsExact(now, usecs);
      t.time := AddUsecs(now, usecs);
    }

    /** The second half of tmr_create, for a timer in neither list. */
    method Activate(t: Timer, now: Timeval, resets: seq<Timer>, usecs: int, periodic: bool)
      requires Valid() && now.Normal() && AddUsecs(now, usecs).Normal() && t !in active && t !in free
      modifies this`timers, this`active, active`prev, active`next, t
      ensures Valid() && free == old(free)
      ensures Queue() == Insert(old(Queue()), TimerSpec.Entry(t, now.Usecs() + usecs, usecs, periodic, resets))
      ensures Members(active) == Members(old(active)) + {t}
    {
      hide View, Insert, Sorted, Members, NoRepeats, AddUsecs, Linked;
      SetTimer(t, now, resets, usecs, periodic);
      InsertSorted(Queue(), t.Entry());
      forall i | 0 <= i < |free|
        ensures free[i] !in active
      {
        MembersApart(free, active, free[i]);
      }
      InMembers(free, t);
      ListAdd(t);
    }

    method FreePop() returns (t: Timer)
      requires FreeLinked() && freeTimers != null
      modifies this`freeTimers, this`free
      ensures FreeLinked() && old(free) == [t] + free && t !in free
    {
      t := freeTimers;
      freeTimers := t.next;
      free := free[1..];
    }

    /** Whether a timer is still active; the callbacks of the code know it from pointers that are set to NULL. */
    method IsActive(t: Timer) returns (running: bool)
      requires Linked()
      ensures running <==> t in active
    {
      var c := timers;
      ghost var k := 0;
      while c != null && c != t
        invariant k <= |active| && c == (if k < |active| then active[k] else null) && t !in active[..k]
        decreases |active| - k
      {
        c := c.next;
        k := k + 1;
      }
      running := c == t;
    }

    /** One of the timers that a callback resets, if it is still active. */
    method ResetFirst(ids: seq<Timer>, now: Timeval)
      requires Valid() && now.Normal() && ids != [] && (ids[0] in active ==> ids[0].usecs > 0)
      modifies this`timers, this`active, active`prev, active`next, active`time
      ensures Valid() && Members(active) == Members(old(active))
      ensures ResetAll(old(Queue()), ids, now.Usecs()) == ResetAll(Queue(), ids[1..], now.Usecs())
    {
      hide View, Linked, Sorted, Members, Move, Get, Ids, FreeLinked, AddUsecs, Normal, NoRepeats, ResetAll;
      LinkedNoRepeats();
      var running := IsActive(ids[0]);
      if running {
        AddUsecsExact(now, ids[0].usecs);
        ResetOne(active, ids, now.Usecs());
        TmrReset(now, ids[0]);
      } else {
        ResetNone(active, ids, now.Usecs());
      }
    }

    /** The callback of `t`: it resets those of the timers of its client data that are active, as the omit timer's does. */
    method Callback(t: Timer, now: Timeval)
      requires Valid() && now.Normal() && t in active
      requires forall k :: 0 <= k < |t.resets| && t.resets[k] in active ==> t.resets[k].usecs > 0
      modifies this`timers, this`active, active`prev, active`next, active`time
      ensures Valid() && Members(active) == Members(old(active))
      ensures Queue() == ResetAll(old(Queue()), t.resets, now.Usecs())
    {
      hide View, Linked, Sorted, Members, FreeLinked, AddUsecs, Normal, NoRepeats, Valid;
      ghost var was, q, n := active, Queue(), now.Usecs();
      var resets := t.resets;
      var k := 0;
      assert resets[0..] == resets;
      SameMembers(was, active);
      while k < |resets|
        invariant k <= |resets| && Valid() && Members(active) == Members(was)
        invariant ResetAll(q, resets, n) == ResetAll(Queue(), resets[k..], n)
      {
        InMembers(was, resets[k]);
        InMembers(active, resets[k]);
        SameMembers(was, active);
        assert resets[k..][1..] == resets[k + 1..];
        ResetFirst(resets[k..], now);
        k := k + 1;
      }
      assert ResetAll(Queue(), [], n) == Queue();
    }

    /** One round of tmr_run for a timer that is due. */
    method FireOne(t: Timer, now: Timeval)
      requires Valid() && WellFormed(Queue()) && now.Normal() && t in active && t.time.Usecs() <= now.Usecs()
      modifies this, active`prev, active`next, active`time
      ensures Valid() && Queue() == Fire(old(Queue()), t, now.Usecs())
      ensures Members(active) <= Members(old(active))
      ensures free == (if old(t.periodic) then [] else [t]) + old(free)
    {
      hide View, Linked, Sorted, Members, Move, Remove, ResetAll, FreeLinked, WellFormed, Fire, Get, Ids, NoRepeats,
           AddUsecs, Normal;
      ghost var q, n, was, e := Queue(), now.Usecs(), active, t.Entry();
      LinkedNoRepeats();
      GetView(active, t);
      ResetsActive(active, t);
      ResetsGet(q, e.resets, n, t);
      FireIs(q, t, n);
      Callback(t, now);
      SameMembers(active, was);
      assert t in active && t.Entry() == e by {
        LinkedNoRepeats();
        assert t in active;
        GetView(active, t);
      }
      SameMembers(was, active);
      if t.periodic {
        NormalAt(active, t);
        AddUsecsExact(t.time, t.usecs);
        Reschedule(t, AddUsecs(t.time, t.usecs));
      } else {
        TmrCancel(t);
      }
    }

    /** The body of the loop of tmr_run for a timer that is due; the successor is read first. */
    method Round(t: Timer, now: Timeval) returns (next: Timer?)
      requires Valid() && WellFormed(Queue()) && now.Normal() && t in active && t.time.Usecs() <= now.Usecs()
      modifies this, active`prev, active`next, active`time
      ensures Valid() && WellFormed(Queue()) && Members(active) <= Members(old(active))
      ensures next != null ==> next in active && next in Ids(Queue())
      ensures t in Ids(old(Queue())) && Pending(Queue(), now.Usecs()) < Pending(old(Queue()), now.Usecs())
      ensures free == old(Gone(t)) + old(free)
      ensures RunFrom(old(Queue()), Some(t), now.Usecs())
           == Extend([(t, old(t.time.Usecs()))], old(Gone(t)), RunFrom(Queue(), Pointer(next), now.Usecs()))
    {
      hide View, Linked, Sorted, FreeLinked, Fire, WellFormed, Pending, RunFrom, Ids, Get, Next, Members;
      ghost var q, n := Queue(), now.Usecs();
      NextIsCached(t);
      RunUnfold(q, t, n);
      FireKeeps(q, t, n);
      NextStays(q, t, n);
      next := t.next;
      FireOne(t, now);
      StillActive(next);
    }

    /** What a round puts on the free list. */
    ghost function Gone(t: Timer): seq<Timer>
      reads t
    {
      if t.periodic then [] else [t]
    }

    /** tmr_run: `fired` lists the callbacks made and when each was due. */
    method TmrRun(now: Timeval) returns (ghost fired: seq<(Timer, int)>, ghost freed: seq<Timer>)
      requires Valid() && WellFormed(Queue()) && now.Normal()
      modifies this, active`prev, active`next, active`time
      ensures Valid()
      ensures Run(Queue(), fired, freed) == RunFrom(old(Queue()), First(old(Queue())), now.Usecs())
      ensures free == Reverse(freed) + old(free)
    {
      hide View, Linked, Sorted, FreeLinked, Fire, WellFormed, Pending, RunFrom, Ids, Get, Next, Members, Reverse, Extend,
           Normal;
      ghost var q, n, was, idle := Queue(), now.Usecs(), active, free;
      fired, freed := [], [];
      var t := timers;
      FirstIs();
      ExtendNothing(RunFrom(q, First(q), n));
      assert Reverse([]) + free == free by {
        ReverseSnoc([], []);
      }
      while t != null
        invariant Valid() && WellFormed(Queue())
        invariant t != null ==> t in active && t in Ids(Queue())
        invariant Members(active) <= Members(was)
        invariant RunFrom(q, First(q), n) == Extend(fired, freed, RunFrom(Queue(), Pointer(t), n))
        invariant free == Reverse(freed) + idle
        decreases Pending(Queue(), n)
      {
        NextIsCached(t);
        NormalAt(active, t);
        EarlierIsLess(now, t.time);
        if Earlier(now, t.time) {
          break;
        }
        SubMembers(active, was);
        ghost var call: (Timer, int), gone := (t, t.time.Usecs()), Gone(t);
        var next := Round(t, now);
        ExtendTwice(fired, freed, [call], gone, RunFrom(Queue(), Pointer(next), n));
        ReverseSnoc(freed, gone);
        fired, freed := fired + [call], freed + gone;
        t := next;
      }
      RunStops(Queue(), Pointer(t), n);
      ExtendStop(fired, freed, Queue());
    }

    /** tmr_cleanup: the cancelled timers are released, the active ones untouched. */
    method TmrCleanup()
      requires Valid()
      modifies this`freeTimers, this`free
      ensures Valid() && free == [] && Queue() == old(Queue()) && active == old(active)
    {
      hide View, Linked, Sorted;
      while freeTimers != null
        invariant Valid() && active == old(active) && Queue() == old(Queue())
        decreases |free|
      {
        var t := freeTimers;
        freeTimers := t.next;
        TailApart(free, free[0], free[1..], active);
        free := free[1..];
      }
    }

    /** tmr_destroy */
    method TmrDestroy()
      requires Valid()
      modifies this, active`prev, active`next
      ensures Valid() && active == [] && free == []
    {
      hide View, Sorted, Members;
      while timers != null
        invariant Valid() && Members(active) <= Members(old(active))
        decreases |active|
      {
        ghost var q, was := Queue(), old(active);
        SubMembers(active, was);
        ViewDistinct(active);
        InIds(active, timers);
        RemoveKeeps(q, timers);
        TmrCancel(timers);
      }
      TmrCleanup();
    }

    lemma StillActive(t: Timer?)
      requires Linked() && (t != null ==> t in Ids(Queue()))
      ensures t != null ==> t in active
    {
      hide View, Ids;
      if t != null {
        InIds(active, t);
      }
    }

    /** tmr_timeout: exactly the time to the earliest timer, or zero when it has passed. */
    method TmrTimeout(now: Timeval) returns (timeout: Option<Timeval>)
      requires Valid() && now.Normal()
      ensures timeout.None? <==> active == []
      ensures timeout.Some? ==> timeout.value.Normal() && timeout.value.Usecs() >= 0
      ensures timeout.Some? ==> exists t :: t in active && timeout.value.Usecs() == Until(t, now)
      ensures timeout.Some? ==> forall t :: t in active ==> timeout.value.Usecs() <= Until(t, now)
    {
      if timers == null {
        return None;
      }
      var usecs := (timers.time.sec - now.sec) * MILLION + (timers.time.usec - now.usec);
      if usecs <= 0 {
        usecs := 0;
      }
      timeout := Some(Timeval(Quotient(usecs, MILLION), Remainder(usecs, MILLION)));
      assert timeout.value.Usecs() == usecs == Until(timers, now);
      forall t | t in active
        ensures Until(timers, now) <= Until(t, now)
      {
        Earliest(t);
      }
    }

    lemma FirstIs()
      requires Linked()
      ensures First(Queue()) == Pointer(timers) && (timers != null ==> timers in active && timers in Ids(Queue()))
    {
    }

    lemma NextIsCached(t: Timer)
      requires Linked() && t in active
      ensures Next(Queue(), t) == Pointer(t.next) && (t.next != null ==> t.next in active)
      ensures t in Ids(Queue()) && Get(Queue(), t) == t.Entry()
    {
      hide View;
      var k :| 0 <= k < |active| && active[k] == t;
      ViewIds(active, k);
      NextSplit(Queue(), k);
      GetView(active, t);
    }

    /** How long until a timer is due, zero when it is overdue. */
    ghost function Until(t: Timer, now: Timeval): int
      reads t`time
    {
      if t.time.Usecs() < now.Usecs() then 0 else t.time.Usecs() - now.Usecs()
    }

    lemma Earliest(t: Timer)
      requires Valid() && t in active
      ensures active[0].time.Usecs() <= t.time.Usecs()
    {
      InIds(active, t);
      SortedHead(Queue(), t);
    }
  }

  /** A new time for one timer: the rest of the list looks as before. */
  lemma ViewChanged(ts: seq<Timer>, t: Timer, q: Queue<Timer>)
    requires NoRepeats(ts) && t in ts && |q| == |ts|
    requires forall i :: 0 <= i < |ts| ==> q[i].id == ts[i] && (ts[i] != t ==> q[i] == ts[i].Entry())
    ensures Remove(View(ts), t) == Remove(q, t)
  {
    hide View, Remove;
    var k :| 0 <= k < |ts| && ts[k] == t;
    assert View(ts) == q[k := t.Entry()];
    RemoveChanged(q, k, t.Entry());
  }

  lemma RemoveChanged<T>(q: Queue<T>, k: nat, e: Entry<T>)
    requires k < |q| && e.id == q[k].id && forall i :: 0 <= i < k ==> q[i].id != q[k].id
    ensures Remove(q[k := e], e.id) == Remove(q, e.id)
  {
    RemoveSplit(q, k);
    RemoveSplit(q[k := e], k);
    assert q[k := e][..k] == q[..k] && q[k := e][k + 1..] == q[k + 1..];
  }

  lemma MoveSorted(ts: seq<Timer>, t: Timer, at: int)
    requires Sorted(View(ts)) && NoRepeats(ts) && t in ts
    ensures t in Ids(View(ts)) && Sorted(Move(View(ts), t, at))
    ensures Get(View(ts), t) == t.Entry()
  {
    InIds(ts, t);
    ViewDistinct(ts);
    MoveKeeps(View(ts), t, at);
    var k :| 0 <= k < |ts| && ts[k] == t;
    GetOf(View(ts), View(ts)[k]);
  }

  // ----- the pointers of tmr_run

  ghost function First<T>(q: Queue<T>): Option<T> {
    if q == [] then None else Some(q[0].id)
  }

  ghost function Pointer(t: Timer?): Option<Timer> {
    if t == null then None else Some(t)
  }

  /** What was done already, put before what is left to do. */
  ghost function Extend<T>(fired: seq<(T, int)>, freed: seq<T>, run: Run<T>): Run<T> {
    Run(run.queue, fired + run.fired, freed + run.freed)
  }

  lemma ExtendNothing<T>(run: Run<T>)
    ensures Extend([], [], run) == run
  {
  }

  lemma ExtendStop<T>(fired: seq<(T, int)>, freed: seq<T>, q: Queue<T>)
    ensures Extend(fired, freed, Run(q, [], [])) == Run(q, fired, freed)
  {
  }

  lemma ExtendTwice<T>(fired: seq<(T, int)>, freed: seq<T>, fired2: seq<(T, int)>, freed2: seq<T>, run: Run<T>)
    ensures Extend(fired, freed, Extend(fired2, freed2, run)) == Extend(fired + fired2, freed + freed2, run)
  {
    assert fired + (fired2 + run.fired) == (fired + fired2) + run.fired;
    assert freed + (freed2 + run.freed) == (freed + freed2) + run.freed;
  }

  lemma RunUnfold<T>(q: Queue<T>, t: T, n: int)
    requires WellFormed(q) && t in Ids(q)
    ensures Get(q, t).at <= n ==> WellFormed(Fire(q, t, n))
                                  && (Next(q, t).Some? ==> Next(q, t).value in Ids(Fire(q, t, n)))
                                  && RunFrom(q, Some(t), n) == Extend([(t, Get(q, t).at)], if Get(q, t).periodic then [] else [t],
                                                                     RunFrom(Fire(q, t, n), Next(q, t), n))
  {
    if Get(q, t).at <= n {
      FireKeeps(q, t, n);
      NextStays(q, t, n);
    }
  }

  lemma RunStops<T>(q: Queue<T>, cur: Option<T>, n: int)
    requires WellFormed(q) && (cur.Some? ==> cur.value in Ids(q) && Get(q, cur.value).at > n)
    ensures RunFrom(q, cur, n) == Run(q, [], [])
  {
  }

  lemma {:induction false} ReverseSnoc(ts: seq<Timer>, end: seq<Timer>)
    requires |end| <= 1
    ensures Reverse([]) == [] && Reverse(ts + end) == end + Reverse(ts)
  {
    if ts == [] {
      assert ts + end == end;
    } else {
      ReverseSnoc(ts[1..], end);
      assert (ts + end)[1..] == ts[1..] + end;
    }
  }

  lemma GetView(ts: seq<Timer>, t: Timer)
    requires NoRepeats(ts) && t in ts
    ensures t in Ids(View(ts)) && Get(View(ts), t) == t.Entry()
  {
    hide View;
    InIds(ts, t);
    ViewDistinct(ts);
    var k :| 0 <= k < |ts| && ts[k] == t;
    GetOf(View(ts), View(ts)[k]);
  }

  lemma ResetOne(ts: seq<Timer>, ids: seq<Timer>, n: int)
    requires NoRepeats(ts) && ids != [] && ids[0] in ts
    ensures ResetAll(View(ts), ids, n) == ResetAll(Move(View(ts), ids[0], n + ids[0].usecs), ids[1..], n)
  {
    hide View;
    GetView(ts, ids[0]);
  }

  lemma ResetNone(ts: seq<Timer>, ids: seq<Timer>, n: int)
    requires ids != [] && ids[0] !in ts
    ensures ResetAll(View(ts), ids, n) == ResetAll(View(ts), ids[1..], n)
  {
    hide View;
    InIds(ts, ids[0]);
  }

  lemma ResetsActive(ts: seq<Timer>, t: Timer)
    requires WellFormed(View(ts)) && NoRepeats(ts) && t in ts
    ensures forall k :: 0 <= k < |t.resets| && t.resets[k] in ts ==> t.resets[k].usecs > 0
    ensures forall k :: 0 <= k < |t.resets| ==> t.resets[k] != t && t.resets[k] !in Fixed(View(ts))
    ensures t.periodic ==> t.usecs > 0
  {
    hide View, Get, Ids;
    var q := View(ts);
    GetView(ts, t);
    AllowedOf(q, Fixed(q), t);
    forall k | 0 <= k < |t.resets| && t.resets[k] in ts
      ensures t.resets[k].usecs > 0
    {
      var x := t.resets[k];
      assert Get(q, t).resets[k] == x;
      GetView(ts, x);
      FixedOf(q, x);
    }
  }

  lemma FireIs<T>(q: Queue<T>, t: T, n: int)
    requires t in Ids(q) && t in Ids(ResetAll(q, Get(q, t).resets, n))
    ensures var q1 := ResetAll(q, Get(q, t).resets, n);
      Fire(q, t, n) == if Get(q1, t).periodic then Move(q1, t, Get(q1, t).at + Get(q1, t).usecs) else Remove(q1, t)
  {
  }

  lemma SameMembers(a: seq<Timer>, b: seq<Timer>)
    requires Members(a) == Members(b)
    ensures forall i :: 0 <= i < |b| ==> b[i] in a
  {
    forall i | 0 <= i < |b|
      ensures b[i] in a
    {
      InMembers(b, b[i]);
      InMembers(a, b[i]);
    }
  }

  lemma SubMembers(a: seq<Timer>, b: seq<Timer>)
    requires Members(a) <= Members(b)
    ensures forall i :: 0 <= i < |a| ==> a[i] in b
  {
    forall i | 0 <= i < |a|
      ensures a[i] in b
    {
      InMembers(a, a[i]);
      InMembers(b, a[i]);
    }
  }
}