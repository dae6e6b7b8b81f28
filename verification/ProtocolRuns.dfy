/**
 What a test can do: whatever number of blocks each stream is to carry, there is a run that carries them, in either
 direction and with pipes of any capacity; and a client ends a test only when it is over.
 */
module ProtocolRuns {
  import opened CText
  import opened Protocol
  import opened ProtocolSafety

  // ----- the end of a test is not announced before it

  /** The client announces TEST_END only after the timer or a limit has ended the test while it was running. */
  lemma {:induction false} EndsOnlyWhenOver(cfg: Config, cookie: nat, steps: seq<Step>)
    requires cfg.Valid() && Reach(cfg, cookie, steps).Some?
    ensures var s := Reach(cfg, cookie, steps).value;
      && (s.csent >= 3 || s.cstate == TEST_END ==> s.done)
      && (s.done ==> exists i :: 0 <= i < |steps| && steps[i] == TestEnds && RunningAfter(cfg, cookie, steps[..i]))
  {
    ReachInv(cfg, cookie, steps);
    var s := Reach(cfg, cookie, steps).value;
    assert s.csent >= 3 || s.cstate == TEST_END ==> s.done by { hide Channels, ServerOk, ConnsOk, DataOk, Reach; }
    if steps != [] && s.done {
      var front, last := steps[..|steps| - 1], steps[|steps| - 1];
      var before := Reach(cfg, cookie, front).value;
      if before.done {
        EndsOnlyWhenOver(cfg, cookie, front);
        var i :| 0 <= i < |front| && front[i] == TestEnds && RunningAfter(cfg, cookie, front[..i]);
        assert steps[i] == TestEnds && steps[..i] == front[..i];
      } else {
        DoneByTestEnds(cfg, before, last);
        assert steps[|front|] == TestEnds && RunningAfter(cfg, cookie, steps[..|front|]);
      }
      hide Apply, Inv;
    }
  }

  ghost predicate RunningAfter(cfg: Config, cookie: nat, steps: seq<Step>) {
    Reach(cfg, cookie, steps).Some? && Reach(cfg, cookie, steps).value.cstate == TEST_RUNNING
  }

  lemma DoneByTestEnds(cfg: Config, s: Sys, step: Step)
    requires |s.pipes| == cfg.streams && Apply(cfg, s, step).Some? && !s.done && Apply(cfg, s, step).value.done
    ensures step == TestEnds && s.cstate == TEST_RUNNING
  {
    hide ServerStep, JobStep;
  }

  // ----- when data can move

  /** The client starts a call on its streams exactly when it may transfer and the stream has room, or something to read. */
  lemma ClientTransfersIff(cfg: Config, cookie: nat, steps: seq<Step>, k: nat)
    requires cfg.Valid() && Reach(cfg, cookie, steps).Some?
    requires var s := Reach(cfg, cookie, steps).value; (s.cpc == CSelect && s.s2c == []) || s.cpc == CBody
    ensures var s := Reach(cfg, cookie, steps).value;
      ClientStep(cfg, s, Pick(k)).Some?
      <==> k < cfg.streams && (s.cstate == TEST_RUNNING || (cfg.reverse && s.cstate == TEST_END))
           && (if cfg.reverse then s.pipes[k].written > s.pipes[k].read
               else s.pipes[k].written - s.pipes[k].read < cfg.cap)
  {
    hide Reach;
  }

  /** The server does exactly while its test is running. */
  lemma ServerTransfersIff(cfg: Config, cookie: nat, steps: seq<Step>, k: nat)
    requires cfg.Valid() && Reach(cfg, cookie, steps).Some?
    requires var s := Reach(cfg, cookie, steps).value; (s.spc == SSelect && s.ctrl.Some? && s.c2s == []) || s.spc == SRest
    ensures var s := Reach(cfg, cookie, steps).value;
      ServerStep(cfg, s, Pick(k)).Some?
      <==> k < cfg.streams && s.sstate == TEST_RUNNING
           && (if cfg.reverse then s.pipes[k].written - s.pipes[k].read < cfg.cap
               else s.pipes[k].written > s.pipes[k].read)
  {
    hide Reach;
  }

  /**
   A server that has a client and is not creating streams takes the first connection that waits and turns it away,
   whatever its control socket holds; it may look at that socket in the same round, or wait for its next.
   */
  lemma BusyServerDenies(cfg: Config, cookie: nat, steps: seq<Step>)
    requires cfg.Valid() && Reach(cfg, cookie, steps).Some?
    requires var s := Reach(cfg, cookie, steps).value;
      s.spc == SSelect && s.ctrl.Some? && s.sstate != CREATE_STREAMS && s.conns != []
    ensures var s := Reach(cfg, cookie, steps).value;
      var t := s.(conns := s.conns[1..], denied := s.denied + [s.conns[0]], spc := SRest);
      && ServerStep(cfg, s, if s.c2s == [] then Go else Skip) == Some(t)
      && ServerStep(cfg, t, Skip) == Some(t.(spc := SSelect))
      && ServerStep(cfg, t, Go) == Some(if s.c2s == [] then t.(spc := SSelect) else ServerHandles(t))
  {
    hide Reach, ServerHandles;
  }

  /** Between blocks a sender may always begin one, and a receiver when there is something to read; both go on inside it. */
  lemma BlockGoesOnIff(cfg: Config, send: bool, j: Job, pipes: seq<Pipe>, n: nat)
    requires |pipes| == cfg.streams && j.k < cfg.streams
    ensures var p := pipes[j.k];
      && (JobStep(cfg, send, j, pipes, Begin).Some? <==> j.left == 0 && (send || p.written > p.read))
      && (JobStep(cfg, send, j, pipes, Move(n)).Some?
          <==> 0 < n <= j.left && (if send then p.written + n <= p.read + cfg.cap else p.read + n <= p.written))
  {
  }

  // ----- runs

  ghost function RunFrom(cfg: Config, s: Sys, steps: seq<Step>): (r: Option<Sys>)
    requires |s.pipes| == cfg.streams
    ensures r.Some? ==> |r.value.pipes| == cfg.streams
  {
    if steps == [] then Some(s)
    else
      match RunFrom(cfg, s, steps[..|steps| - 1])
      case None => None
      case Some(before) => Apply(cfg, before, steps[|steps| - 1])
  }

  lemma {:induction false} RunReaches(cfg: Config, cookie: nat, steps: seq<Step>)
    ensures RunFrom(cfg, Init(cfg, cookie), steps) == Reach(cfg, cookie, steps)
  {
    hide Apply, Init;
    if steps != [] {
      RunReaches(cfg, cookie, steps[..|steps| - 1]);
    }
  }

  lemma {:induction false} RunOn(cfg: Config, s: Sys, a: seq<Step>, t: Sys, b: seq<Step>)
    requires |s.pipes| == cfg.streams && RunFrom(cfg, s, a) == Some(t)
    ensures RunFrom(cfg, s, a + b) == RunFrom(cfg, t, b)
  {
    hide Apply;
    if b == [] {
      assert a + b == a;
    } else {
      assert (a + b)[..|a + b| - 1] == a + b[..|b| - 1];
      RunOn(cfg, s, a, t, b[..|b| - 1]);
    }
  }

  lemma OneStep(cfg: Config, s: Sys, step: Step)
    requires |s.pipes| == cfg.streams
    ensures RunFrom(cfg, s, [step]) == Apply(cfg, s, step)
  {
    assert [step][..0] == [];
    assert RunFrom(cfg, s, []) == Some(s);
    hide Apply;
  }

  // ----- the two ends of a running test

  /** A test that is running, with nothing on the control channel. */
  ghost predicate Running(cfg: Config, s: Sys) {
    && |s.pipes| == cfg.streams && s.cpc == CSelect && s.spc == SSelect && s.cstate == TEST_RUNNING && s.sstate == TEST_RUNNING
    && s.s2c == [] && s.c2s == [] && s.ctrl.Some? && !s.done
  }

  /** The calls of iperf_send and iperf_recv that are in progress, and the pipes. */
  datatype Duo = Duo(sj: Option<Job>, rj: Option<Job>, pipes: seq<Pipe>)

  /** The test with these calls in progress. */
  ghost function At(cfg: Config, s: Sys, d: Duo): Sys {
    var (cj, vj) := if cfg.reverse then (d.rj, d.sj) else (d.sj, d.rj);
    s.(cpc := if cj.Some? then CXfer(cj.value) else CSelect, spc := if vj.Some? then SXfer(vj.value) else SSelect, pipes := d.pipes)
  }

  /** One action of the sender or the receiver of data. */
  datatype Act = Act(send: bool, c: Choice)

  ghost function JobOf(d: Duo, send: bool): Option<Job> {
    if send then d.sj else d.rj
  }

  ghost function WithJob(d: Duo, send: bool, j: Option<Job>): Duo {
    if send then d.(sj := j) else d.(rj := j)
  }

  ghost function DuoStep(cfg: Config, d: Duo, a: Act): (r: Option<Duo>)
    requires |d.pipes| == cfg.streams
    ensures r.Some? ==> |r.value.pipes| == cfg.streams
  {
    match JobOf(d, a.send)
    case None =>
      if a.c.Pick? && a.c.k < cfg.streams && Room(cfg, a.send, d.pipes[a.c.k]) > 0 then
        Some(WithJob(d, a.send, Some(Job(if a.send then cfg.multisend else 1, 0, 0, false, a.c.k))))
      else None
    case Some(j) =>
      match JobStep(cfg, a.send, j, d.pipes, a.c)
      case None => None
      case Some((j', pipes)) => Some(WithJob(d, a.send, j').(pipes := pipes))
  }

  ghost function DuoRun(cfg: Config, d: Duo, acts: seq<Act>): (r: Option<Duo>)
    requires |d.pipes| == cfg.streams
    ensures r.Some? ==> |r.value.pipes| == cfg.streams
    decreases |acts|
  {
    if acts == [] then Some(d)
    else
      match DuoStep(cfg, d, acts[0])
      case None => None
      case Some(next) => DuoRun(cfg, next, acts[1..])
  }

  /** Such an action is a step of the client or the server, and one more where the client looks whether the test is over. */
  lemma ActIsRun(cfg: Config, s: Sys, d: Duo, a: Act) returns (steps: seq<Step>)
    requires Running(cfg, s) && |d.pipes| == cfg.streams && DuoStep(cfg, d, a).Some?
    ensures RunFrom(cfg, At(cfg, s, d), steps) == Some(At(cfg, s, DuoStep(cfg, d, a).value))
  {
    hide JobStep;
    var client := a.send == !cfg.reverse;
    var u, t := At(cfg, s, d), At(cfg, s, DuoStep(cfg, d, a).value);
    steps := if client then [Client(a.c)] else [Server(a.c)];
    OneStep(cfg, u, steps[0]);
    if client && JobOf(d, a.send).Some? && JobOf(DuoStep(cfg, d, a).value, a.send).None? {
      var v := t.(cpc := CCheck);
      assert Apply(cfg, u, steps[0]) == Some(v);
      OneStep(cfg, v, Client(Go));
      assert Apply(cfg, v, Client(Go)) == Some(t);
      RunOn(cfg, u, steps, v, [Client(Go)]);
      steps := steps + [Client(Go)];
    } else {
      assert Apply(cfg, u, steps[0]) == Some(t);
    }
  }

  lemma {:induction false} ActsAreRun(cfg: Config, s: Sys, d: Duo, acts: seq<Act>) returns (steps: seq<Step>)
    requires Running(cfg, s) && |d.pipes| == cfg.streams && DuoRun(cfg, d, acts).Some?
    ensures RunFrom(cfg, At(cfg, s, d), steps) == Some(At(cfg, s, DuoRun(cfg, d, acts).value))
    decreases |acts|
  {
    hide DuoStep, At, Apply, Running;
    if acts == [] {
      steps := [];
      assert |At(cfg, s, d).pipes| == cfg.streams by { Pipes(cfg, s, d); }
      return;
    }
    var next := DuoStep(cfg, d, acts[0]).value;
    var first := ActIsRun(cfg, s, d, acts[0]);
    var more := ActsAreRun(cfg, s, next, acts[1..]);
    Pipes(cfg, s, d);
    Pipes(cfg, s, next);
    RunOn(cfg, At(cfg, s, d), first, At(cfg, s, next), more);
    steps := first + more;
  }

  lemma Pipes(cfg: Config, s: Sys, d: Duo)
    ensures At(cfg, s, d).pipes == d.pipes
  {
  }

  lemma {:induction false} DuoOn(cfg: Config, d: Duo, a: seq<Act>, e: Duo, b: seq<Act>)
    requires |d.pipes| == cfg.streams && DuoRun(cfg, d, a) == Some(e)
    ensures DuoRun(cfg, d, a + b) == DuoRun(cfg, e, b)
    decreases |a|
  {
    hide DuoStep;
    if a == [] {
      assert a + b == b;
    } else {
      assert (a + b)[1..] == a[1..] + b;
      DuoOn(cfg, DuoStep(cfg, d, a[0]).value, a[1..], e, b);
    }
  }

  lemma OneAct(cfg: Config, d: Duo, a: Act)
    requires |d.pipes| == cfg.streams
    ensures DuoRun(cfg, d, [a]) == DuoStep(cfg, d, a)
  {
    assert [a][1..] == [];
    hide DuoStep;
  }

  // ----- one block on one stream

  /** `n` streams are passed over. */
  lemma {:induction false} SkipOver(cfg: Config, d: Duo, send: bool, n: nat) returns (acts: seq<Act>)
    requires |d.pipes| == cfg.streams && JobOf(d, send).Some?
    requires var j := JobOf(d, send).value; j.left == 0 && j.k + n <= cfg.streams && (j.moved || j.k + n <= j.pick)
    ensures var j := JobOf(d, send).value; DuoRun(cfg, d, acts) == Some(WithJob(d, send, Some(j.(k := j.k + n))))
    decreases n
  {
    var j := JobOf(d, send).value;
    if n == 0 {
      acts := [];
    } else {
      var e := WithJob(d, send, Some(j.(k := j.k + 1)));
      assert DuoStep(cfg, d, Act(send, Skip)) == Some(e);
      OneAct(cfg, d, Act(send, Skip));
      var more := SkipOver(cfg, e, send, n - 1);
      DuoOn(cfg, d, [Act(send, Skip)], e, more);
      acts := [Act(send, Skip)] + more;
    }
    hide DuoStep, DuoRun;
  }

  /** A call that has moved its block comes to its end through all its rounds. */
  lemma {:induction false} Finish(cfg: Config, d: Duo, send: bool) returns (acts: seq<Act>)
    requires |d.pipes| == cfg.streams && JobOf(d, send).Some?
    requires var j := JobOf(d, send).value; j.left == 0 && j.k <= cfg.streams && j.moved && j.round >= 1
    ensures DuoRun(cfg, d, acts) == Some(WithJob(d, send, None))
    decreases JobOf(d, send).value.round
  {
    var j := JobOf(d, send).value;
    var end := WithJob(d, send, Some(j.(k := cfg.streams)));
    acts := SkipOver(cfg, d, send, cfg.streams - j.k);
    var e := if j.round > 1 then WithJob(d, send, Some(j.(k := 0, round := j.round - 1))) else WithJob(d, send, None);
    assert DuoStep(cfg, end, Act(send, Go)) == Some(e);
    hide DuoStep, DuoRun;
    OneAct(cfg, end, Act(send, Go));
    DuoOn(cfg, d, acts, end, [Act(send, Go)]);
    acts := acts + [Act(send, Go)];
    if j.round > 1 {
      var more := Finish(cfg, e, send);
      DuoOn(cfg, d, acts, e, more);
      acts := acts + more;
    }
  }

  /** Both ends are inside a block of stream `k`, as far as each other, or at its end. */
  ghost predicate Inside(cfg: Config, d: Duo, k: nat, left: nat) {
    && |d.pipes| == cfg.streams && k < cfg.streams && d.sj.Some? && d.rj.Some? && d.pipes[k].InFlight() == 0
    && d.sj.value.moved && d.rj.value.moved && d.sj.value.left == d.rj.value.left == left
    && d.sj.value.k == d.rj.value.k == (if left > 0 then k else k + 1)
  }

  ghost function Advanced(p: Pipe, n: nat): Pipe {
    p.(written := p.written + n, read := p.read + n)
  }

  ghost function Moved(j: Job, n: nat): Job
    requires n <= j.left
  {
    j.(left := j.left - n, moved := true, k := if n > 0 && n == j.left then j.k + 1 else j.k)
  }

  /** A byte is written and read. */
  lemma ByteMoves(cfg: Config, d: Duo, k: nat, left: nat) returns (e: Duo)
    requires cfg.Valid() && Inside(cfg, d, k, left) && left > 0
    ensures e == Duo(Some(Moved(d.sj.value, 1)), Some(Moved(d.rj.value, 1)), d.pipes[k := Advanced(d.pipes[k], 1)])
    ensures DuoRun(cfg, d, [Act(true, Move(1)), Act(false, Move(1))]) == Some(e) && Inside(cfg, e, k, left - 1)
  {
    var p := d.pipes[k];
    var half := Duo(Some(Moved(d.sj.value, 1)), d.rj, d.pipes[k := p.(written := p.written + 1)]);
    e := Duo(Some(Moved(d.sj.value, 1)), Some(Moved(d.rj.value, 1)), d.pipes[k := Advanced(p, 1)]);
    assert DuoStep(cfg, d, Act(true, Move(1))) == Some(half);
    assert half.pipes[k := Advanced(p, 1)] == d.pipes[k := Advanced(p, 1)];
    assert DuoStep(cfg, half, Act(false, Move(1))) == Some(e);
    hide DuoStep;
    OneAct(cfg, d, Act(true, Move(1)));
    OneAct(cfg, half, Act(false, Move(1)));
    DuoOn(cfg, d, [Act(true, Move(1))], half, [Act(false, Move(1))]);
    assert [Act(true, Move(1))] + [Act(false, Move(1))] == [Act(true, Move(1)), Act(false, Move(1))];
  }

  lemma {:induction false} BlockMoves(cfg: Config, d: Duo, k: nat, left: nat) returns (acts: seq<Act>)
    requires cfg.Valid() && Inside(cfg, d, k, left)
    ensures DuoRun(cfg, d, acts)
         == Some(Duo(Some(Moved(d.sj.value, left)), Some(Moved(d.rj.value, left)), d.pipes[k := Advanced(d.pipes[k], left)]))
    decreases left
  {
    hide DuoStep;
    if left == 0 {
      acts := [];
      assert d.pipes[k := Advanced(d.pipes[k], 0)] == d.pipes;
    } else {
      var e := ByteMoves(cfg, d, k, left);
      var two := [Act(true, Move(1)), Act(false, Move(1))];
      var more := BlockMoves(cfg, e, k, left - 1);
      DuoOn(cfg, d, two, e, more);
      acts := two + more;
      assert e.pipes[k := Advanced(e.pipes[k], left - 1)] == d.pipes[k := Advanced(d.pipes[k], left)];
    }
  }

  /** A call of one end begins, and comes to stream `k`. */
  lemma CallComesTo(cfg: Config, d: Duo, send: bool, k: nat) returns (acts: seq<Act>)
    requires cfg.Valid() && |d.pipes| == cfg.streams && k < cfg.streams && JobOf(d, send).None? && Room(cfg, send, d.pipes[k]) > 0
    ensures var j := Job(if send then cfg.multisend else 1, k, cfg.blk, false, k);
      DuoRun(cfg, d, acts) == Some(WithJob(d, send, Some(j)).(pipes := d.pipes[k := Start(send, d.pipes[k])]))
  {
    var j := Job(if send then cfg.multisend else 1, 0, 0, false, k);
    var begun := WithJob(d, send, Some(j));
    assert DuoStep(cfg, d, Act(send, Pick(k))) == Some(begun);
    var there := WithJob(d, send, Some(j.(k := k)));
    var e := WithJob(d, send, Some(j.(k := k, left := cfg.blk))).(pipes := d.pipes[k := Start(send, d.pipes[k])]);
    assert DuoStep(cfg, there, Act(send, Begin)) == Some(e);
    var more := SkipOver(cfg, begun, send, k);
    hide DuoStep, DuoRun;
    OneAct(cfg, d, Act(send, Pick(k)));
    OneAct(cfg, there, Act(send, Begin));
    DuoOn(cfg, begun, more, there, [Act(send, Begin)]);
    DuoOn(cfg, d, [Act(send, Pick(k))], begun, more + [Act(send, Begin)]);
    acts := [Act(send, Pick(k))] + (more + [Act(send, Begin)]);
  }

  /** What one more block makes of a stream. */
  ghost function Carried(p: Pipe, n: nat, blk: nat): Pipe {
    Pipe(p.started + n, p.written + n * blk, p.taken + n, p.read + n * blk)
  }

  /** The sender begins a block on stream `k` and writes a byte, and the receiver reads it. */
  lemma FirstByte(cfg: Config, pipes: seq<Pipe>, k: nat) returns (acts: seq<Act>, d: Duo)
    requires cfg.Valid() && |pipes| == cfg.streams && k < cfg.streams && pipes[k].InFlight() == 0
    ensures DuoRun(cfg, Duo(None, None, pipes), acts) == Some(d) && Inside(cfg, d, k, cfg.blk - 1)
    ensures d.sj.value.round >= 1 && d.rj.value.round >= 1
    ensures d.pipes == pipes[k := Pipe(pipes[k].started + 1, pipes[k].written + 1, pipes[k].taken + 1, pipes[k].read + 1)]
  {
    var p, idle := pipes[k], Duo(None, None, pipes);
    var sj, rj := Job(cfg.multisend, k, cfg.blk, false, k), Job(1, k, cfg.blk, false, k);
    acts := CallComesTo(cfg, idle, true, k);
    var a := Duo(Some(sj), None, pipes[k := p.(started := p.started + 1)]);
    var b := Duo(Some(Moved(sj, 1)), None, pipes[k := p.(started := p.started + 1, written := p.written + 1)]);
    assert a.pipes[k := b.pipes[k]] == b.pipes;
    assert DuoStep(cfg, a, Act(true, Move(1))) == Some(b);
    var more := CallComesTo(cfg, b, false, k);
    var c := Duo(Some(Moved(sj, 1)), Some(rj),
                 pipes[k := p.(started := p.started + 1, written := p.written + 1, taken := p.taken + 1)]);
    assert WithJob(b, false, Some(rj)).(pipes := b.pipes[k := Start(false, b.pipes[k])]) == c;
    d := Duo(Some(Moved(sj, 1)), Some(Moved(rj, 1)), pipes[k := Pipe(p.started + 1, p.written + 1, p.taken + 1, p.read + 1)]);
    assert c.pipes[k := d.pipes[k]] == d.pipes;
    assert DuoStep(cfg, c, Act(false, Move(1))) == Some(d);
    hide DuoStep, DuoRun;
    OneAct(cfg, a, Act(true, Move(1)));
    DuoOn(cfg, idle, acts, a, [Act(true, Move(1))]);
    DuoOn(cfg, idle, acts + [Act(true, Move(1))], b, more);
    OneAct(cfg, c, Act(false, Move(1)));
    DuoOn(cfg, idle, acts + [Act(true, Move(1))] + more, c, [Act(false, Move(1))]);
    acts := acts + [Act(true, Move(1))] + more + [Act(false, Move(1))];
  }

  lemma OneBlock(cfg: Config, pipes: seq<Pipe>, k: nat) returns (acts: seq<Act>)
    requires cfg.Valid() && |pipes| == cfg.streams && k < cfg.streams && pipes[k].InFlight() == 0
    ensures DuoRun(cfg, Duo(None, None, pipes), acts) == Some(Duo(None, None, pipes[k := Carried(pipes[k], 1, cfg.blk)]))
  {
    var idle, d := Duo(None, None, pipes), Duo(None, None, pipes);
    acts, d := FirstByte(cfg, pipes, k);
    var more := BlockMoves(cfg, d, k, cfg.blk - 1);
    var e := Duo(Some(Moved(d.sj.value, cfg.blk - 1)), Some(Moved(d.rj.value, cfg.blk - 1)), pipes[k := Carried(pipes[k], 1, cfg.blk)]);
    assert d.pipes[k := Advanced(d.pipes[k], cfg.blk - 1)] == e.pipes;
    hide DuoStep, DuoRun, Inside;
    DuoOn(cfg, idle, acts, d, more);
    acts := acts + more;
    assert e.sj.value.left == 0 && e.sj.value.k == k + 1 && e.sj.value.moved by { EndOfBlock(cfg, d, k); }
    assert e.rj.value.left == 0 && e.rj.value.k == k + 1 && e.rj.value.moved by { EndOfBlock(cfg, d, k); }
    var rest := Finish(cfg, e, false);
    var f := e.(rj := None);
    DuoOn(cfg, idle, acts, e, rest);
    acts := acts + rest;
    rest := Finish(cfg, f, true);
    DuoOn(cfg, idle, acts, f, rest);
    acts := acts + rest;
  }

  lemma EndOfBlock(cfg: Config, d: Duo, k: nat)
    requires cfg.Valid() && Inside(cfg, d, k, cfg.blk - 1)
    ensures var s, r := Moved(d.sj.value, cfg.blk - 1), Moved(d.rj.value, cfg.blk - 1);
      s.left == r.left == 0 && s.k == r.k == k + 1 && s.moved && r.moved
  {
  }

  // ----- any number of blocks on every stream

  ghost function AllCarried(pipes: seq<Pipe>, counts: seq<nat>, blk: nat): (r: seq<Pipe>)
    requires |pipes| == |counts|
    ensures |r| == |pipes| && forall k :: 0 <= k < |r| ==> r[k] == Carried(pipes[k], counts[k], blk)
  {
    seq(|pipes|, k requires 0 <= k < |pipes| => Carried(pipes[k], counts[k], blk))
  }

  lemma CarriedMore(p: Pipe, n: nat, blk: nat)
    ensures Carried(Carried(p, n, blk), 1, blk) == Carried(p, n + 1, blk)
    ensures Carried(p, 0, blk) == p && (p.InFlight() == 0 ==> Carried(p, n, blk).InFlight() == 0)
  {
    assert (n + 1) * blk == n * blk + blk;
  }

  /** `n` blocks on stream `k`. */
  lemma {:induction false} Blocks(cfg: Config, pipes: seq<Pipe>, k: nat, n: nat) returns (acts: seq<Act>)
    requires cfg.Valid() && |pipes| == cfg.streams && k < cfg.streams && pipes[k].InFlight() == 0
    ensures DuoRun(cfg, Duo(None, None, pipes), acts) == Some(Duo(None, None, pipes[k := Carried(pipes[k], n, cfg.blk)]))
    decreases n
  {
    hide DuoStep, Carried;
    CarriedMore(pipes[k], 0, cfg.blk);
    if n == 0 {
      acts := [];
      assert pipes[k := pipes[k]] == pipes;
    } else {
      acts := Blocks(cfg, pipes, k, n - 1);
      var after := pipes[k := Carried(pipes[k], n - 1, cfg.blk)];
      CarriedMore(pipes[k], n - 1, cfg.blk);
      var more := OneBlock(cfg, after, k);
      DuoOn(cfg, Duo(None, None, pipes), acts, Duo(None, None, after), more);
      acts := acts + more;
      assert after[k := Carried(pipes[k], n, cfg.blk)] == pipes[k := Carried(pipes[k], n, cfg.blk)];
    }
  }

  /** The first `m` streams carry their blocks. */
  lemma {:induction false} BlocksOnAll(cfg: Config, pipes: seq<Pipe>, counts: seq<nat>, m: nat) returns (acts: seq<Act>)
    requires cfg.Valid() && |pipes| == |counts| == cfg.streams && m <= cfg.streams
    requires forall k :: 0 <= k < cfg.streams ==> pipes[k].InFlight() == 0
    ensures DuoRun(cfg, Duo(None, None, pipes), acts)
         == Some(Duo(None, None, AllCarried(pipes, counts, cfg.blk)[..m] + pipes[m..]))
    decreases m
  {
    hide DuoStep, Carried;
    var all := AllCarried(pipes, counts, cfg.blk);
    if m == 0 {
      acts := [];
      assert all[..0] + pipes[0..] == pipes;
    } else {
      acts := BlocksOnAll(cfg, pipes, counts, m - 1);
      var after := all[..m - 1] + pipes[m - 1..];
      var more := Blocks(cfg, after, m - 1, counts[m - 1]);
      DuoOn(cfg, Duo(None, None, pipes), acts, Duo(None, None, after), more);
      acts := acts + more;
      assert after[m - 1 := all[m - 1]] == all[..m] + pipes[m..];
    }
  }

  // ----- from the start

  /** The state when the client has made the first `i` connections of its streams. */
  ghost function Connecting(cfg: Config, cookie: nat, i: nat): Sys {
    Init(cfg, cookie).(cpc := CStreams(i), cstate := CREATE_STREAMS, spc := SSelect, sstate := CREATE_STREAMS, ctrl := Some(0),
                       scookie := Some(cookie), conns := Conns(cookie, 0, i), csent := 2, crecv := 2, ssent := 2, srecv := 2)
  }

  /** The connections of streams `i` to `n`. */
  ghost function Conns(cookie: nat, i: nat, n: nat): (r: seq<Conn>)
    requires i <= n
    ensures |r| == n - i
  {
    seq(n - i, k requires 0 <= k < n - i => Conn(i + k + 1, cookie))
  }

  /** The state when all are made, and the server has accepted `i` of them. */
  ghost function Accepting(cfg: Config, cookie: nat, i: nat): Sys
    requires i <= cfg.streams
  {
    Connecting(cfg, cookie, 0).(cpc := CSelect, conns := Conns(cookie, i, cfg.streams), accepted := i)
  }

  /** The state when the test runs, before any data. */
  ghost function Started(cfg: Config, cookie: nat): (s: Sys)
    ensures |s.pipes| == cfg.streams
  {
    Connecting(cfg, cookie, 0).(cpc := CSelect, cstate := TEST_RUNNING, sstate := TEST_RUNNING, accepted := cfg.streams,
                                conns := [], crecv := 4, ssent := 4)
  }

  lemma {:induction false} Goes(cfg: Config, s: Sys, steps: seq<Step>, t: Sys, step: Step, u: Sys)
    requires |s.pipes| == cfg.streams && RunFrom(cfg, s, steps) == Some(t) && |t.pipes| == cfg.streams
    requires Apply(cfg, t, step) == Some(u)
    ensures RunFrom(cfg, s, steps + [step]) == Some(u)
  {
    hide Apply;
    OneStep(cfg, t, step);
    RunOn(cfg, s, steps, t, [step]);
  }

  lemma Single<T>(x: T)
    ensures [] + [x] == [x] && [x][1..] == [] && [x][0] == x
  {
  }

  /** The cookie, and the acceptance of the control connection. */
  lemma Greets(cfg: Config, cookie: nat) returns (steps: seq<Step>, t: Sys)
    ensures RunFrom(cfg, Init(cfg, cookie), steps) == Some(t) && |t.pipes| == cfg.streams
    ensures t == Init(cfg, cookie).(cpc := CSelect, spc := SParams, sstate := PARAM_EXCHANGE, ctrl := Some(0),
                                    scookie := Some(cookie), s2c := [State(PARAM_EXCHANGE)], csent := 1, ssent := 1, srecv := 1)
  {
    var s := Init(cfg, cookie);
    var s1 := s.(conns := [Conn(0, cookie)], cpc := CCookie);
    var s2 := s1.(c2s := [Cookie(cookie)], csent := 1, cpc := CSelect);
    var s3 := s2.(conns := [], ctrl := Some(0), spc := SCookie);
    t := s3.(c2s := [], srecv := 1, scookie := Some(cookie), sstate := PARAM_EXCHANGE, s2c := [State(PARAM_EXCHANGE)],
             ssent := 1, spc := SParams);
    Single(Conn(0, cookie));
    Single(Cookie(cookie));
    Single(State(PARAM_EXCHANGE));
    assert Apply(cfg, s, Client(Go)) == Some(s1);
    assert Apply(cfg, s1, Client(Go)) == Some(s2);
    assert Apply(cfg, s2, Server(Go)) == Some(s3);
    assert Apply(cfg, s3, Server(Go)) == Some(t);
    hide Apply, RunFrom, Init;
    OneStep(cfg, s, Client(Go));
    Goes(cfg, s, [Client(Go)], s1, Client(Go), s2);
    Goes(cfg, s, [Client(Go)] + [Client(Go)], s2, Server(Go), s3);
    Goes(cfg, s, [Client(Go)] + [Client(Go)] + [Server(Go)], s3, Server(Go), t);
    steps := [Client(Go)] + [Client(Go)] + [Server(Go)] + [Server(Go)];
  }

  /** The parameters. */
  lemma Negotiates(cfg: Config, cookie: nat) returns (steps: seq<Step>)
    ensures RunFrom(cfg, Init(cfg, cookie), steps) == Some(Connecting(cfg, cookie, 0))
  {
    var s := Init(cfg, cookie);
    var t: Sys;
    steps, t := Greets(cfg, cookie);
    var t1 := t.(s2c := [], crecv := 1, cstate := PARAM_EXCHANGE, c2s := [Params], csent := 2, cpc := CBody);
    var t2 := t1.(cpc := CSelect);
    var t3 := t2.(c2s := [], srecv := 2, sstate := CREATE_STREAMS, s2c := [State(CREATE_STREAMS)], ssent := 2, spc := SSelect);
    var t4 := t3.(s2c := [], crecv := 2, cstate := CREATE_STREAMS, cpc := CStreams(0));
    Single(State(PARAM_EXCHANGE));
    Single(Params);
    Single(State(CREATE_STREAMS));
    assert Apply(cfg, t, Client(Go)) == Some(t1);
    assert Apply(cfg, t1, Client(Go)) == Some(t2);
    assert Apply(cfg, t2, Server(Go)) == Some(t3);
    assert Apply(cfg, t3, Client(Go)) == Some(t4);
    assert t4 == Connecting(cfg, cookie, 0);
    hide Apply, RunFrom, Init, Connecting;
    Goes(cfg, s, steps, t, Client(Go), t1);
    Goes(cfg, s, steps + [Client(Go)], t1, Client(Go), t2);
    Goes(cfg, s, steps + [Client(Go)] + [Client(Go)], t2, Server(Go), t3);
    Goes(cfg, s, steps + [Client(Go)] + [Client(Go)] + [Server(Go)], t3, Client(Go), t4);
    steps := steps + [Client(Go)] + [Client(Go)] + [Server(Go)] + [Client(Go)];
  }

  lemma NextConnection(cfg: Config, cookie: nat, i: nat)
    requires i < cfg.streams
    ensures Apply(cfg, Connecting(cfg, cookie, i), Client(Go)) == Some(Connecting(cfg, cookie, i + 1))
  {
    assert Conns(cookie, 0, i) + [Conn(i + 1, cookie)] == Conns(cookie, 0, i + 1);
    hide Conns;
  }

  lemma {:induction false} Connects(cfg: Config, cookie: nat, i: nat) returns (steps: seq<Step>)
    requires i <= cfg.streams
    ensures RunFrom(cfg, Init(cfg, cookie), steps) == Some(Connecting(cfg, cookie, i))
    decreases i
  {
    hide Apply, RunFrom, Init, Connecting, Conns;
    if i == 0 {
      steps := Negotiates(cfg, cookie);
    } else {
      steps := Connects(cfg, cookie, i - 1);
      var s, t := Connecting(cfg, cookie, i - 1), Connecting(cfg, cookie, i);
      NextConnection(cfg, cookie, i - 1);
      Goes(cfg, Init(cfg, cookie), steps, s, Client(Go), t);
      steps := steps + [Client(Go)];
    }
  }

  lemma Connected(cfg: Config, cookie: nat) returns (steps: seq<Step>)
    ensures RunFrom(cfg, Init(cfg, cookie), steps) == Some(Accepting(cfg, cookie, 0))
  {
    steps := Connects(cfg, cookie, cfg.streams);
    var s := Connecting(cfg, cookie, cfg.streams);
    var s1, t := s.(cpc := CBody), Accepting(cfg, cookie, 0);
    assert Apply(cfg, s, Client(Go)) == Some(s1);
    assert Apply(cfg, s1, Client(Go)) == Some(t);
    hide Apply, RunFrom, Init;
    Goes(cfg, Init(cfg, cookie), steps, s, Client(Go), s1);
    Goes(cfg, Init(cfg, cookie), steps + [Client(Go)], s1, Client(Go), t);
    steps := steps + [Client(Go)] + [Client(Go)];
  }

  lemma NextAccepted(cfg: Config, cookie: nat, i: nat)
    requires i + 1 < cfg.streams
    ensures Apply(cfg, Accepting(cfg, cookie, i), Server(Go)) == Some(Accepting(cfg, cookie, i + 1))
  {
    assert Conns(cookie, i, cfg.streams)[1..] == Conns(cookie, i + 1, cfg.streams);
    assert Conns(cookie, i, cfg.streams)[0] == Conn(i + 1, cookie);
    hide Conns;
  }

  lemma {:induction false} Accepts(cfg: Config, cookie: nat, i: nat) returns (steps: seq<Step>)
    requires i < cfg.streams
    ensures RunFrom(cfg, Init(cfg, cookie), steps) == Some(Accepting(cfg, cookie, i))
    decreases i
  {
    hide Apply, RunFrom, Init, Accepting, Conns;
    if i == 0 {
      steps := Connected(cfg, cookie);
    } else {
      steps := Accepts(cfg, cookie, i - 1);
      var s, t := Accepting(cfg, cookie, i - 1), Accepting(cfg, cookie, i);
      NextAccepted(cfg, cookie, i - 1);
      Goes(cfg, Init(cfg, cookie), steps, s, Server(Go), t);
      steps := steps + [Server(Go)];
    }
  }

  /** The last stream starts the test. */
  lemma LastAccepted(cfg: Config, cookie: nat) returns (steps: seq<Step>, t: Sys)
    requires cfg.Valid()
    ensures RunFrom(cfg, Init(cfg, cookie), steps) == Some(t) && |t.pipes| == cfg.streams
    ensures t == Accepting(cfg, cookie, cfg.streams).(sstate := TEST_RUNNING, s2c := [State(TEST_START), State(TEST_RUNNING)], ssent := 4)
  {
    var n := cfg.streams;
    steps := Accepts(cfg, cookie, n - 1);
    var s := Accepting(cfg, cookie, n - 1);
    t := Accepting(cfg, cookie, n).(sstate := TEST_RUNNING, s2c := [State(TEST_START), State(TEST_RUNNING)], ssent := 4);
    var s1 := t.(spc := SRest);
    assert s.conns[1..] == t.conns && s.conns[0] == Conn(n, cookie);
    Single(State(TEST_START));
    assert [State(TEST_START)] + [State(TEST_RUNNING)] == t.s2c;
    assert Apply(cfg, s, Server(Go)) == Some(s1);
    assert Apply(cfg, s1, Server(Go)) == Some(t);
    hide Apply, RunFrom, Init;
    Goes(cfg, Init(cfg, cookie), steps, s, Server(Go), s1);
    Goes(cfg, Init(cfg, cookie), steps + [Server(Go)], s1, Server(Go), t);
    steps := steps + [Server(Go)] + [Server(Go)];
  }

  /** The client reads that the test runs, looks whether it is over, and goes on. */
  lemma Starts(cfg: Config, cookie: nat) returns (steps: seq<Step>)
    requires cfg.Valid()
    ensures RunFrom(cfg, Init(cfg, cookie), steps) == Some(Started(cfg, cookie)) && Running(cfg, Started(cfg, cookie))
  {
    var s := Init(cfg, cookie);
    var t: Sys;
    steps, t := LastAccepted(cfg, cookie);
    var t1 := t.(s2c := [State(TEST_RUNNING)], crecv := 3, cstate := TEST_START, cpc := CBody);
    var t2 := t1.(cpc := CSelect);
    var t3 := t2.(s2c := [], crecv := 4, cstate := TEST_RUNNING, cpc := CBody);
    var t4 := t3.(cpc := CCheck);
    var t5 := Started(cfg, cookie);
    assert Apply(cfg, t, Client(Go)) == Some(t1);
    assert Apply(cfg, t1, Client(Go)) == Some(t2);
    assert Apply(cfg, t2, Client(Go)) == Some(t3);
    assert Apply(cfg, t3, Client(Go)) == Some(t4);
    assert Apply(cfg, t4, Client(Go)) == Some(t5);
    hide Apply, RunFrom, Init;
    Goes(cfg, s, steps, t, Client(Go), t1);
    Goes(cfg, s, steps + [Client(Go)], t1, Client(Go), t2);
    Goes(cfg, s, steps + [Client(Go)] + [Client(Go)], t2, Client(Go), t3);
    Goes(cfg, s, steps + [Client(Go)] + [Client(Go)] + [Client(Go)], t3, Client(Go), t4);
    Goes(cfg, s, steps + [Client(Go)] + [Client(Go)] + [Client(Go)] + [Client(Go)], t4, Client(Go), t5);
    steps := steps + [Client(Go)] + [Client(Go)] + [Client(Go)] + [Client(Go)] + [Client(Go)];
  }

  /**
   Whatever number of blocks each stream is to carry, there is a run of a test, in either direction and with pipes of any
   capacity, that carries just these, and in which the test then still goes on.
   */
  lemma AnythingIsCarried(cfg: Config, cookie: nat, counts: seq<nat>) returns (steps: seq<Step>)
    requires cfg.Valid() && |counts| == cfg.streams
    ensures Reach(cfg, cookie, steps).Some?
    ensures var s := Reach(cfg, cookie, steps).value;
      && s.cstate == s.sstate == TEST_RUNNING && !s.done && s.c2s == [] && s.s2c == []
      && forall k :: 0 <= k < cfg.streams ==>
           s.pipes[k] == Pipe(counts[k], counts[k] * cfg.blk, counts[k], counts[k] * cfg.blk)
  {
    var s := Started(cfg, cookie);
    steps := Starts(cfg, cookie);
    var empty := s.pipes;
    var acts := BlocksOnAll(cfg, empty, counts, cfg.streams);
    var all := AllCarried(empty, counts, cfg.blk);
    assert all[..cfg.streams] + empty[cfg.streams..] == all;
    var more := ActsAreRun(cfg, s, Duo(None, None, empty), acts);
    var t := s.(pipes := all);
    assert At(cfg, s, Duo(None, None, empty)) == s && At(cfg, s, Duo(None, None, all)) == t;
    RunOn(cfg, Init(cfg, cookie), steps, s, more);
    steps := steps + more;
    RunReaches(cfg, cookie, steps);
    hide RunFrom, Reach, DuoRun;
  }
}
