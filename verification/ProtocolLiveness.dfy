/**
 No test gets stuck: in every reachable state that is not the end client or server can act, with pipes of any capacity
 and in either direction; and once the test is over, every order of their actions brings both to IPERF_DONE.
 */
module ProtocolLiveness {
  import opened CText
  import opened Protocol
  import opened ProtocolSafety

  /** Both ends have left their loops. */
  ghost predicate Final(s: Sys) {
    s.cpc == CExit && s.spc == SExit
  }

  ghost predicate Enabled(cfg: Config, s: Sys, step: Step)
    requires |s.pipes| == cfg.streams
  {
    (step.Client? || step.Server?) && Apply(cfg, s, step).Some?
  }

  // ----- deadlock freedom

  /** A transfer can go on unless it is inside a block and its pipe has no room, or nothing to read. */
  ghost predicate Stuck(cfg: Config, send: bool, j: Job, pipes: seq<Pipe>)
    requires |pipes| == cfg.streams
  {
    j.k < cfg.streams && 0 < j.left && (!send ==> j.left < cfg.blk) && Room(cfg, send, pipes[j.k]) <= 0
  }

  function NextChoice(cfg: Config, j: Job): Choice {
    if j.k >= cfg.streams then Go
    else if j.left > 0 then Move(1)
    else if j.k == j.pick && !j.moved then Begin
    else Skip
  }

  lemma JobGoesOn(cfg: Config, send: bool, j: Job, pipes: seq<Pipe>)
    requires cfg.Valid() && |pipes| == cfg.streams && JobOk(cfg, send, j) && (!send ==> ReaderFed(cfg, j, pipes))
    ensures JobStep(cfg, send, j, pipes, NextChoice(cfg, j)).Some? || Stuck(cfg, send, j, pipes)
  {
  }

  lemma Distributes(a: int, b: int, c: int)
    ensures a * (b - c) == a * b - a * c
  {
  }

  lemma AtLeastOne(a: nat, d: int)
    ensures d >= 1 ==> a * d >= a
    ensures d <= 0 ==> a * d <= 0
  {
    if d >= 1 {
      Distributes(a, d, 1);
    }
  }

  /** Whole blocks were written and a pipe is empty: then its reader is between blocks. */
  lemma WholeBlocks(blk: nat, started: nat, taken: nat, left: nat)
    requires blk * started + left == blk * taken && left < blk
    ensures left == 0
  {
    Distributes(blk, taken, started);
    AtLeastOne(blk, taken - started);
  }

  /** A reader is stuck only where the sender is inside a block of the same stream, with room to go on. */
  lemma StuckReader(cfg: Config, pipes: seq<Pipe>, sj: Option<Job>, rj: Job)
    requires cfg.Valid() && PipesOk(cfg, pipes, sj, Some(rj)) && JobOk(cfg, false, rj) && Stuck(cfg, false, rj, pipes)
    ensures sj.Some? && sj.value.k == rj.k && sj.value.left > 0 && !Stuck(cfg, true, sj.value, pipes)
  {
    var p := pipes[rj.k];
    assert PipeOk(cfg, p, LeftAt(sj, rj.k), rj.left);
    if LeftAt(sj, rj.k) == 0 {
      WholeBlocks(cfg.blk, p.started, p.taken, rj.left);
    }
  }

  lemma ClientGoesOn(cfg: Config, s: Sys)
    requires cfg.Valid() && Inv(cfg, s) && s.cpc.CXfer? && !Stuck(cfg, !cfg.reverse, s.cpc.job, s.pipes)
    ensures Enabled(cfg, s, Client(NextChoice(cfg, s.cpc.job)))
  {
    JobGoesOn(cfg, !cfg.reverse, s.cpc.job, s.pipes);
    hide JobStep, Stuck, NextChoice, Channels, ClientOk, ServerOk, ConnsOk, PipesOk, JobOk, ReaderFed;
  }

  lemma ServerGoesOn(cfg: Config, s: Sys)
    requires cfg.Valid() && Inv(cfg, s) && s.spc.SXfer? && !Stuck(cfg, cfg.reverse, s.spc.job, s.pipes)
    ensures Enabled(cfg, s, Server(NextChoice(cfg, s.spc.job)))
  {
    JobGoesOn(cfg, cfg.reverse, s.spc.job, s.pipes);
    hide JobStep, Stuck, NextChoice, Channels, ClientOk, ServerOk, ConnsOk, PipesOk, JobOk, ReaderFed;
  }

  /** While the server transfers, one end can go on, though the other may be blocked on a full or empty pipe. */
  lemma TransferGoesOn(cfg: Config, s: Sys)
    requires cfg.Valid() && Inv(cfg, s) && s.spc.SXfer?
    requires s.cpc.CXfer? || (s.cpc == CSelect && s.s2c == [] && s.cstate == TEST_END)
    ensures exists step :: Enabled(cfg, s, step)
  {
    var sj, rj := SenderJob(cfg, s), ReceiverJob(cfg, s);
    if !Stuck(cfg, cfg.reverse, s.spc.job, s.pipes) {
      ServerGoesOn(cfg, s);
    } else if s.cpc.CXfer? {
      if !Stuck(cfg, !cfg.reverse, s.cpc.job, s.pipes) {
        ClientGoesOn(cfg, s);
      } else {
        StuckReader(cfg, s.pipes, sj, rj.value);
      }
    } else if cfg.reverse {
      assert Enabled(cfg, s, Client(Pick(s.spc.job.k)));
    } else {
      StuckReader(cfg, s.pipes, sj, rj.value);
    }
  }

  lemma ConnectionWaits(cfg: Config, s: Sys)
    requires cfg.Valid() && Inv(cfg, s) && s.cpc == CSelect && s.crecv == 2 && s.ssent == 2
    ensures s.conns != []
  {
    hide Channels, DataOk;
  }

  /** A client that waits for a message has a server that can act, or is about to send it. */
  lemma ServerAnswers(cfg: Config, s: Sys)
    requires cfg.Valid() && Inv(cfg, s) && s.s2c == []
    requires (s.cpc == CSelect && s.cstate != TEST_RUNNING) || s.cpc == CResults
    requires !s.spc.SXfer?
    ensures Enabled(cfg, s, Server(Go))
  {
    Received(s.s2c, SERVER_SCRIPT, s.crecv, s.ssent);
    Received(s.c2s, ClientScript(s.cookie), s.srecv, s.csent);
    if s.cpc == CSelect && s.crecv == 2 && s.ssent == 2 {
      ConnectionWaits(cfg, s);
    }
    hide InOrder, DataOk, ServerHandles, AcceptStream, ServerHears, Mine;
  }

  lemma ServerFinishes(cfg: Config, s: Sys)
    requires cfg.Valid() && Inv(cfg, s) && s.cpc == CExit && s.spc != SExit
    ensures Enabled(cfg, s, Server(Go))
  {
    Received(s.c2s, ClientScript(s.cookie), s.srecv, s.csent);
    Received(s.s2c, SERVER_SCRIPT, s.crecv, s.ssent);
    hide InOrder, DataOk, ConnsOk, ServerHandles, AcceptStream, ServerHears;
  }

  /** A client blocked on its data has a server in its loop that can take, or that sends, what it waits for. */
  lemma ServerServes(cfg: Config, s: Sys)
    requires cfg.Valid() && Inv(cfg, s) && s.cpc.CXfer? && !s.spc.SXfer? && Stuck(cfg, !cfg.reverse, s.cpc.job, s.pipes)
    ensures !cfg.reverse && (Enabled(cfg, s, Server(Go)) || Enabled(cfg, s, Server(Pick(s.cpc.job.k))))
  {
    if cfg.reverse {
      StuckReader(cfg, s.pipes, SenderJob(cfg, s), s.cpc.job);
    }
    Received(s.c2s, ClientScript(s.cookie), s.srecv, s.csent);
    Received(s.s2c, SERVER_SCRIPT, s.crecv, s.ssent);
    hide InOrder, PipesOk, ConnsOk, ServerHandles, AcceptStream, ServerHears;
  }

  /** No reachable state short of the end is a deadlock. */
  lemma Progress(cfg: Config, s: Sys)
    requires cfg.Valid() && Inv(cfg, s) && !Final(s)
    ensures exists step :: Enabled(cfg, s, step)
  {
    if s.cpc.CXfer? {
      if s.spc.SXfer? {
        TransferGoesOn(cfg, s);
      } else if Stuck(cfg, !cfg.reverse, s.cpc.job, s.pipes) {
        ServerServes(cfg, s);
      } else {
        ClientGoesOn(cfg, s);
      }
      hide Enabled, Inv, Stuck;
    } else if s.cpc == CExit {
      ServerFinishes(cfg, s);
      hide Enabled, Inv;
    } else if (s.cpc == CSelect && s.cstate != TEST_RUNNING && s.s2c == []) || (s.cpc == CResults && s.s2c == []) {
      WaitingClient(cfg, s);
      hide Enabled, Inv;
    } else {
      ClientActs(cfg, s);
      hide Enabled, Inv;
    }
  }

  lemma ClientActs(cfg: Config, s: Sys)
    requires cfg.Valid() && Inv(cfg, s) && !s.cpc.CXfer? && s.cpc != CExit
    requires (s.cpc == CSelect ==> s.cstate == TEST_RUNNING || s.s2c != []) && (s.cpc == CResults ==> s.s2c != [])
    ensures Enabled(cfg, s, Client(Go))
  {
    hide Channels, ServerOk, ConnsOk, DataOk, ClientHandles, ClientCompares;
  }

  lemma WaitingClient(cfg: Config, s: Sys)
    requires cfg.Valid() && Inv(cfg, s) && s.s2c == []
    requires (s.cpc == CSelect && s.cstate != TEST_RUNNING) || s.cpc == CResults
    ensures exists step :: Enabled(cfg, s, step)
  {
    if s.spc.SXfer? {
      WaitsInTestEnd(cfg, s);
      TransferGoesOn(cfg, s);
    } else {
      ServerAnswers(cfg, s);
    }
    hide Enabled, Inv;
  }

  lemma WaitsInTestEnd(cfg: Config, s: Sys)
    requires Inv(cfg, s) && s.s2c == [] && s.spc.SXfer?
    requires (s.cpc == CSelect && s.cstate != TEST_RUNNING) || s.cpc == CResults
    ensures s.cpc == CSelect && s.cstate == TEST_END
  {
    Received(s.s2c, SERVER_SCRIPT, s.crecv, s.ssent);
    hide InOrder, DataOk, ConnsOk;
  }

  /** With the server blocked on a full pipe in reverse mode, it is the client's reads after TEST_END that free it. */
  lemma OnlyDrainingHelps(cfg: Config, s: Sys, step: Step)
    requires cfg.Valid() && Inv(cfg, s) && cfg.reverse && s.cpc == CSelect && s.cstate == TEST_END && s.s2c == []
    requires s.spc.SXfer? && Stuck(cfg, true, s.spc.job, s.pipes)
    ensures Enabled(cfg, s, step) ==> step.Client? && step.c.Pick?
  {
    hide ClientHandles, Inv;
  }

  // ----- the end is reached

  datatype Measure = Measure(total: int, data: int, allowance: int, rank: int)

  ghost predicate Less(a: Measure, b: Measure) {
    || a.total < b.total
    || (a.total == b.total && a.data < b.data)
    || (a.total == b.total && a.data == b.data && a.allowance < b.allowance)
    || (a.total == b.total && a.data == b.data && a.allowance == b.allowance && a.rank < b.rank)
  }

  /** Messages still to be sent and received, and connections to be looked at. */
  ghost function Total(s: Sys): int {
    2 * ((5 - s.csent) + (5 - s.srecv) + (7 - s.ssent) + (7 - s.crecv) + |s.conns|)
    + (if s.spc == SRest then 1 else 0) + (if s.cpc == CBody then 1 else 0)
  }

  /** The bytes that the pipes can take, or can give. */
  ghost function RoomSum(cfg: Config, send: bool, pipes: seq<Pipe>): int {
    if pipes == [] then 0 else Room(cfg, send, pipes[0]) + RoomSum(cfg, send, pipes[1..])
  }

  /** The whole blocks a job still has before it, and the bytes it can still move. */
  ghost function JobBlocks(cfg: Config, j: Job): int {
    (j.round - 1) * cfg.streams + (cfg.streams - j.k) - (if j.left > 0 then 1 else 0)
  }

  ghost function JobBytes(cfg: Config, j: Job): int {
    j.left + cfg.blk * JobBlocks(cfg, j)
  }

  ghost function JobRank(cfg: Config, j: Job): int {
    2 * (j.round * (cfg.streams + 1) - j.k) + (if j.left == 0 then 1 else 0)
  }

  /**
   After TEST_END a reverse test is drained: the client reads what the server's last call still writes.  Otherwise the
   client has one call of its transfer left, and the server follows.  The end whose calls are not limited is free.
   */
  ghost predicate ClientFree(cfg: Config, s: Sys) {
    cfg.reverse && s.csent >= 3
  }

  ghost function FreeSend(cfg: Config, s: Sys): bool {
    if ClientFree(cfg, s) then !cfg.reverse else cfg.reverse
  }

  ghost function Allowance(cfg: Config, s: Sys): int {
    if ClientFree(cfg, s) then (if s.spc.SXfer? then JobBytes(cfg, s.spc.job) else 0)
    else if s.cpc.CXfer? then JobBytes(cfg, s.cpc.job)
    else if s.cpc == CSelect && s.cstate == TEST_RUNNING then JobBytes(cfg, NewJob(cfg, !cfg.reverse, 0))
    else 0
  }

  ghost function FreeMoved(cfg: Config, s: Sys): int {
    if ClientFree(cfg, s) then (if s.cpc.CXfer? && s.cpc.job.moved then 1 else 0)
    else (if s.spc.SXfer? && s.spc.job.moved then 1 else 0)
  }

  ghost function ClientRank(cfg: Config, s: Sys): int {
    if s.cpc.CXfer? then JobRank(cfg, s.cpc.job)
    else if s.cpc == CSelect then JobRank(cfg, NewJob(cfg, !cfg.reverse, 0)) + 1
    else 0
  }

  ghost function ServerRank(cfg: Config, s: Sys): int {
    if s.spc.SXfer? then JobRank(cfg, s.spc.job)
    else if s.spc == SSelect && !ClientFree(cfg, s) then JobRank(cfg, NewJob(cfg, cfg.reverse, 0)) + 1
    else 0
  }

  ghost function Left(cfg: Config, s: Sys): Measure {
    Measure(Total(s), 2 * (RoomSum(cfg, FreeSend(cfg, s), s.pipes) + Allowance(cfg, s)) + FreeMoved(cfg, s),
            Allowance(cfg, s), ClientRank(cfg, s) + ServerRank(cfg, s))
  }

  lemma {:induction false} RoomSumUpdate(cfg: Config, send: bool, pipes: seq<Pipe>, k: nat, p: Pipe)
    requires k < |pipes|
    ensures RoomSum(cfg, send, pipes[k := p]) == RoomSum(cfg, send, pipes) - Room(cfg, send, pipes[k]) + Room(cfg, send, p)
  {
    if k > 0 {
      RoomSumUpdate(cfg, send, pipes[1..], k - 1, p);
      assert pipes[k := p][1..] == pipes[1..][k - 1 := p];
    } else {
      assert pipes[k := p][1..] == pipes[1..];
    }
  }

  /** A step of a transfer moves bytes out of the room of the one end, into that of the other, or gets on without. */
  lemma JobMoves(cfg: Config, send: bool, j: Job, pipes: seq<Pipe>, n: nat)
    requires |pipes| == cfg.streams && JobOk(cfg, send, j) && JobStep(cfg, send, j, pipes, Move(n)).Some?
    ensures var (j', pipes') := JobStep(cfg, send, j, pipes, Move(n)).value;
      && n > 0 && j'.Some? && j'.value.moved
      && JobBytes(cfg, j'.value) == JobBytes(cfg, j) - n
      && RoomSum(cfg, send, pipes') == RoomSum(cfg, send, pipes) - n
      && RoomSum(cfg, !send, pipes') == RoomSum(cfg, !send, pipes) + n
  {
    var p := Transfer(send, pipes[j.k], n);
    RoomSumUpdate(cfg, send, pipes, j.k, p);
    RoomSumUpdate(cfg, !send, pipes, j.k, p);
    var j' := JobStep(cfg, send, j, pipes, Move(n)).value.0.value;
    assert JobBlocks(cfg, j') == JobBlocks(cfg, j);
    hide RoomSum, JobBlocks;
  }

  lemma NextStream(cfg: Config, j: Job)
    requires j.left == 0 && cfg.blk > 0
    ensures var skip := j.(k := j.k + 1);
      JobBytes(cfg, skip) <= JobBytes(cfg, j) && JobRank(cfg, skip) < JobRank(cfg, j)
    ensures var begin := j.(left := cfg.blk);
      JobBytes(cfg, begin) == JobBytes(cfg, j) && JobRank(cfg, begin) < JobRank(cfg, j)
  {
    Distributes(cfg.blk, JobBlocks(cfg, j), 1);
  }

  lemma NextRound(cfg: Config, j: Job)
    requires j.left == 0 && j.k == cfg.streams
    ensures j.round > 1 ==>
      var again := j.(round := j.round - 1, k := 0);
      JobBlocks(cfg, again) == JobBlocks(cfg, j) && JobRank(cfg, again) < JobRank(cfg, j)
    ensures j.round == 1 ==> JobBlocks(cfg, j) == 0 && JobRank(cfg, j) > 0
  {
    Distributes(cfg.streams, j.round - 1, 1);
    Distributes(cfg.streams + 1, j.round, 1);
  }

  lemma JobGetsOn(cfg: Config, send: bool, j: Job, pipes: seq<Pipe>, c: Choice)
    requires cfg.Valid() && |pipes| == cfg.streams && JobOk(cfg, send, j)
    requires !c.Move? && JobStep(cfg, send, j, pipes, c).Some?
    ensures var (j', pipes') := JobStep(cfg, send, j, pipes, c).value;
      && (j'.Some? ==> JobBytes(cfg, j'.value) <= JobBytes(cfg, j) && j'.value.moved == j.moved)
      && (j'.Some? ==> JobRank(cfg, j'.value) < JobRank(cfg, j))
      && (j'.None? ==> JobBytes(cfg, j) == 0 && j.moved && JobRank(cfg, j) > 0)
  {
    NextStream(cfg, j);
    if j.k == cfg.streams {
      NextRound(cfg, j);
      assert j.round == 1 ==> JobBytes(cfg, j) == 0;
    }
    hide JobBlocks, JobRank;
  }

  lemma SameRoom(cfg: Config, send: bool, j: Job, pipes: seq<Pipe>, c: Choice)
    requires |pipes| == cfg.streams && !c.Move? && JobStep(cfg, send, j, pipes, c).Some?
    ensures var pipes' := JobStep(cfg, send, j, pipes, c).value.1;
      RoomSum(cfg, send, pipes') == RoomSum(cfg, send, pipes) && RoomSum(cfg, !send, pipes') == RoomSum(cfg, !send, pipes)
  {
    if c.Begin? {
      var p := Start(send, pipes[j.k]);
      RoomSumUpdate(cfg, send, pipes, j.k, p);
      RoomSumUpdate(cfg, !send, pipes, j.k, p);
    }
    hide RoomSum;
  }

  // ----- every action of client or server brings the end nearer

  lemma ClientMovesLess(cfg: Config, s: Sys, c: Choice)
    requires cfg.Valid() && Inv(cfg, s) && s.cpc.CXfer? && ClientMoves(cfg, s, s.cpc.job, c).Some?
    ensures Less(Left(cfg, ClientMoves(cfg, s, s.cpc.job, c).value), Left(cfg, s))
  {
    var j, send := s.cpc.job, !cfg.reverse;
    if c.Move? {
      JobMoves(cfg, send, j, s.pipes, c.n);
    } else {
      JobGetsOn(cfg, send, j, s.pipes, c);
      SameRoom(cfg, send, j, s.pipes, c);
    }
    hide JobStep, JobBytes, JobRank, RoomSum, JobOk, PipesOk, ConnsOk, Channels, ServerOk;
  }

  lemma ServerMovesLess(cfg: Config, s: Sys, c: Choice)
    requires cfg.Valid() && Inv(cfg, s) && s.spc.SXfer? && ServerMoves(cfg, s, s.spc.job, c).Some?
    ensures Less(Left(cfg, ServerMoves(cfg, s, s.spc.job, c).value), Left(cfg, s))
  {
    var j, send := s.spc.job, cfg.reverse;
    if c.Move? {
      JobMoves(cfg, send, j, s.pipes, c.n);
    } else {
      JobGetsOn(cfg, send, j, s.pipes, c);
      SameRoom(cfg, send, j, s.pipes, c);
    }
    hide JobStep, JobBytes, JobRank, RoomSum, JobOk, PipesOk, ConnsOk, Channels, ClientOk, ReaderFed, NewJob;
  }

  lemma NewJobLeft(cfg: Config, send: bool, k: nat)
    requires cfg.Valid()
    ensures var j, j0 := NewJob(cfg, send, k), NewJob(cfg, send, 0);
      && JobBytes(cfg, j) == JobBytes(cfg, j0) >= 0 && JobRank(cfg, j) == JobRank(cfg, j0) > 0
  {
    var r := NewJob(cfg, send, 0).round;
    assert (r - 1) * cfg.streams >= 0 && r * (cfg.streams + 1) >= 0;
  }

  lemma ClientPicksLess(cfg: Config, s: Sys, k: nat)
    requires cfg.Valid() && Inv(cfg, s) && (s.cpc == CSelect || s.cpc == CBody) && ClientPicks(cfg, s, k).Some?
    ensures Less(Left(cfg, ClientPicks(cfg, s, k).value), Left(cfg, s))
  {
    NewJobLeft(cfg, !cfg.reverse, k);
    hide JobBytes, JobRank, NewJob, Room, RoomSum, DataOk, ConnsOk, Channels, ServerOk;
    assert NewJob(cfg, !cfg.reverse, k).moved == false by { NewJobIdle(cfg, !cfg.reverse, k); }
  }

  lemma NewJobIdle(cfg: Config, send: bool, k: nat)
    ensures !NewJob(cfg, send, k).moved
  {
  }

  lemma ClientChecksLess(cfg: Config, s: Sys)
    requires cfg.Valid() && Inv(cfg, s) && s.cpc == CSelect && s.cstate == TEST_RUNNING
    ensures Less(Left(cfg, s.(cpc := CCheck)), Left(cfg, s))
  {
    NewJobLeft(cfg, !cfg.reverse, 0);
    hide JobBytes, JobRank, NewJob, RoomSum, DataOk, ConnsOk, Channels, ServerOk;
  }

  lemma ClientTotalFalls(cfg: Config, s: Sys, c: Choice)
    requires cfg.Valid() && Inv(cfg, s) && s.done && ClientStep(cfg, s, c).Some?
    requires !s.cpc.CXfer? && !(s.cpc == CSelect && s.s2c == []) && !c.Pick?
    ensures Total(ClientStep(cfg, s, c).value) < Total(s)
  {
    hide JobStep, DataOk, ConnsOk, Channels, ServerOk;
  }

  lemma ClientLess(cfg: Config, s: Sys, c: Choice)
    requires cfg.Valid() && Inv(cfg, s) && s.done && ClientStep(cfg, s, c).Some?
    ensures Less(Left(cfg, ClientStep(cfg, s, c).value), Left(cfg, s))
  {
    if s.cpc.CXfer? {
      ClientMovesLess(cfg, s, c);
    } else if c.Pick? {
      if s.cpc == CSelect || s.cpc == CBody {
        ClientPicksLess(cfg, s, c.k);
      }
    } else if s.cpc == CSelect && s.s2c == [] {
      ClientChecksLess(cfg, s);
    } else {
      ClientTotalFalls(cfg, s, c);
      hide ClientStep;
    }
    hide Inv, ClientHandles, ClientMoves, ClientPicks, ClientCompares, ClientChecks, ClientConnects;
    hide Total, RoomSum, Allowance, FreeMoved, ClientRank, ServerRank, FreeSend;
  }

  lemma ServerPicksLess(cfg: Config, s: Sys, k: nat)
    requires cfg.Valid() && Inv(cfg, s) && (s.spc == SRest || (s.spc == SSelect && s.c2s == [])) && ServerTransfer(cfg, s, k).Some?
    ensures Less(Left(cfg, ServerTransfer(cfg, s, k).value), Left(cfg, s))
  {
    NewJobLeft(cfg, cfg.reverse, k);
    NewJobIdle(cfg, cfg.reverse, k);
    Received(s.c2s, ClientScript(s.cookie), s.srecv, s.csent);
    hide JobBytes, JobRank, NewJob, Room, RoomSum, DataOk, ConnsOk, InOrder, ClientOk;
  }

  lemma ServerTotalFalls(cfg: Config, s: Sys, c: Choice)
    requires cfg.Valid() && Inv(cfg, s) && s.done && ServerStep(cfg, s, c).Some? && !s.spc.SXfer? && !c.Pick?
    ensures Total(ServerStep(cfg, s, c).value) < Total(s)
  {
    Received(s.s2c, SERVER_SCRIPT, s.crecv, s.ssent);
    hide JobStep, DataOk, ConnsOk, InOrder, AcceptStream;
    assert s.ssent >= 4 && s.ctrl != None && s.sstate != CREATE_STREAMS;
  }

  lemma ServerLess(cfg: Config, s: Sys, c: Choice)
    requires cfg.Valid() && Inv(cfg, s) && s.done && ServerStep(cfg, s, c).Some?
    ensures Less(Left(cfg, ServerStep(cfg, s, c).value), Left(cfg, s))
  {
    if s.spc.SXfer? {
      ServerMovesLess(cfg, s, c);
    } else if c.Pick? {
      if s.spc == SRest || (s.spc == SSelect && s.c2s == []) {
        ServerPicksLess(cfg, s, c.k);
      }
    } else {
      ServerTotalFalls(cfg, s, c);
      hide ServerStep;
    }
    hide Inv, ServerHandles, ServerMoves, ServerTransfer, ServerHears, AcceptStream;
    hide Total, RoomSum, Allowance, FreeMoved, ClientRank, ServerRank, FreeSend;
  }

  // ----- both ends finish

  lemma RoomSumNonNegative(cfg: Config, send: bool, pipes: seq<Pipe>)
    requires forall k :: 0 <= k < |pipes| ==> Room(cfg, send, pipes[k]) >= 0
    ensures RoomSum(cfg, send, pipes) >= 0
  {
    if pipes != [] {
      RoomSumNonNegative(cfg, send, pipes[1..]);
    }
  }

  lemma JobNonNegative(cfg: Config, send: bool, j: Job)
    requires cfg.Valid() && JobOk(cfg, send, j)
    ensures JobBytes(cfg, j) >= 0 && JobRank(cfg, j) >= 0
  {
    var r := j.round;
    assert (r - 1) * cfg.streams >= 0 && (r - 1) * (cfg.streams + 1) >= 0;
    assert r * (cfg.streams + 1) == (r - 1) * (cfg.streams + 1) + (cfg.streams + 1);
    assert JobBlocks(cfg, j) >= 0;
    assert cfg.blk * JobBlocks(cfg, j) >= 0;
  }

  lemma LeftNonNegative(cfg: Config, s: Sys)
    requires cfg.Valid() && Inv(cfg, s)
    ensures var m := Left(cfg, s); m.total >= 0 && m.data >= 0 && m.allowance >= 0 && m.rank >= 0
  {
    var send := FreeSend(cfg, s);
    assert RoomSum(cfg, send, s.pipes) >= 0 by {
      forall k | 0 <= k < |s.pipes|
        ensures Room(cfg, send, s.pipes[k]) >= 0
      {
        assert PipeOk(cfg, s.pipes[k], LeftAt(SenderJob(cfg, s), k), LeftAt(ReceiverJob(cfg, s), k));
      }
      RoomSumNonNegative(cfg, send, s.pipes);
    }
    NewJobLeft(cfg, true, 0);
    NewJobLeft(cfg, false, 0);
    if s.cpc.CXfer? {
      JobNonNegative(cfg, !cfg.reverse, s.cpc.job);
    }
    if s.spc.SXfer? {
      JobNonNegative(cfg, cfg.reverse, s.spc.job);
    }
    hide JobBytes, JobRank, NewJob, RoomSum, ConnsOk, ClientOk, ServerOk, JobOk, PipesOk;
  }

  /**
   A schedule of actions, which may go by the time, the state and the strangers that may still connect: when the test is
   over it lets an end act that can, or lets a stranger connect.
   */
  ghost predicate Schedules(cfg: Config, sched: (nat, Sys, nat) -> Step) {
    forall time: nat, s: Sys, strays: nat :: Inv(cfg, s) && s.done && !Final(s) ==>
      Enabled(cfg, s, sched(time, s, strays))
      || (strays > 0 && sched(time, s, strays).Stray? && Apply(cfg, s, sched(time, s, strays)).Some?)
  }

  lemma DoneStays(cfg: Config, s: Sys, step: Step)
    requires cfg.Valid() && Inv(cfg, s) && s.done && Apply(cfg, s, step).Some?
    ensures Apply(cfg, s, step).value.done
  {
    hide Inv, JobStep;
  }

  /** The schedule leads from `s`, at a time, to `t` in `n` actions. */
  ghost predicate LeadsTo(cfg: Config, s: Sys, sched: (nat, Sys, nat) -> Step, time: nat, strays: nat, n: nat, t: Sys)
    requires |s.pipes| == cfg.streams
    decreases n
  {
    if n == 0 then s == t
    else
      var step := sched(time, s, strays);
      Apply(cfg, s, step).Some? &&
      LeadsTo(cfg, Apply(cfg, s, step).value, sched, time + 1, Remaining(step, strays), n - 1, t)
  }

  /** The strangers that may still connect. */
  ghost function Remaining(step: Step, strays: nat): nat {
    if step.Stray? && strays > 0 then strays - 1 else strays
  }

  /** The schedule's next action is possible, and brings the end nearer or uses up a stranger. */
  lemma NextAction(cfg: Config, s: Sys, sched: (nat, Sys, nat) -> Step, time: nat, strays: nat)
    requires cfg.Valid() && Inv(cfg, s) && s.done && Schedules(cfg, sched) && !Final(s)
    ensures var step := sched(time, s, strays);
      && Apply(cfg, s, step).Some? && Inv(cfg, Apply(cfg, s, step).value) && Apply(cfg, s, step).value.done
      && (if step.Stray? then strays > 0 else Less(Left(cfg, Apply(cfg, s, step).value), Left(cfg, s)))
  {
    hide Inv, ClientStep, ServerStep, Left, Final;
    var step := sched(time, s, strays);
    StepInv(cfg, s, step);
    DoneStays(cfg, s, step);
    if step.Client? {
      ClientLess(cfg, s, step.c);
    } else if step.Server? {
      ServerLess(cfg, s, step.c);
    }
  }

  /** Once the test is over, every schedule leads both ends out of their loops, at IPERF_DONE. */
  lemma {:induction false} BothFinish(cfg: Config, s: Sys, sched: (nat, Sys, nat) -> Step, time: nat, strays: nat)
    returns (n: nat, t: Sys)
    requires cfg.Valid() && Inv(cfg, s) && s.done && Schedules(cfg, sched)
    ensures LeadsTo(cfg, s, sched, time, strays, n, t)
    ensures Final(t) && t.cstate == IPERF_DONE && t.sstate == IPERF_DONE && t.c2s == [] && t.s2c == []
    decreases strays, Left(cfg, s).total, Left(cfg, s).data, Left(cfg, s).allowance, Left(cfg, s).rank
  {
    assert |s.pipes| == cfg.streams;
    hide Inv, Apply, Left, Final, Schedules, LeadsTo;
    if Final(s) {
      AtTheEnd(cfg, s);
      LeadsNowhere(cfg, s, sched, time, strays);
      return 0, s;
    }
    NextAction(cfg, s, sched, time, strays);
    LeftNonNegative(cfg, s);
    var step := sched(time, s, strays);
    var next := Apply(cfg, s, step).value;
    var more: nat;
    more, t := BothFinish(cfg, next, sched, time + 1, Remaining(step, strays));
    LeadsOn(cfg, s, sched, time, strays, more, t);
    n := more + 1;
  }

  lemma LeadsNowhere(cfg: Config, s: Sys, sched: (nat, Sys, nat) -> Step, time: nat, strays: nat)
    requires |s.pipes| == cfg.streams
    ensures LeadsTo(cfg, s, sched, time, strays, 0, s)
  {
  }

  lemma LeadsOn(cfg: Config, s: Sys, sched: (nat, Sys, nat) -> Step, time: nat, strays: nat, n: nat, t: Sys)
    requires |s.pipes| == cfg.streams && Apply(cfg, s, sched(time, s, strays)).Some?
    requires var step := sched(time, s, strays);
      LeadsTo(cfg, Apply(cfg, s, step).value, sched, time + 1, Remaining(step, strays), n, t)
    ensures LeadsTo(cfg, s, sched, time, strays, n + 1, t)
  {
    hide Apply;
  }

  lemma AtTheEnd(cfg: Config, s: Sys)
    requires Inv(cfg, s) && Final(s)
    ensures s.cstate == IPERF_DONE && s.sstate == IPERF_DONE && s.c2s == [] && s.s2c == []
  {
    hide DataOk, ConnsOk;
  }

  // ----- a test starts

  /** The connections that the client has still to make. */
  ghost function Unmade(cfg: Config, s: Sys): int {
    (if s.cpc == CConnect then 1 else 0) + cfg.streams - Made(cfg, s)
  }

  /** Messages still to be sent and received, connections still to be made, and to be looked at. */
  ghost function StartTotal(cfg: Config, s: Sys): int {
    4 * ((5 - s.csent) + (5 - s.srecv) + (7 - s.ssent) + (7 - s.crecv)) + 2 * |s.conns| + 3 * Unmade(cfg, s)
    + (if s.spc == SRest then 1 else 0) + (if s.cpc == CBody then 1 else 0) + (if s.cpc.CStreams? then 2 else 0)
  }

  ghost function ToStart(cfg: Config, s: Sys): Measure {
    Left(cfg, s).(total := StartTotal(cfg, s))
  }

  lemma ToStartNonNegative(cfg: Config, s: Sys)
    requires cfg.Valid() && Inv(cfg, s)
    ensures var m := ToStart(cfg, s); m.total >= 0 && m.data >= 0 && m.allowance >= 0 && m.rank >= 0
  {
    LeftNonNegative(cfg, s);
    hide Left, ServerOk, ConnsOk, DataOk;
  }

  lemma MessageFalls(cfg: Config, s: Sys)
    requires s.cpc == CSelect && s.s2c != [] && Made(cfg, ClientHandles(s)) == Made(cfg, s) && ClientHandles(s).cpc != CConnect
    ensures StartTotal(cfg, ClientHandles(s)) < StartTotal(cfg, s)
  {
    hide Made;
  }

  /** The message that brings the client to its start is TEST_RUNNING. */
  lemma MessageStarts(cfg: Config, s: Sys)
    requires Inv(cfg, s) && s.crecv < 4 && s.cpc == CSelect && s.s2c != []
    ensures var t := ClientHandles(s);
      StartTotal(cfg, t) < StartTotal(cfg, s) && t.crecv == s.crecv + 1 && (t.crecv == 4 ==> t.cstate == TEST_RUNNING)
  {
    HandlesMade(cfg, s);
    MessageFalls(cfg, s);
    ClientHandlesPhase(cfg, s);
    hide DataOk, ConnsOk, Channels, ServerOk, Made, StartTotal;
  }

  lemma ClientStarts(cfg: Config, s: Sys, c: Choice)
    requires cfg.Valid() && Inv(cfg, s) && s.crecv < 4 && ClientStep(cfg, s, c).Some?
    ensures var t := ClientStep(cfg, s, c).value;
      StartTotal(cfg, t) < StartTotal(cfg, s) && t.crecv <= 4 && (t.crecv == 4 ==> t.cstate == TEST_RUNNING)
  {
    if s.cpc == CSelect && s.s2c != [] {
      MessageStarts(cfg, s);
      hide StartTotal;
    }
    hide JobStep, DataOk, ConnsOk, Channels, ServerOk, ClientHandles;
  }

  /** What the server hears, and a connection it looks at, brings the start nearer. */
  lemma HandlingFalls(cfg: Config, s: Sys)
    requires s.c2s != []
    ensures StartTotal(cfg, ServerHandles(s)) < StartTotal(cfg, s)
  {
  }

  lemma HearingFalls(cfg: Config, s: Sys)
    requires s.c2s != []
    ensures StartTotal(cfg, ServerHears(s)) < StartTotal(cfg, s)
  {
  }

  lemma LookingFalls(cfg: Config, s: Sys)
    requires s.conns != []
    ensures StartTotal(cfg, AcceptStream(cfg, s)) < StartTotal(cfg, s) && StartTotal(cfg, Denies(s)) < StartTotal(cfg, s)
    ensures StartTotal(cfg, s.(conns := s.conns[1..], ctrl := Some(s.conns[0].id), spc := SCookie)) < StartTotal(cfg, s)
  {
  }

  lemma ServerStartFalls(cfg: Config, s: Sys, c: Choice)
    requires |s.pipes| == cfg.streams && ServerStep(cfg, s, c).Some? && !s.spc.SXfer? && !c.Pick?
    ensures StartTotal(cfg, ServerStep(cfg, s, c).value) < StartTotal(cfg, s)
  {
    if s.c2s != [] {
      HandlingFalls(cfg, s);
      HearingFalls(cfg, s);
    }
    if s.conns != [] {
      LookingFalls(cfg, s);
    }
    if s.spc == SRest {
      RestFalls(cfg, s);
    }
    hide StartTotal, ServerHandles, ServerHears, AcceptStream, Denies, ServerTransfer;
  }

  lemma RestFalls(cfg: Config, s: Sys)
    requires s.spc == SRest
    ensures StartTotal(cfg, s.(spc := SSelect)) < StartTotal(cfg, s)
  {
  }

  /** A server that serves its streams early only moves what the pipes can take, or hold. */
  lemma SameStartTotal(cfg: Config, s: Sys, c: Choice)
    requires |s.pipes| == cfg.streams && ServerStep(cfg, s, c).Some? && (s.spc.SXfer? || c.Pick?)
    ensures var t := ServerStep(cfg, s, c).value;
      StartTotal(cfg, t) - StartTotal(cfg, s) == Total(t) - Total(s)
  {
    hide JobStep, ServerHandles, ServerHears, AcceptStream;
  }

  lemma ServerStarts(cfg: Config, s: Sys, c: Choice)
    requires cfg.Valid() && Inv(cfg, s) && s.crecv < 4 && ServerStep(cfg, s, c).Some?
    ensures Less(ToStart(cfg, ServerStep(cfg, s, c).value), ToStart(cfg, s))
  {
    if s.spc.SXfer? {
      SameStartTotal(cfg, s, c);
      ServerMovesLess(cfg, s, c);
    } else if c.Pick? {
      SameStartTotal(cfg, s, c);
      if s.spc == SRest || (s.spc == SSelect && s.c2s == []) {
        ServerPicksLess(cfg, s, c.k);
      }
    } else {
      ServerStartFalls(cfg, s, c);
      hide ServerStep;
    }
    hide Inv, ServerHandles, ServerMoves, ServerTransfer, ServerHears, AcceptStream;
    hide Total, StartTotal, RoomSum, Allowance, FreeMoved, ClientRank, ServerRank, FreeSend;
  }

  /** A schedule of actions up to the start of the test. */
  ghost predicate StartSchedules(cfg: Config, sched: (nat, Sys, nat) -> Step) {
    forall time: nat, s: Sys, strays: nat :: Inv(cfg, s) && s.crecv < 4 ==>
      Enabled(cfg, s, sched(time, s, strays))
      || (strays > 0 && sched(time, s, strays).Stray? && Apply(cfg, s, sched(time, s, strays)).Some?)
  }

  lemma StartAction(cfg: Config, s: Sys, sched: (nat, Sys, nat) -> Step, time: nat, strays: nat)
    requires cfg.Valid() && Inv(cfg, s) && s.crecv < 4 && StartSchedules(cfg, sched)
    ensures var step := sched(time, s, strays);
      && Apply(cfg, s, step).Some? && Inv(cfg, Apply(cfg, s, step).value)
      && (var t := Apply(cfg, s, step).value;
          && t.crecv <= 4 && (t.crecv == 4 ==> t.cstate == TEST_RUNNING)
          && (if step.Stray? then strays > 0 else Less(ToStart(cfg, t), ToStart(cfg, s))))
  {
    hide Inv, ClientStep, ServerStep, Left, StartTotal;
    var step := sched(time, s, strays);
    StepInv(cfg, s, step);
    if step.Client? {
      ClientStarts(cfg, s, step.c);
    } else if step.Server? {
      ServerStarts(cfg, s, step.c);
    }
  }

  lemma {:induction false} StartsFrom(cfg: Config, s: Sys, sched: (nat, Sys, nat) -> Step, time: nat, strays: nat)
    returns (n: nat, t: Sys)
    requires cfg.Valid() && Inv(cfg, s) && StartSchedules(cfg, sched)
    requires s.crecv <= 4 && (s.crecv == 4 ==> s.cstate == TEST_RUNNING)
    ensures LeadsTo(cfg, s, sched, time, strays, n, t)
    ensures Inv(cfg, t) && t.cstate == TEST_RUNNING && t.crecv == 4
    decreases strays, ToStart(cfg, s).total, ToStart(cfg, s).data, ToStart(cfg, s).allowance, ToStart(cfg, s).rank
  {
    assert |s.pipes| == cfg.streams;
    hide Inv, Apply, ToStart, StartSchedules, LeadsTo;
    if s.crecv == 4 {
      LeadsNowhere(cfg, s, sched, time, strays);
      return 0, s;
    }
    StartAction(cfg, s, sched, time, strays);
    ToStartNonNegative(cfg, s);
    var step := sched(time, s, strays);
    var next := Apply(cfg, s, step).value;
    var more: nat;
    more, t := StartsFrom(cfg, next, sched, time + 1, Remaining(step, strays));
    LeadsOn(cfg, s, sched, time, strays, more, t);
    n := more + 1;
  }

  /**
   Every test starts: from the first state, with any number of strangers, every schedule brings the client to TEST_RUNNING,
   when the server has accepted all its streams.
   */
  lemma TestStarts(cfg: Config, cookie: nat, sched: (nat, Sys, nat) -> Step, strays: nat) returns (n: nat, t: Sys)
    requires cfg.Valid() && StartSchedules(cfg, sched)
    ensures LeadsTo(cfg, Init(cfg, cookie), sched, 0, strays, n, t)
    ensures t.cstate == TEST_RUNNING && t.accepted == cfg.streams && t.ctrl == Some(0) && t.scookie == Some(cookie)
  {
    InitInv(cfg, cookie);
    n, t := StartsFrom(cfg, Init(cfg, cookie), sched, 0, strays);
    AllAccepted(cfg, t);
    SameCookie(cfg, Init(cfg, cookie), sched, 0, strays, n, t);
    hide Inv, LeadsTo;
  }

  lemma AllAccepted(cfg: Config, t: Sys)
    requires Inv(cfg, t) && t.crecv == 4 && t.cstate == TEST_RUNNING
    ensures t.accepted == cfg.streams && t.ctrl == Some(0) && t.scookie == Some(t.cookie)
  {
    Received(t.s2c, SERVER_SCRIPT, t.crecv, t.ssent);
    hide InOrder, DataOk, ConnsOk;
  }

  lemma {:induction false} SameCookie(cfg: Config, s: Sys, sched: (nat, Sys, nat) -> Step, time: nat, strays: nat, n: nat, t: Sys)
    requires |s.pipes| == cfg.streams && LeadsTo(cfg, s, sched, time, strays, n, t)
    ensures t.cookie == s.cookie
    decreases n
  {
    hide Apply;
    if n > 0 {
      var step := sched(time, s, strays);
      SameCookie(cfg, Apply(cfg, s, step).value, sched, time + 1, Remaining(step, strays), n - 1, t);
    }
  }
}
