/**
 What holds in every state the protocol can reach, whatever the interleaving, the chunk sizes and the other clients.
 */
module ProtocolSafety {
  import opened CText
  import opened Protocol

  // ----- the control channel

  /** The queue holds exactly the messages of a script sent and not yet received, in order. */
  ghost predicate InOrder(queue: seq<Msg>, script: seq<Msg>, recv: nat, sent: nat) {
    recv <= sent <= |script| && queue == script[recv..sent]
  }

  ghost predicate Channels(s: Sys) {
    InOrder(s.c2s, ClientScript(s.cookie), s.srecv, s.csent) && InOrder(s.s2c, SERVER_SCRIPT, s.crecv, s.ssent)
  }

  /** The client's state after `recv` messages received and `sent` messages sent. */
  ghost predicate ClientPhase(recv: nat, sent: nat, state: int) {
    match recv
    case 0 => sent == 1 && state == IDLE
    case 1 => sent == 2 && state == PARAM_EXCHANGE
    case 2 => sent == 2 && state == CREATE_STREAMS
    case 3 => sent == 2 && state == TEST_START
    case 4 => (sent == 2 && state == TEST_RUNNING) || (sent == 3 && state == TEST_END)
    case 5 => sent == 4 && state == EXCHANGE_RESULTS
    case 6 => sent == 4 && state == EXCHANGE_RESULTS
    case 7 => sent == 5 && state == IPERF_DONE
    case _ => false
  }

  ghost predicate ClientOk(cfg: Config, s: Sys) {
    && (s.done ==> s.crecv >= 4)
    && match s.cpc
       case CConnect => s.crecv == 0 && s.csent == 0 && s.cstate == IDLE
       case CCookie => s.crecv == 0 && s.csent == 0 && s.cstate == IDLE
       case CSelect => ClientPhase(s.crecv, s.csent, s.cstate) && s.crecv != 5 && s.crecv != 7
       case CBody => ClientPhase(s.crecv, s.csent, s.cstate) && s.crecv !in {0, 5} && s.cstate != TEST_END
       case CStreams(i) => s.crecv == 2 && s.csent == 2 && s.cstate == CREATE_STREAMS && i <= cfg.streams
       case CResults => s.crecv == 5 && s.csent == 4 && s.cstate == EXCHANGE_RESULTS
       case CXfer(_) => s.crecv == 4 && ClientPhase(4, s.csent, s.cstate) && (s.cstate == TEST_END ==> cfg.reverse)
       case CCheck => s.crecv == 4 && s.csent == 2 && s.cstate == TEST_RUNNING
       case CExit => s.crecv == 7 && s.csent == 5 && s.cstate == IPERF_DONE
       case CError => false
  }

  ghost predicate ServerOk(cfg: Config, s: Sys) {
    && (s.ctrl == None <==> s.spc == SSelect && s.sstate == IPERF_START)
    && (s.ctrl == None || s.ctrl == Some(0))
    && s.scookie == (if s.srecv == 0 then None else Some(s.cookie))
    && (s.ssent < 2 ==> s.accepted == 0)
    && (s.ssent <= 2 ==> s.accepted < cfg.streams)
    && (s.ssent >= 4 ==> s.accepted == cfg.streams)
    && match s.spc
       case SSelect => ServerPhase(s.srecv, s.ssent, s.sstate)
       case SRest => ServerPhase(s.srecv, s.ssent, s.sstate) && s.ssent >= 4
       case SCookie => s.srecv == 0 && s.ssent == 0 && s.sstate == IPERF_START
       case SParams => s.srecv == 1 && s.ssent == 1 && s.sstate == PARAM_EXCHANGE
       case SResults => s.srecv == 3 && s.ssent == 5 && s.sstate == EXCHANGE_RESULTS
       case SXfer(_) => s.srecv == 2 && s.ssent == 4 && s.sstate == TEST_RUNNING
       case SExit => s.srecv == 5 && s.ssent == 7 && s.sstate == IPERF_DONE
       case SError => false
  }

  /** The server's state in its loop. */
  ghost predicate ServerPhase(recv: nat, sent: nat, state: int) {
    || (recv == 0 && sent == 0 && state == IPERF_START)
    || (recv == 2 && sent == 2 && state == CREATE_STREAMS)
    || (recv == 2 && sent == 4 && state == TEST_RUNNING)
    || (recv == 4 && sent == 7 && state == DISPLAY_RESULTS)
  }

  // ----- connections

  /** The connections in a queue that carry the test's cookie. */
  ghost function Mine(conns: seq<Conn>, cookie: nat): nat {
    if conns == [] then 0 else (if conns[0].cookie == cookie then 1 else 0) + Mine(conns[1..], cookie)
  }

  /** The stream connections the client has made. */
  ghost function Made(cfg: Config, s: Sys): nat {
    if s.crecv < 2 then 0 else if s.cpc.CStreams? then s.cpc.i else cfg.streams
  }

  ghost predicate ConnsOk(cfg: Config, s: Sys) {
    && (s.ctrl == None && s.cpc == CConnect ==> s.conns == [])
    && (s.ctrl == None && s.cpc != CConnect ==> s.conns != [] && s.conns[0] == Conn(0, s.cookie))
    && (s.cpc == CConnect ==> s.ctrl == None)
    && Mine(s.conns, s.cookie) + s.accepted == Made(cfg, s) + (if s.ctrl == None && s.cpc != CConnect then 1 else 0)
    && Mine(s.denied, s.cookie) == 0
  }

  // ----- data

  ghost function SenderJob(cfg: Config, s: Sys): Option<Job> {
    if cfg.reverse then (if s.spc.SXfer? then Some(s.spc.job) else None)
    else (if s.cpc.CXfer? then Some(s.cpc.job) else None)
  }

  ghost function ReceiverJob(cfg: Config, s: Sys): Option<Job> {
    if cfg.reverse then (if s.cpc.CXfer? then Some(s.cpc.job) else None)
    else (if s.spc.SXfer? then Some(s.spc.job) else None)
  }

  /** The bytes a job has left of a block on stream `k`. */
  ghost function LeftAt(j: Option<Job>, k: nat): nat {
    if j.Some? && j.value.k == k then j.value.left else 0
  }

  /** Whole blocks, but for what the current block still lacks; and no more in flight than the pipe holds. */
  ghost predicate PipeOk(cfg: Config, p: Pipe, unsent: nat, unread: nat) {
    && p.written + unsent == cfg.blk * p.started
    && p.read + unread == cfg.blk * p.taken
    && 0 <= p.InFlight() <= cfg.cap
  }

  ghost predicate PipesOk(cfg: Config, pipes: seq<Pipe>, sj: Option<Job>, rj: Option<Job>) {
    |pipes| == cfg.streams && forall k :: 0 <= k < cfg.streams ==> PipeOk(cfg, pipes[k], LeftAt(sj, k), LeftAt(rj, k))
  }

  ghost predicate JobOk(cfg: Config, send: bool, j: Job) {
    && 1 <= j.round <= (if send then cfg.multisend else 1)
    && j.k <= cfg.streams && j.left <= cfg.blk && (j.left > 0 ==> j.k < cfg.streams) && j.pick < cfg.streams
    && (!j.moved ==> j.k <= j.pick && j.round == (if send then cfg.multisend else 1))
  }

  /** A reader that has not yet touched the ready stream, or has just begun a block, has something to read. */
  ghost predicate ReaderFed(cfg: Config, j: Job, pipes: seq<Pipe>)
    requires JobOk(cfg, false, j) && |pipes| == cfg.streams
  {
    && (!j.moved ==> pipes[j.pick].InFlight() > 0)
    && (j.left == cfg.blk > 0 ==> pipes[j.k].InFlight() > 0)
  }

  ghost predicate DataOk(cfg: Config, s: Sys) {
    && PipesOk(cfg, s.pipes, SenderJob(cfg, s), ReceiverJob(cfg, s))
    && (SenderJob(cfg, s).Some? ==> JobOk(cfg, true, SenderJob(cfg, s).value))
    && (ReceiverJob(cfg, s).Some? ==>
          JobOk(cfg, false, ReceiverJob(cfg, s).value) && ReaderFed(cfg, ReceiverJob(cfg, s).value, s.pipes))
  }

  /** TEST_END is announced only when the test is over. */
  ghost predicate OverOk(s: Sys) {
    s.csent >= 3 ==> s.done
  }

  ghost predicate Inv(cfg: Config, s: Sys) {
    Channels(s) && ClientOk(cfg, s) && ServerOk(cfg, s) && ConnsOk(cfg, s) && DataOk(cfg, s) && OverOk(s)
  }

  // ----- the invariant holds initially and is kept by every step

  lemma InitInv(cfg: Config, cookie: nat)
    requires cfg.Valid()
    ensures Inv(cfg, Init(cfg, cookie))
  {
  }

  lemma Sent(queue: seq<Msg>, script: seq<Msg>, recv: nat, sent: nat)
    requires InOrder(queue, script, recv, sent) && sent < |script|
    ensures InOrder(queue + [script[sent]], script, recv, sent + 1)
  {
  }

  lemma Received(queue: seq<Msg>, script: seq<Msg>, recv: nat, sent: nat)
    requires InOrder(queue, script, recv, sent)
    ensures queue == [] <==> recv == sent
    ensures recv <= sent <= |script|
    ensures queue != [] ==> queue[0] == script[recv] && InOrder(queue[1..], script, recv + 1, sent)
  {
  }

  lemma MineSnoc(conns: seq<Conn>, c: Conn, cookie: nat)
    ensures Mine(conns + [c], cookie) == Mine(conns, cookie) + (if c.cookie == cookie then 1 else 0)
  {
    if conns != [] {
      assert (conns + [c])[1..] == conns[1..] + [c];
      MineSnoc(conns[1..], c, cookie);
    } else {
      assert (conns + [c])[1..] == [];
    }
  }

  lemma NextBlock(blk: nat, n: nat)
    ensures blk * (n + 1) == blk * n + blk
  {
  }

  /** One step of a transfer keeps the accounts of its pipe, and those of the job at the other end. */
  lemma SendKeeps(cfg: Config, j: Job, pipes: seq<Pipe>, c: Choice, other: Option<Job>)
    requires cfg.Valid() && PipesOk(cfg, pipes, Some(j), other) && JobOk(cfg, true, j)
    requires other.Some? ==> JobOk(cfg, false, other.value) && ReaderFed(cfg, other.value, pipes)
    requires JobStep(cfg, true, j, pipes, c).Some?
    ensures var (j', pipes') := JobStep(cfg, true, j, pipes, c).value;
      && PipesOk(cfg, pipes', j', other) && (j'.Some? ==> JobOk(cfg, true, j'.value))
      && (j'.None? ==> j.moved)
      && (other.Some? ==> ReaderFed(cfg, other.value, pipes'))
  {
    if j.k < cfg.streams {
      NextBlock(cfg.blk, pipes[j.k].started);
    }
  }

  lemma ReceiveKeeps(cfg: Config, j: Job, pipes: seq<Pipe>, c: Choice, other: Option<Job>)
    requires cfg.Valid() && PipesOk(cfg, pipes, other, Some(j)) && JobOk(cfg, false, j) && ReaderFed(cfg, j, pipes)
    requires JobStep(cfg, false, j, pipes, c).Some?
    ensures var (j', pipes') := JobStep(cfg, false, j, pipes, c).value;
      && PipesOk(cfg, pipes', other, j') && (j'.Some? ==> JobOk(cfg, false, j'.value) && ReaderFed(cfg, j'.value, pipes'))
      && (j'.None? ==> j.moved)
  {
    if j.k < cfg.streams {
      NextBlock(cfg.blk, pipes[j.k].taken);
    }
  }

  /** Each message reaches a client that is ready for it. */
  lemma ClientHandlesPhase(cfg: Config, s: Sys)
    requires Channels(s) && ClientOk(cfg, s) && ServerOk(cfg, s) && s.cpc == CSelect && s.s2c != []
    ensures ClientOk(cfg, ClientHandles(s))
  {
    Received(s.s2c, SERVER_SCRIPT, s.crecv, s.ssent);
    Received(s.c2s, ClientScript(s.cookie), s.srecv, s.csent);
    hide InOrder;
  }

  lemma ClientHandlesKeeps(cfg: Config, s: Sys)
    requires Channels(s) && ClientOk(cfg, s) && ServerOk(cfg, s) && s.cpc == CSelect && s.s2c != []
    ensures Channels(ClientHandles(s)) && ClientOk(cfg, ClientHandles(s))
  {
    ClientHandlesPhase(cfg, s);
    Received(s.s2c, SERVER_SCRIPT, s.crecv, s.ssent);
    if s.csent < 5 {
      Sent(s.c2s, ClientScript(s.cookie), s.srecv, s.csent);
    }
    hide InOrder, ServerOk;
  }

  lemma ClientConnectsKeeps(cfg: Config, s: Sys)
    requires Channels(s) && ClientOk(cfg, s) && (s.cpc.CConnect? || s.cpc.CCookie? || s.cpc.CStreams?)
    ensures Channels(ClientConnects(cfg, s)) && ClientOk(cfg, ClientConnects(cfg, s))
  {
    if s.csent < 5 {
      Sent(s.c2s, ClientScript(s.cookie), s.srecv, s.csent);
    }
    hide InOrder;
  }

  lemma ClientChecksKeeps(cfg: Config, s: Sys)
    requires Channels(s) && ClientOk(cfg, s) && s.cpc == CCheck
    ensures Channels(ClientChecks(s)) && ClientOk(cfg, ClientChecks(s))
  {
    Sent(s.c2s, ClientScript(s.cookie), s.srecv, s.csent);
    hide InOrder;
  }

  lemma ClientComparesKeeps(cfg: Config, s: Sys)
    requires Channels(s) && ClientOk(cfg, s) && s.cpc == CResults && s.s2c != []
    ensures Channels(ClientCompares(s)) && ClientOk(cfg, ClientCompares(s))
  {
    Received(s.s2c, SERVER_SCRIPT, s.crecv, s.ssent);
    hide InOrder;
  }

  lemma ClientLoops(cfg: Config, s: Sys, c: Choice)
    requires |s.pipes| == cfg.streams && Channels(s) && ClientOk(cfg, s)
    ensures s.cpc == CSelect && s.s2c == [] && ClientSelects(cfg, s, c).Some? ==>
              Channels(ClientSelects(cfg, s, c).value) && ClientOk(cfg, ClientSelects(cfg, s, c).value)
    ensures s.cpc == CBody && ClientBody(cfg, s, c).Some? ==>
              Channels(ClientBody(cfg, s, c).value) && ClientOk(cfg, ClientBody(cfg, s, c).value)
    ensures s.cpc.CXfer? && ClientMoves(cfg, s, s.cpc.job, c).Some? ==>
              Channels(ClientMoves(cfg, s, s.cpc.job, c).value) && ClientOk(cfg, ClientMoves(cfg, s, s.cpc.job, c).value)
  {
    hide JobStep, InOrder, ClientHandles;
  }

  lemma ClientKeepsOrder(cfg: Config, s: Sys, c: Choice)
    requires |s.pipes| == cfg.streams && Channels(s) && ClientOk(cfg, s) && ServerOk(cfg, s)
    requires ClientStep(cfg, s, c).Some?
    ensures var t := ClientStep(cfg, s, c).value; Channels(t) && ClientOk(cfg, t)
  {
    if s.cpc == CSelect && s.s2c != [] {
      ClientHandlesKeeps(cfg, s);
    } else if s.cpc == CResults && s.s2c != [] {
      ClientComparesKeeps(cfg, s);
    } else if s.cpc == CCheck {
      ClientChecksKeeps(cfg, s);
    } else if s.cpc.CConnect? || s.cpc.CCookie? || s.cpc.CStreams? {
      ClientConnectsKeeps(cfg, s);
    } else {
      ClientLoops(cfg, s, c);
    }
    hide ClientHandles, ClientConnects, ClientChecks, ClientCompares, ClientPicks, ClientBody, ClientMoves;
    hide ClientOk, Channels;
  }

  lemma HandlesMade(cfg: Config, s: Sys)
    requires Channels(s) && ClientOk(cfg, s) && ServerOk(cfg, s) && s.cpc == CSelect && s.s2c != []
    ensures Made(cfg, ClientHandles(s)) == Made(cfg, s) && ClientHandles(s).cpc != CConnect
  {
    ClientHandlesKeeps(cfg, s);
    Received(s.s2c, SERVER_SCRIPT, s.crecv, s.ssent);
    hide InOrder, ServerOk;
  }

  lemma OtherMade(cfg: Config, s: Sys, c: Choice)
    requires |s.pipes| == cfg.streams && Channels(s) && ClientOk(cfg, s) && ClientStep(cfg, s, c).Some?
    requires !(s.cpc == CSelect && s.s2c != []) && s.cpc != CConnect && !s.cpc.CStreams?
    ensures var t := ClientStep(cfg, s, c).value; t.cpc != CConnect && Made(cfg, t) == Made(cfg, s)
  {
    hide JobStep, ClientHandles, Channels, ClientPhase, Room, NewJob;
  }

  lemma ConnectsKeeps(cfg: Config, s: Sys)
    requires ClientOk(cfg, s) && ConnsOk(cfg, s) && (s.cpc == CConnect || s.cpc.CStreams?)
    ensures ConnsOk(cfg, ClientConnects(cfg, s))
  {
    if s.cpc.CConnect? {
      MineSnoc(s.conns, Conn(0, s.cookie), s.cookie);
      assert Mine([], s.cookie) == 0;
    } else {
      MineSnoc(s.conns, Conn(s.cpc.i + 1, s.cookie), s.cookie);
    }
    hide Mine;
  }

  lemma ClientKeepsConns(cfg: Config, s: Sys, c: Choice)
    requires |s.pipes| == cfg.streams && Channels(s) && ClientOk(cfg, s) && ServerOk(cfg, s) && ConnsOk(cfg, s)
    requires ClientStep(cfg, s, c).Some?
    ensures ConnsOk(cfg, ClientStep(cfg, s, c).value)
  {
    if s.cpc.CConnect? || s.cpc.CStreams? {
      ConnectsKeeps(cfg, s);
      hide ConnsOk, ClientOk;
    } else {
      if s.cpc == CSelect && s.s2c != [] {
        HandlesMade(cfg, s);
      } else {
        OtherMade(cfg, s, c);
      }
      assert Made(cfg, ClientStep(cfg, s, c).value) == Made(cfg, s) && ClientStep(cfg, s, c).value.cpc != CConnect;
      hide ClientStep, Made, Mine;
    }
    hide ClientConnects, ClientHandles, ClientMoves, ClientBody, InOrder, ServerOk, Mine;
  }

  lemma ClientMovesData(cfg: Config, s: Sys, c: Choice)
    requires cfg.Valid() && |s.pipes| == cfg.streams && DataOk(cfg, s)
    requires s.cpc.CXfer? && ClientMoves(cfg, s, s.cpc.job, c).Some?
    ensures DataOk(cfg, ClientMoves(cfg, s, s.cpc.job, c).value)
  {
    if cfg.reverse {
      ReceiveKeeps(cfg, s.cpc.job, s.pipes, c, SenderJob(cfg, s));
    } else {
      SendKeeps(cfg, s.cpc.job, s.pipes, c, ReceiverJob(cfg, s));
    }
    hide JobStep, PipesOk, JobOk, ReaderFed;
  }

  lemma ClientPicksData(cfg: Config, s: Sys, k: nat)
    requires cfg.Valid() && |s.pipes| == cfg.streams && DataOk(cfg, s)
    requires !s.cpc.CXfer? && ClientPicks(cfg, s, k).Some?
    ensures DataOk(cfg, ClientPicks(cfg, s, k).value)
  {
    PickKeeps(cfg, !cfg.reverse, s.pipes, k, SenderJob(cfg, s), ReceiverJob(cfg, s));
    hide NewJob, Room, PipesOk, JobOk, ReaderFed;
  }

  /** The bytes are not touched where no job begins or moves. */
  lemma SameData(cfg: Config, s: Sys, t: Sys)
    requires DataOk(cfg, s) && t.pipes == s.pipes
    requires (t.cpc == s.cpc || (!s.cpc.CXfer? && !t.cpc.CXfer?)) && (t.spc == s.spc || (!s.spc.SXfer? && !t.spc.SXfer?))
    ensures DataOk(cfg, t)
  {
    hide PipesOk, JobOk, ReaderFed;
  }

  lemma ClientKeepsData(cfg: Config, s: Sys, c: Choice)
    requires cfg.Valid() && |s.pipes| == cfg.streams && DataOk(cfg, s)
    requires ClientStep(cfg, s, c).Some?
    ensures DataOk(cfg, ClientStep(cfg, s, c).value)
  {
    if s.cpc.CXfer? {
      ClientMovesData(cfg, s, c);
    } else if c.Pick? && ClientPicks(cfg, s, c.k).Some? {
      ClientPicksData(cfg, s, c.k);
    } else {
      SameData(cfg, s, ClientStep(cfg, s, c).value);
    }
    hide ClientHandles, ClientMoves, ClientPicks, DataOk;
  }

  /** A transfer that begins with a ready stream owes nothing on any pipe yet. */
  lemma PickKeeps(cfg: Config, send: bool, pipes: seq<Pipe>, k: nat, sj: Option<Job>, rj: Option<Job>)
    requires cfg.Valid() && PipesOk(cfg, pipes, sj, rj) && k < cfg.streams && Room(cfg, send, pipes[k]) > 0
    ensures var j := NewJob(cfg, send, k);
      && JobOk(cfg, send, j) && (!send ==> ReaderFed(cfg, j, pipes))
      && (send && sj == None ==> PipesOk(cfg, pipes, Some(j), rj))
      && (!send && rj == None ==> PipesOk(cfg, pipes, sj, Some(j)))
  {
  }

  lemma ServerHandlesKeeps(cfg: Config, s: Sys)
    requires Channels(s) && ClientOk(cfg, s) && ServerOk(cfg, s) && (s.spc == SSelect || s.spc == SRest) && s.ctrl != None && s.c2s != []
    ensures Channels(ServerHandles(s)) && ServerOk(cfg, ServerHandles(s))
  {
    Received(s.s2c, SERVER_SCRIPT, s.crecv, s.ssent);
    Received(s.c2s, ClientScript(s.cookie), s.srecv, s.csent);
    if s.ssent < 7 {
      Sent(s.s2c, SERVER_SCRIPT, s.crecv, s.ssent);
    }
    hide InOrder;
  }

  lemma ServerHearsKeeps(cfg: Config, s: Sys)
    requires Channels(s) && ServerOk(cfg, s) && (s.spc == SCookie || s.spc == SParams || s.spc == SResults) && s.c2s != []
    ensures Channels(ServerHears(s)) && ServerOk(cfg, ServerHears(s))
  {
    Received(s.s2c, SERVER_SCRIPT, s.crecv, s.ssent);
    Received(s.c2s, ClientScript(s.cookie), s.srecv, s.csent);
    Sent(s.s2c, SERVER_SCRIPT, s.crecv, s.ssent);
    if s.ssent < 6 {
      Sent(s.s2c + [SERVER_SCRIPT[s.ssent]], SERVER_SCRIPT, s.crecv, s.ssent + 1);
    }
    hide InOrder;
  }

  /** A connection counts as a stream exactly when it bears the test's cookie, and the last stream, and only it, starts the test. */
  lemma AcceptStreamKeeps(cfg: Config, s: Sys)
    requires Channels(s) && ServerOk(cfg, s) && s.spc == SSelect && s.sstate == CREATE_STREAMS && s.conns != []
    ensures Channels(AcceptStream(cfg, s)) && ServerOk(cfg, AcceptStream(cfg, s))
    ensures var t, mine := AcceptStream(cfg, s), s.conns[0].cookie == s.cookie;
      && t.accepted == (if mine then s.accepted + 1 else s.accepted)
      && t.denied == (if mine then s.denied else s.denied + [s.conns[0]])
      && t.s2c == s.s2c + (if mine && t.accepted == cfg.streams then [State(TEST_START), State(TEST_RUNNING)] else [])
  {
    Received(s.s2c, SERVER_SCRIPT, s.crecv, s.ssent);
    Sent(s.s2c, SERVER_SCRIPT, s.crecv, s.ssent);
    Sent(s.s2c + [SERVER_SCRIPT[s.ssent]], SERVER_SCRIPT, s.crecv, s.ssent + 1);
    hide InOrder;
  }

  lemma ServerSelectsKeeps(cfg: Config, s: Sys, c: Choice)
    requires |s.pipes| == cfg.streams && Channels(s) && ClientOk(cfg, s) && ServerOk(cfg, s) && ConnsOk(cfg, s)
    requires s.spc == SSelect && ServerSelects(cfg, s, c).Some?
    ensures Channels(ServerSelects(cfg, s, c).value) && ServerOk(cfg, ServerSelects(cfg, s, c).value)
  {
    hide Mine, Made, ClientOk, InOrder;
    if c == Go && s.ctrl != None && s.c2s != [] {
      ServerHandlesKeeps(cfg, s);
      hide ServerHandles, Channels, ServerOk, ConnsOk;
    } else if c == Go && s.ctrl != None && s.sstate == CREATE_STREAMS {
      AcceptStreamKeeps(cfg, s);
      hide AcceptStream, Channels, ServerOk, ConnsOk;
    } else {
      hide ServerHandles, AcceptStream;
    }
  }

  lemma ServerLoops(cfg: Config, s: Sys, c: Choice)
    requires |s.pipes| == cfg.streams && Channels(s) && ClientOk(cfg, s) && ServerOk(cfg, s)
    ensures s.spc == SRest && ServerRests(cfg, s, c).Some? ==>
              Channels(ServerRests(cfg, s, c).value) && ServerOk(cfg, ServerRests(cfg, s, c).value)
    ensures s.spc.SXfer? && ServerMoves(cfg, s, s.spc.job, c).Some? ==>
              Channels(ServerMoves(cfg, s, s.spc.job, c).value) && ServerOk(cfg, ServerMoves(cfg, s, s.spc.job, c).value)
  {
    if s.c2s != [] && s.spc == SRest {
      ServerHandlesKeeps(cfg, s);
    }
    hide JobStep, InOrder, ServerHandles, ClientOk;
  }

  lemma ServerKeepsOrder(cfg: Config, s: Sys, c: Choice)
    requires |s.pipes| == cfg.streams && Channels(s) && ClientOk(cfg, s) && ServerOk(cfg, s) && ConnsOk(cfg, s)
    requires ServerStep(cfg, s, c).Some?
    ensures var t := ServerStep(cfg, s, c).value; Channels(t) && ServerOk(cfg, t)
  {
    if s.spc == SSelect {
      ServerSelectsKeeps(cfg, s, c);
    } else if s.spc == SRest || s.spc.SXfer? {
      ServerLoops(cfg, s, c);
    } else if s.c2s != [] && !s.spc.SExit? && !s.spc.SError? {
      ServerHearsKeeps(cfg, s);
    }
    hide ServerSelects, ServerRests, ServerMoves, ServerHears, ServerOk, Channels;
  }

  /** What a step of the server does to the connections. */
  lemma ServerTakes(cfg: Config, s: Sys, c: Choice)
    requires |s.pipes| == cfg.streams && ServerOk(cfg, s) && ServerStep(cfg, s, c).Some?
    ensures var t := ServerStep(cfg, s, c).value;
      || (t.conns == s.conns && t.ctrl == s.ctrl && t.accepted == s.accepted && t.denied == s.denied)
      || (s.conns != [] && t.conns == s.conns[1..] &&
          (|| (s.ctrl == None && t.ctrl == Some(s.conns[0].id) && t.accepted == s.accepted && t.denied == s.denied)
           || (s.ctrl != None && t.ctrl == s.ctrl && t.denied == s.denied && t.accepted == s.accepted + 1 &&
               s.ssent < 4 && s.conns[0].cookie == s.cookie)
           || (s.ctrl != None && t.ctrl == s.ctrl && t.denied == s.denied + [s.conns[0]] && t.accepted == s.accepted &&
               (s.ssent < 4 ==> s.conns[0].cookie != s.cookie))))
  {
    hide JobStep;
  }

  lemma ServerKeepsConns(cfg: Config, s: Sys, c: Choice)
    requires |s.pipes| == cfg.streams && Channels(s) && ClientOk(cfg, s) && ServerOk(cfg, s) && ConnsOk(cfg, s)
    requires ServerStep(cfg, s, c).Some?
    ensures ConnsOk(cfg, ServerStep(cfg, s, c).value)
  {
    ServerTakes(cfg, s, c);
    var t := ServerStep(cfg, s, c).value;
    assert Made(cfg, t) == Made(cfg, s);
    hide ServerStep, Made, InOrder;
    if s.conns != [] {
      MineSnoc(s.denied, s.conns[0], s.cookie);
      assert Mine(s.conns, s.cookie) == (if s.conns[0].cookie == s.cookie then 1 else 0) + Mine(s.conns[1..], s.cookie);
    }
    hide Mine;
    MadeAtMost(cfg, s);
    hide ClientOk;
  }

  lemma MadeAtMost(cfg: Config, s: Sys)
    requires ClientOk(cfg, s)
    ensures Made(cfg, s) <= cfg.streams
  {
  }

  lemma ServerMovesData(cfg: Config, s: Sys, c: Choice)
    requires cfg.Valid() && |s.pipes| == cfg.streams && DataOk(cfg, s)
    requires s.spc.SXfer? && ServerMoves(cfg, s, s.spc.job, c).Some?
    ensures DataOk(cfg, ServerMoves(cfg, s, s.spc.job, c).value)
  {
    if cfg.reverse {
      SendKeeps(cfg, s.spc.job, s.pipes, c, ReceiverJob(cfg, s));
    } else {
      ReceiveKeeps(cfg, s.spc.job, s.pipes, c, SenderJob(cfg, s));
    }
    hide JobStep, PipesOk, JobOk, ReaderFed;
  }

  lemma ServerPicksData(cfg: Config, s: Sys, k: nat)
    requires cfg.Valid() && |s.pipes| == cfg.streams && DataOk(cfg, s)
    requires !s.spc.SXfer? && ServerTransfer(cfg, s, k).Some?
    ensures DataOk(cfg, ServerTransfer(cfg, s, k).value)
  {
    PickKeeps(cfg, cfg.reverse, s.pipes, k, SenderJob(cfg, s), ReceiverJob(cfg, s));
    hide NewJob, Room, PipesOk, JobOk, ReaderFed;
  }

  lemma ServerKeepsData(cfg: Config, s: Sys, c: Choice)
    requires cfg.Valid() && |s.pipes| == cfg.streams && DataOk(cfg, s)
    requires ServerStep(cfg, s, c).Some?
    ensures DataOk(cfg, ServerStep(cfg, s, c).value)
  {
    if s.spc.SXfer? {
      ServerMovesData(cfg, s, c);
    } else if c.Pick? && ServerTransfer(cfg, s, c.k).Some? {
      ServerPicksData(cfg, s, c.k);
    } else {
      SameData(cfg, s, ServerStep(cfg, s, c).value);
    }
    hide ServerHandles, ServerMoves, ServerTransfer, DataOk, AcceptStream, ServerHears;
  }

  /** The client's first two messages come before the test, and its check sends the third. */
  lemma ClientKeepsOver(cfg: Config, s: Sys, c: Choice)
    requires |s.pipes| == cfg.streams && Channels(s) && ClientOk(cfg, s) && ServerOk(cfg, s) && OverOk(s)
    requires ClientStep(cfg, s, c).Some?
    ensures OverOk(ClientStep(cfg, s, c).value)
  {
    if s.cpc == CSelect && s.s2c != [] {
      Received(s.s2c, SERVER_SCRIPT, s.crecv, s.ssent);
      Received(s.c2s, ClientScript(s.cookie), s.srecv, s.csent);
    }
    hide JobStep, InOrder;
  }

  lemma OthersInv(cfg: Config, s: Sys, step: Step)
    requires cfg.Valid() && Inv(cfg, s) && Apply(cfg, s, step).Some? && (step.TestEnds? || step.Stray?)
    ensures Inv(cfg, Apply(cfg, s, step).value)
  {
    SameData(cfg, s, Apply(cfg, s, step).value);
    if step.Stray? {
      MineSnoc(s.conns, step.conn, s.cookie);
    }
    hide DataOk, Mine, InOrder;
  }

  lemma StepInv(cfg: Config, s: Sys, step: Step)
    requires cfg.Valid() && Inv(cfg, s) && Apply(cfg, s, step).Some?
    ensures Inv(cfg, Apply(cfg, s, step).value)
  {
    match step
    case Client(c) =>
      ClientKeepsOrder(cfg, s, c);
      ClientKeepsConns(cfg, s, c);
      ClientKeepsData(cfg, s, c);
      ClientKeepsOver(cfg, s, c);
      hide ClientStep, Channels, ClientOk, ConnsOk, DataOk, OverOk;
    case Server(c) =>
      ServerKeepsOrder(cfg, s, c);
      ServerKeepsConns(cfg, s, c);
      ServerKeepsData(cfg, s, c);
      hide ServerStep, Channels, ServerOk, ConnsOk, DataOk;
    case _ =>
      OthersInv(cfg, s, step);
  }

  /** The state a test is in after these steps, if each was possible. */
  ghost function Reach(cfg: Config, cookie: nat, steps: seq<Step>): (r: Option<Sys>)
    ensures r.Some? ==> |r.value.pipes| == cfg.streams
  {
    if steps == [] then Some(Init(cfg, cookie))
    else
      match Reach(cfg, cookie, steps[..|steps| - 1])
      case None => None
      case Some(before) => Apply(cfg, before, steps[|steps| - 1])
  }

  lemma {:induction false} ReachInv(cfg: Config, cookie: nat, steps: seq<Step>)
    requires cfg.Valid() && Reach(cfg, cookie, steps).Some?
    ensures Inv(cfg, Reach(cfg, cookie, steps).value) && Reach(cfg, cookie, steps).value.cookie == cookie
  {
    if steps == [] {
      InitInv(cfg, cookie);
    } else {
      var before := Reach(cfg, cookie, steps[..|steps| - 1]).value;
      ReachInv(cfg, cookie, steps[..|steps| - 1]);
      StepInv(cfg, before, steps[|steps| - 1]);
      hide Inv, Apply, Init;
    }
  }

  // ----- what the invariant says of every run

  /**
   The control channel never loses framing: what is in flight either way is the next part of that side's script, and no
   side ever takes a cookie or a JSON frame for a state, or a state for one of them.
   */
  lemma FramingIsKept(cfg: Config, cookie: nat, steps: seq<Step>)
    requires cfg.Valid() && Reach(cfg, cookie, steps).Some?
    ensures var s := Reach(cfg, cookie, steps).value;
      && s.cpc != CError && s.spc != SError
      && s.srecv <= s.csent <= 5 && s.c2s == ClientScript(cookie)[s.srecv..s.csent]
      && s.crecv <= s.ssent <= 7 && s.s2c == SERVER_SCRIPT[s.crecv..s.ssent]
      && (s.cpc == CExit ==> s.s2c == [] && s.csent == 5)
      && (s.spc == SExit ==> s.c2s == [] && s.ssent == 7)
  {
    ReachInv(cfg, cookie, steps);
    hide DataOk, ConnsOk, Reach;
  }

  /**
   The states of the two ends are never more than a message apart: the client's state is the last the server announced
   and the client read, but for the TEST_END and the IPERF_DONE that the client announces itself.
   */
  lemma ClientFollowsServer(cfg: Config, cookie: nat, steps: seq<Step>)
    requires cfg.Valid() && Reach(cfg, cookie, steps).Some?
    ensures var s := Reach(cfg, cookie, steps).value;
      && (s.cstate == TEST_RUNNING ==> s.sstate == TEST_RUNNING && s.accepted == cfg.streams)
      && (s.cstate == TEST_END ==> s.sstate in {TEST_RUNNING, EXCHANGE_RESULTS})
      && (s.sstate in {EXCHANGE_RESULTS, DISPLAY_RESULTS, IPERF_DONE} ==> s.csent >= 3)
      && (s.spc.SXfer? ==> s.cstate in {CREATE_STREAMS, TEST_START, TEST_RUNNING, TEST_END})
      && (s.sstate == IPERF_DONE ==> s.cstate == IPERF_DONE)
  {
    ReachInv(cfg, cookie, steps);
    hide DataOk, ConnsOk, Reach;
  }

  /** No stream ever delivers more than was written to it, nor holds more than its capacity. */
  lemma ReceivedAtMostSent(cfg: Config, cookie: nat, steps: seq<Step>, k: nat)
    requires cfg.Valid() && Reach(cfg, cookie, steps).Some? && k < cfg.streams
    ensures var p := Reach(cfg, cookie, steps).value.pipes[k]; p.read <= p.written <= p.read + cfg.cap
  {
    ReachInv(cfg, cookie, steps);
    var s := Reach(cfg, cookie, steps).value;
    assert PipeOk(cfg, s.pipes[k], LeftAt(SenderJob(cfg, s), k), LeftAt(ReceiverJob(cfg, s), k));
    hide Reach, Channels, ClientOk, ServerOk, ConnsOk;
  }

  /**
   What is reported: once the client has read EXCHANGE_RESULTS no transfer is in progress, every stream stands at whole
   blocks with no more read than written, and no step changes that any more.
   */
  lemma ReportedBytes(cfg: Config, cookie: nat, steps: seq<Step>, k: nat)
    requires cfg.Valid() && Reach(cfg, cookie, steps).Some? && k < cfg.streams
    requires Reach(cfg, cookie, steps).value.crecv >= 5
    ensures var s := Reach(cfg, cookie, steps).value;
      && s.pipes[k].written == cfg.blk * s.pipes[k].started && s.pipes[k].read == cfg.blk * s.pipes[k].taken
      && s.pipes[k].read <= s.pipes[k].written
      && forall step :: Apply(cfg, s, step).Some? ==> Apply(cfg, s, step).value.pipes == s.pipes
  {
    ReachInv(cfg, cookie, steps);
    var s := Reach(cfg, cookie, steps).value;
    NoTransfer(cfg, s);
    assert PipeOk(cfg, s.pipes[k], LeftAt(SenderJob(cfg, s), k), LeftAt(ReceiverJob(cfg, s), k));
    hide Reach, Inv;
    forall step | Apply(cfg, s, step).Some?
      ensures Apply(cfg, s, step).value.pipes == s.pipes
    {
      SamePipes(cfg, s, step);
    }
  }

  lemma NoTransfer(cfg: Config, s: Sys)
    requires Inv(cfg, s) && s.crecv >= 5
    ensures !s.cpc.CXfer? && !s.spc.SXfer?
  {
    hide DataOk, ConnsOk, InOrder;
    Received(s.s2c, SERVER_SCRIPT, s.crecv, s.ssent);
  }

  lemma SamePipes(cfg: Config, s: Sys, step: Step)
    requires |s.pipes| == cfg.streams && Apply(cfg, s, step).Some? && !s.cpc.CXfer? && !s.spc.SXfer?
    ensures Apply(cfg, s, step).value.pipes == s.pipes
  {
    hide ClientHandles, ClientPicks, ServerHandles, ServerTransfer, AcceptStream, ServerHears;
  }

  lemma NoneMine(conns: seq<Conn>, cookie: nat, c: Conn)
    requires Mine(conns, cookie) == 0 && c in conns
    ensures c.cookie != cookie
  {
    if conns[0] != c {
      assert c in conns[1..];
      NoneMine(conns[1..], cookie, c);
    }
  }

  /**
   One test at a time: the server's control connection and cookie are the first client's, no connection of that client
   is turned away, and the test starts with the last of exactly `streams` connections that bear its cookie.
   */
  lemma OneTestAtATime(cfg: Config, cookie: nat, steps: seq<Step>)
    requires cfg.Valid() && Reach(cfg, cookie, steps).Some?
    ensures var s := Reach(cfg, cookie, steps).value;
      && (s.ctrl == None || s.ctrl == Some(0)) && (s.scookie == None || s.scookie == Some(cookie))
      && (forall c <- s.denied :: c.cookie != cookie)
      && s.accepted <= cfg.streams && (s.ssent >= 3 <==> s.accepted == cfg.streams)
  {
    ReachInv(cfg, cookie, steps);
    var s := Reach(cfg, cookie, steps).value;
    forall c | c in s.denied
      ensures c.cookie != cookie
    {
      NoneMine(s.denied, cookie, c);
    }
    hide DataOk, Reach, InOrder;
  }

  ghost function Strays(steps: seq<Step>): nat {
    if steps == [] then 0 else Strays(steps[..|steps| - 1]) + (if steps[|steps| - 1].Stray? then 1 else 0)
  }

  /** Nobody else is served: as many connections were turned away or still wait as other clients have made. */
  lemma {:induction false} OthersAreDenied(cfg: Config, cookie: nat, steps: seq<Step>)
    requires cfg.Valid() && Reach(cfg, cookie, steps).Some?
    ensures var s := Reach(cfg, cookie, steps).value;
      |s.denied| + (|s.conns| - Mine(s.conns, cookie)) == Strays(steps)
  {
    if steps != [] {
      var front, step := steps[..|steps| - 1], steps[|steps| - 1];
      ReachInv(cfg, cookie, front);
      OthersAreDenied(cfg, cookie, front);
      DeniedOrWaiting(cfg, Reach(cfg, cookie, front).value, step);
      hide Inv, Apply, Mine;
    }
  }

  lemma DeniedOrWaiting(cfg: Config, s: Sys, step: Step)
    requires cfg.Valid() && Inv(cfg, s) && Apply(cfg, s, step).Some?
    ensures var t := Apply(cfg, s, step).value;
      |t.denied| + (|t.conns| - Mine(t.conns, s.cookie))
      == |s.denied| + (|s.conns| - Mine(s.conns, s.cookie)) + (if step.Stray? then 1 else 0)
  {
    match step
    case Client(c) =>
      ConnectionsMade(cfg, s, c);
      hide ClientStep, DataOk, InOrder;
    case Server(c) =>
      ServerTakes(cfg, s, c);
      hide ServerStep, DataOk, InOrder;
    case TestEnds =>
    case Stray(conn) =>
      MineSnoc(s.conns, conn, s.cookie);
      hide DataOk, InOrder;
  }

  lemma ConnectionsMade(cfg: Config, s: Sys, c: Choice)
    requires |s.pipes| == cfg.streams && ClientStep(cfg, s, c).Some?
    ensures var t := ClientStep(cfg, s, c).value;
      |t.conns| - Mine(t.conns, s.cookie) == |s.conns| - Mine(s.conns, s.cookie) && t.denied == s.denied
  {
    if s.cpc.CConnect? {
      MineSnoc(s.conns, Conn(0, s.cookie), s.cookie);
    } else if s.cpc.CStreams? {
      MineSnoc(s.conns, Conn(s.cpc.i + 1, s.cookie), s.cookie);
    }
    hide Mine, ClientHandles, ClientBody, ClientMoves;
  }
}
