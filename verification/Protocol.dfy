/**
 One iperf test as a transition system: the event loops of client and server, their control channel, the listener's
 queue of connections, bounded data pipes, and other clients that connect at any time.

 A step is one action of one loop: a connection accepted, one message read together with what the handler sends, one
 chunk of a block written or read.  Reads and writes of a block go on until the block is complete, as Nread and Nwrite
 do; a chunk may be of any positive size.
 */
module Protocol {
  import opened CText

  // ----- messages

  const IDLE: int := 0
  const TEST_START: int := 1
  const TEST_RUNNING: int := 2
  const TEST_END: int := 4
  const PARAM_EXCHANGE: int := 9
  const CREATE_STREAMS: int := 10
  const EXCHANGE_RESULTS: int := 13
  const DISPLAY_RESULTS: int := 14
  const IPERF_START: int := 15
  const IPERF_DONE: int := 16

  /** What travels on the control channel: the cookie, one-byte states, and JSON frames. */
  datatype Msg = Cookie(cookie: nat) | State(state: int) | Params | ClientResults | ServerResults

  /** Everything the server says in a test, in order. */
  const SERVER_SCRIPT: seq<Msg> :=
    [State(PARAM_EXCHANGE), State(CREATE_STREAMS), State(TEST_START), State(TEST_RUNNING),
     State(EXCHANGE_RESULTS), ServerResults, State(DISPLAY_RESULTS)]

  /** Everything the client says. */
  function ClientScript(cookie: nat): (s: seq<Msg>)
    ensures |s| == 5
  {
    [Cookie(cookie), Params, State(TEST_END), ClientResults, State(IPERF_DONE)]
  }

  // ----- data streams

  /** Streams, block size, capacity of a pipe in bytes, blocks per stream and batch, and direction (-R). */
  datatype Config = Config(streams: nat, blk: nat, cap: nat, multisend: nat, reverse: bool) {
    ghost predicate Valid() {
      streams > 0 && blk > 0 && cap > 0 && multisend > 0
    }
  }

  /** A data stream: blocks begun and bytes written by the sender, blocks begun and bytes read by the receiver. */
  datatype Pipe = Pipe(started: nat, written: nat, taken: nat, read: nat) {
    function InFlight(): int { written - read }
  }

  /**
   A call of iperf_send or iperf_recv in progress: the rounds left, the stream it is at, the bytes left of the block
   at that stream (0 between blocks), whether bytes have moved, and a stream that select found ready.
   */
  datatype Job = Job(round: nat, k: nat, left: nat, moved: bool, pick: nat)

  datatype Choice = Go | Pick(k: nat) | Skip | Begin | Move(n: nat)

  /** The bytes a write, or a read, can move on a pipe now. */
  function Room(cfg: Config, send: bool, p: Pipe): int {
    if send then cfg.cap - p.InFlight() else p.InFlight()
  }

  function Start(send: bool, p: Pipe): Pipe {
    if send then p.(started := p.started + 1) else p.(taken := p.taken + 1)
  }

  function Transfer(send: bool, p: Pipe, n: nat): Pipe {
    if send then p.(written := p.written + n) else p.(read := p.read + n)
  }

  /** The start of iperf_send or iperf_recv, when select reported stream `k` ready. */
  function NewJob(cfg: Config, send: bool, k: nat): Job {
    Job(if send then cfg.multisend else 1, 0, 0, false, k)
  }

  /** One step of a transfer call; the job is None when the call returns. */
  function JobStep(cfg: Config, send: bool, j: Job, pipes: seq<Pipe>, c: Choice): Option<(Option<Job>, seq<Pipe>)>
    requires |pipes| == cfg.streams
  {
    if j.k >= cfg.streams then
      if c != Go then None
      else if j.round > 1 then Some((Some(j.(round := j.round - 1, k := 0)), pipes))
      else Some((None, pipes))
    else
      var p := pipes[j.k];
      if j.left == 0 then
        match c
        case Skip => if j.k == j.pick && !j.moved then None else Some((Some(j.(k := j.k + 1)), pipes))
        case Begin =>
          if send || Room(cfg, send, p) > 0 then Some((Some(j.(left := cfg.blk)), pipes[j.k := Start(send, p)])) else None
        case _ => None
      else match c
        case Move(n) =>
          if 0 < n <= j.left && n <= Room(cfg, send, p) then
            Some((Some(j.(left := j.left - n, moved := true, k := if n == j.left then j.k + 1 else j.k)),
                  pipes[j.k := Transfer(send, p, n)]))
          else None
        case _ => None
  }

  // ----- the processes

  /** Where the client is: before and in iperf_connect, in its loop, in iperf_create_streams, in get_results, in a transfer. */
  datatype ClientAt = CConnect | CCookie | CSelect | CBody | CStreams(i: nat) | CResults | CXfer(job: Job) | CCheck | CExit | CError

  /** Where the server is: in its loop, in iperf_accept, in get_results, in a transfer. */
  datatype ServerAt = SSelect | SCookie | SParams | SRest | SResults | SXfer(job: Job) | SExit | SError

  /** A connection waiting at the listener and the cookie its owner sends first. */
  datatype Conn = Conn(id: nat, cookie: nat)

  datatype Sys = Sys(
    cookie: nat, cpc: ClientAt, cstate: int, done: bool,
    spc: ServerAt, sstate: int, ctrl: Option<nat>, scookie: Option<nat>, accepted: nat, denied: seq<Conn>,
    conns: seq<Conn>, c2s: seq<Msg>, s2c: seq<Msg>, pipes: seq<Pipe>,
    csent: nat, crecv: nat, ssent: nat, srecv: nat)  // messages sent and received by client and server so far

  /** Nothing that is the server's has changed, nor what the other clients did. */
  ghost predicate SameServer(s: Sys, t: Sys) {
    && t.spc == s.spc && t.sstate == s.sstate && t.ctrl == s.ctrl && t.scookie == s.scookie && t.accepted == s.accepted
    && t.denied == s.denied && t.ssent == s.ssent && t.srecv == s.srecv && t.cookie == s.cookie
  }

  ghost predicate SameClient(s: Sys, t: Sys) {
    && t.cpc == s.cpc && t.cstate == s.cstate && t.done == s.done && t.csent == s.csent && t.crecv == s.crecv
    && t.cookie == s.cookie
  }

  function ClientSays(s: Sys, m: Msg): Sys {
    s.(c2s := s.c2s + [m], csent := s.csent + 1)
  }

  function ServerSays(s: Sys, m: Msg): Sys {
    s.(s2c := s.s2c + [m], ssent := s.ssent + 1)
  }

  /** iperf_set_send_state on the server. */
  function ServerState(s: Sys, state: int): Sys {
    ServerSays(s.(sstate := state), State(state))
  }

  function ClientReads(s: Sys): Sys
    requires s.s2c != []
  {
    s.(s2c := s.s2c[1..], crecv := s.crecv + 1)
  }

  function ServerReads(s: Sys): Sys
    requires s.c2s != []
  {
    s.(c2s := s.c2s[1..], srecv := s.srecv + 1)
  }

  /** iperf_handle_message_client: one byte is read as a state, whatever the server had sent. */
  function ClientHandles(s: Sys): (t: Sys)
    requires s.s2c != []
    ensures SameServer(s, t) && t.pipes == s.pipes && t.conns == s.conns && t.done == s.done && !t.cpc.CXfer?
  {
    var r := ClientReads(s);
    match s.s2c[0]
    case State(b) =>
      var u := r.(cstate := b);
      if b == PARAM_EXCHANGE then ClientSays(u, Params).(cpc := CBody)
      else if b == CREATE_STREAMS then u.(cpc := CStreams(0))
      else if b == TEST_START || b == TEST_RUNNING || b == IPERF_DONE then u.(cpc := CBody)
      else if b == EXCHANGE_RESULTS then ClientSays(u, ClientResults).(cpc := CResults)
      else if b == DISPLAY_RESULTS then ClientSays(u, State(IPERF_DONE)).(cstate := IPERF_DONE, cpc := CBody)
      else u.(cpc := CError)
    case _ => r.(cpc := CError)
  }

  /** Whether the loop body transfers data in this state. */
  predicate ClientTransfers(cfg: Config, s: Sys) {
    s.cstate == TEST_RUNNING || (cfg.reverse && s.cstate == TEST_END)
  }

  /** iperf_connect, and iperf_create_streams one stream at a time. */
  function ClientConnects(cfg: Config, s: Sys): (t: Sys)
    ensures SameServer(s, t) && t.pipes == s.pipes && t.s2c == s.s2c && t.done == s.done && t.cstate == s.cstate
  {
    match s.cpc
    case CConnect => s.(conns := s.conns + [Conn(0, s.cookie)], cpc := CCookie)
    case CCookie => ClientSays(s, Cookie(s.cookie)).(cpc := CSelect)
    case CStreams(i) =>
      if i < cfg.streams then s.(conns := s.conns + [Conn(i + 1, s.cookie)], cpc := CStreams(i + 1))
      else s.(cpc := CBody)
    case _ => s
  }

  /** The loop body of the client when select found stream `k` ready. */
  function ClientPicks(cfg: Config, s: Sys, k: nat): (t: Option<Sys>)
    requires |s.pipes| == cfg.streams
  {
    if ClientTransfers(cfg, s) && k < cfg.streams && Room(cfg, !cfg.reverse, s.pipes[k]) > 0 then
      Some(s.(cpc := CXfer(NewJob(cfg, !cfg.reverse, k))))
    else None
  }

  /** select returned: a message from the server, a ready stream, or only the timeout. */
  function ClientSelects(cfg: Config, s: Sys, c: Choice): (t: Option<Sys>)
    requires |s.pipes| == cfg.streams
    ensures t.Some? ==> SameServer(s, t.value) && t.value.pipes == s.pipes && t.value.conns == s.conns
  {
    match c
    case Go =>
      if s.s2c != [] then Some(ClientHandles(s))
      else if s.cstate == TEST_RUNNING then Some(s.(cpc := CCheck))
      else None
    case Pick(k) => if s.s2c == [] then ClientPicks(cfg, s, k) else None
    case _ => None
  }

  /** The rest of the loop body after a message was handled. */
  function ClientBody(cfg: Config, s: Sys, c: Choice): (t: Option<Sys>)
    requires |s.pipes| == cfg.streams
    ensures t.Some? ==> SameServer(s, t.value) && t.value.pipes == s.pipes && t.value.conns == s.conns
  {
    match c
    case Go =>
      Some(s.(cpc := if s.cstate == TEST_RUNNING then CCheck else if s.cstate == IPERF_DONE then CExit else CSelect))
    case Pick(k) => ClientPicks(cfg, s, k)
    case _ => None
  }

  /** get_results. */
  function ClientCompares(s: Sys): (t: Sys)
    requires s.s2c != []
    ensures SameServer(s, t) && t.pipes == s.pipes && t.conns == s.conns && t.done == s.done
  {
    ClientReads(s).(cpc := if s.s2c[0] == ServerResults then CBody else CError)
  }

  /** One action of iperf_send or iperf_recv. */
  function ClientMoves(cfg: Config, s: Sys, j: Job, c: Choice): (t: Option<Sys>)
    requires |s.pipes| == cfg.streams
    ensures t.Some? ==> SameServer(s, t.value) && |t.value.pipes| == |s.pipes| && t.value.conns == s.conns
  {
    match JobStep(cfg, !cfg.reverse, j, s.pipes, c)
    case None => None
    case Some((Some(j'), pipes)) => Some(s.(cpc := CXfer(j'), pipes := pipes))
    case Some((None, pipes)) => Some(s.(cpc := if s.cstate == TEST_RUNNING then CCheck else CSelect, pipes := pipes))
  }

  /** The check of the end conditions after a transfer, and iperf_set_send_state. */
  function ClientChecks(s: Sys): (t: Sys)
    ensures SameServer(s, t) && t.pipes == s.pipes && t.conns == s.conns && t.s2c == s.s2c
  {
    if s.done then ClientSays(s, State(TEST_END)).(cstate := TEST_END, cpc := CSelect)
    else s.(cpc := CSelect)
  }

  function ClientStep(cfg: Config, s: Sys, c: Choice): (t: Option<Sys>)
    requires |s.pipes| == cfg.streams
    ensures t.Some? ==> SameServer(s, t.value) && |t.value.pipes| == |s.pipes|
    ensures t.Some? && !s.cpc.CConnect? && !s.cpc.CStreams? ==> t.value.conns == s.conns
  {
    match s.cpc
    case CSelect => ClientSelects(cfg, s, c)
    case CBody => ClientBody(cfg, s, c)
    case CResults => if c == Go && s.s2c != [] then Some(ClientCompares(s)) else None
    case CXfer(j) => ClientMoves(cfg, s, j, c)
    case CCheck => if c == Go then Some(ClientChecks(s)) else None
    case CExit => None
    case CError => None
    case _ => if c == Go then Some(ClientConnects(cfg, s)) else None
  }

  /** iperf_handle_message_server. */
  function ServerHandles(s: Sys): (t: Sys)
    requires s.c2s != []
    ensures SameClient(s, t) && t.pipes == s.pipes && t.conns == s.conns && t.denied == s.denied && !t.spc.SXfer?
    ensures t.ctrl == s.ctrl && t.accepted == s.accepted
  {
    var r := ServerReads(s);
    match s.c2s[0]
    case State(b) =>
      if b == TEST_END then ServerState(r, EXCHANGE_RESULTS).(spc := SResults)
      else if b == IPERF_DONE then r.(sstate := IPERF_DONE, spc := SExit)
      else if b == TEST_START then r.(sstate := TEST_START, spc := SSelect)
      else r.(spc := SError)
    case _ => r.(spc := SError)
  }

  /** The listener in state CREATE_STREAMS: iperf_tcp_accept, and the start of the test with the last stream. */
  function AcceptStream(cfg: Config, s: Sys): (t: Sys)
    requires s.conns != []
    ensures SameClient(s, t) && t.pipes == s.pipes && !t.spc.SXfer? && t.ctrl == s.ctrl
  {
    var conn, r := s.conns[0], s.(conns := s.conns[1..]);
    var u := if s.scookie == Some(conn.cookie) then r.(accepted := r.accepted + 1) else r.(denied := r.denied + [conn]);
    if u.accepted == cfg.streams then ServerState(ServerState(u, TEST_START), TEST_RUNNING).(spc := SRest)
    else u.(spc := SSelect)
  }

  function ServerTransfer(cfg: Config, s: Sys, k: nat): (t: Option<Sys>)
    requires |s.pipes| == cfg.streams
    ensures t.Some? ==> SameClient(s, t.value) && t.value.pipes == s.pipes && t.value.conns == s.conns
  {
    if s.sstate == TEST_RUNNING && k < cfg.streams && Room(cfg, cfg.reverse, s.pipes[k]) > 0 then
      Some(s.(spc := SXfer(NewJob(cfg, cfg.reverse, k))))
    else None
  }

  /** A connection made while a test is on, or by a stranger, is told so and closed. */
  function Denies(s: Sys): (t: Sys)
    requires s.conns != []
    ensures SameClient(s, t) && t.pipes == s.pipes
  {
    s.(conns := s.conns[1..], denied := s.denied + [s.conns[0]], spc := SRest)
  }

  /**
   select returned.  The listener is looked at before the control socket; a server that is busy turns a connection
   away, and one that is creating streams goes to its control socket first (`Go`) unless only the listener is ready.
   */
  function ServerSelects(cfg: Config, s: Sys, c: Choice): (t: Option<Sys>)
    requires |s.pipes| == cfg.streams
    ensures t.Some? ==> SameClient(s, t.value) && t.value.pipes == s.pipes
  {
    match c
    case Go =>
      if s.ctrl == None then
        (if s.conns == [] then None
         else Some(s.(conns := s.conns[1..], ctrl := Some(s.conns[0].id), spc := SCookie)))
      else if s.c2s != [] then Some(ServerHandles(s))
      else if s.conns == [] then None
      else if s.sstate == CREATE_STREAMS then Some(AcceptStream(cfg, s))
      else Some(Denies(s))
    case Skip =>
      if s.ctrl != None && s.c2s != [] && s.conns != [] && s.sstate != CREATE_STREAMS then Some(Denies(s)) else None
    case Pick(k) => if s.ctrl != None && s.c2s == [] then ServerTransfer(cfg, s, k) else None
    case _ => None
  }

  /** The rest of the loop body after the listener was served. */
  function ServerRests(cfg: Config, s: Sys, c: Choice): (t: Option<Sys>)
    requires |s.pipes| == cfg.streams
    ensures t.Some? ==> SameClient(s, t.value) && t.value.pipes == s.pipes && t.value.conns == s.conns
  {
    match c
    case Go => if s.c2s != [] then Some(ServerHandles(s)) else Some(s.(spc := SSelect))
    case Skip => Some(s.(spc := SSelect))
    case Pick(k) => ServerTransfer(cfg, s, k)
    case _ => None
  }

  /** What iperf_accept, iperf_exchange_parameters and iperf_exchange_results read next, and what they answer. */
  function ServerHears(s: Sys): (t: Sys)
    requires s.c2s != []
    ensures SameClient(s, t) && t.pipes == s.pipes && t.conns == s.conns && t.denied == s.denied && !t.spc.SXfer?
    ensures t.ctrl == s.ctrl && t.accepted == s.accepted
  {
    var r := ServerReads(s);
    match s.spc
    case SCookie =>
      (match s.c2s[0]
        case Cookie(id) => ServerState(r.(scookie := Some(id)), PARAM_EXCHANGE).(spc := SParams)
        case _ => r.(spc := SError))
    case SParams =>
      if s.c2s[0] == Params then ServerState(r, CREATE_STREAMS).(spc := SSelect) else r.(spc := SError)
    case _ =>
      if s.c2s[0] == ClientResults then ServerState(ServerSays(r, ServerResults), DISPLAY_RESULTS).(spc := SSelect)
      else r.(spc := SError)
  }

  function ServerMoves(cfg: Config, s: Sys, j: Job, c: Choice): (t: Option<Sys>)
    requires |s.pipes| == cfg.streams
    ensures t.Some? ==> SameClient(s, t.value) && |t.value.pipes| == |s.pipes| && t.value.conns == s.conns
  {
    match JobStep(cfg, cfg.reverse, j, s.pipes, c)
    case None => None
    case Some((Some(j'), pipes)) => Some(s.(spc := SXfer(j'), pipes := pipes))
    case Some((None, pipes)) => Some(s.(spc := SSelect, pipes := pipes))
  }

  function ServerStep(cfg: Config, s: Sys, c: Choice): (t: Option<Sys>)
    requires |s.pipes| == cfg.streams
    ensures t.Some? ==> SameClient(s, t.value) && |t.value.pipes| == |s.pipes|
  {
    match s.spc
    case SSelect => ServerSelects(cfg, s, c)
    case SRest => ServerRests(cfg, s, c)
    case SXfer(j) => ServerMoves(cfg, s, j, c)
    case SExit => None
    case SError => None
    case _ => if c == Go && s.c2s != [] then Some(ServerHears(s)) else None
  }

  /** The steps of the system; `TestEnds` is the test timer or a byte or block limit, `Stray` another client. */
  datatype Step = Client(c: Choice) | Server(c: Choice) | TestEnds | Stray(conn: Conn)

  function Apply(cfg: Config, s: Sys, step: Step): (t: Option<Sys>)
    requires |s.pipes| == cfg.streams
    ensures t.Some? ==> |t.value.pipes| == |s.pipes| && t.value.cookie == s.cookie
  {
    match step
    case Client(c) => ClientStep(cfg, s, c)
    case Server(c) => ServerStep(cfg, s, c)
    case TestEnds => if s.cstate == TEST_RUNNING then Some(s.(done := true)) else None
    case Stray(conn) =>
      if s.cpc != CConnect && conn.cookie != s.cookie && conn.id > cfg.streams then Some(s.(conns := s.conns + [conn]))
      else None
  }

  /** Client and server started; nobody has connected. */
  function Init(cfg: Config, cookie: nat): (s: Sys)
    ensures |s.pipes| == cfg.streams
  {
    Sys(cookie, CConnect, IDLE, false, SSelect, IPERF_START, None, None, 0, [], [], [], [],
        seq(cfg.streams, _ => Pipe(0, 0, 0, 0)), 0, 0, 0, 0)
  }
}
