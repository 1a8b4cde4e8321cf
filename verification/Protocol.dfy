/** The session lifecycle as a transition system.

    Every goroutine of the server is broken into its atomic actions, and a run is any
    sequence of them. A step that is not enabled leaves the state alone, so every sequence
    of steps is a run. The tick goroutine keeps its remaining work on an agenda: a stack of
    small operations, each one atomic with respect to the readers and the writers. */
module Protocol {
  import opened Frame

  type Handle = nat      // a session object, by order of acceptance
  type PlayerId = nat
  type Addr = string
  type Token = string
  type Topic = string

  datatype Option<+T> = None | Some(value: T)

  // ---------------------------------------------------------------- configuration

  const DEFAULT_PING_INTERVAL := 5_000_000_000
  const DEFAULT_PING_TIMEOUT := 30_000_000_000

  /** `decode` is the protobuf parser for inbound frames. */
  datatype Config = Config(
    eventDepth: nat,
    sendDepth: nat,
    maxFrame: nat,
    pingInterval: int,
    pingTimeout: int,
    decode: Bytes -> ClientFrame)
  {
    function Interval(): (r: int)
      ensures r > 0 && (pingInterval <= 0 ==> r == 5_000_000_000)
    {
      if pingInterval <= 0 then DEFAULT_PING_INTERVAL else pingInterval
    }

    function Timeout(): (r: int)
      ensures r > 0 && (pingTimeout <= 0 ==> r == 30_000_000_000)
    {
      if pingTimeout <= 0 then DEFAULT_PING_TIMEOUT else pingTimeout
    }
  }

  const DEFAULT_EVENT_QUEUE_DEPTH := 4096
  const DEFAULT_SEND_QUEUE_DEPTH := 256
  const DEFAULT_MAX_FRAME_LEN := 0x10_0000

  /** The configuration that NewServer makes of what it is given: every setting that is given is
      kept, no queue has depth zero, and there is always a frame cap. */
  function NewConfig(eventDepth: int, sendDepth: int, maxFrame: nat, pingInterval: int, pingTimeout: int,
                     decode: Bytes -> ClientFrame): (cfg: Config)
    ensures cfg.eventDepth > 0 && cfg.sendDepth > 0 && cfg.maxFrame > 0
    ensures eventDepth > 0 ==> cfg.eventDepth == eventDepth
    ensures sendDepth > 0 ==> cfg.sendDepth == sendDepth
    ensures maxFrame > 0 ==> cfg.maxFrame == maxFrame
    ensures eventDepth <= 0 ==> cfg.eventDepth == DEFAULT_EVENT_QUEUE_DEPTH
    ensures sendDepth <= 0 ==> cfg.sendDepth == DEFAULT_SEND_QUEUE_DEPTH
    ensures maxFrame == 0 ==> cfg.maxFrame == DEFAULT_MAX_FRAME_LEN
    ensures pingInterval > 0 ==> cfg.Interval() == pingInterval
    ensures pingTimeout > 0 ==> cfg.Timeout() == pingTimeout
    ensures pingInterval <= 0 ==> cfg.Interval() == 5_000_000_000    // nanoseconds
    ensures pingTimeout <= 0 ==> cfg.Timeout() == 30_000_000_000
    ensures cfg.decode == decode
  {
    Config(if eventDepth <= 0 then DEFAULT_EVENT_QUEUE_DEPTH else eventDepth,
           if sendDepth <= 0 then DEFAULT_SEND_QUEUE_DEPTH else sendDepth,
           if maxFrame == 0 then DEFAULT_MAX_FRAME_LEN else maxFrame,
           pingInterval, pingTimeout, decode)
  }

  // ---------------------------------------------------------------- messages

  datatype ClientFrame =
    | Malformed
    | Login(credentials: Bytes)
    | UdpHandshake(player: PlayerId, token: Token)
    | Pong
    | GamePayload(body: Bytes)
    | RpcRequest(cid: nat, request: Bytes)
    | OtherBody

  datatype ServerFrame =
    | LoginResponse(accepted: bool, player: PlayerId, token: Token)
    | Game(body: Bytes)
    | RpcResponse(cid: nat, ok: bool)

  datatype Reason =
    | ReaderStopped(error: ReadError)
    | OutboundQueueFull
    | MalformedFrame
    | Misconfigured
    | AuthRejected
    | HandlerPanic
    | PingTimeout
    | Kicked(text: string)

  datatype Event =
    | TcpMessage(sess: Handle, payload: Bytes)
    | UdpMessage(addr: Addr, payload: Bytes)
    | Disconnect(sess: Handle, reason: Reason)

  // ---------------------------------------------------------------- sessions

  datatype Auth = PreLogin | AwaitingUdp | Ready

  datatype ReaderState =
    | Reading
    | Stopping(reason: Reason)   // about to try the disconnect flag
    | Posting(reason: Reason)    // won the flag, about to push the disconnect event
    | Exited

  /** The part of a session that only I/O goroutines own, and its history. */
  datatype Wire = Wire(
    stream: Bytes,                 // everything the peer ever sends
    unread: Bytes,
    reader: ReaderState,
    offered: seq<ServerFrame>,     // every frame given to the outbound queue
    written: seq<ServerFrame>,     // every frame taken by the writer
    requests: seq<nat>,            // correlation IDs of dispatched RPC requests
    cleanups: nat,
    drops: nat,                    // disconnect events lost to a full event queue
    gone: bool)                    // cleaned up after login

  datatype Session = Session(
    id: PlayerId,
    auth: Auth,
    token: Token,
    addr: Option<Addr>,
    attached: bool,                // the outbound channel is still there
    outbox: seq<ServerFrame>,
    lastSeen: int,
    mark: Option<Reason>,          // the disconnect flag, with the reason that won it
    wire: Wire)

  const BLANK := Session(0, PreLogin, "", None, true, [], 0, None,
                         Wire([], [], Reading, [], [], [], 0, 0, false))

  // ---------------------------------------------------------------- the tick goroutine

  datatype Callback =
    | OnAuth(sess: Handle, id: PlayerId, token: Token)
    | OnConnect(sess: Handle, token: Token)
    | OnDisconnect(sess: Handle, reason: Reason)
    | OnTick
    | ClientHandler(sess: Handle)
    | RpcHandler(sess: Handle, cid: nat)

  datatype Op =
    | Push(to: Handle, frame: ServerFrame)
    | Mark(who: Handle, why: Reason)
    | Post(who: Handle, why: Reason)
    | Fan(todo: set<PlayerId>, body: Bytes)
    | Sweep(todo: set<PlayerId>, cutoff: int)
    | Run(callback: Callback)

  /** The work left to the tick goroutine, next operation first. */
  datatype Agenda = Done | Then(op: Op, rest: Agenda)

  datatype Phase = Idle | Draining(size: nat) | Handling | Finishing

  datatype History = History(
    accepted: seq<Event>,          // every event the queue took
    handled: seq<Event>,
    cut: nat,                      // how many had been accepted when this tick began
    log: seq<Callback>,            // every callback invoked
    ticks: seq<int>,               // the time of every ping round, oldest first
    batches: seq<int>)             // the times of those that sent pings

  datatype State = State(
    conns: seq<Session>,
    sessions: map<PlayerId, Handle>,
    udp: map<Addr, Handle>,
    queue: seq<Event>,
    batch: seq<Event>,
    phase: Phase,
    agenda: Agenda,
    now: int,
    lastBatch: Option<int>,
    subs: set<(PlayerId, Topic)>,
    calls: seq<UserCall>,          // the calls the latest callback has made so far
    hist: History)

  const INIT := State([], map[], map[], [], [], Idle, Done, 0, None, {}, [], History([], [], 0, [], [], []))

  // ---------------------------------------------------------------- steps

  datatype AuthResult = NotConfigured | BadCredentials | Rejected | Granted(id: PlayerId, token: Token)

  /** What the outside world decides while one event is dispatched: the verdict of
      Authenticate, the wall clock, and whether a handler is registered. */
  datatype Choice = Choice(auth: AuthResult, clock: int, found: bool)

  datatype UserCall =
    | SendTcp(player: PlayerId, body: Bytes)
    | BroadcastTcp(body: Bytes)
    | Kick(player: PlayerId, text: string)
    | Subscribe(player: PlayerId, topic: Topic)
    | Unsubscribe(player: PlayerId, topic: Topic)
    | UnsubscribeAll(player: PlayerId)
    | Publish(topic: Topic, body: Bytes)

  datatype Outcome = Returned | Errored | Panicked

  datatype Step =
    | Accept(stream: Bytes)
    | Receive(h: Handle)
    | StopReading(h: Handle, error: ReadError)
    | ReaderMark(h: Handle)
    | ReaderPost(h: Handle)
    | Datagram(addr: Addr, payload: Bytes)
    | Write(h: Handle)
    | TickStart(now: int)
    | DrainTake
    | DrainDone
    | Dispatch(choice: Choice)
    | StartSweep
    | TickEnd
    | Exec
    | Pick(player: PlayerId)
    | User(call: UserCall)
    | Return(outcome: Outcome)

  // ---------------------------------------------------------------- small updates

  function At(s: State, h: Handle): Session {
    if h < |s.conns| then s.conns[h] else BLANK
  }

  function Put(s: State, h: Handle, c: Session): State {
    if h < |s.conns| then s.(conns := s.conns[h := c]) else s
  }

  /** The event queue accepts an event only while it has room. */
  predicate HasRoom(cfg: Config, s: State) {
    |s.queue| < cfg.eventDepth
  }

  function Enqueue(s: State, e: Event): State {
    s.(queue := s.queue + [e], hist := s.hist.(accepted := s.hist.accepted + [e]))
  }

  function Plan(s: State, op: Op): State {
    s.(agenda := Then(op, s.agenda))
  }

  /** Invoking a callback: it is logged and its body is up next. */
  function Invoke(s: State, cb: Callback): State {
    Plan(s.(calls := [], hist := s.hist.(log := s.hist.log + [cb])), Run(cb))
  }

  // ---------------------------------------------------------------- what steps leave alone

  /** The fields of a session that only dispatching an event writes. */
  predicate SameIdentity(c: Session, d: Session) {
    && d.id == c.id && d.auth == c.auth && d.token == c.token && d.addr == c.addr
    && d.attached == c.attached && d.lastSeen == c.lastSeen && d.wire.requests == c.wire.requests
    && d.wire.cleanups == c.wire.cleanups && d.wire.gone == c.wire.gone
  }

  /** The fields of a session that dispatching an event never writes. */
  predicate SameTraffic(c: Session, d: Session) {
    && d.outbox == c.outbox && d.mark == c.mark && d.wire.stream == c.wire.stream
    && d.wire.unread == c.wire.unread && d.wire.reader == c.wire.reader
    && d.wire.offered == c.wire.offered && d.wire.written == c.wire.written && d.wire.drops == c.wire.drops
  }

  /** Everything but the sessions, the queue and the agenda. */
  predicate SameTick(s: State, t: State) {
    && t.sessions == s.sessions && t.udp == s.udp && t.batch == s.batch && t.phase == s.phase
    && t.now == s.now && t.lastBatch == s.lastBatch && t.subs == s.subs && t.calls == s.calls
    && t.hist.handled == s.hist.handled && t.hist.cut == s.hist.cut && t.hist.log == s.hist.log
    && t.hist.ticks == s.hist.ticks && t.hist.batches == s.hist.batches
  }

  /** What every I/O step keeps. */
  ghost predicate IoKeeps(s: State, t: State) {
    && SameTick(s, t) && t.agenda == s.agenda && |s.conns| <= |t.conns|
    && forall h :: SameIdentity(At(s, h), At(t, h))
  }

  /** What every I/O step but a write keeps: the outbound traffic, and marks once made. */
  ghost predicate SendsNothing(s: State, t: State) {
    forall h :: var c, d := At(s, h), At(t, h);
                d.outbox == c.outbox && d.wire.written == c.wire.written && d.wire.offered == c.wire.offered
                && (c.mark.Some? ==> d.mark == c.mark)
  }

  /** What executing one planned operation keeps. */
  ghost predicate ExecKeeps(s: State, t: State) {
    && SameTick(s, t) && |t.conns| == |s.conns|
    && forall h :: SameIdentity(At(s, h), At(t, h)) && At(t, h).wire.reader == At(s, h).wire.reader
                   && At(t, h).wire.unread == At(s, h).wire.unread
                   && At(t, h).wire.stream == At(s, h).wire.stream
  }

  /** What dispatching an event keeps. */
  ghost predicate DispatchKeeps(s: State, t: State) {
    && |t.conns| == |s.conns| && t.queue == s.queue && t.phase == s.phase && t.now == s.now
    && t.lastBatch == s.lastBatch && t.subs == s.subs && t.hist.accepted == s.hist.accepted
    && t.hist.cut == s.hist.cut && t.hist.ticks == s.hist.ticks && t.hist.batches == s.hist.batches
    && forall h :: SameTraffic(At(s, h), At(t, h))
  }

  /** What carrying out a decision about an event keeps. */
  ghost predicate ActKeeps(s: State, t: State) {
    DispatchKeeps(s, t) && t.batch == s.batch && t.hist.handled == s.hist.handled
  }

  // ---------------------------------------------------------------- the I/O goroutines

  function DoAccept(s: State, stream: Bytes): (t: State)
    ensures IoKeeps(s, t) && SendsNothing(s, t)
  {
    s.(conns := s.conns + [BLANK.(wire := BLANK.wire.(stream := stream, unread := stream))])
  }

  /** A reader decodes its next frame and pushes it. */
  function DoReceive(cfg: Config, s: State, h: Handle): (t: State)
    ensures IoKeeps(s, t) && SendsNothing(s, t)
  {
    var c := At(s, h);
    if h >= |s.conns| || c.wire.reader != Reading then s
    else
      match DecodeOne(c.wire.unread, cfg.maxFrame, Closed)
      case Failed(_, _) => s
      case Payload(p, rest) =>
        var room := HasRoom(cfg, s);
        var reader := if room then Reading else Stopping(OutboundQueueFull);
        var t := Put(s, h, c.(wire := c.wire.(unread := rest, reader := reader)));
        if room then Enqueue(t, TcpMessage(h, p)) else t
  }

  /** Any read error, whether the stream's own or the connection's. */
  function DoStopReading(s: State, h: Handle, error: ReadError): (t: State)
    ensures IoKeeps(s, t) && SendsNothing(s, t)
  {
    var c := At(s, h);
    if c.wire.reader != Reading then s
    else Put(s, h, c.(wire := c.wire.(reader := Stopping(ReaderStopped(error)))))
  }

  function DoReaderMark(s: State, h: Handle): (t: State)
    ensures IoKeeps(s, t) && SendsNothing(s, t)
  {
    var c := At(s, h);
    match c.wire.reader
    case Stopping(r) =>
      if c.mark.None? then Put(s, h, c.(mark := Some(r), wire := c.wire.(reader := Posting(r))))
      else Put(s, h, c.(wire := c.wire.(reader := Exited)))
    case _ => s
  }

  function DoReaderPost(cfg: Config, s: State, h: Handle): (t: State)
    ensures IoKeeps(s, t) && SendsNothing(s, t)
  {
    var c := At(s, h);
    match c.wire.reader
    case Posting(r) =>
      if HasRoom(cfg, s) then Enqueue(Put(s, h, c.(wire := c.wire.(reader := Exited))), Disconnect(h, r))
      else Put(s, h, c.(wire := c.wire.(reader := Exited, drops := c.wire.drops + 1)))
    case _ => s
  }

  function DoDatagram(cfg: Config, s: State, a: Addr, p: Bytes): (t: State)
    ensures IoKeeps(s, t) && SendsNothing(s, t)
  {
    if HasRoom(cfg, s) then Enqueue(s, UdpMessage(a, p)) else s
  }

  function DoWrite(s: State, h: Handle): (t: State)
    ensures IoKeeps(s, t)
  {
    var c := At(s, h);
    if c.outbox == [] then s
    else Put(s, h, c.(outbox := c.outbox[1..], wire := c.wire.(written := c.wire.written + [c.outbox[0]])))
  }

  // ---------------------------------------------------------------- one tick

  function DoTickStart(s: State, now: int): State {
    if s.phase != Idle then s
    else s.(now := now, phase := Draining(|s.queue|), hist := s.hist.(cut := |s.hist.accepted|))
  }

  function DoDrainTake(s: State): State {
    if s.phase.Draining? && |s.batch| < s.phase.size && s.queue != [] then
      s.(batch := s.batch + [s.queue[0]], queue := s.queue[1..])
    else s
  }

  /** The drain loop ends at its snapshot, or early if the channel is found empty. */
  function DoDrainDone(s: State): State {
    if s.phase.Draining? && (|s.batch| >= s.phase.size || s.queue == []) then s.(phase := Handling) else s
  }

  function DoStartSweep(cfg: Config, s: State): State {
    if s.phase != Handling || s.agenda != Done || s.batch != [] then s
    else
      var ping := s.lastBatch.None? || s.now - s.lastBatch.value >= cfg.Interval();
      var t := s.(phase := Finishing,
                  lastBatch := if ping then Some(s.now) else s.lastBatch,
                  hist := s.hist.(ticks := s.hist.ticks + [s.now],
                                  batches := if ping then s.hist.batches + [s.now] else s.hist.batches));
      Plan(Invoke(t, OnTick), Sweep(s.sessions.Keys, s.now - cfg.Timeout()))
  }

  function DoTickEnd(s: State): State {
    if s.phase == Finishing && s.agenda == Done then s.(phase := Idle) else s
  }

  // ---------------------------------------------------------------- dispatching an event

  /** What the tick goroutine decides to do about one event. */
  datatype Action =
    | Ignore
    | Refuse(h: Handle, why: Reason)
    | LogIn(h: Handle, id: PlayerId, token: Token)
    | Pair(h: Handle, addr: Addr, token: Token, clock: int)
    | Refresh(h: Handle)
    | CallClient(h: Handle)
    | Request(h: Handle, cid: nat, found: bool)
    | Complain(h: Handle)
    | TearDown(h: Handle, why: Reason)

  /** The event is taken off the batch; a datagram refreshes the session paired with its
      source address whatever it holds; then the decision is carried out. */
  function DoDispatch(cfg: Config, s: State, choice: Choice): (t: State)
    ensures DispatchKeeps(s, t)
  {
    if s.phase != Handling || s.agenda != Done || s.batch == [] then s
    else
      var t := Noticed(s);
      Act(t, Decide(cfg, t, s.batch[0], choice))
  }

  function Noticed(s: State): (t: State)
    requires s.batch != []
    ensures DispatchKeeps(s, t)
  {
    var e := s.batch[0];
    var t := s.(batch := s.batch[1..], hist := s.hist.(handled := s.hist.handled + [e]));
    if e.UdpMessage? && e.addr in t.udp then Touch(t, t.udp[e.addr], t.now) else t
  }

  function Touch(s: State, h: Handle, now: int): State {
    Put(s, h, At(s, h).(lastSeen := now))
  }

  function Decide(cfg: Config, s: State, e: Event, choice: Choice): Action {
    match e
    case Disconnect(h, r) => TearDown(h, r)
    case TcpMessage(h, p) =>
      var c := At(s, h);
      if c.id != 0 && c.id !in s.sessions then Ignore
      else DecideTcp(s, h, cfg.decode(p), choice)
    case UdpMessage(a, p) =>
      DecideUdp(s, a, if a in s.udp then Some(s.udp[a]) else None, cfg.decode(p), choice)
  }

  function DecideTcp(s: State, h: Handle, frame: ClientFrame, choice: Choice): Action {
    var c := At(s, h);
    match frame
    case Malformed => Complain(h)
    case Login(_) => if c.auth == PreLogin then DecideLogin(s, h, choice.auth) else Ignore
    case UdpHandshake(_, _) => Ignore
    case Pong => Refresh(h)
    case GamePayload(_) => if c.auth == Ready && choice.found then CallClient(h) else Ignore
    case RpcRequest(cid, _) => if c.auth == Ready then Request(h, cid, choice.found) else Ignore
    case OtherBody => Ignore
  }

  function DecideUdp(s: State, a: Addr, from: Option<Handle>, frame: ClientFrame, choice: Choice): Action {
    match frame
    case UdpHandshake(p, tok) => DecidePairing(s, a, p, tok, choice.clock)
    case Pong => if from.Some? then Refresh(from.value) else Ignore
    case GamePayload(_) =>
      if from.Some? && At(s, from.value).auth == Ready && choice.found then CallClient(from.value) else Ignore
    case _ => Ignore
  }

  function DecideLogin(s: State, h: Handle, verdict: AuthResult): Action {
    match verdict
    case NotConfigured => Refuse(h, Misconfigured)
    case BadCredentials => Refuse(h, MalformedFrame)
    case Rejected => Refuse(h, AuthRejected)
    case Granted(id, tok) => if id in s.sessions then Refuse(h, AuthRejected) else LogIn(h, id, tok)
  }

  function DecidePairing(s: State, a: Addr, p: PlayerId, tok: Token, clock: int): (r: Action)
    ensures r.Ignore? || r.Pair?
  {
    if p !in s.sessions || At(s, s.sessions[p]).token != tok then Ignore
    else if At(s, s.sessions[p]).auth != AwaitingUdp then Ignore
    else Pair(s.sessions[p], a, tok, clock)
  }

  function Act(s: State, action: Action): (t: State)
    ensures ActKeeps(s, t)
  {
    match action
    case Ignore => s
    case Refuse(h, r) => Plan(Plan(s, Mark(h, r)), Push(h, LoginResponse(false, 0, "")))
    case LogIn(h, id, tok) => DoLogIn(s, h, id, tok)
    case Pair(h, a, tok, clock) => DoPair(s, h, a, tok, clock)
    case Refresh(h) => Touch(s, h, s.now)
    case CallClient(h) => Invoke(s, ClientHandler(h))
    case Request(h, cid, found) => DoRequest(s, h, cid, found)
    case Complain(h) => Plan(s, Mark(h, MalformedFrame))
    case TearDown(h, r) => DoTearDown(s, h, r)
  }

  function DoLogIn(s: State, h: Handle, id: PlayerId, tok: Token): (t: State)
    ensures ActKeeps(s, t)
  {
    var t := Put(s, h, At(s, h).(id := id, token := tok, auth := AwaitingUdp));
    Invoke(Plan(t.(sessions := t.sessions[id := h]), Push(h, LoginResponse(true, id, tok))), OnAuth(h, id, tok))
  }

  function DoPair(s: State, h: Handle, a: Addr, tok: Token, clock: int): (t: State)
    ensures ActKeeps(s, t)
  {
    var t := Put(s, h, At(s, h).(addr := Some(a), auth := Ready, lastSeen := clock));
    Invoke(t.(udp := t.udp[a := h]), OnConnect(h, tok))
  }

  function DoRequest(s: State, h: Handle, cid: nat, found: bool): (t: State)
    ensures ActKeeps(s, t)
  {
    var c := At(s, h);
    var t := Put(s, h, c.(wire := c.wire.(requests := c.wire.requests + [cid])));
    if found then Invoke(t, RpcHandler(h, cid)) else Plan(t, Push(h, RpcResponse(cid, false)))
  }

  /** The session leaves the tables, its connection and outbound channel are closed, and
      OnDisconnect runs. */
  function DoTearDown(s: State, h: Handle, r: Reason): (t: State)
    ensures ActKeeps(s, t)
  {
    var c := At(s, h);
    var t := Put(s, h, c.(attached := false,
                          wire := c.wire.(cleanups := c.wire.cleanups + 1,
                                          gone := c.wire.gone || c.auth != PreLogin)));
    Invoke(t.(sessions := if c.id != 0 then t.sessions - {c.id} else t.sessions,
              udp := if c.addr.Some? then t.udp - {c.addr.value} else t.udp),
           OnDisconnect(h, r))
  }

  /** What carrying out a decision does to one session. */
  function Acted(now: int, action: Action, h: Handle, c: Session): Session {
    match action
    case LogIn(k, id, tok) => if k == h then c.(id := id, token := tok, auth := AwaitingUdp) else c
    case Pair(k, a, _, clock) => if k == h then c.(addr := Some(a), auth := Ready, lastSeen := clock) else c
    case Refresh(k) => if k == h then c.(lastSeen := now) else c
    case Request(k, cid, _) => if k == h then c.(wire := c.wire.(requests := c.wire.requests + [cid])) else c
    case TearDown(k, _) =>
      if k == h then
        c.(attached := false,
           wire := c.wire.(cleanups := c.wire.cleanups + 1, gone := c.wire.gone || c.auth != PreLogin))
      else c
    case _ => c
  }

  lemma ActOn(s: State, action: Action, h: Handle)
    ensures At(Act(s, action), h) == if h < |s.conns| then Acted(s.now, action, h, At(s, h)) else At(s, h)
  {
    hide ActKeeps;
  }

  /** What carrying out a decision does to the tables. */
  lemma ActTables(s: State, action: Action)
    ensures var t := Act(s, action);
            && t.sessions == (match action
                              case LogIn(h, id, _) => s.sessions[id := h]
                              case TearDown(h, _) => if At(s, h).id != 0 then s.sessions - {At(s, h).id} else s.sessions
                              case _ => s.sessions)
            && t.udp == (match action
                         case Pair(h, a, _, _) => s.udp[a := h]
                         case TearDown(h, _) => if At(s, h).addr.Some? then s.udp - {At(s, h).addr.value} else s.udp
                         case _ => s.udp)
  {
    hide ActKeeps;
  }

  /** What dispatching an event does to one session. */
  lemma DispatchOn(cfg: Config, s: State, choice: Choice, h: Handle)
    requires s.phase == Handling && s.agenda == Done && s.batch != []
    ensures var n := Noticed(s);
            && n.sessions == s.sessions && n.udp == s.udp && n.now == s.now && |n.conns| == |s.conns|
            && At(n, h) == At(s, h).(lastSeen := At(n, h).lastSeen)
            && At(DoDispatch(cfg, s, choice), h)
               == if h < |s.conns| then Acted(s.now, Decide(cfg, n, s.batch[0], choice), h, At(n, h)) else At(n, h)
  {
    ActOn(Noticed(s), Decide(cfg, Noticed(s), s.batch[0], choice), h);
    hide Act, Decide, DispatchKeeps;
  }

  // ---------------------------------------------------------------- the agenda

  function DoExec(cfg: Config, s: State): (t: State)
    ensures ExecKeeps(s, t)
  {
    if s.agenda == Done then s
    else
      var t := s.(agenda := s.agenda.rest);
      match s.agenda.op
      case Push(h, f) => DoPush(cfg, t, h, f)
      case Mark(h, r) => DoMark(t, h, r)
      case Post(h, r) => DoPost(cfg, t, h, r)
      case Fan(todo, _) => if todo == {} then t else s
      case Sweep(todo, _) => if todo == {} then t else s
      case Run(_) => s
  }

  /** The non-blocking send: a frame for a full outbox is lost and the session is marked. */
  function DoPush(cfg: Config, s: State, h: Handle, f: ServerFrame): (t: State)
    ensures ExecKeeps(s, t)
  {
    var c := At(s, h);
    var offered := c.wire.(offered := c.wire.offered + [f]);
    if !c.attached then Put(s, h, c.(wire := offered))
    else if |c.outbox| < cfg.sendDepth then Put(s, h, c.(outbox := c.outbox + [f], wire := offered))
    else Plan(Put(s, h, c.(wire := offered)), Mark(h, OutboundQueueFull))
  }

  /** The compare-and-swap on the disconnect flag. */
  function DoMark(s: State, h: Handle, r: Reason): (t: State)
    ensures ExecKeeps(s, t)
  {
    var c := At(s, h);
    if h < |s.conns| && c.mark.None? then Plan(Put(s, h, c.(mark := Some(r))), Post(h, r)) else s
  }

  function DoPost(cfg: Config, s: State, h: Handle, r: Reason): (t: State)
    ensures ExecKeeps(s, t)
  {
    var c := At(s, h);
    if HasRoom(cfg, s) then Enqueue(s, Disconnect(h, r))
    else Put(s, h, c.(wire := c.wire.(drops := c.wire.drops + 1)))
  }

  /** One turn of a loop over a set of players, in any order. */
  function DoPick(s: State, p: PlayerId): State {
    if s.agenda == Done then s
    else
      var rest := s.agenda.rest;
      match s.agenda.op
      case Fan(todo, body) =>
        if p !in todo then s
        else
          var t := s.(agenda := Then(Fan(todo - {p}, body), rest));
          if p in s.sessions then Plan(t, Push(s.sessions[p], Game(body))) else t
      case Sweep(todo, cutoff) =>
        if p !in todo then s
        else
          var t := s.(agenda := Then(Sweep(todo - {p}, cutoff), rest));
          if p in s.sessions && Silent(At(s, s.sessions[p]), cutoff)
          then Plan(t, Mark(s.sessions[p], PingTimeout)) else t
      case _ => s
  }

  predicate Silent(c: Session, cutoff: int) {
    c.auth == Ready && c.addr.Some? && c.lastSeen < cutoff
  }

  function Subscribers(s: State, topic: Topic): set<PlayerId> {
    set q | q in s.subs && q.1 == topic :: q.0
  }

  /** A running callback makes one call. */
  function DoUser(s: State, call: UserCall): State {
    if s.agenda == Done || !s.agenda.op.Run? then s
    else Call(s.(calls := s.calls + [call]), call)
  }

  function Call(s: State, call: UserCall): State {
    match call
    case SendTcp(p, body) => if p in s.sessions then Plan(s, Push(s.sessions[p], Game(body))) else s
    case BroadcastTcp(body) => Plan(s, Fan(s.sessions.Keys, body))
    case Kick(p, text) => if p in s.sessions then Plan(s, Mark(s.sessions[p], Kicked(text))) else s
    case Subscribe(p, topic) => s.(subs := s.subs + {(p, topic)})
    case Unsubscribe(p, topic) => s.(subs := s.subs - {(p, topic)})
    case UnsubscribeAll(p) => s.(subs := set q | q in s.subs && q.0 != p)
    case Publish(topic, body) => Plan(s, Fan(Subscribers(s, topic), body))
  }

  /** A running callback ends; panics are recovered. */
  function DoReturn(s: State, outcome: Outcome): State {
    if s.agenda == Done || !s.agenda.op.Run? then s
    else
      var t := s.(agenda := s.agenda.rest);
      match s.agenda.op.callback
      case ClientHandler(h) => if outcome == Panicked then Plan(t, Mark(h, HandlerPanic)) else t
      case RpcHandler(h, cid) => Plan(t, Push(h, RpcResponse(cid, outcome == Returned)))
      case _ => t
  }

  // ---------------------------------------------------------------- runs

  function IoStep(cfg: Config, s: State, step: Step): (t: State)
    requires IsIo(step)
    ensures IoKeeps(s, t) && (!step.Write? ==> SendsNothing(s, t))
  {
    match step
    case Accept(stream) => DoAccept(s, stream)
    case Receive(h) => DoReceive(cfg, s, h)
    case StopReading(h, e) => DoStopReading(s, h, e)
    case ReaderMark(h) => DoReaderMark(s, h)
    case ReaderPost(h) => DoReaderPost(cfg, s, h)
    case Datagram(a, p) => DoDatagram(cfg, s, a, p)
    case Write(h) => DoWrite(s, h)
  }

  predicate IsIo(step: Step) {
    step.Accept? || step.Receive? || step.StopReading? || step.ReaderMark? || step.ReaderPost?
    || step.Datagram? || step.Write?
  }

  function TickStep(cfg: Config, s: State, step: Step): (t: State)
    requires IsTick(step)
    ensures t.conns == s.conns && t.sessions == s.sessions && t.udp == s.udp && t.subs == s.subs
    ensures t.hist.accepted == s.hist.accepted && t.hist.handled == s.hist.handled
  {
    match step
    case TickStart(now) => DoTickStart(s, now)
    case DrainTake => DoDrainTake(s)
    case DrainDone => DoDrainDone(s)
    case StartSweep => DoStartSweep(cfg, s)
    case TickEnd => DoTickEnd(s)
  }

  predicate IsTick(step: Step) {
    step.TickStart? || step.DrainTake? || step.DrainDone? || step.StartSweep? || step.TickEnd?
  }

  function AgendaStep(s: State, step: Step): (t: State)
    requires IsAgenda(step)
    ensures SameTick(s, t.(subs := s.subs, calls := s.calls)) && t.conns == s.conns && t.queue == s.queue
            && t.hist == s.hist
  {
    match step
    case Pick(p) => DoPick(s, p)
    case User(call) => DoUser(s, call)
    case Return(outcome) => DoReturn(s, outcome)
  }

  predicate IsAgenda(step: Step) {
    step.Pick? || step.User? || step.Return?
  }

  function Next(cfg: Config, s: State, step: Step): State {
    if step.Dispatch? then DoDispatch(cfg, s, step.choice)
    else if step.Exec? then DoExec(cfg, s)
    else if IsIo(step) then IoStep(cfg, s, step)
    else if IsTick(step) then TickStep(cfg, s, step)
    else AgendaStep(s, step)
  }

  lemma NextDispatch(cfg: Config, s: State, choice: Choice)
    ensures Next(cfg, s, Dispatch(choice)) == DoDispatch(cfg, s, choice)
  {
    hide DoDispatch;
  }

  function RunFrom(cfg: Config, s: State, steps: seq<Step>): State {
    if steps == [] then s
    else Next(cfg, RunFrom(cfg, s, steps[..|steps| - 1]), steps[|steps| - 1])
  }

  /** The state after a run from the empty server. */
  function Reached(cfg: Config, steps: seq<Step>): State {
    RunFrom(cfg, INIT, steps)
  }

  lemma {:induction false} RunSplit(cfg: Config, s: State, first: seq<Step>, later: seq<Step>)
    ensures RunFrom(cfg, s, first + later) == RunFrom(cfg, RunFrom(cfg, s, first), later)
    decreases |later|
  {
    hide Next;
    if later == [] {
      assert first + later == first;
    } else {
      var rest := later[..|later| - 1];
      assert (first + later)[..|first + later| - 1] == first + rest;
      RunSplit(cfg, s, first, rest);
    }
  }

  lemma Extend(cfg: Config, steps: seq<Step>, step: Step)
    ensures Reached(cfg, steps + [step]) == Next(cfg, Reached(cfg, steps), step)
  {
    hide Next;
    assert (steps + [step])[..|steps|] == steps;
  }

  lemma ExtendDispatch(cfg: Config, steps: seq<Step>, choice: Choice)
    ensures Reached(cfg, steps + [Dispatch(choice)]) == DoDispatch(cfg, Reached(cfg, steps), choice)
  {
    Extend(cfg, steps, Dispatch(choice));
    hide Reached, DoDispatch, DoExec, IoStep, TickStep, AgendaStep;
  }

  /** The state a run is in after its first i steps. */
  function After(cfg: Config, steps: seq<Step>, i: nat): State
    requires i <= |steps|
  {
    Reached(cfg, steps[..i])
  }
}
