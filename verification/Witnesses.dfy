/** Short runs that show which hypotheses the theorems cannot do without. */
module Witnesses {
  import opened Frame
  import opened Protocol
  import opened Moves
  import Conservation
  import opened Sweep
  import opened Traffic

  /** One more step of a known run. */
  lemma Further(cfg: Config, steps: seq<Step>, s: State, step: Step) returns (more: seq<Step>, t: State)
    requires Reached(cfg, steps) == s
    ensures more == steps + [step] && t == Next(cfg, s, step) == Reached(cfg, more)
    ensures !step.Dispatch? ==> forall h :: Signs(cfg, more, h) == Signs(cfg, steps, h)
  {
    more, t := steps + [step], Next(cfg, s, step);
    Extend(cfg, steps, step);
    assert more[..|steps|] == steps;
    hide Reached, Next;
  }

  lemma Nowhere(cfg: Config)
    ensures Reached(cfg, []) == INIT
  {
  }

  // ---------------------------------------------------------------- pieces of runs

  /** The beginning of a tick: all that is queued goes to the batch. */
  lemma Opening(cfg: Config, steps: seq<Step>, s: State, now: int) returns (more: seq<Step>, t: State)
    requires Reached(cfg, steps) == s && s.phase == Idle && s.batch == [] && s.agenda == Done
    ensures Reached(cfg, more) == t && t.phase == Handling && t.agenda == Done && t.batch == s.queue && t.queue == []
    ensures t.conns == s.conns && t.sessions == s.sessions && t.udp == s.udp && t.now == now
    ensures forall h :: Signs(cfg, more, h) == Signs(cfg, steps, h)
  {
    hide Reached, Next, Signs;
    TickStartStep(cfg, s, now);
    more, t := Further(cfg, steps, s, TickStart(now));
    while t.queue != []
      invariant Reached(cfg, more) == t && t.phase == Draining(|s.queue|) && t.agenda == Done
      invariant t.batch + t.queue == s.queue
      invariant t.conns == s.conns && t.sessions == s.sessions && t.udp == s.udp && t.now == now
      invariant forall h :: Signs(cfg, more, h) == Signs(cfg, steps, h)
      decreases |t.queue|
    {
      DrainTakeStep(cfg, t);
      more, t := Further(cfg, more, t, DrainTake);
    }
    assert t.batch + [] == t.batch;
    DrainDoneStep(cfg, t);
    more, t := Further(cfg, more, t, DrainDone);
  }

  /** The sweep of a tick in which no listed session has been silent for too long, and OnTick. */
  lemma Sweeps(cfg: Config, steps: seq<Step>, s: State) returns (more: seq<Step>, t: State)
    requires Reached(cfg, steps) == s && s.phase == Handling && s.batch == [] && s.agenda == Done
    requires forall p :: p in s.sessions ==> !Silent(At(s, s.sessions[p]), Cutoff(cfg, s))
    ensures Reached(cfg, more) == t && TickOver(t) && t.batch == [] && t.queue == s.queue && t.now == s.now
    ensures t.conns == s.conns && t.sessions == s.sessions && t.udp == s.udp
    ensures forall h :: Signs(cfg, more, h) == Signs(cfg, steps, h)
  {
    hide Reached, Next, Signs;
    StartSweepStep(cfg, s);
    more, t := Further(cfg, steps, s, StartSweep);
    var todo := s.sessions.Keys;
    while todo != {}
      invariant Reached(cfg, more) == t && t.agenda == Then(Op.Sweep(todo, Cutoff(cfg, s)), Then(Run(OnTick), Done))
      invariant t.phase == Finishing && t.batch == [] && t.queue == s.queue && t.now == s.now
      invariant t.conns == s.conns && t.sessions == s.sessions && t.udp == s.udp
      invariant forall h :: Signs(cfg, more, h) == Signs(cfg, steps, h)
      decreases todo
    {
      var p :| p in todo;
      PickStep(cfg, t, p);
      assert p in s.sessions ==> !Silent(At(s, s.sessions[p]), Cutoff(cfg, s));
      more, t := Further(cfg, more, t, Pick(p));
      todo := todo - {p};
    }
    LoopEnds(cfg, t);
    more, t := Further(cfg, more, t, Exec);
    ReturnStep(cfg, t, Returned);
    more, t := Further(cfg, more, t, Return(Returned));
  }

  lemma Ending(cfg: Config, steps: seq<Step>, s: State) returns (more: seq<Step>, t: State)
    requires Reached(cfg, steps) == s && s.phase == Handling && s.batch == [] && s.agenda == Done
    requires forall p :: p in s.sessions ==> !Silent(At(s, s.sessions[p]), Cutoff(cfg, s))
    ensures Reached(cfg, more) == t && t.phase == Idle && t.agenda == Done && t.batch == [] && t.queue == s.queue
    ensures t.conns == s.conns && t.sessions == s.sessions && t.udp == s.udp
    ensures forall h :: Signs(cfg, more, h) == Signs(cfg, steps, h)
  {
    hide Reached, Next, Signs, Silent;
    more, t := Sweeps(cfg, steps, s);
    TickEndStep(cfg, t);
    more, t := Further(cfg, more, t, TickEnd);
  }

  /** One event of the batch is dispatched. */
  lemma Dispatches(cfg: Config, steps: seq<Step>, s: State, choice: Choice)
    returns (more: seq<Step>, n: State, t: State)
    requires Reached(cfg, steps) == s && s.phase == Handling && s.agenda == Done && s.batch != []
    ensures Reached(cfg, more) == t && n == Noticed(s) && t == Act(n, Decide(cfg, n, s.batch[0], choice))
    ensures n.phase == Handling && n.agenda == Done && n.batch == s.batch[1..] && n.queue == s.queue
    ensures n.sessions == s.sessions && n.udp == s.udp && n.now == s.now
    ensures !s.batch[0].UdpMessage? || s.batch[0].addr !in s.udp ==> n.conns == s.conns
    ensures forall h :: Signs(cfg, more, h)
                        == var g := SignIn(cfg, s, Dispatch(choice), h);
                           Signs(cfg, steps, h) + if g.Some? then [g.value] else []
  {
    ExtendDispatch(cfg, steps, choice);
    Notices(s);
    TakenOff(s);
    more, n := steps + [Dispatch(choice)], Noticed(s);
    t := Act(n, Decide(cfg, n, s.batch[0], choice));
    assert more[..|steps|] == steps;
    hide Reached, Noticed, Act, Decide, SignIn;
  }

  /** A callback that makes no calls returns. */
  lemma Returns(cfg: Config, steps: seq<Step>, s: State) returns (more: seq<Step>, t: State)
    requires Reached(cfg, steps) == s && s.agenda.Then? && s.agenda.op.Run?
    requires !s.agenda.op.callback.ClientHandler? && !s.agenda.op.callback.RpcHandler?
    ensures Reached(cfg, more) == t && t == s.(agenda := s.agenda.rest)
    ensures forall h :: Signs(cfg, more, h) == Signs(cfg, steps, h)
  {
    hide Reached, Next, Signs;
    ReturnStep(cfg, s, Returned);
    more, t := Further(cfg, steps, s, Return(Returned));
  }

  // ---------------------------------------------------------------- a disconnect is lost

  const TINY := Config(1, 1, 0, 0, 0, p => Malformed)

  /** A disconnect event that finds the queue full is gone, with the flag left set. */
  lemma DisconnectLost() returns (steps: seq<Step>)
    ensures var s := Reached(TINY, steps);
            && At(s, 0).mark == Some(ReaderStopped(EndOfFile)) && At(s, 0).wire.reader == Exited
            && s.queue == [UdpMessage("a", [])] && s.batch == [] && s.agenda == Done
            && At(s, 0).wire.drops == 1
  {
    Nowhere(TINY);
    hide Reached, Next;
    DatagramStep(TINY, INIT, "a", []);
    var s;
    steps, s := Further(TINY, [], INIT, Datagram("a", []));
    AcceptStep(TINY, s, []);
    steps, s := Further(TINY, steps, s, Accept([]));
    StopStep(TINY, s, 0, EndOfFile);
    steps, s := Further(TINY, steps, s, StopReading(0, EndOfFile));
    ReaderMarkStep(TINY, s, 0);
    steps, s := Further(TINY, steps, s, ReaderMark(0));
    ReaderPostStep(TINY, s, 0);
    steps, s := Further(TINY, steps, s, ReaderPost(0));
    Conservation.DisconnectsAreConserved(TINY, steps, 0);
    assert Conservation.DisconnectsIn([UdpMessage("a", [])], 0) == 0;
  }

  // ---------------------------------------------------------------- a session listed under ID 0 lingers

  /** A server to which every frame is a login. */
  const EAGER := Config(2, 1, 0, 0, 0, p => Login([]))

  /** Accepts a connection and reads its first frame. */
  lemma Arrives(cfg: Config, steps: seq<Step>, s: State, payload: Bytes, suffix: Bytes)
    returns (more: seq<Step>, t: State)
    requires Reached(cfg, steps) == s && |s.queue| < cfg.eventDepth && Framable(payload, cfg.maxFrame)
    ensures Reached(cfg, more) == t && SameTick(s, t) && t.agenda == s.agenda
    ensures t.queue == s.queue + [TcpMessage(|s.conns|, payload)]
    ensures |t.conns| == |s.conns| + 1 && t.conns[..|s.conns|] == s.conns
    ensures var c := t.conns[|s.conns|];
            c == BLANK.(wire := c.wire) && c.wire.reader == Reading && c.wire.unread == suffix && c.wire.cleanups == 0
    ensures forall h :: Signs(cfg, more, h) == Signs(cfg, steps, h)
  {
    hide Signs;
    OneFrameRoundTrip(payload, suffix, cfg.maxFrame, Closed);
    hide Reached, Next, Encode, DecodeOne;
    var h := |s.conns|;
    AcceptStep(cfg, s, Encode(payload) + suffix);
    more, t := Further(cfg, steps, s, Accept(Encode(payload) + suffix));
    ReceiveStep(cfg, t, h);
    more, t := Further(cfg, more, t, Receive(h));
  }

  /** The reader of a connection that breaks marks its session and posts the disconnect. */
  lemma Breaks(cfg: Config, steps: seq<Step>, s: State, h: Handle) returns (more: seq<Step>, t: State)
    requires Reached(cfg, steps) == s && |s.queue| < cfg.eventDepth
    requires h < |s.conns| && s.conns[h].wire.reader == Reading && s.conns[h].mark.None?
    ensures Reached(cfg, more) == t && SameTick(s, t) && t.agenda == s.agenda
    ensures t.queue == s.queue + [Disconnect(h, ReaderStopped(EndOfFile))]
    ensures |t.conns| == |s.conns|
            && t.conns == s.conns[h := s.conns[h].(mark := Some(ReaderStopped(EndOfFile)), wire := t.conns[h].wire)]
  {
    hide Reached, Next;
    StopStep(cfg, s, h, EndOfFile);
    more, t := Further(cfg, steps, s, StopReading(h, EndOfFile));
    ReaderMarkStep(cfg, t, h);
    more, t := Further(cfg, more, t, ReaderMark(h));
    ReaderPostStep(cfg, t, h);
    more, t := Further(cfg, more, t, ReaderPost(h));
  }

  /** A login of a new session is at the head of the batch. */
  predicate LoginNext(cfg: Config, s: State) {
    && s.phase == Handling && s.agenda == Done && s.batch != []
    && var e := s.batch[0];
       && e.TcpMessage? && e.sess < |s.conns| && cfg.decode(e.payload).Login?
       && s.conns[e.sess].id == 0 && s.conns[e.sess].auth == PreLogin
  }

  /** The login is dispatched and granted. */
  lemma Grants(cfg: Config, steps: seq<Step>, s: State, id: PlayerId, token: Token) returns (more: seq<Step>, t: State)
    requires Reached(cfg, steps) == s && LoginNext(cfg, s) && id !in s.sessions
    ensures Reached(cfg, more) == t && t.phase == Handling && t.batch == s.batch[1..] && t.queue == s.queue
    ensures var h := s.batch[0].sess;
            && t.conns == s.conns[h := s.conns[h].(id := id, token := token, auth := AwaitingUdp)]
            && t.sessions == s.sessions[id := h] && t.udp == s.udp && t.now == s.now
            && t.agenda == Then(Run(OnAuth(h, id, token)), Then(Push(h, LoginResponse(true, id, token)), Done))
    ensures forall k :: Signs(cfg, more, k) == Signs(cfg, steps, k)
  {
    var h, choice := s.batch[0].sess, Choice(Granted(id, token), 0, false);
    var n;
    more, n, t := Dispatches(cfg, steps, s, choice);
    assert Decide(cfg, n, s.batch[0], choice) == LogIn(h, id, token);
    assert forall k :: SignIn(cfg, s, Dispatch(choice), k) == None;
    LogInAct(n, h, id, token);
    hide Reached, Noticed, Act, Decide, Signs, SignIn;
  }

  /** And then: OnAuth makes no calls; the response is queued. */
  lemma LogsIn(cfg: Config, steps: seq<Step>, s: State, id: PlayerId, token: Token) returns (more: seq<Step>, t: State)
    requires Reached(cfg, steps) == s && LoginNext(cfg, s) && id !in s.sessions
    requires var c := s.conns[s.batch[0].sess]; c.attached ==> |c.outbox| < cfg.sendDepth
    ensures Reached(cfg, more) == t && t.phase == Handling && t.agenda == Done && t.batch == s.batch[1..]
    ensures t.queue == s.queue
    ensures var h := s.batch[0].sess;
            && |t.conns| == |s.conns|
            && var c, w := s.conns[h], t.conns[h].wire;
            && w.reader == c.wire.reader && w.unread == c.wire.unread
            && t.conns == s.conns[h := c.(id := id, token := token, auth := AwaitingUdp,
                outbox := t.conns[h].outbox, wire := w)]
            && t.sessions == s.sessions[id := h] && t.udp == s.udp && t.now == s.now
    ensures forall k :: Signs(cfg, more, k) == Signs(cfg, steps, k)
  {
    hide Reached, Signs, Next;
    more, t := Grants(cfg, steps, s, id, token);
    more, t := Returns(cfg, more, t);
    Responds(cfg, t, s.batch[0].sess, LoginResponse(true, id, token));
    more, t := Further(cfg, more, t, Exec);
  }

  /** A frame goes out to a session with room, or to one without a channel. */
  lemma Responds(cfg: Config, s: State, h: Handle, f: ServerFrame)
    requires s.agenda.Then? && s.agenda.op == Push(h, f) && h < |s.conns|
    requires s.conns[h].attached ==> |s.conns[h].outbox| < cfg.sendDepth
    ensures var t := Next(cfg, s, Exec);
            && SameTick(s, t) && t.queue == s.queue && t.agenda == s.agenda.rest && |t.conns| == |s.conns|
            && t.conns == s.conns[h := s.conns[h].(outbox := t.conns[h].outbox, wire := t.conns[h].wire)]
            && t.conns[h].wire.reader == s.conns[h].wire.reader && t.conns[h].wire.unread == s.conns[h].wire.unread
  {
    hide ExecKeeps;
  }

  /** With ID 0 the cleanup leaves the dead session in the table. */
  lemma ZeroIdLingers() returns (steps: seq<Step>)
    ensures var s := Reached(EAGER, steps);
            s.sessions == map[0 := 0] && !At(s, 0).attached && At(s, 0).mark.Some?
  {
    Nowhere(EAGER);
    hide Reached, Next, Signs;
    var s, n;
    steps, s := Arrives(EAGER, [], INIT, [], []);
    steps, s := Breaks(EAGER, steps, s, 0);
    steps, s := Opening(EAGER, steps, s, 0);
    steps, s := LogsIn(EAGER, steps, s, 0, "t");
    steps, n, s := Dispatches(EAGER, steps, s, Choice(Rejected, 0, false));
    TearDownAct(n, 0, ReaderStopped(EndOfFile));
  }

  // ---------------------------------------------------------------- a login after the cleanup

  const PICKY := Config(2, 1, 0, 0, 0, p => if p == [] then Malformed else Login([]))

  /** A malformed frame is dispatched: its session is marked and the disconnect queued. */
  lemma Complains(cfg: Config, steps: seq<Step>, s: State) returns (more: seq<Step>, t: State)
    requires Reached(cfg, steps) == s && s.phase == Handling && s.agenda == Done && s.batch != []
    requires var e := s.batch[0];
             && e.TcpMessage? && e.sess < |s.conns| && cfg.decode(e.payload).Malformed?
             && (s.conns[e.sess].id == 0 || s.conns[e.sess].id in s.sessions) && s.conns[e.sess].mark.None?
    requires |s.queue| < cfg.eventDepth
    ensures Reached(cfg, more) == t && t.phase == Handling && t.agenda == Done && t.batch == s.batch[1..]
    ensures t.queue == s.queue + [Disconnect(s.batch[0].sess, MalformedFrame)]
    ensures var h := s.batch[0].sess;
            |t.conns| == |s.conns| && t.conns[h] == s.conns[h].(mark := Some(MalformedFrame), wire := t.conns[h].wire)
            && t.conns[h].wire.reader == s.conns[h].wire.reader && t.conns[h].wire.unread == s.conns[h].wire.unread
    ensures t.sessions == s.sessions && t.udp == s.udp && t.now == s.now
  {
    var h, choice := s.batch[0].sess, Choice(Rejected, 0, false);
    var n;
    more, n, t := Dispatches(cfg, steps, s, choice);
    assert Decide(cfg, n, s.batch[0], choice) == Complain(h);
    hide Reached, Noticed, Act, Decide;
    LightAct(n, Complain(h));
    MarkStep(cfg, t, h, MalformedFrame);
    more, t := Further(cfg, more, t, Exec);
    PostStep(cfg, t, h, MalformedFrame);
    assert ExecKeeps(t, Next(cfg, t, Exec));
    hide Next;
    more, t := Further(cfg, more, t, Exec);
  }

  /** A malformed frame has its session's disconnect queued, and then a login is read. */
  lemma LoginQueuedLate() returns (steps: seq<Step>, s: State)
    ensures Reached(PICKY, steps) == s && s.phase == Idle && s.agenda == Done && s.batch == []
    ensures s.queue == [Disconnect(0, MalformedFrame), TcpMessage(0, [1])] && s.sessions == map[]
    ensures |s.conns| == 1
            && var c := s.conns[0]; c.id == 0 && c.auth == PreLogin && c.outbox == [] && c.mark.Some? && c.addr.None?
  {
    Nowhere(PICKY);
    OneFrameRoundTrip([1], [], 0, Closed);
    assert Encode([1]) + [] == Encode([1]);
    hide Reached, Next, Encode, DecodeOne, Signs;
    steps, s := Arrives(PICKY, [], INIT, [], Encode([1]));
    steps, s := Opening(PICKY, steps, s, 0);
    steps, s := Complains(PICKY, steps, s);
    steps, s := Ending(PICKY, steps, s);
    ReceiveStep(PICKY, s, 0);
    steps, s := Further(PICKY, steps, s, Receive(0));
  }

  /** A frame read before the cleanup logs the session in after it: the dead session is listed,
      with no channel to answer on, and its disconnect has been used up. */
  lemma LoginAfterCleanup() returns (steps: seq<Step>)
    ensures var s := Reached(PICKY, steps);
            s.sessions == map[7 := 0] && !At(s, 0).attached && At(s, 0).mark.Some?
  {
    hide Reached, Next, Signs;
    var s, n;
    steps, s := LoginQueuedLate();
    steps, s := Opening(PICKY, steps, s, 0);
    steps, n, s := Dispatches(PICKY, steps, s, Choice(Rejected, 0, false));
    TearDownAct(n, 0, MalformedFrame);
    hide Act, Decide, Noticed;
    steps, s := Returns(PICKY, steps, s);
    steps, s := LogsIn(PICKY, steps, s, 7, "t");
  }

  // ---------------------------------------------------------------- an address taken over

  const SHARED := Config(4, 1, 0, 0, 0, p =>
    if p == [] then Login([]) else if p == [1] then UdpHandshake(1, "s") else UdpHandshake(2, "t"))

  /** A handshake is dispatched and pairs the session with the datagram's source. */
  lemma PairsUp(cfg: Config, steps: seq<Step>, s: State, h: Handle) returns (more: seq<Step>, t: State)
    requires Reached(cfg, steps) == s && s.phase == Handling && s.agenda == Done && s.batch != [] && h < |s.conns|
    requires var e := s.batch[0];
             e.UdpMessage? && var f := cfg.decode(e.payload);
             f.UdpHandshake? && f.player in s.sessions && s.sessions[f.player] == h
             && s.conns[h].token == f.token && s.conns[h].auth == AwaitingUdp
    ensures Reached(cfg, more) == t && t.phase == Handling && t.agenda == Done && t.batch == s.batch[1..]
    ensures var a := s.batch[0].addr;
            && |t.conns| == |s.conns| && t.udp == s.udp[a := h] && t.sessions == s.sessions
            && t.queue == s.queue && t.now == s.now
            && t.conns[h] == s.conns[h].(addr := Some(a), auth := Ready, lastSeen := 0)
            && forall k :: 0 <= k < |s.conns| && k != h ==> t.conns[k] == s.conns[k].(lastSeen := t.conns[k].lastSeen)
    ensures Signs(cfg, more, h) == Signs(cfg, steps, h) + [Paired(0)]
  {
    var a, choice := s.batch[0].addr, Choice(Rejected, 0, false);
    var n;
    more, n, t := Dispatches(cfg, steps, s, choice);
    assert SignIn(cfg, s, Dispatch(choice), h) == Some(Paired(0));
    hide Reached, DispatchKeeps, Signs, SignIn, Act;
    PairDecided(cfg, s, h);
    hide Noticed, Decide;
    PairAct(n, h, a, s.conns[h].token, 0);
    more, t := Returns(cfg, more, t);
  }

  lemma PairDecided(cfg: Config, s: State, h: Handle)
    requires s.batch != [] && h < |s.conns|
    requires var e := s.batch[0]; e.UdpMessage? && PairsWith(s, cfg.decode(e.payload), h)
    ensures var n, e := Noticed(s), s.batch[0];
            && Decide(cfg, n, e, Choice(Rejected, 0, false)) == Pair(h, e.addr, s.conns[h].token, 0)
            && |n.conns| == |s.conns| && n.conns[h] == s.conns[h].(lastSeen := n.conns[h].lastSeen)
            && forall k :: 0 <= k < |s.conns| ==> n.conns[k] == s.conns[k].(lastSeen := n.conns[k].lastSeen)
  {
    Notices(s);
    hide Noticed;
  }

  /** Two sessions log in, and the handshakes of both come from one address. */
  lemma TwoPlayers() returns (steps: seq<Step>, s: State)
    ensures Reached(SHARED, steps) == s && s.phase == Handling && s.agenda == Done
    ensures s.sessions == map[1 := 0, 2 := 1] && s.udp == map[]
    ensures s.batch == [UdpMessage("a", [1]), UdpMessage("a", [2])]
    ensures |s.conns| == 2 && s.conns[0].auth == s.conns[1].auth == AwaitingUdp
            && s.conns[0].token == "s" && s.conns[1].token == "t"
  {
    Nowhere(SHARED);
    hide Reached, Next, Signs;
    steps, s := Arrives(SHARED, [], INIT, [], []);
    steps, s := Arrives(SHARED, steps, s, [], []);
    DatagramStep(SHARED, s, "a", [1]);
    steps, s := Further(SHARED, steps, s, Datagram("a", [1]));
    DatagramStep(SHARED, s, "a", [2]);
    steps, s := Further(SHARED, steps, s, Datagram("a", [2]));
    steps, s := Opening(SHARED, steps, s, 0);
    steps, s := LogsIn(SHARED, steps, s, 1, "s");
    steps, s := LogsIn(SHARED, steps, s, 2, "t");
  }

  /** A second session that pairs from a live, ready session's address takes the entry away
      from the first. */
  lemma AddressTakenOver() returns (steps: seq<Step>)
    ensures var s := Reached(SHARED, steps);
            && s.sessions == map[1 := 0, 2 := 1] && s.udp == map["a" := 1]
            && At(s, 0).auth == Ready && At(s, 0).addr == Some("a")
  {
    hide Reached, Next, Signs;
    var s;
    steps, s := TwoPlayers();
    steps, s := PairsUp(SHARED, steps, s, 0);
    steps, s := PairsUp(SHARED, steps, s, 1);
  }

  // ---------------------------------------------------------------- a player ID issued again

  const REISSUE := Config(4, 4, 0, 0, 0, p =>
    if p == [] then Malformed
    else if p == [0] then Login([])
    else if p == [1] then UdpHandshake(7, "s")
    else GamePayload([]))

  /** The session reads its next frame. */
  lemma ReadsOn(cfg: Config, steps: seq<Step>, s: State, h: Handle, payload: Bytes, suffix: Bytes)
    returns (more: seq<Step>, t: State)
    requires Reached(cfg, steps) == s && |s.queue| < cfg.eventDepth && Framable(payload, cfg.maxFrame) && h < |s.conns|
    requires s.conns[h].wire.reader == Reading && s.conns[h].wire.unread == Encode(payload) + suffix
    ensures Reached(cfg, more) == t && OnTheWire(s, t, h) && t.queue == s.queue + [TcpMessage(h, payload)]
    ensures t.conns[h].wire.reader == Reading && t.conns[h].wire.unread == suffix
    ensures forall k :: Signs(cfg, more, k) == Signs(cfg, steps, k)
  {
    OneFrameRoundTrip(payload, suffix, cfg.maxFrame, Closed);
    hide Reached, Next, Encode, DecodeOne, Signs;
    ReceiveStep(cfg, s, h);
    more, t := Further(cfg, steps, s, Receive(h));
  }

  /** Session 0 logs in as player 7, pairs, and sends a malformed frame, so that its disconnect
      is queued. */
  lemma FirstPlayer() returns (steps: seq<Step>, s: State)
    ensures Reached(REISSUE, steps) == s && s.phase == Idle && s.agenda == Done && s.batch == []
    ensures s.queue == [Disconnect(0, MalformedFrame)] && s.sessions == map[7 := 0] && s.udp == map["a" := 0]
    ensures |s.conns| == 1
            && var c := s.conns[0];
               c.id == 7 && c.auth == Ready && c.addr == Some("a") && c.wire.reader == Reading
                   && c.wire.unread == Encode([2]) + []
  {
    Nowhere(REISSUE);
    hide Reached, Next, Encode, Signs;
    steps, s := Arrives(REISSUE, [], INIT, [0], Encode([]) + (Encode([2]) + []));
    DatagramStep(REISSUE, s, "a", [1]);
    steps, s := Further(REISSUE, steps, s, Datagram("a", [1]));
    steps, s := ReadsOn(REISSUE, steps, s, 0, [], Encode([2]) + []);
    steps, s := Opening(REISSUE, steps, s, 0);
    steps, s := LogsIn(REISSUE, steps, s, 7, "s");
    steps, s := PairsUp(REISSUE, steps, s, 0);
    var before := s;
    steps, s := Complains(REISSUE, steps, s);
    assert s.conns[0] == before.conns[0].(mark := Some(MalformedFrame), wire := s.conns[0].wire);
    steps, s := Ending(REISSUE, steps, s);
  }

  /** The next tick tears session 0 down and grants its player ID to session 1; a frame that
      session 0 sent then reaches a handler, with the session that is gone. */
  lemma StaleFrameServed() returns (steps: seq<Step>)
    ensures var s := Reached(REISSUE, steps);
            && At(s, 0).wire.gone && s.sessions == map[7 := 1] && At(s, 1).id == At(s, 0).id == 7
            && s.agenda == Then(Run(ClientHandler(0)), Done)
  {
    hide Reached, Next, Encode, Signs;
    var s, n;
    steps, s := FirstPlayer();
    steps, s := Arrives(REISSUE, steps, s, [0], []);
    steps, s := ReadsOn(REISSUE, steps, s, 0, [2], []);
    steps, s := Opening(REISSUE, steps, s, 0);
    steps, n, s := Dispatches(REISSUE, steps, s, Choice(Rejected, 0, false));
    TearDownAct(n, 0, MalformedFrame);
    steps, s := Returns(REISSUE, steps, s);
    steps, s := LogsIn(REISSUE, steps, s, 7, "t");
    steps, n, s := Dispatches(REISSUE, steps, s, Choice(Rejected, 0, true));
    LightAct(n, CallClient(0));
  }

  // ---------------------------------------------------------------- kept alive over TCP alone

  const PATIENT := Config(4, 4, 0, 0, 1, p =>
    if p == [0] then Login([]) else if p == [1] then UdpHandshake(7, "s") else Pong)

  /** Session 0 logs in and pairs at time 0, and its reader has a Pong before it. */
  lemma PairedPlayer() returns (steps: seq<Step>, s: State)
    ensures Reached(PATIENT, steps) == s && s.phase == Idle && s.agenda == Done && s.batch == [] && s.queue == []
    ensures s.sessions == map[7 := 0] && |s.conns| == 1
            && var c := s.conns[0];
               c.id == 7 && c.auth == Ready && c.mark.None? && c.wire.reader == Reading
                   && c.wire.unread == Encode([2]) + []
    ensures Signs(PATIENT, steps, 0) == [Paired(0)]
  {
    Nowhere(PATIENT);
    assert Signs(PATIENT, [], 0) == [];
    hide Reached, Next, Encode, Signs;
    steps, s := Arrives(PATIENT, [], INIT, [0], Encode([2]) + []);
    DatagramStep(PATIENT, s, "a", [1]);
    steps, s := Further(PATIENT, steps, s, Datagram("a", [1]));
    steps, s := Opening(PATIENT, steps, s, 0);
    steps, s := LogsIn(PATIENT, steps, s, 7, "s");
    steps, s := PairsUp(PATIENT, steps, s, 0);
    steps, s := Ending(PATIENT, steps, s);
  }

  /** A session that has been silent on UDP for ten times the timeout is not marked at the end of
      a tick, because of a Pong over TCP. */
  lemma KeptAliveOverTcp() returns (steps: seq<Step>)
    ensures var s := Reached(PATIENT, steps);
            && TickOver(s) && At(s, 0).auth == Ready && At(s, 0).mark.None? && s.sessions == map[7 := 0]
            && LatestOverUdp(Signs(PATIENT, steps, 0)) == Some(0) && s.now == 10 * PATIENT.Timeout()
  {
    var s;
    steps, s := PairedPlayer();
    hide Reached, Next, Encode, Signs;
    steps, s := ReadsOn(PATIENT, steps, s, 0, [2], []);
    steps, s := Opening(PATIENT, steps, s, 10);
    steps, s := Pongs(PATIENT, steps, s, 0);
    assert Signs(PATIENT, steps, 0) == [Paired(0), TcpPong(10)];
    assert [Paired(0), TcpPong(10)][..1] == [Paired(0)];
    steps, s := Sweeps(PATIENT, steps, s);
  }

  /** A Pong over TCP is dispatched. */
  lemma Pongs(cfg: Config, steps: seq<Step>, s: State, h: Handle) returns (more: seq<Step>, t: State)
    requires Reached(cfg, steps) == s && s.phase == Handling && s.agenda == Done && s.batch != [] && h < |s.conns|
    requires s.batch[0].TcpMessage? && s.batch[0].sess == h && cfg.decode(s.batch[0].payload).Pong?
    requires s.conns[h].id in s.sessions
    ensures Reached(cfg, more) == t && t.phase == Handling && t.agenda == Done && t.batch == s.batch[1..]
    ensures t.queue == s.queue
    ensures t.conns == s.conns[h := s.conns[h].(lastSeen := s.now)] && t.sessions == s.sessions && t.now == s.now
    ensures Signs(cfg, more, h) == Signs(cfg, steps, h) + [TcpPong(s.now)]
  {
    var n;
    more, n, t := Dispatches(cfg, steps, s, Choice(Rejected, 0, false));
    assert SignIn(cfg, s, Dispatch(Choice(Rejected, 0, false)), h) == Some(TcpPong(s.now));
    LightAct(n, Refresh(h));
    hide Reached, Signs, SignIn, Noticed, Act;
  }
}
