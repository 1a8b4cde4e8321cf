/** Single steps of the protocol, spelled out as the changes they make to the fields that the
    program has too. */
module Moves {
  import opened Frame
  import opened Protocol
  import opened Subscriptions

  lemma MarkStep(cfg: Config, s: State, h: Handle, r: Reason)
    requires s.agenda.Then? && s.agenda.op == Mark(h, r) && h < |s.conns|
    ensures var t, c := Next(cfg, s, Exec), s.conns[h];
            && SameTick(s, t) && t.queue == s.queue
            && t.agenda == (if c.mark.None? then Then(Post(h, r), s.agenda.rest) else s.agenda.rest)
            && t.conns == s.conns[h := c.(mark := if c.mark.None? then Some(r) else c.mark)]
  {
    hide ExecKeeps;
  }

  lemma PostStep(cfg: Config, s: State, h: Handle, r: Reason)
    requires s.agenda.Then? && s.agenda.op == Post(h, r) && h < |s.conns|
    ensures var t := Next(cfg, s, Exec);
            && SameTick(s, t) && t.agenda == s.agenda.rest && |t.conns| == |s.conns|
            && t.queue == (if |s.queue| < cfg.eventDepth then s.queue + [Disconnect(h, r)] else s.queue)
            && forall k :: 0 <= k < |s.conns| ==> t.conns[k] == s.conns[k].(wire := t.conns[k].wire)
  {
    hide ExecKeeps;
  }

  lemma PushStep(cfg: Config, s: State, h: Handle, f: ServerFrame)
    requires s.agenda.Then? && s.agenda.op == Push(h, f) && h < |s.conns|
    ensures var t, c := Next(cfg, s, Exec), s.conns[h];
            var room := |c.outbox| < cfg.sendDepth;
            && SameTick(s, t) && t.queue == s.queue && |t.conns| == |s.conns|
            && t.agenda == (if c.attached && !room then Then(Mark(h, OutboundQueueFull), s.agenda.rest)
                else s.agenda.rest)
            && t.conns[h] == c.(outbox := if c.attached && room then c.outbox + [f] else c.outbox,
                                wire := t.conns[h].wire)
            && forall k :: 0 <= k < |s.conns| && k != h ==> t.conns[k] == s.conns[k]
  {
    hide ExecKeeps;
  }

  /** Two states an onlooker cannot tell apart. */
  predicate Unseen(s: State, t: State) {
    && t.conns == s.conns && t.sessions == s.sessions && t.udp == s.udp && t.queue == s.queue && t.batch == s.batch
    && t.now == s.now && t.lastBatch == s.lastBatch
  }

  lemma PickStep(cfg: Config, s: State, p: PlayerId)
    requires s.agenda.Then?
    requires match s.agenda.op case Fan(todo, _) => p in todo case Sweep(todo, _) => p in todo case _ => false
    ensures var t := Next(cfg, s, Pick(p));
            && SameTick(s, t) && t.conns == s.conns && t.queue == s.queue
            && match s.agenda.op
               case Fan(todo, body) =>
                 var loop := Then(Fan(todo - {p}, body), s.agenda.rest);
                 t.agenda == if p in s.sessions then Then(Push(s.sessions[p], Game(body)), loop) else loop
               case Sweep(todo, cutoff) =>
                 var loop := Then(Op.Sweep(todo - {p}, cutoff), s.agenda.rest);
                 t.agenda == if p in s.sessions && Silent(At(s, s.sessions[p]), cutoff)
                             then Then(Mark(s.sessions[p], PingTimeout), loop) else loop
               case _ => true
  {
  }

  lemma LoopEnds(cfg: Config, s: State)
    requires s.agenda.Then?
    requires match s.agenda.op case Fan(todo, _) => todo == {} case Sweep(todo, _) => todo == {} case _ => false
    ensures Next(cfg, s, Exec) == s.(agenda := s.agenda.rest)
  {
  }

  /** The subscription operation a user call is, if any. */
  function SubOpOf(call: UserCall): Option<SubOp> {
    match call
    case Subscribe(p, t) => Some(Join(p, t))
    case Unsubscribe(p, t) => Some(Leave(p, t))
    case UnsubscribeAll(p) => Some(LeaveAll(p))
    case _ => None
  }

  lemma UserStep(cfg: Config, s: State, call: UserCall)
    requires s.agenda.Then? && s.agenda.op.Run?
    ensures var t := Next(cfg, s, User(call));
            && t.conns == s.conns && t.queue == s.queue
            && SameTick(s, t.(subs := s.subs, calls := s.calls))
            && t.subs == (if SubOpOf(call).Some? then Applied(s.subs, SubOpOf(call).value) else s.subs)
            && t.agenda == match call
                           case SendTcp(p, body) => if p in s.sessions
                               then Then(Push(s.sessions[p], Game(body)), s.agenda) else s.agenda
                           case BroadcastTcp(body) => Then(Fan(s.sessions.Keys, body), s.agenda)
                           case Kick(p, text) => if p in s.sessions
                               then Then(Mark(s.sessions[p], Kicked(text)), s.agenda) else s.agenda
                           case Publish(topic, body) => Then(Fan(Protocol.Subscribers(s, topic), body), s.agenda)
                           case _ => s.agenda
  {
  }

  lemma ReturnStep(cfg: Config, s: State, outcome: Outcome)
    requires s.agenda.Then? && s.agenda.op.Run?
    ensures var t, rest := Next(cfg, s, Return(outcome)), s.agenda.rest;
            && t == s.(agenda := t.agenda)
            && t.agenda == match s.agenda.op.callback
                           case ClientHandler(h) => if outcome == Panicked
                               then Then(Mark(h, HandlerPanic), rest) else rest
                           case RpcHandler(h, cid) => Then(Push(h, RpcResponse(cid, outcome == Returned)), rest)
                           case _ => rest
  {
  }

  /** Carrying out each decision, spelled out. */
  lemma TearDownAct(s: State, h: Handle, r: Reason)
    requires h < |s.conns|
    ensures var t, c := Act(s, TearDown(h, r)), s.conns[h];
            && t.conns == s.conns[h := c.(attached := false, wire := t.conns[h].wire)]
            && t.conns[h].wire.gone == (c.wire.gone || c.auth != PreLogin)
            && t.conns[h].wire.reader == c.wire.reader && t.conns[h].wire.unread == c.wire.unread
            && t.sessions == (if c.id != 0 then s.sessions - {c.id} else s.sessions)
            && t.udp == (if c.addr.Some? then s.udp - {c.addr.value} else s.udp)
            && SameRest(s, t) && t.agenda == Then(Run(OnDisconnect(h, r)), s.agenda)
  {
  }

  lemma LogInAct(s: State, h: Handle, id: PlayerId, tok: Token)
    requires h < |s.conns|
    ensures var t, c := Act(s, LogIn(h, id, tok)), s.conns[h];
            && t.conns == s.conns[h := c.(id := id, token := tok, auth := AwaitingUdp)]
            && t.sessions == s.sessions[id := h] && t.udp == s.udp && SameRest(s, t)
            && t.agenda == Then(Run(OnAuth(h, id, tok)), Then(Push(h, LoginResponse(true, id, tok)), s.agenda))
  {
  }

  lemma PairAct(s: State, h: Handle, a: Addr, tok: Token, clock: int)
    requires h < |s.conns|
    ensures var t, c := Act(s, Pair(h, a, tok, clock)), s.conns[h];
            && t.conns == s.conns[h := c.(addr := Some(a), auth := Ready, lastSeen := clock)]
            && t.sessions == s.sessions && t.udp == s.udp[a := h] && SameRest(s, t)
            && t.agenda == Then(Run(OnConnect(h, tok)), s.agenda)
  {
  }

  lemma RequestAct(s: State, h: Handle, cid: nat, found: bool)
    requires h < |s.conns|
    ensures var t := Act(s, Request(h, cid, found));
            && t.conns == s.conns[h := s.conns[h].(wire := t.conns[h].wire)]
            && t.sessions == s.sessions && t.udp == s.udp && SameRest(s, t)
            && t.agenda == Then(if found then Run(RpcHandler(h, cid)) else Push(h, RpcResponse(cid, false)), s.agenda)
  {
  }

  /** The decisions that change no table, and at most a last-seen time. */
  lemma LightAct(s: State, action: Action)
    requires action.Ignore? || action.Refuse? || action.Refresh? || action.CallClient? || action.Complain?
    requires action.Refresh? ==> action.h < |s.conns|
    ensures var t := Act(s, action);
            && t.conns == (if action.Refresh? then s.conns[action.h := s.conns[action.h].(lastSeen := s.now)]
                else s.conns)
            && t.sessions == s.sessions && t.udp == s.udp && SameRest(s, t)
            && t.agenda == match action
                           case Refuse(h, r) => Then(Push(h, LoginResponse(false, 0, "")), Then(Mark(h, r), s.agenda))
                           case CallClient(h) => Then(Run(ClientHandler(h)), s.agenda)
                           case Complain(h) => Then(Mark(h, MalformedFrame), s.agenda)
                           case _ => s.agenda
  {
    hide ActKeeps;
  }

  /** Whatever else runs in the same tick keeps what taking the event off did. */
  lemma TookThen(s: State, t: State, u: State)
    requires TookOne(s, t) && SameTick(t, u.(subs := t.subs, calls := t.calls))
    ensures TookOne(s, u)
  {
  }

  /** Taking the event off the batch moves nothing else of the tick goroutine's own. */
  lemma TakenOff(s: State)
    requires s.batch != []
    ensures TookOne(s, Noticed(s)) && Noticed(s).agenda == s.agenda && Noticed(s).subs == s.subs
  {
  }

  lemma Notices(s: State)
    requires s.batch != []
    ensures var t, e := Noticed(s), s.batch[0];
            && t.sessions == s.sessions && t.udp == s.udp && t.queue == s.queue && t.batch == s.batch[1..]
            && t.now == s.now && t.lastBatch == s.lastBatch
            && t.conns == if e.UdpMessage? && e.addr in s.udp && s.udp[e.addr] < |s.conns|
                          then s.conns[s.udp[e.addr] := s.conns[s.udp[e.addr]].(lastSeen := s.now)] else s.conns
  {
  }

  /** One event has gone from the batch to the handled events. */
  predicate TookOne(s: State, t: State) {
    && s.batch != [] && t.phase == s.phase && t.batch == s.batch[1..] && t.hist.handled == s.hist.handled + [s.batch[0]]
    && t.now == s.now && t.lastBatch == s.lastBatch
  }

  predicate SameRest(s: State, t: State) {
    && t.queue == s.queue && t.batch == s.batch && t.now == s.now && t.lastBatch == s.lastBatch && t.phase == s.phase
    && t.subs == s.subs && t.hist.handled == s.hist.handled
  }

  lemma Closes(cfg: Config, s: State, h: Handle, why: Reason, choice: Choice)
    ensures Decide(cfg, s, Disconnect(h, why), choice) == TearDown(h, why)
  {
  }

  // ---------------------------------------------------------------- readers, writers, datagrams

  lemma AcceptStep(cfg: Config, s: State, stream: Bytes)
    ensures var t := Next(cfg, s, Accept(stream));
            && SameTick(s, t) && t.agenda == s.agenda && t.queue == s.queue && |t.conns| == |s.conns| + 1
            && t.conns[..|s.conns|] == s.conns && t.conns[|s.conns|] == BLANK.(wire := t.conns[|s.conns|].wire)
            && t.conns[|s.conns|].wire == BLANK.wire.(stream := stream, unread := stream)
  {
    hide IoKeeps, SendsNothing;
  }

  /** Only the wire side of one session, and perhaps the queue, has changed. */
  predicate OnTheWire(s: State, t: State, h: Handle)
    requires h < |s.conns|
  {
    && SameTick(s, t) && t.agenda == s.agenda && |t.conns| == |s.conns|
    && t.conns == s.conns[h := s.conns[h].(wire := t.conns[h].wire)]
    && t.conns[h].wire.cleanups == s.conns[h].wire.cleanups
  }

  lemma ReceiveStep(cfg: Config, s: State, h: Handle)
    requires h < |s.conns| && s.conns[h].wire.reader == Reading
    requires DecodeOne(s.conns[h].wire.unread, cfg.maxFrame, Closed).Payload?
    ensures var t, r := Next(cfg, s, Receive(h)), DecodeOne(s.conns[h].wire.unread, cfg.maxFrame, Closed);
            var room := |s.queue| < cfg.eventDepth;
            && OnTheWire(s, t, h)
            && t.queue == (if room then s.queue + [TcpMessage(h, r.payload)] else s.queue)
            && t.conns[h].wire.unread == r.rest
            && t.conns[h].wire.reader == if room then Reading else Stopping(OutboundQueueFull)
  {
    hide IoKeeps, SendsNothing, DecodeOne;
  }

  lemma StopStep(cfg: Config, s: State, h: Handle, e: ReadError)
    requires h < |s.conns| && s.conns[h].wire.reader == Reading
    ensures var t := Next(cfg, s, StopReading(h, e));
            OnTheWire(s, t, h) && t.queue == s.queue && t.conns[h].wire.reader == Stopping(ReaderStopped(e))
  {
    hide IoKeeps, SendsNothing;
  }

  lemma ReaderMarkStep(cfg: Config, s: State, h: Handle)
    requires h < |s.conns| && s.conns[h].wire.reader.Stopping?
    ensures var t, c := Next(cfg, s, ReaderMark(h)), s.conns[h];
            var r := c.wire.reader.reason;
            && SameTick(s, t) && t.agenda == s.agenda && t.queue == s.queue && |t.conns| == |s.conns|
            && t.conns == s.conns[h := c.(mark := if c.mark.None? then Some(r) else c.mark, wire := t.conns[h].wire)]
            && t.conns[h].wire.cleanups == c.wire.cleanups
            && t.conns[h].wire.reader == if c.mark.None? then Posting(r) else Exited
  {
    hide IoKeeps, SendsNothing;
  }

  lemma ReaderPostStep(cfg: Config, s: State, h: Handle)
    requires h < |s.conns| && s.conns[h].wire.reader.Posting?
    ensures var t := Next(cfg, s, ReaderPost(h));
            && OnTheWire(s, t, h) && t.conns[h].wire.reader == Exited
            && t.queue == if |s.queue| < cfg.eventDepth then s.queue + [Disconnect(h, s.conns[h].wire.reader.reason)]
                          else s.queue
  {
    hide IoKeeps, SendsNothing;
  }

  lemma DatagramStep(cfg: Config, s: State, a: Addr, p: Bytes)
    ensures var t := Next(cfg, s, Datagram(a, p));
            && SameTick(s, t) && t.agenda == s.agenda && t.conns == s.conns
            && t.queue == if |s.queue| < cfg.eventDepth then s.queue + [UdpMessage(a, p)] else s.queue
  {
    hide IoKeeps, SendsNothing;
  }

  lemma WriteStep(cfg: Config, s: State, h: Handle)
    requires h < |s.conns| && s.conns[h].outbox != []
    ensures var t, c := Next(cfg, s, Write(h)), s.conns[h];
            && SameTick(s, t) && t.agenda == s.agenda && t.queue == s.queue && |t.conns| == |s.conns|
            && t.conns == s.conns[h := c.(outbox := c.outbox[1..], wire := t.conns[h].wire)]
            && t.conns[h].wire.written == c.wire.written + [c.outbox[0]]
  {
    hide IoKeeps, SendsNothing;
  }

  // ---------------------------------------------------------------- the tick loop

  lemma TickStartStep(cfg: Config, s: State, now: int)
    requires s.phase == Idle
    ensures var t := Next(cfg, s, TickStart(now));
            && Unseen(s, t.(now := s.now)) && t.now == now && t.phase == Draining(|s.queue|) && t.agenda == s.agenda
            && t.subs == s.subs && t.hist.handled == s.hist.handled
  {
  }

  lemma DrainTakeStep(cfg: Config, s: State)
    requires s.phase.Draining? && |s.batch| < s.phase.size && s.queue != []
    ensures var t := Next(cfg, s, DrainTake);
            && Unseen(s, t.(queue := s.queue, batch := s.batch)) && t.phase == s.phase && t.agenda == s.agenda
            && t.batch == s.batch + [s.queue[0]] && t.queue == s.queue[1..]
            && t.subs == s.subs && t.hist.handled == s.hist.handled
  {
  }

  lemma DrainDoneStep(cfg: Config, s: State)
    requires s.phase.Draining? && (|s.batch| >= s.phase.size || s.queue == [])
    ensures var t := Next(cfg, s, DrainDone);
            && Unseen(s, t) && t.phase == Handling && t.agenda == s.agenda && t.subs == s.subs
            && t.hist.handled == s.hist.handled
  {
  }

  lemma StartSweepStep(cfg: Config, s: State)
    requires s.phase == Handling && s.agenda == Done && s.batch == []
    ensures var t := Next(cfg, s, StartSweep);
            var ping := s.lastBatch.None? || s.now - s.lastBatch.value >= cfg.Interval();
            && Unseen(s, t.(lastBatch := s.lastBatch)) && t.lastBatch == (if ping then Some(s.now) else s.lastBatch)
            && t.phase == Finishing && t.subs == s.subs && t.hist.handled == s.hist.handled
            && t.agenda == Then(Op.Sweep(s.sessions.Keys, s.now - cfg.Timeout()), Then(Run(OnTick), Done))
  {
  }

  lemma TickEndStep(cfg: Config, s: State)
    requires s.phase == Finishing && s.agenda == Done
    ensures var t := Next(cfg, s, TickEnd);
            Unseen(s, t) && t.phase == Idle && t.agenda == Done && t.subs == s.subs && t.hist.handled == s.hist.handled
  {
  }

  /** The fields that a drain leaves alone. */
  predicate SameButDrain(s: State, t: State) {
    && t.conns == s.conns && t.sessions == s.sessions && t.udp == s.udp && t.phase == s.phase && t.agenda == s.agenda
    && t.lastBatch == s.lastBatch && t.subs == s.subs && t.hist.handled == s.hist.handled
  }

  predicate PingDue(cfg: Config, lastBatch: Option<int>, now: int) {
    lastBatch.None? || now - lastBatch.value >= cfg.Interval()
  }

  /** More of a run, none of it by the tick goroutine. */
  predicate Aside(s: State, before: seq<Step>, t: State, after: seq<Step>) {
    before <= after && SameTick(s, t) && t.agenda == s.agenda
  }

  lemma AsideChain(s: State, a: seq<Step>, t: State, b: seq<Step>, u: State, c: seq<Step>)
    requires Aside(s, a, t, b) && Aside(t, b, u, c)
    ensures Aside(s, a, u, c)
  {
  }

  lemma AsideStart(s: State, a: seq<Step>)
    ensures Aside(s, a, s, a)
  {
  }

  // ---------------------------------------------------------------- what the outside world decides

  /** The steps that carry a verdict, a call or an outcome from outside to the tick goroutine. */
  predicate IsTold(step: Step) {
    step.Dispatch? || step.User? || step.Return?
  }

  /** The tick goroutine is at the point where such a step takes effect. */
  predicate Heeded(s: State, step: Step) {
    match step
    case Dispatch(_) => s.phase == Handling && s.agenda == Done && s.batch != []
    case User(_) => s.agenda.Then? && s.agenda.op.Run?
    case Return(_) => s.agenda.Then? && s.agenda.op.Run?
    case _ => false
  }

  /** The steps of a run by which the outside world had its say, in order. */
  function Told(cfg: Config, steps: seq<Step>): seq<Step> {
    if steps == [] then []
    else
      var n := |steps| - 1;
      Told(cfg, steps[..n]) + if Heeded(Reached(cfg, steps[..n]), steps[n]) then [steps[n]] else []
  }

  lemma ToldAppend(cfg: Config, steps: seq<Step>, step: Step)
    ensures Told(cfg, steps + [step])
            == if Heeded(Reached(cfg, steps), step) then Told(cfg, steps) + [step] else Told(cfg, steps)
  {
    hide Reached, Heeded;
    assert (steps + [step])[..|steps|] == steps;
    assert Told(cfg, steps) + [] == Told(cfg, steps);
  }
}
