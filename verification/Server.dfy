/** The server as the program has it: session objects updated in place, two maps of references
    to them, a channel of events. Each method is straight-line code or a loop, and each of its
    atomic actions is one step of the protocol; the protocol's agenda says what is left to do. */
module Server {
  import opened Frame
  import opened Protocol
  import opened Subscriptions
  import opened Moves
  import opened Identity
  import opened Tables
  import Conservation
  import Fifo
  import FrameIO
  import opened Lifecycle
  import Outbound

  class SessionObject {
    ghost const handle: nat
    var id: PlayerId
    var auth: Auth
    var token: Token
    var addr: Option<Addr>
    var attached: bool
    var outbox: seq<ServerFrame>
    var lastSeen: int
    var fired: bool

    constructor (ghost handle: nat)
      ensures this.handle == handle && Shows(BLANK)
    {
      this.handle := handle;
      id, auth, token, addr, attached, outbox, lastSeen, fired := 0, PreLogin, "", None, true, [], 0, false;
    }

    /** The object holds what the protocol's session has. */
    ghost predicate Shows(c: Session)
      reads this
    {
      && id == c.id && auth == c.auth && token == c.token && addr == c.addr && attached == c.attached
      && outbox == c.outbox && lastSeen == c.lastSeen && fired == c.mark.Some?
    }
  }

  datatype Queued =
    | FromTcp(sess: SessionObject, payload: Bytes)
    | FromUdp(addr: Addr, payload: Bytes)
    | Closing(sess: SessionObject, reason: Reason)

  ghost function Named(e: Queued): Event {
    match e
    case FromTcp(c, p) => TcpMessage(c.handle, p)
    case FromUdp(a, p) => UdpMessage(a, p)
    case Closing(c, r) => Disconnect(c.handle, r)
  }

  function Frames(sess: SessionObject, payloads: seq<Bytes>): (es: seq<Queued>)
    ensures |es| == |payloads|
  {
    seq(|payloads|, i requires 0 <= i < |payloads| => FromTcp(sess, payloads[i]))
  }

  lemma FramesNone(sess: SessionObject, payloads: seq<Bytes>)
    ensures Frames(sess, payloads[..0]) == [] && payloads[0..] == payloads
  {
  }

  lemma FramesAppend(sess: SessionObject, payloads: seq<Bytes>, k: nat)
    requires k < |payloads|
    ensures Frames(sess, payloads[..k + 1]) == Frames(sess, payloads[..k]) + [FromTcp(sess, payloads[k])]
    ensures payloads[k..][1..] == payloads[k + 1..]
  {
  }

  /** One run of a user callback. */
  datatype Script = Script(calls: seq<UserCall>, outcome: Outcome)

  function Users(calls: seq<UserCall>): seq<Step> {
    seq(|calls|, i requires 0 <= i < |calls| => User(calls[i]))
  }

  /** The steps by which a callback runs its script. */
  function Body(script: Script): seq<Step> {
    Users(script.calls) + [Return(script.outcome)]
  }

  /** One dispatch more has been asked of the tick goroutine, and the callback it invokes, if
      it invokes one, has run its script. */
  function Answered(before: seq<Step>, choice: Choice, invokes: bool, script: Script): seq<Step> {
    if invokes then before + [Dispatch(choice)] + Body(script) else before + [Dispatch(choice)]
  }

  /** The same for a batch; `invoked` says which of its events invoked a callback. */
  function AllAnswered(before: seq<Step>, choices: nat -> Choice, invoked: seq<bool>,
        scripts: nat -> Script): seq<Step> {
    if invoked == [] then before
    else
      var n := |invoked| - 1;
      Answered(AllAnswered(before, choices, invoked[..n], scripts), choices(n), invoked[n], scripts(n))
  }

  lemma AnsweredPlain(before: seq<Step>, choice: Choice, script: Script)
    ensures Answered(before, choice, false, script) == before + [Dispatch(choice)]
  {
  }

  lemma AnsweredNone(before: seq<Step>, choices: nat -> Choice, scripts: nat -> Script)
    ensures AllAnswered(before, choices, [], scripts) == before
  {
  }

  lemma AnsweredMore(before: seq<Step>, choices: nat -> Choice, invoked: seq<bool>, scripts: nat -> Script, more: bool)
    ensures var n := |invoked|;
            AllAnswered(before, choices, invoked + [more], scripts)
            == Answered(AllAnswered(before, choices, invoked, scripts), choices(n), more, scripts(n))
  {
    assert (invoked + [more])[..|invoked|] == invoked;
  }

  lemma UsersSoFar(before: seq<Step>, calls: seq<UserCall>, i: nat)
    requires i <= |calls|
    ensures before + Users(calls[..0]) == before
    ensures i < |calls| ==> before + Users(calls[..i]) + [User(calls[i])] == before + Users(calls[..i + 1])
    ensures forall o :: before + Users(calls[..|calls|]) + [Return(o)] == before + Body(Script(calls, o))
  {
    assert calls[..|calls|] == calls;
    if i < |calls| {
      assert Users(calls[..i + 1]) == Users(calls[..i]) + [User(calls[i])];
    }
    forall o ensures before + Users(calls) + [Return(o)] == before + Body(Script(calls, o)) {
      assert before + (Users(calls) + [Return(o)]) == before + Users(calls) + [Return(o)];
    }
  }

  class Server {
    const cfg: Config
    var sessions: map<PlayerId, SessionObject>
    var udp: map<Addr, SessionObject>
    var queue: seq<Queued>
    var batch: seq<Queued>
    var now: int
    var lastBatch: Option<int>

    const manager: Manager         // the game's subscriptions

    ghost var conns: seq<SessionObject>
    ghost var trace: seq<Step>
    ghost var told: seq<Step>      // the steps of the trace that the outside world decides
    ghost var model: State

    // ---------------------------------------------------------------- the coupling

    ghost predicate Known(c: SessionObject)
      reads this`conns
    {
      c.handle < |conns| && conns[c.handle] == c
    }

    ghost predicate KnownEvents(es: seq<Queued>)
      reads this`conns
    {
      forall i :: 0 <= i < |es| ==> !es[i].FromUdp? ==> Known(es[i].sess)
    }

    ghost predicate Pool()
      reads this`conns, this`sessions, this`udp, this`queue, this`batch
    {
      && (forall h :: 0 <= h < |conns| ==> conns[h].handle == h)
      && (forall p :: p in sessions ==> Known(sessions[p]))
      && (forall a :: a in udp ==> Known(udp[a]))
      && KnownEvents(queue) && KnownEvents(batch)
    }

    ghost predicate ShowsAll(cs: seq<Session>)
      reads this`conns, conns
    {
      |conns| == |cs| && forall h :: 0 <= h < |conns| ==> conns[h].Shows(cs[h])
    }

    ghost predicate ListsSessions(m: map<PlayerId, Handle>)
      reads this`sessions
    {
      sessions.Keys == m.Keys && forall p :: p in sessions ==> sessions[p].handle == m[p]
    }

    ghost predicate ListsUdp(m: map<Addr, Handle>)
      reads this`udp
    {
      udp.Keys == m.Keys && forall a :: a in udp ==> udp[a].handle == m[a]
    }

    ghost predicate Names(es: seq<Queued>, named: seq<Event>) {
      |es| == |named| && forall i :: 0 <= i < |es| ==> Named(es[i]) == named[i]
    }

    ghost predicate Matches(s: State)
      reads this`conns, this`sessions, this`udp, this`queue, this`batch, this`now, this`lastBatch, conns
    {
      && ShowsAll(s.conns) && ListsSessions(s.sessions) && ListsUdp(s.udp)
      && Names(queue, s.queue) && Names(batch, s.batch)
      && now == s.now && lastBatch == s.lastBatch
    }

    ghost predicate Tracked()
      reads this`model, this`trace, this`told
    {
      model == Reached(cfg, trace) && told == Told(cfg, trace)
    }

    /** The object is in the state that the steps it has taken lead to. */
    ghost predicate Valid()
      reads this, conns
    {
      Pool() && Tracked() && Matches(model)
    }

    /** The manager holds the subscriptions of the protocol's state. */
    ghost predicate Subscribed()
      reads this`model, manager, manager.topicRepr, manager.playerRepr
    {
      manager.Holds(model.subs)
    }

    /** The manager's inner maps are old ones or new ones. */
    twostate predicate Renewed()
      reads manager
    {
      fresh(manager.topicRepr - old(manager.topicRepr)) && fresh(manager.playerRepr - old(manager.playerRepr))
    }

    /** Records that what was just done is one step of the protocol. */
    ghost method Advance(step: Step)
      requires Pool() && Tracked() && Matches(Next(cfg, model, step)) && !IsTold(step)
      modifies this`model, this`trace
      ensures Valid() && model == Next(cfg, old(model), step) && trace == old(trace) + [step]
    {
      hide Next, Reached, Matches, Pool;
      Extend(cfg, trace, step);
      ToldAppend(cfg, trace, step);
      model, trace := Next(cfg, model, step), trace + [step];
    }

    /** The same for a step that only moves the tick goroutine's own place. */
    ghost method Think(step: Step)
      requires Valid() && Unseen(model, Next(cfg, model, step)) && !IsTold(step)
      modifies this`model, this`trace
      ensures Valid() && model == Next(cfg, old(model), step) && trace == old(trace) + [step]
    {
      hide Next, Tracked;
      Advance(step);
    }

    /** The same for a step that user code decides. */
    ghost method Hear(step: Step)
      requires Valid() && Unseen(model, Next(cfg, model, step)) && Heeded(model, step)
      modifies this`model, this`trace, this`told
      ensures Valid() && model == Next(cfg, old(model), step) && trace == old(trace) + [step]
      ensures told == old(told) + [step]
    {
      hide Next, Reached, Pool, Heeded, Told;
      Extend(cfg, trace, step);
      ToldAppend(cfg, trace, step);
      model, trace, told := Next(cfg, model, step), trace + [step], told + [step];
    }

    constructor (eventDepth: int, sendDepth: int, maxFrame: nat, pingInterval: int, pingTimeout: int,
                 decode: Bytes -> ClientFrame)
      ensures Valid() && Subscribed() && trace == [] && fresh(manager)
      ensures cfg == NewConfig(eventDepth, sendDepth, maxFrame, pingInterval, pingTimeout, decode)
    {
      cfg := NewConfig(eventDepth, sendDepth, maxFrame, pingInterval, pingTimeout, decode);
      manager := new Manager();
      sessions, udp, queue, batch, now, lastBatch := map[], map[], [], [], 0, None;
      conns, trace, told, model := [], [], [], INIT;
    }

    // ---------------------------------------------------------------- sending and disconnecting

    /** The non-blocking push onto the event channel. */
    method PushEvent(e: Queued) returns (ok: bool)
      modifies this`queue
      ensures ok <==> |old(queue)| < cfg.eventDepth
      ensures queue == if ok then old(queue) + [e] else old(queue)
    {
      ok := |queue| < cfg.eventDepth;
      if ok {
        queue := queue + [e];
      }
    }

    /** The winner of the flag pushes the event, which is lost if the channel is full. */
    method PostDisconnect(sess: SessionObject, why: Reason)
      requires Valid() && Known(sess)
      requires model.agenda.Then? && model.agenda.op == Post(sess.handle, why)
      modifies this`queue, this`model, this`trace
      ensures Valid() && trace == old(trace) + [Exec] && model.agenda == old(model.agenda).rest
      ensures SameTick(old(model), model)
      ensures queue == if |old(queue)| < cfg.eventDepth then old(queue) + [Closing(sess, why)] else old(queue)
    {
      hide Next, Tracked, ListsSessions, ListsUdp;
      PostStep(cfg, model, sess.handle, why);
      var ok := PushEvent(Closing(sess, why));
      Advance(Exec);
    }

    /** The compare-and-swap on the flag. */
    method TryFlag(sess: SessionObject, why: Reason) returns (won: bool)
      requires Valid() && Known(sess)
      requires model.agenda.Then? && model.agenda.op == Mark(sess.handle, why)
      modifies this`model, this`trace, sess`fired
      ensures Valid() && sess.fired && won == !old(sess.fired)
      ensures trace == old(trace) + [Exec] && SameTick(old(model), model)
      ensures model.agenda == if won then Then(Post(sess.handle, why), old(model.agenda).rest)
                              else old(model.agenda).rest
    {
      hide Next, Tracked, ListsSessions, ListsUdp, Names;
      MarkStep(cfg, model, sess.handle, why);
      won := !sess.fired;
      sess.fired := true;
      Advance(Exec);
    }

    /** scheduleDisconnect: of all attempts on a session only the first pushes an event. */
    method ScheduleDisconnect(sess: SessionObject, why: Reason)
      requires Valid() && Known(sess)
      requires model.agenda.Then? && model.agenda.op == Mark(sess.handle, why)
      modifies this`queue, this`model, this`trace, sess`fired
      ensures Valid() && sess.fired && SameTick(old(model), model)
      ensures trace == old(trace) + if old(sess.fired) then [Exec] else [Exec, Exec]
      ensures model.agenda == old(model.agenda).rest
    {
      hide Next, Valid, Matches, Pool, Tracked;
      var won := TryFlag(sess, why);
      if won {
        PostDisconnect(sess, why);
      }
    }

    /** pushTCP: the non-blocking send; on overflow the session is scheduled for disconnect. */
    method PushTCP(sess: SessionObject, f: ServerFrame)
      requires Valid() && Known(sess)
      requires model.agenda.Then? && model.agenda.op == Push(sess.handle, f)
      modifies this`queue, this`model, this`trace, sess`outbox, sess`fired
      ensures Valid() && old(trace) <= trace && model.agenda == old(model.agenda).rest && SameTick(old(model), model)
      ensures sess.outbox == if old(sess.attached) && old(|sess.outbox|) < cfg.sendDepth then old(sess.outbox) + [f]
                             else old(sess.outbox)
      ensures sess.fired == (old(sess.fired) || (old(sess.attached) && old(|sess.outbox|) >= cfg.sendDepth))
    {
      hide Next, Tracked, Valid, Matches, Pool;
      var overflow := Offer(sess, f);
      if overflow {
        ScheduleDisconnect(sess, OutboundQueueFull);
      }
    }

    /** The send itself. */
    method Offer(sess: SessionObject, f: ServerFrame) returns (overflow: bool)
      requires Valid() && Known(sess)
      requires model.agenda.Then? && model.agenda.op == Push(sess.handle, f)
      modifies this`model, this`trace, sess`outbox
      ensures Valid() && trace == old(trace) + [Exec] && SameTick(old(model), model)
      ensures overflow == (sess.attached && |old(sess.outbox)| >= cfg.sendDepth)
      ensures sess.outbox == if sess.attached && !overflow then old(sess.outbox) + [f] else old(sess.outbox)
      ensures model.agenda == if overflow then Then(Mark(sess.handle, OutboundQueueFull), old(model.agenda).rest)
                              else old(model.agenda).rest
    {
      hide Next, Tracked, ListsSessions, ListsUdp, Names;
      PushStep(cfg, model, sess.handle, f);
      overflow := sess.attached && |sess.outbox| >= cfg.sendDepth;
      if sess.attached && !overflow {
        sess.outbox := sess.outbox + [f];
      }
      Advance(Exec);
    }
  
    lemma Tabled()
      requires Valid()
      ensures sessions.Keys == model.sessions.Keys
    {
    }

    lemma Listed(p: PlayerId)
      requires Valid() && p in sessions
      ensures p in model.sessions && Known(sessions[p]) && sessions[p].handle == model.sessions[p] < |model.conns|
      ensures sessions[p] in conns && sessions[p].Shows(model.conns[sessions[p].handle])
    {
    }

    // ---------------------------------------------------------------- fan-out

    /** BroadcastTCP and PublishOver: one push for every listed player, in any order. */
    method FanOut(players: set<PlayerId>, body: Bytes)
      requires Valid()
      requires model.agenda.Then? && model.agenda.op == Fan(players, body)
      modifies this`queue, this`model, this`trace, conns`outbox, conns`fired
      ensures Valid() && old(trace) <= trace && model.agenda == old(model.agenda).rest && SameTick(old(model), model)
    {
      hide Next, Tracked, Matches, Pool, Valid;
      var todo := players;
      while todo != {}
        invariant Valid() && old(trace) <= trace && SameTick(old(model), model)
        invariant model.agenda == Then(Fan(todo, body), old(model.agenda).rest)
        decreases todo
      {
        var p :| p in todo;
        SendTo(p, body, todo);
        todo := todo - {p};
      }
      LoopEnds(cfg, model);
      Think(Exec);
    }

    /** One turn of the loop. */
    method SendTo(p: PlayerId, body: Bytes, ghost todo: set<PlayerId>)
      requires Valid() && p in todo && model.agenda.Then? && model.agenda.op == Fan(todo, body)
      modifies this`queue, this`model, this`trace, conns`outbox, conns`fired
      ensures Valid() && old(trace) <= trace && SameTick(old(model), model)
      ensures model.agenda == Then(Fan(todo - {p}, body), old(model.agenda).rest)
    {
      hide Next, Tracked, Matches, Pool, Valid;
      PickStep(cfg, model, p);
      Tabled();
      if p in sessions {
        Listed(p);
      }
      Think(Pick(p));
      if p in sessions {
        PushTCP(sessions[p], Game(body));
      }
    }
  
    // ---------------------------------------------------------------- user callbacks

    /** A call for one player. */
    method CallSession(call: UserCall)
      requires Valid() && Subscribed() && model.agenda.Then? && model.agenda.op.Run? && (call.SendTcp? || call.Kick?)
      modifies this`queue, this`model, this`trace, this`told, conns`outbox, conns`fired
      ensures Valid() && old(trace) <= trace && model.agenda == old(model.agenda)
      ensures SameTick(old(model), model.(subs := old(model.subs), calls := old(model.calls)))
      ensures model.subs == old(model.subs)
      ensures told == old(told) + [User(call)]
    {
      hide Next, Tracked, Matches, Pool, Valid;
      UserStep(cfg, model, call);
      Tabled();
      if call.player in sessions {
        Listed(call.player);
      }
      Hear(User(call));
      if call.player in sessions {
        if call.SendTcp? {
          PushTCP(sessions[call.player], Game(call.body));
        } else {
          ScheduleDisconnect(sessions[call.player], Kicked(call.text));
        }
      }
    }

    /** A call for many players. */
    method CallMany(call: UserCall)
      requires Valid() && Subscribed() && model.agenda.Then? && model.agenda.op.Run?
      requires call.BroadcastTcp? || call.Publish?
      modifies this`queue, this`model, this`trace, this`told, conns`outbox, conns`fired
      ensures Valid() && old(trace) <= trace && model.agenda == old(model.agenda)
      ensures SameTick(old(model), model.(subs := old(model.subs), calls := old(model.calls)))
      ensures model.subs == old(model.subs)
      ensures told == old(told) + [User(call)]
    {
      hide Next, Tracked, Matches, Pool, Valid;
      UserStep(cfg, model, call);
      Tabled();
      var players := sessions.Keys;
      if call.Publish? {
        players := manager.PlayersNow(call.topic);
        assert players == Protocol.Subscribers(model, call.topic);
      }
      Hear(User(call));
      FanOut(players, call.body);
    }

    /** A call on the subscription manager. */
    method CallManager(call: UserCall)
      requires Valid() && Subscribed() && model.agenda.Then? && model.agenda.op.Run? && SubOpOf(call).Some?
      modifies this`model, this`trace, this`told, manager, manager.topicRepr, manager.playerRepr
      ensures Valid() && old(trace) <= trace && model.agenda == old(model.agenda)
      ensures SameTick(old(model), model.(subs := old(model.subs), calls := old(model.calls)))
      ensures Subscribed()
      ensures Renewed()
      ensures told == old(told) + [User(call)]
    {
      hide Next, Tracked, Matches, Pool, Valid;
      UserStep(cfg, model, call);
      manager.Apply(SubOpOf(call).value);
      Hear(User(call));
    }

    /** One call that user code makes on its context or on the subscription manager. */
    method Call(call: UserCall)
      requires Valid() && Subscribed() && model.agenda.Then? && model.agenda.op.Run?
      modifies this`queue, this`model, this`trace, this`told, conns`outbox, conns`fired
      modifies manager, manager.topicRepr, manager.playerRepr
      ensures Valid() && old(trace) <= trace && model.agenda == old(model.agenda)
      ensures SameTick(old(model), model.(subs := old(model.subs), calls := old(model.calls)))
      ensures Subscribed()
      ensures Renewed()
      ensures told == old(told) + [User(call)]
    {
      if SubOpOf(call).Some? {
        CallManager(call);
      } else if call.SendTcp? || call.Kick? {
        CallSession(call);
      } else {
        CallMany(call);
      }
    }

    /** A callback body, ending in one of the three ways it can. */
    method RunCallback(script: Script)
      requires Valid() && Subscribed() && model.agenda.Then? && model.agenda.op.Run?
      modifies this`queue, this`model, this`trace, this`told, conns`outbox, conns`fired
      modifies manager, manager.topicRepr, manager.playerRepr
      ensures Valid() && Subscribed() && old(trace) <= trace
      ensures SameTick(old(model), model.(subs := old(model.subs), calls := old(model.calls)))
      ensures model.agenda == match old(model.agenda.op.callback)
                              case ClientHandler(h) =>
                                if script.outcome == Panicked
                                    then Then(Mark(h, HandlerPanic), old(model.agenda).rest) else old(model.agenda).rest
                              case RpcHandler(h, cid) =>
                                Then(Push(h, RpcResponse(cid, script.outcome == Returned)), old(model.agenda).rest)
                              case _ => old(model.agenda).rest
      ensures Renewed()
      ensures told == old(told) + Body(script)
    {
      hide Next, Tracked, Matches, Pool, Valid, Users, Body, Manager.Holds;
      UsersSoFar(told, script.calls, 0);
      for i := 0 to |script.calls|
        invariant told == old(told) + Users(script.calls[..i])
        invariant Valid() && Subscribed() && old(trace) <= trace && model.agenda == old(model.agenda)
        invariant SameTick(old(model), model.(subs := old(model.subs), calls := old(model.calls)))
        invariant Renewed()
      {
        UsersSoFar(old(told), script.calls, i);
        Call(script.calls[i]);
      }
      UsersSoFar(old(told), script.calls, |script.calls|);
      ReturnStep(cfg, model, script.outcome);
      Hear(Return(script.outcome));
    }
  
    // ---------------------------------------------------------------- dispatching an event

    /** The event has been taken off the batch, and a decision about it is to be carried out. */
    ghost predicate Dispatching(choice: Choice, action: Action)
      reads this, conns
    {
      && Pool() && Tracked()
      && model.phase == Handling && model.agenda == Done && model.batch != []
      && Matches(Noticed(model))
      && action == Decide(cfg, Noticed(model), model.batch[0], choice)
    }

    /** Records that the decision was carried out. */
    ghost method Commit(choice: Choice, action: Action)
      requires Pool() && Tracked()
      requires model.phase == Handling && model.agenda == Done && model.batch != []
      requires action == Decide(cfg, Noticed(model), model.batch[0], choice)
      requires Matches(Act(Noticed(model), action))
      modifies this`model, this`trace, this`told
      ensures Valid() && trace == old(trace) + [Dispatch(choice)]
      ensures model == Act(Noticed(old(model)), action)
      ensures told == old(told) + [Dispatch(choice)]
    {
      ExtendDispatch(cfg, trace, choice);
      ToldAppend(cfg, trace, Dispatch(choice));
      hide Act, Decide, Noticed, Reached, Matches, Pool;
      model, trace, told := Act(Noticed(model), action), trace + [Dispatch(choice)], told + [Dispatch(choice)];
    }

    lemma Sized(choice: Choice, action: Action, sess: SessionObject)
      requires Dispatching(choice, action) && Known(sess)
      ensures sess.handle < |Noticed(model).conns|
    {
    }

    method Unlist(sess: SessionObject, ghost m: map<PlayerId, Handle>, ghost u: map<Addr, Handle>)
      requires Pool() && ListsSessions(m) && ListsUdp(u)
      modifies this`sessions, this`udp
      ensures sessions == if sess.id != 0 then old(sessions) - {sess.id} else old(sessions)
      ensures udp == if sess.addr.Some? then old(udp) - {sess.addr.value} else old(udp)
      ensures Pool() && ListsSessions(if sess.id != 0 then m - {sess.id} else m)
      ensures ListsUdp(if sess.addr.Some? then u - {sess.addr.value} else u)
    {
      if sess.id != 0 {
        sessions := sessions - {sess.id};
      }
      if sess.addr.Some? {
        udp := udp - {sess.addr.value};
      }
    }

    method Detach(sess: SessionObject, ghost cs: seq<Session>, ghost ds: seq<Session>)
      requires Pool() && Known(sess) && ShowsAll(cs) && sess.handle < |cs| == |ds|
      requires ds == cs[sess.handle := cs[sess.handle].(attached := false, wire := ds[sess.handle].wire)]
      modifies sess`attached
      ensures !sess.attached && ShowsAll(ds)
    {
      sess.attached := false;
    }

    /** The session leaves both tables and its channel is closed. */
    method RemoveSession(sess: SessionObject, why: Reason, choice: Choice)
      requires Dispatching(choice, TearDown(sess.handle, why)) && Known(sess)
      modifies this`sessions, this`udp, this`model, this`trace, this`told, sess`attached
      ensures Valid() && trace == old(trace) + [Dispatch(choice)]
      ensures sessions == if sess.id != 0 then old(sessions) - {sess.id} else old(sessions)
      ensures udp == if sess.addr.Some? then old(udp) - {sess.addr.value} else old(udp)
      ensures !sess.attached
      ensures model.agenda == Then(Run(OnDisconnect(sess.handle, why)), Done) && TookOne(old(model), model)
      ensures model.subs == old(model.subs)
      ensures told == old(told) + [Dispatch(choice)]
    {
      hide Decide, Act, DispatchKeeps, Tracked, ListsSessions, ListsUdp, Names, Noticed, ShowsAll, Pool;
      TakenOff(model);
      Seen(choice, TearDown(sess.handle, why), sess);
      TearDownAct(Noticed(model), sess.handle, why);
      Unlist(sess, Noticed(model).sessions, Noticed(model).udp);
      Detach(sess, Noticed(model).conns, Act(Noticed(model), TearDown(sess.handle, why)).conns);
      Commit(choice, TearDown(sess.handle, why));
    }

    /** cleanupSession: out of both tables, channel closed, OnDisconnect. */
    method CleanupSession(sess: SessionObject, why: Reason, choice: Choice, script: Script)
      requires Dispatching(choice, TearDown(sess.handle, why)) && Known(sess) && Subscribed()
      modifies this`sessions, this`udp, this`queue, this`model, this`trace, this`told, sess`attached
      modifies conns`outbox, conns`fired
      modifies manager, manager.topicRepr, manager.playerRepr
      ensures Valid() && Subscribed() && old(trace) <= trace && model.agenda == Done && TookOne(old(model), model)
      ensures sessions == if sess.id != 0 then old(sessions) - {sess.id} else old(sessions)
      ensures udp == if sess.addr.Some? then old(udp) - {sess.addr.value} else old(udp)
      ensures !sess.attached
      ensures Renewed()
      ensures told == Answered(old(told), choice, true, script)
    {
      hide Decide, Tracked, Dispatching, Valid, Noticed, DispatchKeeps, Matches, Pool, Manager.Holds;
      RemoveSession(sess, why, choice);
      RunCallback(script);
    }
  
    /** Carries out a decision that touches no object. */
    method Settle(choice: Choice, ghost action: Action)
      requires Dispatching(choice, action)
      requires action.Ignore? || action.Refuse? || action.CallClient? || action.Complain?
      modifies this`model, this`trace, this`told
      ensures Valid() && trace == old(trace) + [Dispatch(choice)]
      ensures model.subs == old(model.subs) && TookOne(old(model), model)
      ensures model.agenda == match action
                              case Refuse(h, r) => Then(Push(h, LoginResponse(false, 0, "")), Then(Mark(h, r), Done))
                              case CallClient(h) => Then(Run(ClientHandler(h)), Done)
                              case Complain(h) => Then(Mark(h, MalformedFrame), Done)
                              case _ => Done
      ensures told == old(told) + [Dispatch(choice)]
    {
      hide Decide, Act, DispatchKeeps, Tracked, ListsSessions, ListsUdp, Names, ShowsAll;
      LightAct(Noticed(model), action);
      Commit(choice, action);
    }

    /** Unless the session has been disconnected, the frame is the last one in its channel. */
    predicate SentLast(sess: SessionObject, f: ServerFrame)
      reads sess
    {
      sess.attached && !sess.fired ==> sess.outbox != [] && sess.outbox[|sess.outbox| - 1] == f
    }

    method Refuse(sess: SessionObject, why: Reason, choice: Choice)
      requires Dispatching(choice, Action.Refuse(sess.handle, why)) && Known(sess)
      modifies this`queue, this`model, this`trace, this`told, sess`outbox, sess`fired
      ensures Valid() && old(trace) <= trace && model.agenda == Done && TookOne(old(model), model)
      ensures model.subs == old(model.subs)
      ensures sess.fired
      ensures told == old(told) + [Dispatch(choice)]
      ensures sess.outbox == if sess.attached && |old(sess.outbox)| < cfg.sendDepth
                             then old(sess.outbox) + [LoginResponse(false, 0, "")] else old(sess.outbox)
    {
      hide Decide, Tracked, Dispatching, Valid, Noticed, DispatchKeeps, Matches, Pool, Manager.Holds;
      Settle(choice, Action.Refuse(sess.handle, why));
      PushTCP(sess, LoginResponse(false, 0, ""));
      ScheduleDisconnect(sess, why);
    }

    method Enlist(sess: SessionObject, id: PlayerId, ghost m: map<PlayerId, Handle>)
      requires Pool() && Known(sess) && ListsSessions(m)
      modifies this`sessions
      ensures sessions == old(sessions)[id := sess] && Pool() && ListsSessions(m[id := sess.handle])
    {
      sessions := sessions[id := sess];
    }

    method SetIdentity(sess: SessionObject, id: PlayerId, tok: Token, ghost cs: seq<Session>)
      requires Pool() && Known(sess) && ShowsAll(cs)
      modifies sess`id, sess`token, sess`auth
      ensures sess.id == id && sess.token == tok && sess.auth == AwaitingUdp
      ensures ShowsAll(cs[sess.handle := cs[sess.handle].(id := id, token := tok, auth := AwaitingUdp)])
    {
      sess.id, sess.token, sess.auth := id, tok, AwaitingUdp;
    }

    method Admit(sess: SessionObject, id: PlayerId, tok: Token, choice: Choice)
      requires Dispatching(choice, LogIn(sess.handle, id, tok)) && Known(sess)
      modifies this`sessions, this`model, this`trace, this`told, sess`id, sess`token, sess`auth
      ensures Valid() && trace == old(trace) + [Dispatch(choice)] && sessions == old(sessions)[id := sess]
      ensures sess.id == id && sess.token == tok && sess.auth == AwaitingUdp
      ensures model.agenda == Then(Run(OnAuth(sess.handle, id, tok)),
                                   Then(Push(sess.handle, LoginResponse(true, id, tok)), Done))
      ensures TookOne(old(model), model) && model.subs == old(model.subs)
      ensures told == old(told) + [Dispatch(choice)]
    {
      hide Decide, Act, DispatchKeeps, Tracked, ListsSessions, ListsUdp, Names, Noticed, ShowsAll, Pool;
      TakenOff(model);
      Sized(choice, LogIn(sess.handle, id, tok), sess);
      LogInAct(Noticed(model), sess.handle, id, tok);
      SetIdentity(sess, id, tok, Noticed(model).conns);
      Enlist(sess, id, Noticed(model).sessions);
      Commit(choice, LogIn(sess.handle, id, tok));
    }

    /** handleLogin, from the verdict of Authenticate on. */
    method HandleLogin(sess: SessionObject, choice: Choice, script: Script)
      requires model.batch != []
      requires Dispatching(choice, DecideLogin(Noticed(model), sess.handle, choice.auth)) && Known(sess) && Subscribed()
      modifies this`sessions, this`queue, this`model, this`trace, this`told, sess`id, sess`token, sess`auth
      modifies conns`outbox, conns`fired
      modifies manager, manager.topicRepr, manager.playerRepr
      ensures Valid() && Subscribed() && old(trace) <= trace && model.agenda == Done && TookOne(old(model), model)
      ensures Renewed()
      ensures told == Answered(old(told), choice,
                               DecideLogin(Noticed(old(model)), sess.handle, choice.auth).LogIn?, script)
      ensures if choice.auth.Granted? && choice.auth.id !in old(sessions) then
                && sessions == old(sessions)[choice.auth.id := sess] && sess.id == choice.auth.id
                && sess.token == choice.auth.token && sess.auth == AwaitingUdp
                && SentLast(sess, LoginResponse(true, sess.id, sess.token))
              else
                && sessions == old(sessions) && sess.fired && sess.auth == old(sess.auth)
                && sess.outbox == if sess.attached && |old(sess.outbox)| < cfg.sendDepth
                                  then old(sess.outbox) + [LoginResponse(false, 0, "")] else old(sess.outbox)
    {
      hide Decide, Tracked, Dispatching, Valid, Noticed, DispatchKeeps, Matches, Pool, Manager.Holds, Answered, TookOne;
      AnsweredPlain(told, choice, script);
      Keyed(choice, DecideLogin(Noticed(model), sess.handle, choice.auth));
      var objection := match choice.auth
        case NotConfigured => Some(Misconfigured)
        case BadCredentials => Some(MalformedFrame)
        case Rejected => Some(AuthRejected)
        case Granted(id, _) => if id in sessions then Some(AuthRejected) else None;
      if objection.Some? {
        Refuse(sess, objection.value, choice);
      } else {
        Welcome(sess, choice.auth.id, choice.auth.token, choice, script);
      }
    }

    /** OnAuth runs before the response is sent. */
    method Welcome(sess: SessionObject, id: PlayerId, tok: Token, choice: Choice, script: Script)
      requires Dispatching(choice, LogIn(sess.handle, id, tok)) && Known(sess) && Subscribed()
      modifies this`sessions, this`queue, this`model, this`trace, this`told, sess`id, sess`token, sess`auth
      modifies conns`outbox, conns`fired
      modifies manager, manager.topicRepr, manager.playerRepr
      ensures Valid() && Subscribed() && old(trace) <= trace && model.agenda == Done && TookOne(old(model), model)
      ensures sessions == old(sessions)[id := sess] && sess.id == id && sess.token == tok && sess.auth == AwaitingUdp
      ensures Renewed()
      ensures told == Answered(old(told), choice, true, script)
      ensures SentLast(sess, LoginResponse(true, id, tok))
    {
      hide Decide, Tracked, Dispatching, Valid, Noticed, DispatchKeeps, Matches, Pool, Manager.Holds;
      Admit(sess, id, tok, choice);
      ghost var m := model;
      Greet(sess, id, tok, script);
      hide TookOne;
      TookThen(old(model), m, model);
    }

    method Greet(sess: SessionObject, id: PlayerId, tok: Token, script: Script)
      requires Valid() && Known(sess) && Subscribed()
      requires model.agenda == Then(Run(OnAuth(sess.handle, id, tok)),
                                   Then(Push(sess.handle, LoginResponse(true, id, tok)), Done))
      modifies this`queue, this`model, this`trace, this`told, conns`outbox, conns`fired
      modifies manager, manager.topicRepr, manager.playerRepr
      ensures Valid() && Subscribed() && old(trace) <= trace && model.agenda == Done
      ensures SameTick(old(model), model.(subs := old(model.subs), calls := old(model.calls)))
      ensures Renewed()
      ensures told == old(told) + Body(script)
      ensures SentLast(sess, LoginResponse(true, id, tok))
    {
      hide Tracked, Valid, Matches, Pool, Manager.Holds;
      RunCallback(script);
      PushTCP(sess, LoginResponse(true, id, tok));
    }

    method EnlistAddress(sess: SessionObject, a: Addr, ghost u: map<Addr, Handle>)
      requires Pool() && Known(sess) && ListsUdp(u)
      modifies this`udp
      ensures udp == old(udp)[a := sess] && Pool() && ListsUdp(u[a := sess.handle])
    {
      udp := udp[a := sess];
    }

    method SetPaired(sess: SessionObject, a: Addr, clock: int, ghost cs: seq<Session>)
      requires Pool() && Known(sess) && ShowsAll(cs)
      modifies sess`addr, sess`auth, sess`lastSeen
      ensures sess.addr == Some(a) && sess.auth == Ready && sess.lastSeen == clock
      ensures ShowsAll(cs[sess.handle := cs[sess.handle].(addr := Some(a), auth := Ready, lastSeen := clock)])
    {
      sess.addr, sess.auth, sess.lastSeen := Some(a), Ready, clock;
    }

    method PairUp(sess: SessionObject, a: Addr, tok: Token, choice: Choice)
      requires Dispatching(choice, Pair(sess.handle, a, tok, choice.clock)) && Known(sess)
      modifies this`udp, this`model, this`trace, this`told, sess`addr, sess`auth, sess`lastSeen
      ensures Valid() && trace == old(trace) + [Dispatch(choice)] && udp == old(udp)[a := sess]
      ensures sess.addr == Some(a) && sess.auth == Ready && sess.lastSeen == choice.clock
      ensures model.agenda == Then(Run(OnConnect(sess.handle, tok)), Done)
      ensures TookOne(old(model), model) && model.subs == old(model.subs)
      ensures told == old(told) + [Dispatch(choice)]
    {
      hide Decide, Act, DispatchKeeps, Tracked, ListsSessions, ListsUdp, Names, Noticed, ShowsAll, Pool;
      TakenOff(model);
      Sized(choice, Pair(sess.handle, a, tok, choice.clock), sess);
      PairAct(Noticed(model), sess.handle, a, tok, choice.clock);
      SetPaired(sess, a, choice.clock, Noticed(model).conns);
      EnlistAddress(sess, a, Noticed(model).udp);
      Commit(choice, Pair(sess.handle, a, tok, choice.clock));
    }

    lemma Keyed(choice: Choice, action: Action)
      requires Dispatching(choice, action)
      ensures sessions.Keys == Noticed(model).sessions.Keys
    {
    }

    lemma Looked(choice: Choice, action: Action, p: PlayerId)
      requires Dispatching(choice, action) && p in sessions
      ensures p in Noticed(model).sessions && Known(sessions[p]) && sessions[p].handle == Noticed(model).sessions[p]
      ensures sessions[p].handle < |Noticed(model).conns| && sessions[p].Shows(At(Noticed(model), sessions[p].handle))
    {
    }

    /** A handshake that names a listed session awaiting it, and has its token. */
    predicate Fits(player: PlayerId, tok: Token)
      reads this, sessions.Values
    {
      player in sessions && sessions[player].token == tok && sessions[player].auth == AwaitingUdp
    }

    /** handleUDPHandshake. */
    method HandleHandshake(a: Addr, player: PlayerId, tok: Token, choice: Choice, script: Script)
      requires model.batch != []
      requires Dispatching(choice, DecidePairing(Noticed(model), a, player, tok, choice.clock)) && Subscribed()
      modifies this`udp, this`queue, this`model, this`trace, this`told, conns`addr, conns`auth, conns`lastSeen
      modifies conns`outbox, conns`fired
      modifies manager, manager.topicRepr, manager.playerRepr
      ensures Valid() && Subscribed() && old(trace) <= trace && model.agenda == Done && TookOne(old(model), model)
      ensures Renewed()
      ensures told == Answered(old(told), choice,
                               DecidePairing(Noticed(old(model)), a, player, tok, choice.clock).Pair?, script)
      ensures told == Answered(old(told), choice, old(Fits(player, tok)), script)
      ensures if old(Fits(player, tok)) then
                var sess := sessions[player];
                udp == old(udp)[a := sess] && sess.auth == Ready && sess.addr == Some(a)
                    && sess.lastSeen == choice.clock
              else udp == old(udp) && queue == old(queue)
    {
      hide Decide, Tracked, Dispatching, Valid, Noticed, DispatchKeeps, Matches, Pool, Manager.Holds, Answered, TookOne;
      AnsweredPlain(told, choice, script);
      Judged(a, player, tok, choice);
      hide DecidePairing;
      if Fits(player, tok) {
        Connect(sessions[player], a, tok, choice, script);
      } else {
        Settle(choice, Ignore);
      }
    }

    /** What the protocol decides about a handshake, in terms of the objects. */
    lemma Judged(a: Addr, player: PlayerId, tok: Token, choice: Choice)
      requires model.batch != []
      requires Dispatching(choice, DecidePairing(Noticed(model), a, player, tok, choice.clock))
      ensures DecidePairing(Noticed(model), a, player, tok, choice.clock)
              == if Fits(player, tok)
                 then Pair(sessions[player].handle, a, tok, choice.clock) else Ignore
      ensures player in sessions ==> Known(sessions[player]) && sessions[player] in conns
    {
      hide Decide, Tracked, Noticed;
      if player in sessions {
        Looked(choice, DecidePairing(Noticed(model), a, player, tok, choice.clock), player);
      }
    }

    method Connect(sess: SessionObject, a: Addr, tok: Token, choice: Choice, script: Script)
      requires Dispatching(choice, Pair(sess.handle, a, tok, choice.clock)) && Known(sess) && Subscribed()
      modifies this`udp, this`queue, this`model, this`trace, this`told, sess`addr, sess`auth, sess`lastSeen
      modifies conns`outbox, conns`fired
      modifies manager, manager.topicRepr, manager.playerRepr
      ensures Valid() && Subscribed() && old(trace) <= trace && model.agenda == Done && TookOne(old(model), model)
      ensures udp == old(udp)[a := sess] && sess.addr == Some(a) && sess.auth == Ready && sess.lastSeen == choice.clock
      ensures Renewed()
      ensures told == Answered(old(told), choice, true, script)
    {
      hide Decide, Tracked, Dispatching, Valid, Noticed, DispatchKeeps, Matches, Pool, Manager.Holds;
      PairUp(sess, a, tok, choice);
      RunCallback(script);
    }

    /** handlePong. */
    method HandlePong(sess: SessionObject, choice: Choice)
      requires Dispatching(choice, Refresh(sess.handle)) && Known(sess)
      modifies this`model, this`trace, this`told, sess`lastSeen
      ensures Valid() && trace == old(trace) + [Dispatch(choice)] && sess.lastSeen == now && model.agenda == Done
      ensures TookOne(old(model), model)
      ensures model.subs == old(model.subs)
      ensures told == old(told) + [Dispatch(choice)]
    {
      hide Decide, Act, DispatchKeeps, Tracked, ListsSessions, ListsUdp, Names, Noticed;
      TakenOff(model);
      LightAct(Noticed(model), Refresh(sess.handle));
      sess.lastSeen := now;
      Commit(choice, Refresh(sess.handle));
    }

    /** dispatchUserMessage and invokeClientHandler: a panicking handler's session is disconnected. */
    method DispatchUserMessage(sess: SessionObject, choice: Choice, script: Script)
      requires Dispatching(choice, if choice.found then CallClient(sess.handle) else Ignore) && Known(sess)
      requires Subscribed()
      modifies this`queue, this`model, this`trace, this`told, conns`outbox, conns`fired
      modifies manager, manager.topicRepr, manager.playerRepr
      ensures Valid() && Subscribed() && old(trace) <= trace && model.agenda == Done && TookOne(old(model), model)
      ensures choice.found && script.outcome == Panicked ==> sess.fired
      ensures Renewed()
      ensures told == Answered(old(told), choice, choice.found, script)
    {
      hide Decide, Tracked, Dispatching, Valid, Noticed, DispatchKeeps, Matches, Pool, Manager.Holds;
      Settle(choice, if choice.found then CallClient(sess.handle) else Ignore);
      if choice.found {
        RunCallback(script);
        if script.outcome == Panicked {
          ScheduleDisconnect(sess, HandlerPanic);
        }
      }
    }

    method Register(sess: SessionObject, cid: nat, choice: Choice)
      requires Dispatching(choice, Request(sess.handle, cid, choice.found)) && Known(sess)
      modifies this`model, this`trace, this`told
      ensures Valid() && trace == old(trace) + [Dispatch(choice)] && TookOne(old(model), model)
      ensures model.subs == old(model.subs)
      ensures model.agenda == Then(if choice.found then Run(RpcHandler(sess.handle, cid))
                                   else Push(sess.handle, RpcResponse(cid, false)), Done)
      ensures told == old(told) + [Dispatch(choice)]
    {
      hide Decide, Act, DispatchKeeps, Tracked, ListsSessions, ListsUdp, Names, Noticed;
      TakenOff(model);
      RequestAct(Noticed(model), sess.handle, cid, choice.found);
      Commit(choice, Request(sess.handle, cid, choice.found));
    }

    /** dispatchRPC: one response whatever happens, and a panic is only an error response. */
    method DispatchRPC(sess: SessionObject, cid: nat, choice: Choice, script: Script)
      requires Dispatching(choice, Request(sess.handle, cid, choice.found)) && Known(sess) && Subscribed()
      modifies this`queue, this`model, this`trace, this`told, conns`outbox, conns`fired
      modifies manager, manager.topicRepr, manager.playerRepr
      ensures Valid() && Subscribed() && old(trace) <= trace && model.agenda == Done && TookOne(old(model), model)
      ensures Renewed()
      ensures told == Answered(old(told), choice, choice.found, script)
      ensures SentLast(sess, RpcResponse(cid, choice.found && script.outcome == Returned))
    {
      hide Decide, Tracked, Dispatching, Valid, Noticed, DispatchKeeps, Matches, Pool, Manager.Holds;
      Register(sess, cid, choice);
      if choice.found {
        RunCallback(script);
        PushTCP(sess, RpcResponse(cid, script.outcome == Returned));
      } else {
        PushTCP(sess, RpcResponse(cid, false));
      }
    }

    // ---------------------------------------------------------------- routing

    method HandleMalformed(sess: SessionObject, choice: Choice)
      requires Dispatching(choice, Complain(sess.handle)) && Known(sess)
      modifies this`queue, this`model, this`trace, this`told, sess`fired
      ensures Valid() && old(trace) <= trace && model.agenda == Done && TookOne(old(model), model)
      ensures model.subs == old(model.subs)
      ensures sess.fired
      ensures told == old(told) + [Dispatch(choice)]
    {
      hide Decide, Tracked, Dispatching, Valid, Noticed, DispatchKeeps, Matches, Pool, Manager.Holds;
      Settle(choice, Complain(sess.handle));
      ScheduleDisconnect(sess, MalformedFrame);
    }

    lemma Seen(choice: Choice, action: Action, sess: SessionObject)
      requires Dispatching(choice, action) && Known(sess)
      ensures sess.handle < |Noticed(model).conns| && sess.Shows(At(Noticed(model), sess.handle))
      ensures sess in conns
    {
    }

    /** What becomes of a session whose TCP frame counts, by the frame and the session's state. */
    twostate predicate Routed(sess: SessionObject, frame: ClientFrame, choice: Choice, script: Script)
      reads this, sess
    {
      match frame
      case Malformed => sess.fired
      case Login(_) =>
        if old(sess.auth) != PreLogin then sessions == old(sessions) && sess.outbox == old(sess.outbox)
        else if choice.auth.Granted? && choice.auth.id !in old(sessions) then
          && sessions == old(sessions)[choice.auth.id := sess] && sess.auth == AwaitingUdp
          && SentLast(sess, LoginResponse(true, choice.auth.id, choice.auth.token))
        else
          && sessions == old(sessions) && sess.fired && sess.auth == PreLogin
          && sess.outbox == if sess.attached && |old(sess.outbox)| < cfg.sendDepth
                            then old(sess.outbox) + [LoginResponse(false, 0, "")] else old(sess.outbox)
      case Pong => sess.lastSeen == now
      case GamePayload(_) => old(sess.auth) == Ready && choice.found && script.outcome == Panicked ==> sess.fired
      case RpcRequest(cid, _) =>
        if old(sess.auth) == Ready then SentLast(sess, RpcResponse(cid, choice.found && script.outcome == Returned))
        else sess.outbox == old(sess.outbox)
      case _ => sessions == old(sessions) && sess.fired == old(sess.fired) && sess.outbox == old(sess.outbox)
    }

    /** Whether a TCP frame that counts has user code run. */
    predicate RunsCode(sess: SessionObject, frame: ClientFrame, choice: Choice)
      reads this, sess
    {
      match frame
      case Login(_) => sess.auth == PreLogin && choice.auth.Granted? && choice.auth.id !in sessions
      case GamePayload(_) => sess.auth == Ready && choice.found
      case RpcRequest(_, _) => sess.auth == Ready && choice.found
      case _ => false
    }

    lemma RunsCodeWhenInvoked(sess: SessionObject, frame: ClientFrame, choice: Choice)
      requires model.batch != []
      requires Dispatching(choice, DecideTcp(Noticed(model), sess.handle, frame, choice)) && Known(sess)
      ensures Invoked(DecideTcp(Noticed(model), sess.handle, frame, choice)).Some? <==> RunsCode(sess, frame, choice)
    {
      hide Tracked, Noticed, DispatchKeeps, Pool, Matches, Decide, Dispatching;
      Seen(choice, DecideTcp(Noticed(model), sess.handle, frame, choice), sess);
      Keyed(choice, DecideTcp(Noticed(model), sess.handle, frame, choice));
    }

    /** The body of a TCP frame. */
    method RouteTcp(sess: SessionObject, frame: ClientFrame, choice: Choice, script: Script)
      requires model.batch != []
      requires Dispatching(choice, DecideTcp(Noticed(model), sess.handle, frame, choice)) && Known(sess) && Subscribed()
      modifies this`sessions, this`udp, this`queue, this`model, this`trace, this`told, conns
      modifies manager, manager.topicRepr, manager.playerRepr
      ensures Valid() && Subscribed() && old(trace) <= trace && model.agenda == Done && TookOne(old(model), model)
      ensures Renewed()
      ensures told == Answered(old(told), choice,
                               Invoked(DecideTcp(Noticed(old(model)), sess.handle, frame, choice)).Some?, script)
      ensures told == Answered(old(told), choice, old(RunsCode(sess, frame, choice)), script)
      ensures Routed(sess, frame, choice, script)
    {
      hide Decide, Tracked, Dispatching, Valid, Noticed, DispatchKeeps, Matches, Pool, Manager.Holds, Answered, TookOne;
      AnsweredPlain(told, choice, script);
      ghost var action := DecideTcp(Noticed(model), sess.handle, frame, choice);
      Seen(choice, action, sess);
      RunsCodeWhenInvoked(sess, frame, choice);
      if frame.Malformed? {
        HandleMalformed(sess, choice);
      } else if frame.Login? && sess.auth == PreLogin {
        HandleLogin(sess, choice, script);
      } else if frame.Pong? {
        HandlePong(sess, choice);
      } else if frame.GamePayload? && sess.auth == Ready {
        DispatchUserMessage(sess, choice, script);
      } else if frame.RpcRequest? && sess.auth == Ready {
        DispatchRPC(sess, frame.cid, choice, script);
      } else {
        Settle(choice, action);
      }
    }

    /** A frame of a session that has an ID but is listed under it no more is dropped. */
    method HandleTcp(sess: SessionObject, payload: Bytes, choice: Choice, script: Script)
      requires model.batch != []
      requires Dispatching(choice, Decide(cfg, Noticed(model), TcpMessage(sess.handle, payload), choice))
      requires Known(sess) && Subscribed()
      modifies this`sessions, this`udp, this`queue, this`model, this`trace, this`told, conns
      modifies manager, manager.topicRepr, manager.playerRepr
      ensures Valid() && Subscribed() && old(trace) <= trace && model.agenda == Done && TookOne(old(model), model)
      ensures Renewed()
      ensures told == Answered(old(told), choice,
                               Invoked(Decide(cfg, Noticed(old(model)), TcpMessage(sess.handle, payload),
                                              choice)).Some?, script)
      ensures old(sess.id != 0 && sess.id !in sessions) ==>
                && sessions == old(sessions) && udp == old(udp) && queue == old(queue)
                && told == old(told) + [Dispatch(choice)]
                && forall k :: 0 <= k < |conns| ==> unchanged(conns[k])
      ensures old(sess.id == 0 || sess.id in sessions) ==>
                && Routed(sess, cfg.decode(payload), choice, script)
                && told == Answered(old(told), choice, old(RunsCode(sess, cfg.decode(payload), choice)), script)
    {
      hide Tracked, Dispatching, Valid, Noticed, DispatchKeeps, Matches, Pool, Manager.Holds, DecideTcp;
      hide Answered, TookOne;
      AnsweredPlain(told, choice, script);
      ghost var action := Decide(cfg, Noticed(model), TcpMessage(sess.handle, payload), choice);
      Seen(choice, action, sess);
      Keyed(choice, action);
      if sess.id != 0 && sess.id !in sessions {
        Settle(choice, action);
      } else {
        RouteTcp(sess, cfg.decode(payload), choice, script);
      }
    }

    /** What a datagram does, by its kind and by what the UDP table has for its source. */
    twostate predicate Delivered(a: Addr, frame: ClientFrame, choice: Choice, script: Script)
      reads this, sessions.Values, udp.Values
    {
      match frame
      case UdpHandshake(player, tok) =>
        if old(Fits(player, tok)) then
          && player in sessions && udp == old(udp)[a := sessions[player]]
          && sessions[player].auth == Ready && sessions[player].addr == Some(a)
        else udp == old(udp) && queue == old(queue)
      case GamePayload(_) =>
        udp == old(udp) && (a in udp && choice.found && script.outcome == Panicked ==> udp[a].fired)
      case _ => udp == old(udp) && queue == old(queue)
    }

    /** Whether a datagram has user code run. */
    predicate DatagramRunsCode(a: Addr, frame: ClientFrame, choice: Choice)
      reads this, sessions.Values
    {
      match frame
      case UdpHandshake(player, tok) => Fits(player, tok)
      case GamePayload(_) => a in udp && choice.found
      case _ => false
    }

    lemma DatagramRunsCodeWhenInvoked(a: Addr, payload: Bytes, choice: Choice)
      requires model.batch != []
      requires Dispatching(choice, Decide(cfg, Noticed(model), UdpMessage(a, payload), choice))
      ensures Invoked(Decide(cfg, Noticed(model), UdpMessage(a, payload), choice)).Some?
              <==> DatagramRunsCode(a, cfg.decode(payload), choice)
    {
      hide Tracked, Noticed, DispatchKeeps, Pool, Matches, Dispatching, DecidePairing;
      Paired(choice, Decide(cfg, Noticed(model), UdpMessage(a, payload), choice), a);
      PairedIsReady(choice, Decide(cfg, Noticed(model), UdpMessage(a, payload), choice), a);
      match cfg.decode(payload) {
        case UdpHandshake(player, tok) => Judged(a, player, tok, choice);
        case _ =>
      }
    }

    /** The body of a datagram from a paired address. */
    method RouteUdp(sess: SessionObject, a: Addr, frame: ClientFrame, choice: Choice, script: Script)
      requires model.batch != [] && !frame.UdpHandshake?
      requires Dispatching(choice, DecideUdp(Noticed(model), a, Some(sess.handle), frame, choice))
      requires Known(sess) && Subscribed() && sess.auth == Ready
      modifies this`queue, this`model, this`trace, this`told, conns`outbox, conns`fired, sess`lastSeen
      modifies manager, manager.topicRepr, manager.playerRepr
      ensures Valid() && Subscribed() && old(trace) <= trace && model.agenda == Done && TookOne(old(model), model)
      ensures Renewed()
      ensures told == Answered(old(told), choice, frame.GamePayload? && choice.found, script)
      ensures frame.GamePayload? && choice.found && script.outcome == Panicked ==> sess.fired
      ensures !frame.GamePayload? ==> queue == old(queue)
    {
      hide Decide, Tracked, Dispatching, Valid, Noticed, DispatchKeeps, Matches, Pool, Manager.Holds, Answered, TookOne;
      AnsweredPlain(told, choice, script);
      Seen(choice, DecideUdp(Noticed(model), a, Some(sess.handle), frame, choice), sess);
      if frame.Pong? {
        HandlePong(sess, choice);
      } else if frame.GamePayload? && sess.auth == Ready {
        DispatchUserMessage(sess, choice, script);
      } else {
        Settle(choice, Ignore);
      }
    }

    /** A datagram belongs to the session paired with its source address, if there is one. */
    method HandleUdp(a: Addr, payload: Bytes, choice: Choice, script: Script)
      requires model.batch != []
      requires Dispatching(choice, Decide(cfg, Noticed(model), UdpMessage(a, payload), choice)) && Subscribed()
      modifies this`udp, this`queue, this`model, this`trace, this`told, conns
      modifies manager, manager.topicRepr, manager.playerRepr
      ensures Valid() && Subscribed() && old(trace) <= trace && model.agenda == Done && TookOne(old(model), model)
      ensures Renewed()
      ensures told == Answered(old(told), choice,
                               Invoked(Decide(cfg, Noticed(old(model)), UdpMessage(a, payload), choice)).Some?, script)
      ensures told == Answered(old(told), choice, old(DatagramRunsCode(a, cfg.decode(payload), choice)), script)
      ensures Delivered(a, cfg.decode(payload), choice, script)
    {
      hide Tracked, Dispatching, Valid, Noticed, DispatchKeeps, Matches, Pool, Manager.Holds, DecidePairing, DecideUdp;
      hide Answered, TookOne, Invoked;
      AnsweredPlain(told, choice, script);
      var frame := cfg.decode(payload);
      ghost var action := Decide(cfg, Noticed(model), UdpMessage(a, payload), choice);
      Paired(choice, action, a);
      PairedIsReady(choice, action, a);
      DatagramRunsCodeWhenInvoked(a, payload, choice);
      DatagramDecision(a, payload, choice);
      if frame.UdpHandshake? {
        HandleHandshake(a, frame.player, frame.token, choice, script);
      } else if a in udp {
        RouteUdp(udp[a], a, frame, choice, script);
      } else {
        Settle(choice, Ignore);
      }
    }

    /** What the protocol decides about a datagram, in terms of the objects. */
    lemma DatagramDecision(a: Addr, payload: Bytes, choice: Choice)
      requires model.batch != []
      requires Dispatching(choice, Decide(cfg, Noticed(model), UdpMessage(a, payload), choice))
      ensures Decide(cfg, Noticed(model), UdpMessage(a, payload), choice)
              == match cfg.decode(payload)
                 case UdpHandshake(player, tok) => DecidePairing(Noticed(model), a, player, tok, choice.clock)
                 case frame =>
                   if a in udp then DecideUdp(Noticed(model), a, Some(udp[a].handle), frame, choice) else Ignore
    {
      hide Tracked, Dispatching, Noticed, DispatchKeeps, Matches, Pool, DecidePairing;
      Paired(choice, Decide(cfg, Noticed(model), UdpMessage(a, payload), choice), a);
    }

    lemma Paired(choice: Choice, action: Action, a: Addr)
      requires Dispatching(choice, action)
      ensures a in udp <==> a in Noticed(model).udp
      ensures a in udp ==> Known(udp[a]) && udp[a] in conns && udp[a].handle == Noticed(model).udp[a]
                           && udp[a].Shows(At(Noticed(model), udp[a].handle))
    {
    }

    /** An address that the UDP table has leads to a ready session. */
    lemma PairedIsReady(choice: Choice, action: Action, a: Addr)
      requires Dispatching(choice, action)
      ensures a in udp ==> udp[a].auth == Ready
    {
      Paired(choice, action, a);
      UdpEntriesAreListed(cfg, trace);
      Notices(model);
      hide Reached, Noticed, Matches, Pool;
      assert a in model.udp ==> LeadsToListed(model, a);
    }

    method NextEvent() returns (e: Queued)
      requires Pool() && Matches(model) && batch != []
      modifies this`batch
      ensures e == old(batch[0]) && batch == old(batch[1..]) && model.batch != [] && Named(e) == model.batch[0]
      ensures !e.FromUdp? ==> Known(e.sess)
      ensures Pool() && Matches(model.(batch := model.batch[1..]))
    {
      hide ListsSessions, ListsUdp, ShowsAll;
      e := batch[0];
      batch := batch[1..];
    }

    /** A datagram shows its sender to be alive, whatever it holds. */
    method NoteAlive(e: Queued)
      requires Pool() && model.batch != [] && Matches(model.(batch := model.batch[1..])) && Named(e) == model.batch[0]
      modifies conns`lastSeen
      ensures Pool() && Matches(Noticed(model))
    {
      hide Noticed, ListsSessions, Names, ShowsAll;
      Notices(model);
      if e.FromUdp? && e.addr in udp {
        Placing(udp[e.addr], model.conns);
        SetSeen(udp[e.addr], model.conns);
      }
    }

    lemma Placing(sess: SessionObject, cs: seq<Session>)
      requires Known(sess) && ShowsAll(cs)
      ensures sess.handle < |cs| && sess in conns
    {
    }

    method SetSeen(sess: SessionObject, ghost cs: seq<Session>)
      requires Pool() && Known(sess) && ShowsAll(cs) && sess.handle < |cs|
      modifies sess`lastSeen
      ensures sess.lastSeen == now && ShowsAll(cs[sess.handle := cs[sess.handle].(lastSeen := now)])
    {
      sess.lastSeen := now;
    }

    method TakeEvent(ghost choice: Choice) returns (e: Queued)
      requires Valid() && batch != [] && model.phase == Handling && model.agenda == Done
      modifies this`batch, conns`lastSeen
      ensures e == old(batch[0]) && batch == old(batch[1..]) && model.batch != [] && Named(e) == model.batch[0]
      ensures !e.FromUdp? ==> Known(e.sess)
      ensures Dispatching(choice, Decide(cfg, Noticed(model), model.batch[0], choice))
    {
      hide Decide, Tracked, Noticed, Matches, Pool;
      e := NextEvent();
      NoteAlive(e);
    }

    method HandleClosing(sess: SessionObject, why: Reason, choice: Choice, script: Script)
      requires model.batch != []
      requires Dispatching(choice, Decide(cfg, Noticed(model), Disconnect(sess.handle, why), choice))
      requires Known(sess) && Subscribed()
      modifies this`sessions, this`udp, this`queue, this`model, this`trace, this`told, conns
      modifies manager, manager.topicRepr, manager.playerRepr
      ensures Valid() && Subscribed() && old(trace) <= trace && model.agenda == Done && TookOne(old(model), model)
      ensures Renewed()
      ensures told == Answered(old(told), choice,
                               Invoked(Decide(cfg, Noticed(old(model)), Disconnect(sess.handle, why),
                                              choice)).Some?, script)
    {
      hide Decide, Tracked, Dispatching, Valid, Noticed, DispatchKeeps, Matches, Pool, Manager.Holds, Answered, TookOne;
      Closes(cfg, Noticed(model), sess.handle, why, choice);
      Seen(choice, TearDown(sess.handle, why), sess);
      CleanupSession(sess, why, choice, script);
    }

    /** handleEvent. */
    method HandleEvent(choice: Choice, script: Script)
      requires Valid() && Subscribed() && batch != [] && model.phase == Handling && model.agenda == Done
      modifies this`batch
      modifies this`sessions, this`udp, this`queue, this`model, this`trace, this`told, conns
      modifies manager, manager.topicRepr, manager.playerRepr
      ensures Valid() && Subscribed() && old(trace) <= trace && model.agenda == Done && TookOne(old(model), model)
      ensures Renewed()
      ensures batch == old(batch[1..])
      ensures told == Answered(old(told), choice,
                               Invoked(Decide(cfg, Noticed(old(model)), old(model).batch[0], choice)).Some?, script)
    {
      hide Decide, Tracked, Dispatching, Valid, Noticed, DispatchKeeps, Matches, Pool, Manager.Holds, Answered, TookOne;
      var e := TakeEvent(choice);
      match e {
        case Closing(sess, why) => HandleClosing(sess, why, choice, script);
        case FromTcp(sess, payload) => HandleTcp(sess, payload, choice, script);
        case FromUdp(a, payload) => HandleUdp(a, payload, choice, script);
      }
    }

    // ---------------------------------------------------------------- one tick

    method DrainOne()
      requires Valid() && model.phase.Draining? && |model.batch| < model.phase.size && queue != []
      modifies this`queue, this`batch, this`model, this`trace
      ensures Valid() && trace == old(trace) + [DrainTake]
      ensures batch == old(batch) + [old(queue[0])] && queue == old(queue[1..])
      ensures model.batch + model.queue == old(model.batch + model.queue) && SameButDrain(old(model), model)
    {
      hide Next, Tracked, ListsSessions, ListsUdp, ShowsAll;
      DrainTakeStep(cfg, model);
      batch, queue := batch + [queue[0]], queue[1..];
      Advance(DrainTake);
    }

    method BeginTick(t: int)
      requires Valid() && model.phase == Idle
      modifies this`now, this`model, this`trace
      ensures Valid() && trace == old(trace) + [TickStart(t)] && now == t && model.queue == old(model.queue)
      ensures model.phase == Draining(|queue|) && SameButDrain(old(model), model.(phase := Idle))
    {
      Lengths();
      hide Next, Tracked, ListsSessions, ListsUdp, ShowsAll, Names;
      TickStartStep(cfg, model, t);
      now := t;
      Advance(TickStart(t));
    }

    /** drain: as many events as the channel holds at the start. */
    method Drain(t: int)
      requires Valid() && model.phase == Idle && model.agenda == Done && batch == []
      modifies this`now, this`queue, this`batch, this`model, this`trace
      ensures Valid() && old(trace) <= trace && now == t && batch == old(queue) && queue == []
      ensures model.batch == old(model.queue) && model.phase == Handling && model.agenda == Done
      ensures model.subs == old(model.subs) && model.hist.handled == old(model.hist.handled)
    {
      hide Next, Tracked, Matches, Pool, Valid;
      Lengths();
      BeginTick(t);
      Lengths();
      var n := |queue|;
      while |batch| < n && queue != []
        invariant Valid() && old(trace) <= trace && model.phase == Draining(n) && |model.batch| == |batch|
        invariant batch + queue == old(queue) && model.batch + model.queue == old(model.queue)
        invariant SameButDrain(old(model), model.(phase := Idle)) && now == t
        decreases |queue|
      {
        DrainOne();
        Lengths();
      }
      Lengths();
      assert |old(queue)| == n && queue == [] && model.queue == [];
      assert batch + [] == batch && model.batch + [] == model.batch;
      DrainDoneStep(cfg, model);
      Think(DrainDone);
    }

    lemma Lengths()
      requires Valid()
      ensures |model.batch| == |batch| && |model.queue| == |queue|
    {
    }

    /** The cadence of pings is kept by the time of the latest batch. */
    method BeginPing()
      requires Valid() && model.phase == Handling && model.agenda == Done && batch == []
      modifies this`lastBatch, this`model, this`trace
      ensures Valid() && trace == old(trace) + [StartSweep]
      ensures lastBatch == if PingDue(cfg, old(lastBatch), now) then Some(now) else old(lastBatch)
      ensures model.agenda == Then(Op.Sweep(sessions.Keys, now - cfg.Timeout()), Then(Run(OnTick), Done))
      ensures model.phase == Finishing && model.subs == old(model.subs) && model.hist.handled == old(model.hist.handled)
    {
      hide Next, Tracked, ListsUdp, ShowsAll;
      StartSweepStep(cfg, model);
      if PingDue(cfg, lastBatch, now) {
        lastBatch := Some(now);
      }
      Advance(StartSweep);
    }

    /** A listed session that has been silent for too long is disconnected. */
    predicate Checked(p: PlayerId, cutoff: int)
      reads this`sessions, if p in sessions then {sessions[p]} else {}
    {
      p in sessions ==>
        var c := sessions[p];
        c.auth == Ready && c.addr.Some? && c.lastSeen < cutoff ==> c.fired
    }

    /** One session of the sweep. */
    method CheckSilence(p: PlayerId, cutoff: int, ghost todo: set<PlayerId>)
      requires Valid() && p in todo && model.agenda.Then? && model.agenda.op == Op.Sweep(todo, cutoff)
      modifies this`queue, this`model, this`trace, conns`fired
      ensures Valid() && old(trace) <= trace && SameTick(old(model), model)
      ensures model.agenda == Then(Op.Sweep(todo - {p}, cutoff), old(model.agenda).rest)
      ensures Checked(p, cutoff) && forall q :: old(Checked(q, cutoff)) ==> Checked(q, cutoff)
    {
      hide Next, Tracked, Matches, Pool, Valid;
      PickStep(cfg, model, p);
      Tabled();
      var silent := false;
      if p in sessions {
        Listed(p);
        var sess := sessions[p];
        silent := sess.auth == Ready && sess.addr.Some? && sess.lastSeen < cutoff;
      }
      Think(Pick(p));
      if silent {
        ScheduleDisconnect(sessions[p], PingTimeout);
      }
    }

    /** runPingTick: every ready session that has been silent for longer than the timeout is
        disconnected; the loop visits the sessions in any order. */
    method RunPingTick()
      requires Valid() && model.phase == Handling && model.agenda == Done && batch == []
      modifies this`lastBatch, this`queue, this`model, this`trace, conns`fired
      ensures Valid() && old(trace) <= trace && model.agenda == Then(Run(OnTick), Done) && model.phase == Finishing
      ensures lastBatch == if PingDue(cfg, old(lastBatch), now) then Some(now) else old(lastBatch)
      ensures model.subs == old(model.subs) && model.hist.handled == old(model.hist.handled)
      ensures forall p :: p in sessions ==> Checked(p, now - cfg.Timeout())
    {
      hide Next, Tracked, Matches, Pool, Valid;
      BeginPing();
      var cutoff := now - cfg.Timeout();
      var todo := sessions.Keys;
      while todo != {}
        invariant Valid() && old(trace) <= trace && todo <= sessions.Keys
        invariant lastBatch == if PingDue(cfg, old(lastBatch), now) then Some(now) else old(lastBatch)
        invariant model.agenda == Then(Op.Sweep(todo, cutoff), Then(Run(OnTick), Done)) && model.phase == Finishing
        invariant model.subs == old(model.subs) && model.hist.handled == old(model.hist.handled)
        invariant forall p :: p in sessions && p !in todo ==> Checked(p, cutoff)
        decreases todo
      {
        var p :| p in todo;
        CheckSilence(p, cutoff, todo);
        todo := todo - {p};
      }
      LoopEnds(cfg, model);
      Think(Exec);
    }

    method HandleNext(choice: Choice, script: Script) returns (ghost invokes: bool)
      requires Valid() && Subscribed() && batch != [] && model.phase == Handling && model.agenda == Done
      modifies this`sessions, this`udp, this`queue, this`batch, this`model, this`trace, this`told, conns
      modifies manager, manager.topicRepr, manager.playerRepr
      ensures Valid() && Subscribed() && old(trace) <= trace && model.agenda == Done && model.phase == Handling
      ensures batch == old(batch[1..])
      ensures model.hist.handled + model.batch == old(model.hist.handled) + old(model.batch)
      ensures Renewed()
      ensures invokes == Invoked(Decide(cfg, Noticed(old(model)), old(model).batch[0], choice)).Some?
      ensures told == Answered(old(told), choice, invokes, script)
    {
      hide Next, Tracked, Matches, Pool, Valid, Manager.Holds, Decide, Noticed, Answered;
      Lengths();
      assert model.batch == [model.batch[0]] + model.batch[1..];
      invokes := Invoked(Decide(cfg, Noticed(model), model.batch[0], choice)).Some?;
      HandleEvent(choice, script);
      assert old(model.hist.handled) + ([old(model.batch)[0]] + model.batch) == model.hist.handled + model.batch;
    }

    /** The events of the batch, one after the other. */
    method HandleBatch(choices: nat -> Choice, scripts: nat -> Script) returns (ghost invoked: seq<bool>)
      requires Valid() && Subscribed() && model.phase == Handling && model.agenda == Done
      modifies this`sessions, this`udp, this`queue, this`batch, this`model, this`trace, this`told, conns
      modifies manager, manager.topicRepr, manager.playerRepr
      ensures Valid() && Subscribed() && old(trace) <= trace && model.agenda == Done && model.phase == Handling
      ensures batch == [] && model.hist.handled == old(model.hist.handled) + old(model.batch)
      ensures Renewed()
      ensures |invoked| == |old(batch)| && told == AllAnswered(old(told), choices, invoked, scripts)
    {
      hide Next, Tracked, Matches, Pool, Valid, Manager.Holds, Decide, Noticed, Answered, AllAnswered;
      var n := 0;
      invoked := [];
      AnsweredNone(told, choices, scripts);
      while batch != []
        invariant |invoked| == n && n + |batch| == |old(batch)|
        invariant told == AllAnswered(old(told), choices, invoked, scripts)
        invariant Valid() && Subscribed() && old(trace) <= trace && model.agenda == Done && model.phase == Handling
        invariant model.hist.handled + model.batch == old(model.hist.handled) + old(model.batch)
        invariant Renewed()
        decreases |batch|
      {
        ghost var invokes := HandleNext(choices(n), scripts(n));
        AnsweredMore(old(told), choices, invoked, scripts, invokes);
        invoked, n := invoked + [invokes], n + 1;
      }
      Lengths();
      assert model.hist.handled + [] == model.hist.handled;
    }

    /** The part of a tick after the events: pings, then OnTick. */
    method FinishTick(onTick: Script)
      requires Valid() && Subscribed() && model.phase == Handling && model.agenda == Done && batch == []
      modifies this`lastBatch, this`queue, this`model, this`trace, this`told, conns`outbox, conns`fired
      modifies manager, manager.topicRepr, manager.playerRepr
      ensures Valid() && Subscribed() && old(trace) <= trace && model.agenda == Done && model.phase == Idle
      ensures lastBatch == if PingDue(cfg, old(lastBatch), now) then Some(now) else old(lastBatch)
      ensures model.hist.handled == old(model.hist.handled)
      ensures Renewed()
      ensures told == old(told) + Body(onTick)
    {
      hide Next, Tracked, Matches, Pool, Valid, Manager.Holds, PingDue;
      RunPingTick();
      RunCallback(onTick);
      EndTick();
    }

    method EndTick()
      requires Valid() && model.phase == Finishing && model.agenda == Done
      modifies this`model, this`trace
      ensures Valid() && trace == old(trace) + [TickEnd] && model.phase == Idle && model.agenda == Done
      ensures model.subs == old(model.subs) && model.hist.handled == old(model.hist.handled)
    {
      hide Next, Tracked;
      TickEndStep(cfg, model);
      Think(TickEnd);
    }

    /** One turn of runTickLoop: it handles exactly the events that were queued when it began,
        pings, and runs OnTick. */
    method RunTick(t: int, choices: nat -> Choice, scripts: nat -> Script, onTick: Script)
      returns (ghost invoked: seq<bool>)
      requires Valid() && Subscribed() && model.phase == Idle && model.agenda == Done && batch == []
      modifies this`now, this`lastBatch, this`sessions, this`udp, this`queue, this`batch, this`model
      modifies this`trace, this`told, conns
      modifies manager, manager.topicRepr, manager.playerRepr
      ensures Valid() && Subscribed() && old(trace) <= trace && model.agenda == Done && model.phase == Idle
      ensures batch == [] && model.hist.handled == old(model.hist.handled) + old(model.queue)
      ensures now == t && lastBatch == if PingDue(cfg, old(lastBatch), t) then Some(t) else old(lastBatch)
      ensures Renewed()
      ensures |invoked| == |old(queue)| && told == AllAnswered(old(told), choices, invoked, scripts) + Body(onTick)
    {
      hide Next, Tracked, Matches, Pool, Valid, Manager.Holds, PingDue, SameButDrain, Body, AllAnswered;
      Drain(t);
      invoked := HandleBatch(choices, scripts);
      FinishTick(onTick);
    }

    // ---------------------------------------------------------------- what the protocol's theorems say of the objects

    /** Every session is stored under its own ID, and every address leads to the ready session
        that has it, which is the one stored under its ID. */
    lemma TablesAgree(p: PlayerId, a: Addr)
      requires Valid()
      ensures p in sessions ==> sessions[p].id == p && sessions[p].auth != PreLogin
      ensures a in udp ==> udp[a].auth == Ready && udp[a].addr == Some(a)
      ensures a in udp ==> udp[a].id in sessions && sessions[udp[a].id] == udp[a]
    {
      TablesAreConsistent(cfg, trace);
      UdpEntriesAreListed(cfg, trace);
      hide Reached;
      assert p in model.sessions ==> EntryFits(model, p);
      assert a in model.udp ==> LeadsToListed(model, a);
    }

    /** The channels stay within their depths, and a session without the flag still has its
        outbound channel. */
    lemma ChannelsAreBounded(sess: SessionObject)
      requires Valid() && Known(sess)
      ensures |queue| <= cfg.eventDepth && |sess.outbox| <= cfg.sendDepth && (!sess.fired ==> sess.attached)
    {
      Fifo.AlwaysOrdered(cfg, trace);
      Outbound.NothingIsLostUnmarked(cfg, trace, sess.handle);
      Conservation.CleanupAtMostOnce(cfg, trace, sess.handle);
      hide Reached, Outbound.Thinned;
    }

    // ---------------------------------------------------------------- connections

    /** serveTCPConn: a session of its own for every connection. */
    method AcceptConn(ghost stream: Bytes) returns (sess: SessionObject)
      requires Valid()
      modifies this`conns, this`model, this`trace
      ensures fresh(sess) && Valid() && trace == old(trace) + [Accept(stream)]
      ensures conns == old(conns) + [sess] && Known(sess) && sess.Shows(BLANK)
      ensures WireOf(sess).unread == stream && WireOf(sess).reader == Reading
      ensures SameTick(old(model), model) && model.agenda == old(model.agenda)
    {
      hide Next, Tracked, ListsSessions, ListsUdp, Names;
      AcceptStep(cfg, model, stream);
      sess := new SessionObject(|conns|);
      conns := conns + [sess];
      Advance(Accept(stream));
    }

    ghost function WireOf(sess: SessionObject): Wire
      reads this`model
    {
      At(model, sess.handle).wire
    }

    /** The session's reader is at work and the connection holds what it has not read yet. */
    ghost predicate Reads(sess: SessionObject, src: FrameIO.Source)
      reads this`model, src
    {
      WireOf(sess).reader == Reading && WireOf(sess).unread == src.Remaining()
    }

    /** The reader's compare-and-swap on the flag. */
    method ReaderFlag(sess: SessionObject, why: Reason) returns (won: bool)
      requires Valid() && Known(sess) && WireOf(sess).reader == Stopping(why)
      modifies this`model, this`trace, sess`fired
      ensures Valid() && trace == old(trace) + [ReaderMark(sess.handle)] && sess.fired && won == !old(sess.fired)
      ensures WireOf(sess).reader == if won then Posting(why) else Exited
      ensures SameTick(old(model), model) && model.agenda == old(model.agenda)
    {
      hide Next, Tracked, ListsSessions, ListsUdp, Names;
      ReaderMarkStep(cfg, model, sess.handle);
      won := !sess.fired;
      sess.fired := true;
      Advance(ReaderMark(sess.handle));
    }

    /** The reader's last act: it tries the flag, and pushes the event if it won. */
    method EndReader(sess: SessionObject, why: Reason)
      requires Valid() && Known(sess) && WireOf(sess).reader == Stopping(why)
      modifies this`queue, this`model, this`trace, sess`fired
      ensures Valid() && old(trace) <= trace && sess.fired && WireOf(sess).reader == Exited
      ensures queue == if old(sess.fired) || |old(queue)| >= cfg.eventDepth then old(queue)
              else old(queue) + [Closing(sess, why)]
      ensures SameTick(old(model), model) && model.agenda == old(model.agenda)
    {
      hide Next, Tracked, Valid, Matches, Pool;
      var won := ReaderFlag(sess, why);
      if won {
        PostClosing(sess, why);
      }
    }

    method PostClosing(sess: SessionObject, why: Reason)
      requires Valid() && Known(sess) && WireOf(sess).reader == Posting(why)
      modifies this`queue, this`model, this`trace
      ensures Valid() && trace == old(trace) + [ReaderPost(sess.handle)] && WireOf(sess).reader == Exited
      ensures queue == if |old(queue)| >= cfg.eventDepth then old(queue) else old(queue) + [Closing(sess, why)]
      ensures SameTick(old(model), model) && model.agenda == old(model.agenda)
    {
      hide Next, Tracked, ListsSessions, ListsUdp;
      ReaderPostStep(cfg, model, sess.handle);
      var ok := PushEvent(Closing(sess, why));
      Advance(ReaderPost(sess.handle));
    }

    /** A decoded frame goes to the event channel; if that is full the reader is to stop. */
    method PushFrame(sess: SessionObject, payload: Bytes, ghost rest: Bytes) returns (ok: bool)
      requires Valid() && Known(sess) && WireOf(sess).reader == Reading
      requires DecodeOne(WireOf(sess).unread, cfg.maxFrame, Closed) == Payload(payload, rest)
      modifies this`queue, this`model, this`trace
      ensures Valid() && trace == old(trace) + [Receive(sess.handle)]
      ensures ok <==> |old(queue)| < cfg.eventDepth
      ensures queue == if ok then old(queue) + [FromTcp(sess, payload)] else old(queue)
      ensures WireOf(sess).unread == rest && WireOf(sess).reader == if ok then Reading else Stopping(OutboundQueueFull)
      ensures SameTick(old(model), model) && model.agenda == old(model.agenda)
    {
      hide Next, Tracked, ListsSessions, ListsUdp, DecodeOne;
      ReceiveStep(cfg, model, sess.handle);
      ok := PushEvent(FromTcp(sess, payload));
      Advance(Receive(sess.handle));
    }

    method StopReader(sess: SessionObject, error: ReadError)
      requires Valid() && Known(sess) && WireOf(sess).reader == Reading
      modifies this`model, this`trace
      ensures Valid() && trace == old(trace) + [StopReading(sess.handle, error)]
      ensures WireOf(sess).reader == Stopping(ReaderStopped(error))
      ensures SameTick(old(model), model) && model.agenda == old(model.agenda)
    {
      hide Next, Tracked, ListsSessions, ListsUdp, Names;
      StopStep(cfg, model, sess.handle, error);
      Advance(StopReading(sess.handle, error));
    }

    /** One turn of the reader's loop. */
    method ReadOnce(sess: SessionObject, src: FrameIO.Source) returns (more: bool, ghost why: Reason)
      requires Valid() && Known(sess) && Reads(sess, src)
      modifies src`chunks, this`queue, this`model, this`trace, sess`fired
      ensures Valid() && Aside(old(model), old(trace), model, trace)
      ensures more ==> Reads(sess, src) && sess.fired == old(sess.fired)
      ensures !more ==> sess.fired && WireOf(sess).reader == Exited
      ensures var r := DecodeOne(old(src.Remaining()), cfg.maxFrame, src.ending);
              if r.Payload? then
                && more == (|old(queue)| < cfg.eventDepth) && src.Remaining() == r.rest
                && queue == (if more then old(queue) + [FromTcp(sess, r.payload)] else old(queue))
                && (!more ==> why == OutboundQueueFull)
              else
                && !more && why == ReaderStopped(r.error)
                && queue == if old(sess.fired) || |old(queue)| >= cfg.eventDepth then old(queue)
                    else old(queue) + [Closing(sess, why)]
    {
      hide Next, Tracked, Valid, DecodeOne, Matches, Pool;
      ghost var input := src.Remaining();
      var ok, payload, error := FrameIO.ReadFrame(src, cfg.maxFrame);
      EndingIsOnlyTheError(input, cfg.maxFrame, src.ending);
      why := OutboundQueueFull;
      if !ok {
        StopReader(sess, error);
        EndReader(sess, ReaderStopped(error));
        return false, ReaderStopped(error);
      }
      more := PushFrame(sess, payload, src.Remaining());
      if !more {
        EndReader(sess, OutboundQueueFull);
      }
    }

    /** runTCPReader: the event channel receives the stream's frames in order up to the first that
        finds it full, and then the disconnect event if there is room and the flag was still to win; its
        reason is the error that ended the stream, or that the channel was full. */
    method RunReader(sess: SessionObject, src: FrameIO.Source) returns (ghost why: Reason)
      requires Valid() && Known(sess) && Reads(sess, src)
      modifies src`chunks, this`queue, this`model, this`trace, sess`fired
      ensures Valid() && Aside(old(model), old(trace), model, trace)
      ensures sess.fired && WireOf(sess).reader == Exited
      ensures var all := DecodeAll(old(src.Remaining()), cfg.maxFrame, src.ending);
              var taken := Fitting(|all.payloads|, |old(queue)|);
              && why == (if taken == |all.payloads| then ReaderStopped(all.error) else OutboundQueueFull)
              && queue == old(queue) + Frames(sess, all.payloads[..taken])
                          + if old(sess.fired) || |old(queue)| + taken >= cfg.eventDepth then []
                            else [Closing(sess, why)]
    {
      hide Next, Tracked, Valid, DecodeOne, DecodeAll, Matches, Pool, Reads, Frames, Named, At, Aside;
      AsideStart(model, trace);
      ghost var all := DecodeAll(src.Remaining(), cfg.maxFrame, src.ending);
      ghost var payloads := all.payloads;
      ghost var taken := 0;
      FramesNone(sess, payloads);
      while true
        invariant Valid() && Reads(sess, src) && sess.fired == old(sess.fired)
        invariant Aside(old(model), old(trace), model, trace)
        invariant taken <= |payloads|
        invariant var left := DecodeAll(src.Remaining(), cfg.maxFrame, src.ending);
                  payloads[taken..] == left.payloads && all.error == left.error
        invariant queue == old(queue) + Frames(sess, payloads[..taken]) && taken <= Fitting(|payloads|, |old(queue)|)
        decreases |src.Remaining()|
      {
        DecodeNext(src.Remaining(), cfg.maxFrame, src.ending);
        ghost var before, sofar := model, trace;
        var more;
        more, why := ReadOnce(sess, src);
        AsideChain(old(model), old(trace), before, sofar, model, trace);
        if !more {
          assert taken == Fitting(|payloads|, |old(queue)|);
          return;
        }
        FramesAppend(sess, payloads, taken);
        taken := taken + 1;
      }
    }

    /** How many of n frames still fit in an event channel that holds some events. */
    function Fitting(n: nat, held: nat): nat {
      if held >= cfg.eventDepth then 0 else if n < cfg.eventDepth - held then n else cfg.eventDepth - held
    }

    /** The writer takes the next frame. */
    method TakeOutbound(sess: SessionObject) returns (frame: Option<ServerFrame>)
      requires Valid() && Known(sess)
      modifies sess`outbox, this`model, this`trace
      ensures Valid() && SameTick(old(model), model) && model.agenda == old(model.agenda)
      ensures match frame
              case None => old(sess.outbox) == [] == sess.outbox && trace == old(trace)
              case Some(f) =>
                && [f] + sess.outbox == old(sess.outbox) && trace == old(trace) + [Write(sess.handle)]
                && WireOf(sess).written == old(WireOf(sess).written) + [f]
    {
      hide Next, Tracked, ListsSessions, ListsUdp, Names;
      if sess.outbox == [] {
        return None;
      }
      WriteStep(cfg, model, sess.handle);
      frame := Some(sess.outbox[0]);
      sess.outbox := sess.outbox[1..];
      Advance(Write(sess.handle));
    }

    /** One datagram: an oversized one is dropped, and so is one that finds the channel full. */
    method ReceiveDatagram(a: Addr, payload: Bytes, limit: nat) returns (ok: bool)
      requires Valid()
      modifies this`queue, this`model, this`trace
      ensures Valid() && SameTick(old(model), model) && model.agenda == old(model.agenda)
      ensures ok <==> |payload| <= limit && |old(queue)| < cfg.eventDepth
      ensures queue == if ok then old(queue) + [FromUdp(a, payload)] else old(queue)
    {
      hide Next, Tracked, ListsSessions, ListsUdp, ShowsAll;
      if |payload| > limit {
        return false;
      }
      DatagramStep(cfg, model, a, payload);
      ok := PushEvent(FromUdp(a, payload));
      Advance(Datagram(a, payload));
    }
  }
}
