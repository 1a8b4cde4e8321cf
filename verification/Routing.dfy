/** What becomes of each event the tick goroutine takes up: every frame on every transport, in
    every state of the session it concerns, over every run. */
module Routing {
  import opened Frame
  import opened Protocol
  import Conservation
  import Fifo
  import opened Identity
  import opened Tables

  /** The event is the next one to be dispatched. */
  predicate TakesUp(s: State, e: Event) {
    s.phase == Handling && s.agenda == Done && s.batch != [] && s.batch[0] == e
  }

  /** Nothing but the sessions, the agenda and the callback log may have changed. */
  predicate SameTables(s: State, t: State) {
    t.sessions == s.sessions && t.udp == s.udp && t.subs == s.subs && t.queue == s.queue
  }

  /** No session, no table and no log has changed, and nothing is left to do. */
  predicate Nothing(s: State, t: State) {
    SameTables(s, t) && t.conns == s.conns && t.agenda == Done && t.hist.log == s.hist.log
  }

  /** The TCP frames of a session count while it has no ID or is listed under the one it has. */
  predicate Current(s: State, h: Handle) {
    At(s, h).id == 0 || At(s, h).id in s.sessions
  }

  /** What is left of the state when the event has been taken off the batch. */
  function Taken(s: State): State
    requires s.batch != []
  {
    s.(batch := s.batch[1..], hist := s.hist.(handled := s.hist.handled + [s.batch[0]]))
  }

  /** Any event but a datagram is taken off the batch and decided upon. */
  lemma TakesOff(cfg: Config, steps: seq<Step>, choice: Choice, e: Event)
    requires TakesUp(Reached(cfg, steps), e) && !e.UdpMessage?
    ensures var s := Reached(cfg, steps);
            Reached(cfg, steps + [Dispatch(choice)]) == Act(Taken(s), Decide(cfg, Taken(s), e, choice))
  {
    ExtendDispatch(cfg, steps, choice);
    hide Reached, Act, Decide, DispatchKeeps, ActKeeps;
  }

  /** A session that has logged in counts exactly while its ID is listed. */
  lemma CurrentExactlyWhen(cfg: Config, steps: seq<Step>, h: Handle)
    requires LoggedIn(At(Reached(cfg, steps), h))
    ensures Current(Reached(cfg, steps), h) <==> At(Reached(cfg, steps), h).id in Reached(cfg, steps).sessions
  {
    ZeroAlwaysStays(cfg, steps);
    hide Reached;
  }

  /** One that has not logged in always does. */
  lemma NewcomersAreCurrent(cfg: Config, steps: seq<Step>, h: Handle)
    requires At(Reached(cfg, steps), h).auth == PreLogin
    ensures Current(Reached(cfg, steps), h)
  {
    TablesAreConsistent(cfg, steps);
    hide Reached;
    assert Placed(Reached(cfg, steps), h);
  }

  // ---------------------------------------------------------------- logins

  /** A login is refused unless it is granted an ID that is free. */
  predicate FreeGrant(s: State, verdict: AuthResult) {
    verdict.Granted? && verdict.id !in s.sessions
  }

  /** A refused login is answered, and its session disconnected, with the reason that the verdict
      calls for; nobody is listed and no callback runs. */
  lemma RefusedLogin(cfg: Config, steps: seq<Step>, choice: Choice, h: Handle, p: Bytes)
    requires var s := Reached(cfg, steps);
             && TakesUp(s, TcpMessage(h, p)) && cfg.decode(p).Login? && At(s, h).auth == PreLogin
             && !FreeGrant(s, choice.auth)
    ensures var s, t := Reached(cfg, steps), Reached(cfg, steps + [Dispatch(choice)]);
            && SameTables(s, t) && t.conns == s.conns && t.hist.log == s.hist.log
            && exists why :: t.agenda == Then(Push(h, LoginResponse(false, 0, "")), Then(Mark(h, why), Done))
                             && (choice.auth.NotConfigured? ==> why == Misconfigured)
                             && (choice.auth.BadCredentials? ==> why == MalformedFrame)
                             && (choice.auth.Rejected? || choice.auth.Granted? ==> why == AuthRejected)
  {
    NewcomersAreCurrent(cfg, steps, h);
    ExtendDispatch(cfg, steps, choice);
    hide Reached, ActKeeps, DispatchKeeps;
    assert Reached(cfg, steps + [Dispatch(choice)]).agenda.rest.op.Mark?;
  }

  /** A granted login lists the session with its ID and token; OnAuth runs, and the response that
      tells the client both is up next. */
  lemma GrantedLogin(cfg: Config, steps: seq<Step>, choice: Choice, h: Handle, p: Bytes)
    requires var s := Reached(cfg, steps);
             && TakesUp(s, TcpMessage(h, p)) && cfg.decode(p).Login? && At(s, h).auth == PreLogin
             && FreeGrant(s, choice.auth)
    ensures var s, t := Reached(cfg, steps), Reached(cfg, steps + [Dispatch(choice)]);
            var id, token := choice.auth.id, choice.auth.token;
            && t.sessions == s.sessions[id := h] && t.udp == s.udp
            && At(t, h) == At(s, h).(id := id, token := token, auth := AwaitingUdp)
            && t.hist.log == s.hist.log + [OnAuth(h, id, token)]
            && t.agenda == Then(Run(OnAuth(h, id, token)), Then(Push(h, LoginResponse(true, id, token)), Done))
  {
    TablesAreConsistent(cfg, steps);
    NewcomersAreCurrent(cfg, steps, h);
    Accepted(cfg, steps, h, p);
    ExtendDispatch(cfg, steps, choice);
    hide Reached, ActKeeps, DispatchKeeps;
  }

  lemma Accepted(cfg: Config, steps: seq<Step>, h: Handle, p: Bytes)
    requires TakesUp(Reached(cfg, steps), TcpMessage(h, p))
    ensures h < |Reached(cfg, steps).conns|
  {
    TablesAreConsistent(cfg, steps);
    Fifo.AlwaysOrdered(cfg, steps);
    var s := Reached(cfg, steps);
    hide Reached;
    assert s.hist.accepted[|s.hist.handled|] == s.batch[0] && Sourced(s);
  }

  // ---------------------------------------------------------------- other TCP frames

  /** An RPC request of a ready session is taken down exactly while its ID is listed. Then its
      handler is invoked if there is one, and if there is none the refusal is up next; and
      otherwise nothing happens. */
  lemma RequestIsDispatchedExactlyWhen(cfg: Config, steps: seq<Step>, choice: Choice, h: Handle, p: Bytes)
    requires var s := Reached(cfg, steps);
             TakesUp(s, TcpMessage(h, p)) && cfg.decode(p).RpcRequest? && At(s, h).auth == Ready
    ensures var s, t := Reached(cfg, steps), Reached(cfg, steps + [Dispatch(choice)]);
            var cid, listed := cfg.decode(p).cid, At(s, h).id in s.sessions;
            && SameTables(s, t)
            && (At(t, h).wire.requests == At(s, h).wire.requests + [cid] <==> listed)
            && (listed ==>
                  && t.hist.log == s.hist.log + (if choice.found then [RpcHandler(h, cid)] else [])
                  && t.agenda == Then(if choice.found then Run(RpcHandler(h, cid))
                                      else Push(h, RpcResponse(cid, false)), Done))
            && (!listed ==> Nothing(s, t))
  {
    CurrentExactlyWhen(cfg, steps, h);
    Accepted(cfg, steps, h, p);
    TakesOff(cfg, steps, choice, TcpMessage(h, p));
    hide Reached, ActKeeps, DispatchKeeps;
  }

  /** A malformed TCP frame has its session disconnected for that reason, exactly while the
      session's frames count. */
  lemma MalformedFrameDisconnectsExactlyWhen(cfg: Config, steps: seq<Step>, choice: Choice, h: Handle, p: Bytes)
    requires TakesUp(Reached(cfg, steps), TcpMessage(h, p)) && cfg.decode(p).Malformed?
    ensures var s, t := Reached(cfg, steps), Reached(cfg, steps + [Dispatch(choice)]);
            && SameTables(s, t) && t.conns == s.conns && t.hist.log == s.hist.log
            && t.agenda == (if Current(s, h) then Then(Mark(h, MalformedFrame), Done) else Done)
  {
    ExtendDispatch(cfg, steps, choice);
    hide Reached, ActKeeps, DispatchKeeps;
  }

  /** A Pong on TCP shows its session to be alive, in whatever state that is, while the session's
      frames count, and does nothing else. */
  lemma PongOnlyShowsLife(cfg: Config, steps: seq<Step>, choice: Choice, h: Handle, p: Bytes)
    requires TakesUp(Reached(cfg, steps), TcpMessage(h, p)) && cfg.decode(p).Pong?
    ensures var s, t := Reached(cfg, steps), Reached(cfg, steps + [Dispatch(choice)]);
            && SameTables(s, t) && t.agenda == Done && t.hist.log == s.hist.log
            && forall k: Handle :: At(t, k) == if k == h && Current(s, h) then At(s, k).(lastSeen := s.now)
                                               else At(s, k)
  {
    Accepted(cfg, steps, h, p);
    TakesOff(cfg, steps, choice, TcpMessage(h, p));
    hide Reached, ActKeeps, DispatchKeeps;
  }

  /** A TCP frame that is out of place does nothing: a second login, a handshake, a game frame or
      request before the pairing, a game frame without a handler, a body of no known kind, and any
      frame of a session that does not count. */
  lemma OutOfPlaceDoesNothing(cfg: Config, steps: seq<Step>, choice: Choice, h: Handle, p: Bytes)
    requires TakesUp(Reached(cfg, steps), TcpMessage(h, p))
    requires var c, f := At(Reached(cfg, steps), h), cfg.decode(p);
             || (f.Login? && c.auth != PreLogin)
             || f.UdpHandshake? || f.OtherBody?
             || ((f.GamePayload? || f.RpcRequest?) && c.auth != Ready)
             || (f.GamePayload? && !choice.found)
             || !Current(Reached(cfg, steps), h)
    ensures Nothing(Reached(cfg, steps), Reached(cfg, steps + [Dispatch(choice)]))
  {
    ExtendDispatch(cfg, steps, choice);
    hide Reached, ActKeeps, DispatchKeeps;
  }

  // ---------------------------------------------------------------- datagrams

  /** A game datagram is handed to a registered handler with exactly the session that the UDP
      table holds for its source address, and to nobody if it holds none. */
  lemma GameDatagramIsServedExactlyWhen(cfg: Config, steps: seq<Step>, choice: Choice, a: Addr, p: Bytes, h: Handle)
    requires TakesUp(Reached(cfg, steps), UdpMessage(a, p)) && cfg.decode(p).GamePayload? && choice.found
    ensures var s, t := Reached(cfg, steps), Reached(cfg, steps + [Dispatch(choice)]);
            && SameTables(s, t)
            && (t.hist.log == s.hist.log + [ClientHandler(h)] <==> a in s.udp && s.udp[a] == h)
            && (t.hist.log == s.hist.log <==> a !in s.udp)
            && t.agenda == (if a in s.udp then Then(Run(ClientHandler(s.udp[a])), Done) else Done)
  {
    UdpEntriesAreListed(cfg, steps);
    ExtendDispatch(cfg, steps, choice);
    var s, t := Reached(cfg, steps), Reached(cfg, steps + [Dispatch(choice)]);
    hide Reached, ActKeeps, DispatchKeeps;
    if a in s.udp {
      assert LeadsToListed(s, a) && At(s, s.udp[a]).auth == Ready;
      assert t.hist.log == s.hist.log + [ClientHandler(s.udp[a])];
      assert t.hist.log[|s.hist.log|] == ClientHandler(s.udp[a]);
    }
  }

  /** A datagram of another kind, and a game datagram without a handler, changes nothing but the
      last-seen time of the session paired with its source. */
  lemma OtherDatagramOnlyShowsLife(cfg: Config, steps: seq<Step>, choice: Choice, a: Addr, p: Bytes)
    requires TakesUp(Reached(cfg, steps), UdpMessage(a, p))
    requires var f := cfg.decode(p); !f.UdpHandshake? && (f.GamePayload? ==> !choice.found)
    ensures var s, t := Reached(cfg, steps), Reached(cfg, steps + [Dispatch(choice)]);
            && SameTables(s, t) && t.agenda == Done && t.hist.log == s.hist.log
            && forall k: Handle ::
                 At(t, k) == if a in s.udp && s.udp[a] == k < |s.conns| then At(s, k).(lastSeen := s.now) else At(s, k)
  {
    ExtendDispatch(cfg, steps, choice);
    hide Reached, ActKeeps, DispatchKeeps;
  }

  /** The handshake names a listed session that awaits it, and has its token. */
  predicate Matches(s: State, frame: ClientFrame) {
    && frame.UdpHandshake? && frame.player in s.sessions
    && var c := At(s, s.sessions[frame.player]); c.token == frame.token && c.auth == AwaitingUdp
  }

  /** A handshake that matches pairs the session with the datagram's source, and OnConnect runs;
      any other changes no table and runs nothing. */
  lemma HandshakePairsExactlyWhen(cfg: Config, steps: seq<Step>, choice: Choice, a: Addr, p: Bytes)
    requires TakesUp(Reached(cfg, steps), UdpMessage(a, p)) && cfg.decode(p).UdpHandshake?
    ensures var s, t, f := Reached(cfg, steps), Reached(cfg, steps + [Dispatch(choice)]), cfg.decode(p);
            if Matches(s, f) then
              var h := s.sessions[f.player];
              && t.sessions == s.sessions && t.udp == s.udp[a := h]
              && At(t, h) == At(s, h).(addr := Some(a), auth := Ready, lastSeen := choice.clock)
              && t.hist.log == s.hist.log + [OnConnect(h, f.token)]
              && t.agenda == Then(Run(OnConnect(h, f.token)), Done)
            else SameTables(s, t) && t.agenda == Done && t.hist.log == s.hist.log
  {
    TablesAreConsistent(cfg, steps);
    ExtendDispatch(cfg, steps, choice);
    var s := Reached(cfg, steps);
    hide Reached, ActKeeps, DispatchKeeps;
    assert forall q :: q in s.sessions ==> EntryFits(s, q);
    hide Consistent;
  }

  // ---------------------------------------------------------------- disconnects

  lemma Announced(cfg: Config, steps: seq<Step>, h: Handle, r: Reason)
    requires TakesUp(Reached(cfg, steps), Disconnect(h, r))
    ensures h < |Reached(cfg, steps).conns|
  {
    Conservation.DisconnectsAreConserved(cfg, steps, h);
    assert Conservation.DisconnectsIn(Reached(cfg, steps).batch, h) > 0;
    hide Reached;
  }

  /** A disconnect takes its session out of both tables, as far as they have it, closes its
      outbound channel, and has OnDisconnect run with the reason. */
  lemma DisconnectTearsDown(cfg: Config, steps: seq<Step>, choice: Choice, h: Handle, r: Reason)
    requires TakesUp(Reached(cfg, steps), Disconnect(h, r))
    ensures var s, t := Reached(cfg, steps), Reached(cfg, steps + [Dispatch(choice)]);
            var c := At(s, h);
            && (forall p :: p in t.sessions <==> p in s.sessions && !(p == c.id != 0))
            && (forall p :: p in t.sessions ==> t.sessions[p] == s.sessions[p])
            && (forall a :: a in t.udp <==> a in s.udp && c.addr != Some(a))
            && (forall a :: a in t.udp ==> t.udp[a] == s.udp[a])
            && h < |s.conns| && !At(t, h).attached && (forall k :: k != h ==> At(t, k) == At(s, k))
            && t.hist.log == s.hist.log + [OnDisconnect(h, r)] && t.agenda == Then(Run(OnDisconnect(h, r)), Done)
  {
    Announced(cfg, steps, h, r);
    TakesOff(cfg, steps, choice, Disconnect(h, r));
    hide Reached, ActKeeps, DispatchKeeps;
  }
}
