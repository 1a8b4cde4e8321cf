/** The two lookup tables: which session each player ID and each UDP address leads to. */
module Tables {
  import opened Frame
  import opened Protocol
  import Conservation
  import Fifo

  predicate LoggedIn(c: Session) {
    c.auth != PreLogin
  }

  /** A logged-in session that has not been cleaned up since. */
  predicate Live(c: Session) {
    LoggedIn(c) && !c.wire.gone
  }

  /** What holds of one session: a live one is the one stored under its ID. */
  predicate Placed(s: State, h: Handle) {
    var c := At(s, h);
    && (Live(c) ==> c.id in s.sessions && s.sessions[c.id] == h)
    && (!LoggedIn(c) ==> c.id == 0 && !c.wire.gone)
    && (c.auth == Ready <==> c.addr.Some?)
    && (c.wire.gone ==> c.wire.cleanups > 0)
  }

  /** What an entry of the session table says. Only the entry for ID 0 can outlive its session. */
  predicate EntryFits(s: State, p: PlayerId)
    requires p in s.sessions
  {
    var c := At(s, s.sessions[p]);
    c.id == p && LoggedIn(c) && (c.wire.gone ==> p == 0)
  }

  /** What an entry of the UDP table says. */
  predicate UdpEntryFits(s: State, a: Addr)
    requires a in s.udp
  {
    var c := At(s, s.udp[a]);
    c.auth == Ready && c.addr == Some(a) && (c.wire.gone ==> c.id == 0)
  }

  /** Every queued frame names a session that was accepted. */
  predicate Sourced(s: State) {
    forall i :: 0 <= i < |s.hist.accepted| ==>
      s.hist.accepted[i].TcpMessage? ==> s.hist.accepted[i].sess < |s.conns|
  }

  ghost predicate Consistent(s: State) {
    && (forall h :: Placed(s, h))
    && (forall p :: p in s.sessions ==> EntryFits(s, p))
    && (forall a :: a in s.udp ==> UdpEntryFits(s, a))
    && Sourced(s)
  }

  // ---------------------------------------------------------------- one step

  predicate SamePlace(c: Session, d: Session) {
    d.id == c.id && d.auth == c.auth && d.addr == c.addr && d.wire.gone == c.wire.gone
    && d.wire.cleanups == c.wire.cleanups
  }

  /** Steps that keep the tables and every session's place in them keep them consistent. */
  lemma UntouchedConsistent(s: State, t: State)
    requires Consistent(s)
    requires t.sessions == s.sessions && t.udp == s.udp && Sourced(t)
    requires forall h :: SamePlace(At(s, h), At(t, h))
    ensures Consistent(t)
  {
    forall h ensures Placed(t, h) {
      assert Placed(s, h);
      assert SamePlace(At(s, h), At(t, h));
    }
    forall p | p in t.sessions ensures EntryFits(t, p) {
      assert EntryFits(s, p);
      assert SamePlace(At(s, s.sessions[p]), At(t, s.sessions[p]));
    }
    forall a | a in t.udp ensures UdpEntryFits(t, a) {
      assert UdpEntryFits(s, a);
      assert SamePlace(At(s, s.udp[a]), At(t, s.udp[a]));
    }
  }

  lemma IoSourced(cfg: Config, s: State, step: Step)
    requires Sourced(s) && IsIo(step)
    ensures Sourced(IoStep(cfg, s, step))
  {
    hide DecodeOne, IoKeeps;
  }

  lemma ExecSourced(cfg: Config, s: State)
    requires Sourced(s)
    ensures Sourced(DoExec(cfg, s))
  {
  }

  lemma LogInConsistent(s: State, h: Handle, id: PlayerId, tok: Token)
    requires Consistent(s) && h < |s.conns| && At(s, h).auth == PreLogin && id !in s.sessions
    ensures Consistent(DoLogIn(s, h, id, tok))
  {
    hide ActKeeps;
    var t := DoLogIn(s, h, id, tok);
    forall k ensures Placed(t, k) {
      assert Placed(s, k) && Placed(s, h);
    }
    forall p | p in t.sessions ensures EntryFits(t, p) {
      assert Placed(s, h);
      assert p in s.sessions ==> EntryFits(s, p);
    }
    forall a | a in t.udp ensures UdpEntryFits(t, a) {
      assert UdpEntryFits(s, a);
    }
  }

  lemma PairConsistent(s: State, h: Handle, a: Addr, tok: Token, clock: int)
    requires Consistent(s) && At(s, h).auth == AwaitingUdp && (At(s, h).wire.gone ==> At(s, h).id == 0)
    ensures Consistent(DoPair(s, h, a, tok, clock))
  {
    hide ActKeeps;
    var t := DoPair(s, h, a, tok, clock);
    forall k ensures Placed(t, k) {
      assert Placed(s, k) && Placed(s, h);
    }
    forall p | p in t.sessions ensures EntryFits(t, p) {
      assert EntryFits(s, p);
    }
    forall b | b in t.udp ensures UdpEntryFits(t, b) {
      assert b in s.udp ==> UdpEntryFits(s, b);
    }
  }

  /** Tearing down a session removes its own entries from both tables and nobody else's from
      the session table. */
  lemma TearDownConsistent(s: State, h: Handle, r: Reason)
    requires Consistent(s) && At(s, h).wire.cleanups == 0
    ensures Consistent(DoTearDown(s, h, r))
  {
    var t := DoTearDown(s, h, r);
    assert Placed(s, h);
    forall k ensures Placed(t, k) {
      TearDownPlaced(s, h, r, k);
    }
    TearDownTables(s, h, r);
    hide DoTearDown;
  }

  lemma TearDownPlaced(s: State, h: Handle, r: Reason, k: Handle)
    requires Placed(s, h) && Placed(s, k) && At(s, h).wire.cleanups == 0
    ensures Placed(DoTearDown(s, h, r), k)
  {
  }

  lemma TearDownTables(s: State, h: Handle, r: Reason)
    requires (forall p :: p in s.sessions ==> EntryFits(s, p)) && (forall a :: a in s.udp ==> UdpEntryFits(s, a))
    ensures var t := DoTearDown(s, h, r);
            && (forall p :: p in t.sessions ==> EntryFits(t, p))
            && (forall a :: a in t.udp ==> UdpEntryFits(t, a))
  {
    hide ActKeeps;
    var t := DoTearDown(s, h, r);
    forall p | p in t.sessions ensures EntryFits(t, p) {
      assert EntryFits(s, p);
    }
    forall a | a in t.udp ensures UdpEntryFits(t, a) {
      assert UdpEntryFits(s, a);
    }
  }

  /** The remaining decisions about an event change no table and no place in one. */
  lemma OtherActStays(s: State, action: Action, h: Handle)
    requires !action.LogIn? && !action.Pair? && !action.TearDown?
    ensures SamePlace(At(s, h), At(Act(s, action), h))
    ensures Act(s, action).sessions == s.sessions && Act(s, action).udp == s.udp
  {
    ActOn(s, action, h);
    ActTables(s, action);
    hide Act;
  }

  lemma OtherActConsistent(s: State, action: Action)
    requires Consistent(s) && !action.LogIn? && !action.Pair? && !action.TearDown?
    ensures Consistent(Act(s, action))
  {
    forall h ensures SamePlace(At(s, h), At(Act(s, action), h)) {
      OtherActStays(s, action, h);
    }
    OtherActStays(s, action, 0);
    assert ActKeeps(s, Act(s, action));
    hide Act;
    UntouchedConsistent(s, Act(s, action));
    hide Consistent;
  }

  /** What a decision promises about the session it names. */
  lemma DecisionFits(cfg: Config, s: State, e: Event, choice: Choice)
    requires Consistent(s) && (e.TcpMessage? ==> e.sess < |s.conns|)
    ensures match Decide(cfg, s, e, choice)
            case LogIn(h, id, _) => h < |s.conns| && At(s, h).auth == PreLogin && id !in s.sessions
            case Pair(h, _, tok, _) => h in s.sessions.Values && At(s, h).auth == AwaitingUdp && At(s, h).token == tok
                                       && (At(s, h).wire.gone ==> At(s, h).id == 0)
            case TearDown(h, r) => e == Disconnect(h, r)
            case _ => true
  {
    forall p | p in s.sessions ensures EntryFits(s, p) {}
  }

  lemma NoticedConsistent(s: State)
    requires Consistent(s) && s.batch != []
    ensures Consistent(Noticed(s))
  {
    UntouchedConsistent(s, Noticed(s));
    hide Consistent;
  }

  lemma ActConsistent(cfg: Config, s: State, e: Event, choice: Choice)
    requires Consistent(s) && (e.TcpMessage? ==> e.sess < |s.conns|)
    requires e.Disconnect? ==> At(s, e.sess).wire.cleanups == 0
    ensures Consistent(Act(s, Decide(cfg, s, e, choice)))
  {
    DecisionFits(cfg, s, e, choice);
    hide Decide, Consistent;
    match Decide(cfg, s, e, choice) {
      case LogIn(h, id, tok) => LogInConsistent(s, h, id, tok);
      case Pair(h, a, tok, clock) => PairConsistent(s, h, a, tok, clock);
      case TearDown(h, r) => TearDownConsistent(s, h, r);
      case _ => OtherActConsistent(s, Decide(cfg, s, e, choice));
    }
    hide DoLogIn, DoPair, DoTearDown, DoRequest;
  }

  lemma DispatchConsistent(cfg: Config, s: State, choice: Choice)
    requires Consistent(s) && Fifo.Ordered(cfg, s) && forall h :: Conservation.Conserved(s, h)
    ensures Consistent(DoDispatch(cfg, s, choice))
  {
    if s.phase == Handling && s.agenda == Done && s.batch != [] {
      var e, t := s.batch[0], Noticed(s);
      assert s.hist.accepted[|s.hist.handled|] == e;
      NoticedConsistent(s);
      if e.Disconnect? {
        assert Conservation.Conserved(s, e.sess);
        assert Conservation.DisconnectsIn(s.batch, e.sess) > 0;
      }
      ActConsistent(cfg, t, e, choice);
      hide Act, Decide, Consistent, Conservation.Conserved;
    }
  }

  lemma ConsistentStep(cfg: Config, s: State, step: Step)
    requires Consistent(s) && Fifo.Ordered(cfg, s) && forall h :: Conservation.Conserved(s, h)
    ensures Consistent(Next(cfg, s, step))
  {
    hide DoDispatch, DoExec, IoStep, TickStep, AgendaStep, Fifo.Ordered, Conservation.Conserved;
    var t := Next(cfg, s, step);
    if step.Dispatch? {
      DispatchConsistent(cfg, s, step.choice);
    } else {
      if IsIo(step) {
        IoSourced(cfg, s, step);
      } else if step.Exec? {
        ExecSourced(cfg, s);
      }
      forall h ensures SamePlace(At(s, h), At(t, h)) {
        assert SameIdentity(At(s, h), At(t, h));
      }
      UntouchedConsistent(s, t);
    }
    hide Consistent;
  }

  // ---------------------------------------------------------------- every run

  /** The tables are consistent in every reachable state of every interleaving. */
  lemma {:induction false} TablesAreConsistent(cfg: Config, steps: seq<Step>)
    ensures Consistent(Reached(cfg, steps))
  {
    if steps != [] {
      var before := steps[..|steps| - 1];
      TablesAreConsistent(cfg, before);
      Fifo.AlwaysOrdered(cfg, before);
      forall h ensures Conservation.Conserved(Reached(cfg, before), h) {
        Conservation.DisconnectsAreConserved(cfg, before, h);
      }
      ConsistentStep(cfg, Reached(cfg, before), steps[|steps| - 1]);
      hide Next, Consistent, Fifo.Ordered, Conservation.Conserved;
    }
  }

  /** Two live sessions never share a player ID. */
  lemma LivePlayersAreUnique(cfg: Config, steps: seq<Step>, h: Handle, k: Handle)
    requires var s := Reached(cfg, steps);
             Live(At(s, h)) && Live(At(s, k)) && At(s, h).id == At(s, k).id
    ensures h == k
  {
    TablesAreConsistent(cfg, steps);
    var s := Reached(cfg, steps);
    hide Reached;
    assert Placed(s, h) && Placed(s, k);
  }

  lemma LiveStays(s: State, action: Action, k: Handle)
    requires Live(At(s, k)) && (action.TearDown? ==> action.h != k)
    requires action.LogIn? ==> At(s, action.h).auth == PreLogin
    ensures Live(At(Act(s, action), k)) && At(Act(s, action), k).id == At(s, k).id
  {
    ActOn(s, action, k);
    hide Act;
  }

  /** No event that is dispatched, another session's teardown included, takes a live session
      out of the session table. */
  lemma DispatchEvictsNobodyElse(cfg: Config, steps: seq<Step>, choice: Choice, k: Handle)
    requires var s := Reached(cfg, steps);
             Live(At(s, k)) && (s.batch != [] ==> forall r :: s.batch[0] != Disconnect(k, r))
    ensures var p := At(Reached(cfg, steps), k).id;
            var t := Reached(cfg, steps + [Dispatch(choice)]);
            p in t.sessions && t.sessions[p] == k
  {
    hide DoDispatch, Reached, Fifo.Ordered;
    ExtendDispatch(cfg, steps, choice);
    TablesAreConsistent(cfg, steps + [Dispatch(choice)]);
    TablesAreConsistent(cfg, steps);
    Fifo.AlwaysOrdered(cfg, steps);
    DispatchSpares(cfg, Reached(cfg, steps), choice, k);
    assert Placed(Reached(cfg, steps + [Dispatch(choice)]), k);
  }

  lemma DispatchSpares(cfg: Config, s: State, choice: Choice, k: Handle)
    requires Consistent(s) && Fifo.Ordered(cfg, s)
    requires Live(At(s, k)) && (s.batch != [] ==> forall r :: s.batch[0] != Disconnect(k, r))
    ensures var d := At(DoDispatch(cfg, s, choice), k); Live(d) && d.id == At(s, k).id
  {
    if s.phase == Handling && s.agenda == Done && s.batch != [] {
      var e, n := s.batch[0], Noticed(s);
      assert s.hist.accepted[|s.hist.handled|] == e && Sourced(s);
      NoticedConsistent(s);
      hide Consistent, Fifo.Ordered, Placed;
      DecisionFits(cfg, n, e, choice);
      LiveStays(n, Decide(cfg, n, e, choice), k);
    }
    hide Act, Decide, DispatchKeeps;
  }

  /** Tearing down a live session takes it out of the session table exactly when its ID is not 0. */
  lemma TearDownClearsTheTableExactlyWhen(cfg: Config, steps: seq<Step>, h: Handle, r: Reason)
    requires Live(At(Reached(cfg, steps), h))
    ensures var s := Reached(cfg, steps);
            h !in DoTearDown(s, h, r).sessions.Values <==> At(s, h).id != 0
  {
    TablesAreConsistent(cfg, steps);
    var s := Reached(cfg, steps);
    hide Reached;
    assert Placed(s, h);
    hide ActKeeps;
    var t := DoTearDown(s, h, r);
    forall p | p in t.sessions && t.sessions[p] == h ensures p == 0 {
      assert EntryFits(s, p);
    }
    if At(s, h).id == 0 {
      assert t.sessions[0] == h;
    }
  }
}
