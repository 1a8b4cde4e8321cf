/** The UDP table as an index: when every live, ready session is found by its address, and when
    looking an address up agrees with scanning the session table. */
module UdpIndex {
  import opened Protocol
  import opened Identity
  import opened Tables
  import Conservation
  import Fifo

  predicate Holds(c: Session, a: Addr) {
    Live(c) && c.auth == Ready && c.addr == Some(a)
  }

  /** Every live, ready session is found by its own address. */
  ghost predicate Indexed(s: State) {
    forall h, a :: Holds(At(s, h), a) ==> a in s.udp && s.udp[a] == h
  }

  /** The decision pairs a session with an address that a live session holds. */
  ghost predicate Overwrites(s: State, action: Action) {
    action.Pair? && exists k :: Holds(At(s, k), action.addr)
  }

  /** The step is a handshake that takes over an address. */
  ghost predicate Clash(cfg: Config, s: State, step: Step) {
    step.Dispatch? && s.phase == Handling && s.agenda == Done && s.batch != []
    && Overwrites(Noticed(s), Decide(cfg, Noticed(s), s.batch[0], step.choice))
  }

  lemma UntouchedIndexed(s: State, t: State)
    requires t.udp == s.udp && forall h :: SamePlace(At(s, h), At(t, h))
    ensures Indexed(s) <==> Indexed(t)
  {
    if Indexed(s) {
      forall h, a | Holds(At(t, h), a) ensures a in t.udp && t.udp[a] == h {
        assert SamePlace(At(s, h), At(t, h)) && Holds(At(s, h), a);
      }
    }
    if Indexed(t) {
      forall h, a | Holds(At(s, h), a) ensures a in s.udp && s.udp[a] == h {
        assert SamePlace(At(s, h), At(t, h)) && Holds(At(t, h), a);
      }
    }
  }

  lemma PairIndexed(s: State, h: Handle, a: Addr, tok: Token, clock: int)
    requires Indexed(s) && At(s, h).auth == AwaitingUdp
    ensures Indexed(DoPair(s, h, a, tok, clock)) <==> !exists k :: Holds(At(s, k), a)
  {
    hide ActKeeps;
    var t := DoPair(s, h, a, tok, clock);
    if k :| Holds(At(s, k), a) {
      assert Holds(At(t, k), a) && t.udp[a] == h != k;
    } else {
      forall k, b | Holds(At(t, k), b) ensures b in t.udp && t.udp[b] == k {
        assert k != h ==> Holds(At(s, k), b);
      }
    }
  }

  lemma TearDownIndexed(s: State, h: Handle, r: Reason)
    requires Indexed(s) && Placed(s, h) && At(s, h).wire.cleanups == 0
    ensures Indexed(DoTearDown(s, h, r))
  {
    hide ActKeeps;
    var t, c := DoTearDown(s, h, r), At(s, h);
    forall k, b | Holds(At(t, k), b) ensures b in t.udp && t.udp[b] == k {
      assert k != h;
      assert Holds(At(s, k), b);
      assert b in s.udp && s.udp[b] == k;
      assert c.addr == Some(b) ==> Holds(At(s, h), b);
      assert c.addr != Some(b);
    }
  }

  lemma ActIndexed(s: State, action: Action)
    requires Indexed(s)
    requires match action
             case LogIn(h, _, _) => At(s, h).auth == PreLogin
             case Pair(h, _, _, _) => At(s, h).auth == AwaitingUdp
             case TearDown(h, _) => Placed(s, h) && At(s, h).wire.cleanups == 0
             case _ => true
    ensures Indexed(Act(s, action)) <==> !Overwrites(s, action)
  {
    match action {
      case Pair(h, a, tok, clock) => PairIndexed(s, h, a, tok, clock);
      case TearDown(h, r) => TearDownIndexed(s, h, r);
      case LogIn(h, id, tok) => LogInIndexed(s, h, id, tok);
      case _ => UntouchedIndexed(s, Act(s, action));
    }
    hide Indexed, DoPair, DoTearDown, DoLogIn;
  }

  lemma LogInIndexed(s: State, h: Handle, id: PlayerId, tok: Token)
    requires Indexed(s) && At(s, h).auth == PreLogin
    ensures Indexed(DoLogIn(s, h, id, tok))
  {
    hide ActKeeps;
    var t := DoLogIn(s, h, id, tok);
    forall k, b | Holds(At(t, k), b) ensures b in t.udp && t.udp[b] == k {
      assert Holds(At(s, k), b);
    }
  }

  lemma DispatchIndexed(cfg: Config, s: State, choice: Choice)
    requires Indexed(s) && Consistent(s) && Fifo.Ordered(cfg, s) && forall h :: Conservation.Conserved(s, h)
    ensures Indexed(DoDispatch(cfg, s, choice)) <==> !Clash(cfg, s, Dispatch(choice))
  {
    if s.phase == Handling && s.agenda == Done && s.batch != [] {
      var e, n := s.batch[0], Noticed(s);
      assert s.hist.accepted[|s.hist.handled|] == e;
      NoticedConsistent(s);
      UntouchedIndexed(s, n);
      DecisionFits(cfg, n, e, choice);
      if e.Disconnect? {
        assert Conservation.Conserved(s, e.sess);
        assert Conservation.DisconnectsIn(s.batch, e.sess) > 0;
        assert Placed(n, e.sess);
      }
      ActIndexed(n, Decide(cfg, n, e, choice));
      hide Act, Decide, Consistent, Indexed, Overwrites, Conservation.Conserved;
    }
  }

  lemma IndexedStep(cfg: Config, s: State, step: Step)
    requires Indexed(s) && Consistent(s) && Fifo.Ordered(cfg, s) && forall h :: Conservation.Conserved(s, h)
    ensures Indexed(Next(cfg, s, step)) <==> !Clash(cfg, s, step)
  {
    hide DoDispatch, DoExec, IoStep, TickStep, AgendaStep, Fifo.Ordered, Conservation.Conserved, Consistent;
    var t := Next(cfg, s, step);
    if step.Dispatch? {
      DispatchIndexed(cfg, s, step.choice);
    } else {
      forall h ensures SamePlace(At(s, h), At(t, h)) {
        assert SameIdentity(At(s, h), At(t, h));
      }
      UntouchedIndexed(s, t);
    }
    hide Indexed;
  }

  ghost predicate AlwaysIndexed(cfg: Config, steps: seq<Step>) {
    forall i :: 0 <= i <= |steps| ==> Indexed(After(cfg, steps, i))
  }

  ghost predicate NeverClashes(cfg: Config, steps: seq<Step>) {
    forall i :: 0 <= i < |steps| ==> !Clash(cfg, After(cfg, steps, i), steps[i])
  }

  /** The index stays right throughout a run exactly when no step of it takes over an address. */
  lemma {:induction false} IndexedExactlyWhen(cfg: Config, steps: seq<Step>)
    ensures AlwaysIndexed(cfg, steps) <==> NeverClashes(cfg, steps)
  {
    hide Reached, Indexed, Clash;
    if steps == [] {
      EmptyIndexed(cfg);
    } else {
      var n, before := |steps| - 1, steps[..|steps| - 1];
      IndexedExactlyWhen(cfg, before);
      LastStepIndexed(cfg, steps);
      forall i | 0 <= i <= n ensures After(cfg, steps, i) == After(cfg, before, i) {
        assert steps[..i] == before[..i];
      }
      if AlwaysIndexed(cfg, steps) {
        assert AlwaysIndexed(cfg, before);
        assert Indexed(After(cfg, steps, n + 1)) && Indexed(After(cfg, steps, n));
      }
      if NeverClashes(cfg, steps) {
        assert NeverClashes(cfg, before);
        assert Indexed(After(cfg, before, n));
        assert !Clash(cfg, After(cfg, steps, n), steps[n]);
      }
    }
  }

  lemma EmptyIndexed(cfg: Config)
    ensures Indexed(After(cfg, [], 0))
  {
  }

  lemma LastStepIndexed(cfg: Config, steps: seq<Step>)
    requires steps != []
    ensures var n := |steps| - 1;
            Indexed(After(cfg, steps, n)) ==>
              (Indexed(After(cfg, steps, n + 1)) <==> !Clash(cfg, After(cfg, steps, n), steps[n]))
  {
    var before := steps[..|steps| - 1];
    TablesAreConsistent(cfg, before);
    Fifo.AlwaysOrdered(cfg, before);
    forall h ensures Conservation.Conserved(Reached(cfg, before), h) {
      Conservation.DisconnectsAreConserved(cfg, before, h);
    }
    assert steps[..|steps|] == steps;
    if Indexed(Reached(cfg, before)) {
      IndexedStep(cfg, Reached(cfg, before), steps[|steps| - 1]);
    }
    hide Next, Indexed, Clash, Consistent, Fifo.Ordered, Conservation.Conserved;
  }

  // ---------------------------------------------------------------- looking up and scanning

  /** A scan of the session table for a ready session with the address comes upon the session. */
  predicate Scanned(s: State, a: Addr, h: Handle) {
    var c := At(s, h);
    c.auth == Ready && c.addr == Some(a) && c.id in s.sessions && s.sessions[c.id] == h
  }

  predicate Found(s: State, a: Addr, h: Handle) {
    a in s.udp && s.udp[a] == h
  }

  /** Looking an address up gives exactly what scanning the session table for it gives. */
  ghost predicate Agrees(s: State) {
    forall a, h :: Found(s, a, h) <==> Scanned(s, a, h)
  }

  /** The decision pairs a session from the address of a ready session that is listed, or cleans
      up a ready session with ID 0. */
  ghost predicate Spoils(s: State, action: Action) {
    || (action.Pair? && exists k :: Scanned(s, action.addr, k))
    || (action.TearDown? && At(s, action.h).auth == Ready && At(s, action.h).id == 0)
  }

  ghost predicate Upsets(cfg: Config, s: State, step: Step) {
    step.Dispatch? && s.phase == Handling && s.agenda == Done && s.batch != []
    && Spoils(Noticed(s), Decide(cfg, Noticed(s), s.batch[0], step.choice))
  }

  lemma PairAgrees(s: State, h: Handle, a: Addr, tok: Token, clock: int)
    requires Agrees(s) && At(s, h).auth == AwaitingUdp && Placed(s, h) && ZeroStays(s)
    requires At(s, h).wire.gone ==> At(s, h).id == 0
    ensures Agrees(Act(s, Pair(h, a, tok, clock))) <==> !exists k :: Scanned(s, a, k)
  {
    var t := Act(s, Pair(h, a, tok, clock));
    ActTables(s, Pair(h, a, tok, clock));
    hide Act;
    forall k
      ensures At(t, k) == if k == h then At(s, h).(addr := Some(a), auth := Ready, lastSeen := clock) else At(s, k)
    {
      ActOn(s, Pair(h, a, tok, clock), k);
    }
    if k :| Scanned(s, a, k) {
      assert Scanned(t, a, k) && !Found(t, a, k);
    } else {
      forall b, k ensures Found(t, b, k) <==> Scanned(t, b, k) {
        assert Found(s, b, k) <==> Scanned(s, b, k);
      }
    }
  }

  lemma TearDownAgrees(s: State, h: Handle, r: Reason)
    requires Agrees(s) && Placed(s, h) && ZeroStays(s) && At(s, h).wire.cleanups == 0
    ensures Agrees(Act(s, TearDown(h, r))) <==> !(At(s, h).auth == Ready && At(s, h).id == 0)
  {
    var t, c := Act(s, TearDown(h, r)), At(s, h);
    ActTables(s, TearDown(h, r));
    hide Act;
    forall k
      ensures At(t, k).auth == At(s, k).auth && At(t, k).addr == At(s, k).addr && At(t, k).id == At(s, k).id
    {
      ActOn(s, TearDown(h, r), k);
    }
    if c.auth == Ready && c.id == 0 {
      assert Scanned(t, c.addr.value, h) && !Found(t, c.addr.value, h);
    } else {
      assert c.auth == Ready ==> Scanned(s, c.addr.value, h);
      forall b, k ensures Found(t, b, k) <==> Scanned(t, b, k) {
        assert Found(s, b, k) <==> Scanned(s, b, k);
      }
    }
  }

  lemma LogInAgrees(s: State, h: Handle, id: PlayerId, tok: Token)
    requires Agrees(s) && At(s, h).auth == PreLogin && id !in s.sessions && h < |s.conns|
    ensures Agrees(Act(s, LogIn(h, id, tok)))
  {
    var t := Act(s, LogIn(h, id, tok));
    ActTables(s, LogIn(h, id, tok));
    hide Act;
    forall b, k ensures Found(t, b, k) <==> Scanned(t, b, k) {
      ActOn(s, LogIn(h, id, tok), k);
      assert Found(s, b, k) <==> Scanned(s, b, k);
    }
  }

  /** The same tables and the same places of all sessions make for the same agreement. */
  lemma UntouchedAgrees(s: State, t: State)
    requires t.udp == s.udp && t.sessions == s.sessions && forall h :: SamePlace(At(s, h), At(t, h))
    ensures Agrees(s) <==> Agrees(t)
    ensures forall a, h :: Scanned(s, a, h) <==> Scanned(t, a, h)
  {
    forall a, h
      ensures Found(s, a, h) <==> Found(t, a, h)
      ensures Scanned(s, a, h) <==> Scanned(t, a, h)
    {
      assert SamePlace(At(s, h), At(t, h));
    }
    hide Found, Scanned;
  }

  lemma ActAgrees(s: State, action: Action)
    requires Agrees(s) && ZeroStays(s)
    requires match action
             case LogIn(h, id, _) => At(s, h).auth == PreLogin && id !in s.sessions && h < |s.conns|
             case Pair(h, _, _, _) =>
               At(s, h).auth == AwaitingUdp && Placed(s, h) && (At(s, h).wire.gone ==> At(s, h).id == 0)
             case TearDown(h, _) => Placed(s, h) && At(s, h).wire.cleanups == 0
             case _ => true
    ensures Agrees(Act(s, action)) <==> !Spoils(s, action)
  {
    match action {
      case Pair(h, a, tok, clock) => PairAgrees(s, h, a, tok, clock);
      case TearDown(h, r) => TearDownAgrees(s, h, r);
      case LogIn(h, id, tok) => LogInAgrees(s, h, id, tok);
      case _ =>
        forall h ensures SamePlace(At(s, h), At(Act(s, action), h)) {
          OtherActStays(s, action, h);
        }
        OtherActStays(s, action, 0);
        UntouchedAgrees(s, Act(s, action));
    }
    hide Agrees, Act, Scanned;
  }

  lemma DispatchAgrees(cfg: Config, s: State, choice: Choice)
    requires Agrees(s) && ZeroStays(s) && Consistent(s) && Fifo.Ordered(cfg, s)
    requires forall h :: Conservation.Conserved(s, h)
    ensures Agrees(DoDispatch(cfg, s, choice)) <==> !Upsets(cfg, s, Dispatch(choice))
  {
    if s.phase == Handling && s.agenda == Done && s.batch != [] {
      var e, n := s.batch[0], Noticed(s);
      assert s.hist.accepted[|s.hist.handled|] == e;
      NoticedConsistent(s);
      UntouchedAgrees(s, n);
      ZeroKept(s, n);
      DecisionFits(cfg, n, e, choice);
      if e.Disconnect? {
        assert Conservation.Conserved(s, e.sess);
        assert Conservation.DisconnectsIn(s.batch, e.sess) > 0;
      }
      var action := Decide(cfg, n, e, choice);
      assert action.Pair? || action.TearDown? ==> Placed(n, action.h);
      hide Consistent, Agrees, ZeroStays, Conservation.Conserved, Placed, Decide, Act;
      ActAgrees(n, action);
      hide Spoils;
    }
  }

  lemma AgreesStep(cfg: Config, s: State, step: Step)
    requires Agrees(s) && ZeroStays(s) && Consistent(s) && Fifo.Ordered(cfg, s)
    requires forall h :: Conservation.Conserved(s, h)
    ensures Agrees(Next(cfg, s, step)) <==> !Upsets(cfg, s, step)
  {
    hide DoDispatch, DoExec, IoStep, TickStep, AgendaStep, Fifo.Ordered, Conservation.Conserved, Consistent, ZeroStays;
    var t := Next(cfg, s, step);
    if step.Dispatch? {
      DispatchAgrees(cfg, s, step.choice);
    } else {
      forall h ensures SamePlace(At(s, h), At(t, h)) {
        assert SameIdentity(At(s, h), At(t, h));
      }
      UntouchedAgrees(s, t);
    }
    hide Agrees;
  }

  ghost predicate AlwaysAgrees(cfg: Config, steps: seq<Step>) {
    forall i :: 0 <= i <= |steps| ==> Agrees(After(cfg, steps, i))
  }

  ghost predicate NeverUpsets(cfg: Config, steps: seq<Step>) {
    forall i :: 0 <= i < |steps| ==> !Upsets(cfg, After(cfg, steps, i), steps[i])
  }

  lemma LastStepAgrees(cfg: Config, steps: seq<Step>)
    requires steps != []
    ensures var n := |steps| - 1;
            Agrees(After(cfg, steps, n)) ==>
              (Agrees(After(cfg, steps, n + 1)) <==> !Upsets(cfg, After(cfg, steps, n), steps[n]))
  {
    var before := steps[..|steps| - 1];
    TablesAreConsistent(cfg, before);
    ZeroAlwaysStays(cfg, before);
    Fifo.AlwaysOrdered(cfg, before);
    forall h ensures Conservation.Conserved(Reached(cfg, before), h) {
      Conservation.DisconnectsAreConserved(cfg, before, h);
    }
    assert steps[..|steps|] == steps;
    hide Agrees, Upsets, Consistent, ZeroStays, Fifo.Ordered, Conservation.Conserved, Next;
    if Agrees(Reached(cfg, before)) {
      AgreesStep(cfg, Reached(cfg, before), steps[|steps| - 1]);
    }
  }

  /** Throughout a run, looking an address up agrees with scanning the session table, if and only
      if no step of it pairs a session from the address of a ready session that is listed, or
      cleans up a ready session with ID 0. */
  lemma {:induction false} LookupAgreesExactlyWhen(cfg: Config, steps: seq<Step>)
    ensures AlwaysAgrees(cfg, steps) <==> NeverUpsets(cfg, steps)
  {
    hide Reached, Agrees, Upsets;
    if steps == [] {
      EmptyAgrees(cfg);
    } else {
      var n, before := |steps| - 1, steps[..|steps| - 1];
      LookupAgreesExactlyWhen(cfg, before);
      LastStepAgrees(cfg, steps);
      forall i | 0 <= i <= n ensures After(cfg, steps, i) == After(cfg, before, i) {
        assert steps[..i] == before[..i];
      }
      if AlwaysAgrees(cfg, steps) {
        assert AlwaysAgrees(cfg, before);
        assert Agrees(After(cfg, steps, n + 1)) && Agrees(After(cfg, steps, n));
      }
      if NeverUpsets(cfg, steps) {
        assert NeverUpsets(cfg, before);
        assert Agrees(After(cfg, before, n));
        assert !Upsets(cfg, After(cfg, steps, n), steps[n]);
      }
    }
  }

  lemma EmptyAgrees(cfg: Config)
    ensures Agrees(After(cfg, [], 0))
  {
  }
}
