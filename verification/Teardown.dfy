/** After teardown: a session that was cleaned up after login never reaches user code again
    until its player ID is issued anew, even with its frames still queued. */
module Teardown {
  import opened Protocol
  import opened Tables
  import Conservation
  import Fifo
  import opened Identity
  import Lifecycle

  /** The callbacks that hand a session to a handler or announce it. */
  predicate Reaches(cb: Callback, h: Handle) {
    (cb.ClientHandler? || cb.RpcHandler? || cb.OnConnect? || cb.OnAuth?) && cb.sess == h
  }

  predicate Unreached(log: seq<Callback>, h: Handle) {
    forall i :: 0 <= i < |log| ==> !Reaches(log[i], h)
  }

  /** The session is gone and nobody holds its ID. */
  predicate Unlisted(s: State, h: Handle, p: PlayerId) {
    At(s, h).wire.gone && At(s, h).id == p && p != 0 && p !in s.sessions
  }

  predicate NeverIssues(steps: seq<Step>, p: PlayerId) {
    forall i :: 0 <= i < |steps| ==> steps[i].Dispatch? && steps[i].choice.auth.Granted? ==>
        steps[i].choice.auth.id != p
  }

  /** A decision never names a gone, unlisted session except to tear it down. */
  lemma DecisionSkipsTheGone(cfg: Config, s: State, e: Event, choice: Choice, h: Handle, p: PlayerId)
    requires Consistent(s) && Unlisted(s, h, p)
    ensures match Decide(cfg, s, e, choice)
            case LogIn(k, id, _) => k != h && choice.auth.Granted? && id == choice.auth.id
            case Pair(k, _, _, _) => k != h
            case CallClient(k) => k != h
            case Request(k, _, _) => k != h
            case _ => true
  {
    forall q | q in s.sessions ensures s.sessions[q] != h {
      assert EntryFits(s, q);
    }
    forall a | a in s.udp ensures s.udp[a] != h {
      assert UdpEntryFits(s, a);
    }
    assert Placed(s, h);
  }

  lemma ActStaysSilent(s: State, action: Action, h: Handle, p: PlayerId)
    requires Unlisted(s, h, p)
    requires match action
             case LogIn(k, id, _) => k != h && id != p
             case Pair(k, _, _, _) => k != h
             case CallClient(k) => k != h
             case Request(k, _, _) => k != h
             case _ => true
    ensures Unlisted(Act(s, action), h, p)
    ensures var t := Act(s, action);
            s.hist.log <= t.hist.log && Unreached(t.hist.log[|s.hist.log|..], h)
  {
    ActOn(s, action, h);
    ActTables(s, action);
    Lifecycle.ActLog(s, action);
    hide Act;
  }

  lemma DispatchStaysSilent(cfg: Config, s: State, choice: Choice, h: Handle, p: PlayerId)
    requires Consistent(s) && Unlisted(s, h, p)
    requires choice.auth.Granted? ==> choice.auth.id != p
    ensures var t := DoDispatch(cfg, s, choice);
            Unlisted(t, h, p) && s.hist.log <= t.hist.log && Unreached(t.hist.log[|s.hist.log|..], h)
  {
    if s.phase == Handling && s.agenda == Done && s.batch != [] {
      NoticedConsistent(s);
      DecisionSkipsTheGone(cfg, Noticed(s), s.batch[0], choice, h, p);
      ActStaysSilent(Noticed(s), Decide(cfg, Noticed(s), s.batch[0], choice), h, p);
    }
    hide Act, Decide, Consistent;
  }

  lemma StepStaysSilent(cfg: Config, s: State, step: Step, h: Handle, p: PlayerId)
    requires Consistent(s) && Unlisted(s, h, p)
    requires step.Dispatch? && step.choice.auth.Granted? ==> step.choice.auth.id != p
    ensures var t := Next(cfg, s, step);
            Unlisted(t, h, p) && s.hist.log <= t.hist.log && Unreached(t.hist.log[|s.hist.log|..], h)
  {
    hide Consistent;
    if step.Dispatch? {
      DispatchStaysSilent(cfg, s, step.choice, h, p);
    } else if IsTick(step) {
      TickLog(cfg, s, step);
    } else {
      assert SameIdentity(At(s, h), At(Next(cfg, s, step), h));
    }
    hide DoDispatch, IoStep, DoExec, TickStep, AgendaStep;
  }

  lemma TickLog(cfg: Config, s: State, step: Step)
    requires IsTick(step)
    ensures var t := TickStep(cfg, s, step);
            t.hist.log == s.hist.log || t.hist.log == s.hist.log + [OnTick]
  {
  }

  /** In every continuation of every run, while the player ID is not reissued: no client
      handler, RPC handler, OnConnect or OnAuth is invoked with the session. */
  lemma {:induction false} NoHandlerAfterTeardown(cfg: Config, steps: seq<Step>, more: seq<Step>, h: Handle,
        p: PlayerId)
    requires Unlisted(Reached(cfg, steps), h, p) && NeverIssues(more, p)
    ensures var s, t := Reached(cfg, steps), Reached(cfg, steps + more);
            Unlisted(t, h, p) && s.hist.log <= t.hist.log && Unreached(t.hist.log[|s.hist.log|..], h)
    decreases |more|
  {
    if more == [] {
      assert steps + more == steps;
    } else {
      var rest := more[..|more| - 1];
      var all := steps + more;
      assert all[..|all| - 1] == steps + rest;
      NoHandlerAfterTeardown(cfg, steps, rest, h, p);
      TablesAreConsistent(cfg, steps + rest);
      var s, u := Reached(cfg, steps), Reached(cfg, steps + rest);
      StepStaysSilent(cfg, u, more[|more| - 1], h, p);
      var t := Reached(cfg, all);
      assert t == Next(cfg, u, more[|more| - 1]);
      hide Reached, Next, Consistent;
      assert t.hist.log[|s.hist.log|..] == u.hist.log[|s.hist.log|..] + t.hist.log[|u.hist.log|..];
    }
    hide Reached;
  }

  /** Where that starts: handling the disconnect of a live session with a nonzero ID. */
  lemma TeardownUnlists(cfg: Config, steps: seq<Step>, choice: Choice, h: Handle)
    requires var s := Reached(cfg, steps);
             && s.phase == Handling && s.agenda == Done && s.batch != []
             && s.batch[0].Disconnect? && s.batch[0].sess == h && Live(At(s, h)) && At(s, h).id != 0
    ensures Unlisted(Reached(cfg, steps + [Dispatch(choice)]), h, At(Reached(cfg, steps), h).id)
  {
    ExtendDispatch(cfg, steps, choice);
    hide ActKeeps, DispatchKeeps, Reached;
  }

  /** So once the disconnect of a live session with a nonzero ID has been handled, the session
      never reaches a handler, OnConnect or OnAuth again unless its player ID is reissued. */
  lemma CleanedUpIsNeverServed(cfg: Config, steps: seq<Step>, choice: Choice, more: seq<Step>, h: Handle)
    requires var s := Reached(cfg, steps);
             && s.phase == Handling && s.agenda == Done && s.batch != []
             && s.batch[0].Disconnect? && s.batch[0].sess == h && Live(At(s, h)) && At(s, h).id != 0
    requires NeverIssues(more, At(Reached(cfg, steps), h).id)
    ensures var s, t := Reached(cfg, steps + [Dispatch(choice)]), Reached(cfg, steps + [Dispatch(choice)] + more);
            s.hist.log <= t.hist.log && Unreached(t.hist.log[|s.hist.log|..], h)
  {
    hide Reached;
    TeardownUnlists(cfg, steps, choice, h);
    NoHandlerAfterTeardown(cfg, steps + [Dispatch(choice)], more, h, At(Reached(cfg, steps), h).id);
  }

  /** The hypothesis about the ID is needed, exactly: a queued game frame of a ready session, gone
      or not, is handed to a handler when, and only when, its ID is listed. */
  lemma StaleFrameIsServedExactlyWhen(cfg: Config, steps: seq<Step>, choice: Choice)
    requires var s := Reached(cfg, steps);
             && s.phase == Handling && s.agenda == Done && s.batch != []
             && s.batch[0].TcpMessage? && cfg.decode(s.batch[0].payload).GamePayload? && choice.found
             && At(s, s.batch[0].sess).auth == Ready
    ensures var s, t := Reached(cfg, steps), Reached(cfg, steps + [Dispatch(choice)]);
            var h := s.batch[0].sess;
            t.hist.log == s.hist.log + [ClientHandler(h)] <==> At(s, h).id in s.sessions
  {
    ExtendDispatch(cfg, steps, choice);
    ZeroAlwaysStays(cfg, steps);
    hide ActKeeps, DispatchKeeps, Reached;
    var s := Reached(cfg, steps);
    assert LoggedIn(At(s, s.batch[0].sess));
  }

  /** A session that has not logged in, even one that has been cleaned up since its frame was
      queued, ends up listed exactly when Authenticate grants it an ID that is free. */
  lemma LogsInExactlyWhen(cfg: Config, steps: seq<Step>, choice: Choice)
    requires var s := Reached(cfg, steps);
             && s.phase == Handling && s.agenda == Done && s.batch != []
             && s.batch[0].TcpMessage? && cfg.decode(s.batch[0].payload).Login?
             && At(s, s.batch[0].sess).auth == PreLogin
    ensures var s, t := Reached(cfg, steps), Reached(cfg, steps + [Dispatch(choice)]);
            s.batch[0].sess in t.sessions.Values <==> choice.auth.Granted? && choice.auth.id !in s.sessions
  {
    ExtendDispatch(cfg, steps, choice);
    TablesAreConsistent(cfg, steps);
    var s := Reached(cfg, steps);
    hide ActKeeps, DispatchKeeps, Reached;
    var h := s.batch[0].sess;
    assert Placed(s, h);
    forall p | p in s.sessions ensures s.sessions[p] != h {
      assert EntryFits(s, p);
    }
    var t := DoDispatch(cfg, s, choice);
    if choice.auth.Granted? && choice.auth.id !in s.sessions {
      assert t.sessions[choice.auth.id] == h;
    } else {
      assert t.sessions == s.sessions;
    }
  }

  // ---------------------------------------------------------------- a disconnect used up

  lemma SpentStep(cfg: Config, s: State, step: Step, h: Handle)
    requires Consistent(s) && Fifo.Ordered(cfg, s) && Conservation.Conserved(s, h)
    requires Live(At(s, h)) && At(s, h).wire.cleanups + At(s, h).wire.drops == 1
    ensures Live(At(Next(cfg, s, step), h)) && At(Next(cfg, s, step), h).id == At(s, h).id
  {
    if step.Dispatch? {
      if s.batch != [] {
        assert Conservation.DisconnectsIn(s.batch, h) == 0;
      }
      DispatchSpares(cfg, s, step.choice, h);
    } else {
      assert SameIdentity(At(s, h), At(Next(cfg, s, step), h));
    }
    hide DoDispatch, IoStep, DoExec, TickStep, AgendaStep;
  }

  /** A live session whose one disconnect has been used up, by a cleanup before its login or by a
      full queue, is stored under its ID in every continuation: the ID is never free again. */
  lemma {:induction false} SpentSessionStaysListed(cfg: Config, steps: seq<Step>, more: seq<Step>, h: Handle)
    requires var c := At(Reached(cfg, steps), h); Live(c) && c.wire.cleanups + c.wire.drops == 1
    ensures var p, t := At(Reached(cfg, steps), h).id, Reached(cfg, steps + more);
            Live(At(t, h)) && At(t, h).id == p && p in t.sessions && t.sessions[p] == h
    decreases |more|
  {
    TablesAreConsistent(cfg, steps + more);
    hide Reached, Next, Fifo.Ordered, Conservation.Conserved, Conservation.DisconnectsIn, Conservation.PostsIn;
    if more == [] {
      assert steps + more == steps;
    } else {
      var rest, last := more[..|more| - 1], more[|more| - 1];
      assert (steps + rest) + [last] == steps + more;
      SpentSessionStaysListed(cfg, steps, rest, h);
      TablesAreConsistent(cfg, steps + rest);
      Fifo.AlwaysOrdered(cfg, steps + rest);
      Conservation.DisconnectsAreConserved(cfg, steps + rest, h);
      Conservation.CleanupAtMostOnce(cfg, steps + rest, h);
      Lifecycle.SessionsOnlyAdvance(cfg, steps, rest, h);
      Extend(cfg, steps + rest, last);
      SpentStep(cfg, Reached(cfg, steps + rest), last, h);
    }
    assert Placed(Reached(cfg, steps + more), h);
  }
}
