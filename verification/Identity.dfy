/** Player IDs over whole runs: what becomes of the ID 0, when the session table is exactly the
    live sessions, and when an ID identifies one session for good. */
module Identity {
  import opened Protocol
  import opened Tables
  import Fifo
  import Lifecycle

  // ---------------------------------------------------------------- nonzero player IDs

  /** Authenticate never returns the player ID 0 on success. */
  predicate NonzeroIds(steps: seq<Step>) {
    forall i :: 0 <= i < |steps| ==> steps[i].Dispatch? && steps[i].choice.auth.Granted? ==>
        steps[i].choice.auth.id != 0
  }

  ghost predicate NoZero(s: State) {
    forall h :: LoggedIn(At(s, h)) ==> At(s, h).id != 0
  }

  lemma NoZeroKept(s: State, t: State)
    requires NoZero(s) && forall h :: At(t, h).auth == At(s, h).auth && At(t, h).id == At(s, h).id
    ensures NoZero(t)
  {
    forall h | LoggedIn(At(t, h)) ensures At(t, h).id != 0 {
      assert At(t, h).auth == At(s, h).auth;
    }
  }

  lemma NoZeroAct(s: State, action: Action)
    requires NoZero(s) && (action.LogIn? ==> action.id != 0) && (action.Pair? ==> LoggedIn(At(s, action.h)))
    ensures NoZero(Act(s, action))
  {
    var t := Act(s, action);
    hide Act;
    forall h | LoggedIn(At(t, h)) ensures At(t, h).id != 0 {
      ActOn(s, action, h);
      assert LoggedIn(At(s, h)) ==> At(s, h).id != 0;
    }
  }

  lemma NoZeroStep(cfg: Config, s: State, step: Step)
    requires NoZero(s)
    requires step.Dispatch? && step.choice.auth.Granted? ==> step.choice.auth.id != 0
    ensures NoZero(Next(cfg, s, step))
  {
    if step.Dispatch? {
      if s.phase == Handling && s.agenda == Done && s.batch != [] {
        NoZeroKept(s, Noticed(s));
        var action := Decide(cfg, Noticed(s), s.batch[0], step.choice);
        assert action.LogIn? ==> step.choice.auth.Granted? && action.id == step.choice.auth.id;
        NoZeroAct(Noticed(s), action);
      }
    } else {
      forall h ensures SameIdentity(At(s, h), At(Next(cfg, s, step), h)) {}
      NoZeroKept(s, Next(cfg, s, step));
    }
    hide NoZero, Act, Decide, Noticed, IoStep, DoExec, TickStep, AgendaStep;
  }

  lemma {:induction false} NeverZero(cfg: Config, steps: seq<Step>)
    requires NonzeroIds(steps)
    ensures NoZero(Reached(cfg, steps))
  {
    if steps != [] {
      var before := steps[..|steps| - 1];
      NeverZero(cfg, before);
      NoZeroStep(cfg, Reached(cfg, before), steps[|steps| - 1]);
      hide Next, NoZero;
    }
  }

  // ---------------------------------------------------------------- player ID 0 once it is granted

  /** A session with ID 0 is stored under it for good: no cleanup ever deletes that entry, and a
      taken ID is refused. */
  ghost predicate ZeroStays(s: State) {
    forall h :: LoggedIn(At(s, h)) && At(s, h).id == 0 ==> 0 in s.sessions && s.sessions[0] == h
  }

  lemma ZeroKept(s: State, t: State)
    requires ZeroStays(s) && t.sessions == s.sessions
    requires forall h :: At(t, h).auth == At(s, h).auth && At(t, h).id == At(s, h).id
    ensures ZeroStays(t)
  {
    forall h | LoggedIn(At(t, h)) && At(t, h).id == 0 ensures 0 in t.sessions && t.sessions[0] == h {
      assert At(t, h).auth == At(s, h).auth && At(t, h).id == At(s, h).id;
    }
  }

  lemma ZeroAct(s: State, action: Action)
    requires ZeroStays(s)
    requires action.Pair? ==> LoggedIn(At(s, action.h))
    requires action.LogIn? ==> action.id !in s.sessions
    ensures ZeroStays(Act(s, action))
  {
    ActTables(s, action);
    var t := Act(s, action);
    hide Act;
    forall h | LoggedIn(At(t, h)) && At(t, h).id == 0 ensures 0 in t.sessions && t.sessions[0] == h {
      ActOn(s, action, h);
      assert LoggedIn(At(s, h)) && At(s, h).id == 0 ==> 0 in s.sessions && s.sessions[0] == h;
    }
  }

  lemma ZeroStep(cfg: Config, s: State, step: Step)
    requires ZeroStays(s)
    ensures ZeroStays(Next(cfg, s, step))
  {
    if step.Dispatch? {
      if s.phase == Handling && s.agenda == Done && s.batch != [] {
        ZeroKept(s, Noticed(s));
        Granted(cfg, Noticed(s), s.batch[0], step.choice);
        ZeroAct(Noticed(s), Decide(cfg, Noticed(s), s.batch[0], step.choice));
      }
    } else {
      forall h ensures SameIdentity(At(s, h), At(Next(cfg, s, step), h)) {}
      ZeroKept(s, Next(cfg, s, step));
    }
    hide ZeroStays, Act, Decide, Noticed, IoStep, DoExec, TickStep, AgendaStep;
  }

  lemma Granted(cfg: Config, s: State, e: Event, choice: Choice)
    ensures var action := Decide(cfg, s, e, choice);
            && (action.LogIn? ==> action.id !in s.sessions && At(s, action.h).auth == PreLogin)
            && (action.Pair? ==> LoggedIn(At(s, action.h)))
            && (action.TearDown? <==> e.Disconnect?) && (e.Disconnect? ==> action.h == e.sess)
  {
  }

  lemma {:induction false} ZeroAlwaysStays(cfg: Config, steps: seq<Step>)
    ensures ZeroStays(Reached(cfg, steps))
  {
    if steps != [] {
      var before := steps[..|steps| - 1];
      ZeroAlwaysStays(cfg, before);
      ZeroStep(cfg, Reached(cfg, before), steps[|steps| - 1]);
      hide Next, ZeroStays;
    }
  }

  /** The UDP table leads to a session: it is ready, has that address, and is the one stored
      under its ID. */
  predicate LeadsToListed(s: State, a: Addr)
    requires a in s.udp
  {
    var c := At(s, s.udp[a]);
    c.auth == Ready && c.addr == Some(a) && c.id in s.sessions && s.sessions[c.id] == s.udp[a]
  }

  /** So do all entries of the UDP table, in every reachable state, whatever IDs are granted. */
  lemma UdpEntriesAreListed(cfg: Config, steps: seq<Step>)
    ensures forall a :: a in Reached(cfg, steps).udp ==> LeadsToListed(Reached(cfg, steps), a)
  {
    TablesAreConsistent(cfg, steps);
    ZeroAlwaysStays(cfg, steps);
    var s := Reached(cfg, steps);
    hide Reached;
    forall a | a in s.udp ensures LeadsToListed(s, a) {
      assert UdpEntryFits(s, a) && Placed(s, s.udp[a]);
    }
  }

  // ---------------------------------------------------------------- the table and the live sessions

  /** The session table holds exactly the live sessions, each under its own ID. */
  ghost predicate HoldsTheLive(s: State) {
    forall p, h :: (p in s.sessions && s.sessions[p] == h) <==> (Live(At(s, h)) && At(s, h).id == p)
  }

  /** The step cleans up a logged-in session whose ID is 0. */
  predicate Strands(s: State, step: Step) {
    && step.Dispatch? && s.phase == Handling && s.agenda == Done && s.batch != [] && s.batch[0].Disconnect?
    && var c := At(s, s.batch[0].sess); LoggedIn(c) && c.id == 0
  }

  ghost predicate NeverStrands(cfg: Config, steps: seq<Step>) {
    forall i :: 0 <= i < |steps| ==> !Strands(After(cfg, steps, i), steps[i])
  }

  predicate IsStranded(c: Session) {
    c.wire.gone && c.id == 0
  }

  lemma StepStrands(cfg: Config, s: State, step: Step, h: Handle)
    requires Placed(s, h)
    ensures IsStranded(At(Next(cfg, s, step), h))
            <==> IsStranded(At(s, h)) || (Strands(s, step) && s.batch[0].sess == h)
  {
    hide Next;
    if !step.Dispatch? {
      Lifecycle.QuietIdentity(cfg, s, step, h);
    } else {
      NextDispatch(cfg, s, step.choice);
      if s.phase == Handling && s.agenda == Done && s.batch != [] {
        DispatchOn(cfg, s, step.choice, h);
        Granted(cfg, Noticed(s), s.batch[0], step.choice);
      }
    }
    hide DoDispatch, Decide, Noticed;
  }

  lemma SplitNeverStrands(cfg: Config, steps: seq<Step>)
    requires steps != []
    ensures var n, before := |steps| - 1, steps[..|steps| - 1];
            NeverStrands(cfg, steps) <==> NeverStrands(cfg, before) && !Strands(Reached(cfg, before), steps[n])
  {
    hide Strands, Reached;
    var n, before := |steps| - 1, steps[..|steps| - 1];
    forall i | 0 <= i <= n ensures After(cfg, steps, i) == Reached(cfg, before[..i]) {
      assert steps[..i] == before[..i];
    }
    assert before[..n] == before;
    assert forall i :: 0 <= i < n ==> After(cfg, before, i) == After(cfg, steps, i) && steps[i] == before[i];
  }

  lemma SomeStrands(cfg: Config, s: State, step: Step)
    requires forall h :: Placed(s, h)
    ensures (exists h :: IsStranded(At(Next(cfg, s, step), h)))
            <==> (exists h :: IsStranded(At(s, h))) || Strands(s, step)
  {
    var t := Next(cfg, s, step);
    hide Next, IsStranded, Placed;
    forall h
      ensures IsStranded(At(t, h)) <==> IsStranded(At(s, h)) || (Strands(s, step) && s.batch[0].sess == h)
    {
      assert Placed(s, h);
      StepStrands(cfg, s, step, h);
    }
    if Strands(s, step) {
      assert IsStranded(At(t, s.batch[0].sess));
    }
    if h :| IsStranded(At(s, h)) {
      assert IsStranded(At(t, h));
    }
    if h :| IsStranded(At(t, h)) {
      assert IsStranded(At(s, h)) || Strands(s, step);
    }
  }

  lemma {:induction false} StrandedExactlyWhen(cfg: Config, steps: seq<Step>)
    ensures (exists h :: IsStranded(At(Reached(cfg, steps), h))) <==> !NeverStrands(cfg, steps)
  {
    Beginning(cfg);
    hide Reached, Next, NeverStrands, IsStranded, Strands, Placed;
    if steps != [] {
      var n, before := |steps| - 1, steps[..|steps| - 1];
      StrandedExactlyWhen(cfg, before);
      SplitNeverStrands(cfg, steps);
      TablesAreConsistent(cfg, before);
      Extend(cfg, before, steps[n]);
      assert before + [steps[n]] == steps;
      SomeStrands(cfg, Reached(cfg, before), steps[n]);
    }
  }

  lemma Beginning(cfg: Config)
    ensures NeverStrands(cfg, []) && NeverReissues(cfg, [])
    ensures UniqueForever(Reached(cfg, [])) && forall h :: !IsStranded(At(Reached(cfg, []), h))
  {
    assert Reached(cfg, []) == INIT;
    hide Reached;
  }

  /** The session table holds exactly the live sessions if and only if no step of the run cleaned
      up a session with ID 0. */
  lemma TableIsTheLiveSessionsExactlyWhen(cfg: Config, steps: seq<Step>)
    ensures HoldsTheLive(Reached(cfg, steps)) <==> NeverStrands(cfg, steps)
  {
    StrandedExactlyWhen(cfg, steps);
    TablesAreConsistent(cfg, steps);
    ZeroAlwaysStays(cfg, steps);
    var s := Reached(cfg, steps);
    hide Reached, NeverStrands;
    if exists h :: IsStranded(At(s, h)) {
      var h :| IsStranded(At(s, h));
      assert Placed(s, h);
      assert 0 in s.sessions && s.sessions[0] == h;
    } else {
      forall p, h ensures (p in s.sessions && s.sessions[p] == h) <==> (Live(At(s, h)) && At(s, h).id == p) {
        assert Placed(s, h) && !IsStranded(At(s, h));
        assert p in s.sessions ==> EntryFits(s, p);
      }
    }
  }

  /** In particular it does when no ID granted is 0. */
  lemma NonzeroIdsStrandNobody(cfg: Config, steps: seq<Step>)
    requires NonzeroIds(steps)
    ensures NeverStrands(cfg, steps) && HoldsTheLive(Reached(cfg, steps))
  {
    StrandedExactlyWhen(cfg, steps);
    TableIsTheLiveSessionsExactlyWhen(cfg, steps);
    TablesAreConsistent(cfg, steps);
    NeverZero(cfg, steps);
    var s := Reached(cfg, steps);
    hide Reached, NeverStrands, HoldsTheLive;
    forall h ensures !IsStranded(At(s, h)) {
      assert Placed(s, h);
    }
  }

  // ---------------------------------------------------------------- one session for good

  /** No two sessions that ever logged in, gone or not, have the same player ID. */
  ghost predicate UniqueForever(s: State) {
    forall h, k :: LoggedIn(At(s, h)) && LoggedIn(At(s, k)) && At(s, h).id == At(s, k).id ==> h == k
  }

  /** The step accepts a login under an ID that some session has had since the server started. */
  ghost predicate Reissues(cfg: Config, s: State, step: Step) {
    && step.Dispatch? && s.phase == Handling && s.agenda == Done && s.batch != []
    && var action := Decide(cfg, Noticed(s), s.batch[0], step.choice);
       action.LogIn? && exists k :: LoggedIn(At(s, k)) && At(s, k).id == action.id
  }

  ghost predicate NeverReissues(cfg: Config, steps: seq<Step>) {
    forall i :: 0 <= i < |steps| ==> !Reissues(cfg, After(cfg, steps, i), steps[i])
  }

  /** A login gives its ID to one session; every other session keeps what it has. */
  lemma DispatchIds(cfg: Config, s: State, choice: Choice)
    requires s.phase == Handling && s.agenda == Done && s.batch != []
    requires Consistent(s) && Fifo.Ordered(cfg, s)
    ensures var action, t := Decide(cfg, Noticed(s), s.batch[0], choice), DoDispatch(cfg, s, choice);
            && (action.LogIn? ==> !LoggedIn(At(s, action.h)))
            && forall h :: (LoggedIn(At(t, h)) <==> LoggedIn(At(s, h)) || (action.LogIn? && action.h == h))
                           && At(t, h).id == if action.LogIn? && action.h == h then action.id else At(s, h).id
  {
    var action, t := Decide(cfg, Noticed(s), s.batch[0], choice), DoDispatch(cfg, s, choice);
    assert s.hist.accepted[|s.hist.handled|] == s.batch[0] && Sourced(s);
    NoticedConsistent(s);
    DecisionFits(cfg, Noticed(s), s.batch[0], choice);
    Granted(cfg, Noticed(s), s.batch[0], choice);
    hide DoDispatch, Decide, Noticed, Consistent, Fifo.Ordered;
    forall h
      ensures (LoggedIn(At(t, h)) <==> LoggedIn(At(s, h)) || (action.LogIn? && action.h == h))
      ensures At(t, h).id == if action.LogIn? && action.h == h then action.id else At(s, h).id
    {
      DispatchOn(cfg, s, choice, h);
      if action.LogIn? || action.Pair? {
        DispatchOn(cfg, s, choice, action.h);
      }
    }
    if action.LogIn? {
      DispatchOn(cfg, s, choice, action.h);
    }
  }

  lemma UniqueStep(cfg: Config, s: State, step: Step)
    requires Consistent(s) && Fifo.Ordered(cfg, s)
    ensures UniqueForever(Next(cfg, s, step)) <==> UniqueForever(s) && !Reissues(cfg, s, step)
  {
    var t := Next(cfg, s, step);
    if step.Dispatch? && s.phase == Handling && s.agenda == Done && s.batch != [] {
      DispatchIds(cfg, s, step.choice);
      var action := Decide(cfg, Noticed(s), s.batch[0], step.choice);
      assert t == DoDispatch(cfg, s, step.choice);
      hide Next, DoDispatch, Decide, Noticed, Consistent, Fifo.Ordered;
      UniqueAfter(s, t, action);
    } else {
      assert step.Dispatch? ==> t == s;
      forall h ensures SameIdentity(At(s, h), At(t, h)) {}
      hide Next, DoDispatch, Decide, Noticed, Consistent, Fifo.Ordered;
      SameUnique(s, t);
    }
  }

  lemma SameUnique(s: State, t: State)
    requires forall h :: SameIdentity(At(s, h), At(t, h))
    ensures UniqueForever(t) <==> UniqueForever(s)
  {
    assert forall h :: At(t, h).id == At(s, h).id && LoggedIn(At(t, h)) == LoggedIn(At(s, h)) by {
      forall h ensures At(t, h).id == At(s, h).id && LoggedIn(At(t, h)) == LoggedIn(At(s, h)) {
        assert SameIdentity(At(s, h), At(t, h));
      }
    }
    hide LoggedIn;
  }

  lemma UniqueAfter(s: State, t: State, action: Action)
    requires action.LogIn? ==> !LoggedIn(At(s, action.h))
    requires forall h :: (LoggedIn(At(t, h)) <==> LoggedIn(At(s, h)) || (action.LogIn? && action.h == h))
                         && At(t, h).id == if action.LogIn? && action.h == h then action.id else At(s, h).id
    ensures UniqueForever(t)
            <==> UniqueForever(s) && !(action.LogIn? && exists k :: LoggedIn(At(s, k)) && At(s, k).id == action.id)
  {
    hide LoggedIn;
    if action.LogIn? {
      if k :| LoggedIn(At(s, k)) && At(s, k).id == action.id {
        assert LoggedIn(At(t, k)) && LoggedIn(At(t, action.h)) && At(t, k).id == At(t, action.h).id;
      }
    }
  }

  lemma SplitNeverReissues(cfg: Config, steps: seq<Step>)
    requires steps != []
    ensures var n, before := |steps| - 1, steps[..|steps| - 1];
            NeverReissues(cfg, steps) <==> NeverReissues(cfg, before) && !Reissues(cfg, Reached(cfg, before), steps[n])
  {
    hide Reissues, Reached;
    var n, before := |steps| - 1, steps[..|steps| - 1];
    forall i | 0 <= i <= n ensures After(cfg, steps, i) == Reached(cfg, before[..i]) {
      assert steps[..i] == before[..i];
    }
    assert before[..n] == before;
    assert forall i :: 0 <= i < n ==> After(cfg, before, i) == After(cfg, steps, i) && steps[i] == before[i];
  }

  /** A player ID identifies one session for the lifetime of the server if and only if no login
      of the run was accepted under an ID that had been granted before. */
  lemma {:induction false} UniqueForeverExactlyWhen(cfg: Config, steps: seq<Step>)
    ensures UniqueForever(Reached(cfg, steps)) <==> NeverReissues(cfg, steps)
  {
    Beginning(cfg);
    hide Reached, Next, NeverReissues, UniqueForever, Reissues, Consistent, Fifo.Ordered;
    if steps != [] {
      var n, before := |steps| - 1, steps[..|steps| - 1];
      UniqueForeverExactlyWhen(cfg, before);
      SplitNeverReissues(cfg, steps);
      TablesAreConsistent(cfg, before);
      Fifo.AlwaysOrdered(cfg, before);
      Extend(cfg, before, steps[n]);
      assert before + [steps[n]] == steps;
      UniqueStep(cfg, Reached(cfg, before), steps[n]);
    }
  }
}
