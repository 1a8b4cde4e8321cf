/** The life of a session as user code sees it: the authentication state only moves forward,
    each callback fires at most once, and in order. */
module Lifecycle {
  import opened Frame
  import opened Protocol
  import opened Tables
  import Conservation
  import Fifo

  datatype Kind = Auths | Connects | Teardowns

  predicate Counts(cb: Callback, h: Handle, kind: Kind) {
    match kind
    case Auths => cb.OnAuth? && cb.sess == h
    case Connects => cb.OnConnect? && cb.sess == h
    case Teardowns => cb.OnDisconnect? && cb.sess == h
  }

  /** How often a callback of the kind fired for the session. */
  function Times(log: seq<Callback>, h: Handle, kind: Kind): nat {
    if log == [] then 0
    else Times(log[..|log| - 1], h, kind) + if Counts(log[|log| - 1], h, kind) then 1 else 0
  }

  /** The callbacks that fired for a session are what its state says. */
  predicate Recorded(s: State, h: Handle) {
    var c := At(s, h);
    && Times(s.hist.log, h, Auths) == (if LoggedIn(c) then 1 else 0)
    && Times(s.hist.log, h, Connects) == (if c.auth == Ready then 1 else 0)
    && Times(s.hist.log, h, Teardowns) == c.wire.cleanups
    && (LoggedIn(c) ==> OnAuth(h, c.id, c.token) in s.hist.log)
    && (c.auth == Ready ==> OnConnect(h, c.token) in s.hist.log)
  }

  /** Each callback comes after the ones it needs: OnConnect presents the token that the same
      session's login issued, and a handler runs only once OnConnect has. */
  ghost predicate InOrder(log: seq<Callback>) {
    forall i :: 0 <= i < |log| ==> Prepared(log[..i], log[i])
  }

  ghost predicate Prepared(earlier: seq<Callback>, cb: Callback) {
    match cb
    case OnConnect(h, t) => exists id :: OnAuth(h, id, t) in earlier
    case ClientHandler(h) => exists t :: OnConnect(h, t) in earlier
    case RpcHandler(h, _) => exists t :: OnConnect(h, t) in earlier
    case _ => true
  }

  // ---------------------------------------------------------------- one step

  lemma AppendTimes(log: seq<Callback>, cb: Callback, h: Handle)
    ensures forall kind :: Times(log + [cb], h, kind) == Times(log, h, kind) + if Counts(cb, h, kind) then 1 else 0
  {
    assert (log + [cb])[..|log|] == log;
  }

  lemma AppendInOrder(log: seq<Callback>, cb: Callback)
    requires InOrder(log) && Prepared(log, cb)
    ensures InOrder(log + [cb])
  {
    var all := log + [cb];
    forall i | 0 <= i < |all| ensures Prepared(all[..i], all[i]) {
      assert i < |log| ==> all[..i] == log[..i] && Prepared(log[..i], log[i]);
      assert all[..|log|] == log;
    }
  }

  /** The callback a decision invokes, if any. */
  function Invoked(action: Action): Option<Callback> {
    match action
    case LogIn(h, id, tok) => Some(OnAuth(h, id, tok))
    case Pair(h, _, tok, _) => Some(OnConnect(h, tok))
    case CallClient(h) => Some(ClientHandler(h))
    case Request(h, cid, true) => Some(RpcHandler(h, cid))
    case TearDown(h, r) => Some(OnDisconnect(h, r))
    case _ => None
  }

  lemma ActLog(s: State, action: Action)
    ensures Act(s, action).hist.log
            == s.hist.log + if Invoked(action).Some? then [Invoked(action).value] else []
  {
    hide ActKeeps;
  }

  /** What a decision needs of the session it names. */
  predicate Ripe(s: State, action: Action) {
    match action
    case LogIn(h, _, _) => h < |s.conns| && At(s, h).auth == PreLogin
    case Pair(h, _, tok, _) => At(s, h).auth == AwaitingUdp && At(s, h).token == tok
    case CallClient(h) => At(s, h).auth == Ready
    case Request(h, _, _) => At(s, h).auth == Ready
    case TearDown(h, _) => h < |s.conns|
    case _ => true
  }

  lemma DecisionIsRipe(cfg: Config, s: State, e: Event, choice: Choice)
    requires (e.TcpMessage? || e.Disconnect?) ==> e.sess < |s.conns|
    ensures Ripe(s, Decide(cfg, s, e, choice))
  {
  }

  /** What a decision does to the fields of a session that callbacks record. */
  lemma ActFields(s: State, action: Action, h: Handle)
    requires Ripe(s, action)
    ensures var c, d := At(s, h), At(Act(s, action), h);
            && d.auth == (if action.LogIn? && action.h == h then AwaitingUdp
                else if action.Pair? && action.h == h then Ready else c.auth)
            && d.id == (if action.LogIn? && action.h == h then action.id else c.id)
            && d.token == (if action.LogIn? && action.h == h then action.token else c.token)
            && d.wire.cleanups == c.wire.cleanups + if action.TearDown? && action.h == h then 1 else 0
  {
    ActOn(s, action, h);
    hide Act;
  }

  lemma ActRecorded(s: State, action: Action, h: Handle)
    requires Recorded(s, h) && Ripe(s, action)
    ensures Recorded(Act(s, action), h)
  {
    ActLog(s, action);
    if Invoked(action).Some? {
      AppendTimes(s.hist.log, Invoked(action).value, h);
    }
    ActFields(s, action, h);
    hide Act, Times;
  }

  lemma ActInOrder(s: State, action: Action)
    requires InOrder(s.hist.log) && Ripe(s, action) && forall h :: Recorded(s, h)
    ensures InOrder(Act(s, action).hist.log)
  {
    ActLog(s, action);
    hide InOrder, ActKeeps, Act, Times;
    match Invoked(action) {
      case Some(cb) =>
        if !cb.OnTick? {
          assert Recorded(s, cb.sess);
        }
        AppendInOrder(s.hist.log, cb);
      case None =>
        assert s.hist.log + [] == s.hist.log;
    }
  }

  lemma DispatchRecorded(cfg: Config, s: State, choice: Choice)
    requires Consistent(s) && Fifo.Ordered(cfg, s) && forall h :: Conservation.Conserved(s, h)
    requires InOrder(s.hist.log) && forall h :: Recorded(s, h)
    ensures var t := DoDispatch(cfg, s, choice);
            InOrder(t.hist.log) && forall h :: Recorded(t, h)
  {
    if s.phase == Handling && s.agenda == Done && s.batch != [] {
      var e, n := s.batch[0], Noticed(s);
      assert s.hist.accepted[|s.hist.handled|] == e;
      if e.Disconnect? {
        assert Conservation.Conserved(s, e.sess);
        assert Conservation.DisconnectsIn(s.batch, e.sess) > 0;
      }
      hide InOrder, Conservation.Conserved, Act, Times;
      var action := Decide(cfg, n, e, choice);
      DecisionIsRipe(cfg, n, e, choice);
      hide Decide;
      forall h ensures Recorded(n, h) {
        assert Recorded(s, h);
      }
      ActInOrder(n, action);
      forall h ensures Recorded(Act(n, action), h) {
        ActRecorded(n, action, h);
      }
      hide Recorded, Ripe;
    }
  }

  lemma StepRecorded(cfg: Config, s: State, step: Step)
    requires Consistent(s) && Fifo.Ordered(cfg, s) && forall h :: Conservation.Conserved(s, h)
    requires InOrder(s.hist.log) && forall h :: Recorded(s, h)
    ensures var t := Next(cfg, s, step);
            InOrder(t.hist.log) && forall h :: Recorded(t, h)
  {
    hide InOrder, Consistent, Fifo.Ordered, Conservation.Conserved, Times;
    var t := Next(cfg, s, step);
    if step.Dispatch? {
      DispatchRecorded(cfg, s, step.choice);
    } else {
      forall h ensures Recorded(t, h) {
        QuietRecorded(cfg, s, step, h);
      }
      QuietInOrder(cfg, s, step);
    }
    hide DoDispatch, Recorded, Next;
  }

  lemma QuietLog(cfg: Config, s: State, step: Step)
    requires !step.Dispatch?
    ensures Next(cfg, s, step).hist.log == s.hist.log || Next(cfg, s, step).hist.log == s.hist.log + [OnTick]
  {
    hide IoStep, DoExec, AgendaStep;
  }

  lemma QuietIdentity(cfg: Config, s: State, step: Step, h: Handle)
    requires !step.Dispatch?
    ensures SameIdentity(At(s, h), At(Next(cfg, s, step), h))
  {
    hide IoStep, DoExec, TickStep, AgendaStep;
  }

  lemma QuietRecorded(cfg: Config, s: State, step: Step, h: Handle)
    requires !step.Dispatch? && Recorded(s, h)
    ensures Recorded(Next(cfg, s, step), h)
  {
    QuietLog(cfg, s, step);
    QuietIdentity(cfg, s, step, h);
    AppendTimes(s.hist.log, OnTick, h);
    hide Times, Next;
  }

  lemma QuietInOrder(cfg: Config, s: State, step: Step)
    requires !step.Dispatch? && InOrder(s.hist.log)
    ensures InOrder(Next(cfg, s, step).hist.log)
  {
    QuietLog(cfg, s, step);
    AppendInOrder(s.hist.log, OnTick);
    hide Next, InOrder;
  }

  // ---------------------------------------------------------------- every run

  lemma {:induction false} AlwaysRecorded(cfg: Config, steps: seq<Step>)
    ensures var s := Reached(cfg, steps);
            InOrder(s.hist.log) && forall h :: Recorded(s, h)
  {
    if steps != [] {
      var before := steps[..|steps| - 1];
      AlwaysRecorded(cfg, before);
      TablesAreConsistent(cfg, before);
      Fifo.AlwaysOrdered(cfg, before);
      forall h ensures Conservation.Conserved(Reached(cfg, before), h) {
        Conservation.DisconnectsAreConserved(cfg, before, h);
      }
      StepRecorded(cfg, Reached(cfg, before), steps[|steps| - 1]);
      hide Next, Consistent, Fifo.Ordered, Conservation.Conserved, Recorded, InOrder;
    }
  }

  /** OnAuth, OnConnect and OnDisconnect each fire at most once for a session. */
  lemma CallbacksFireAtMostOnce(cfg: Config, steps: seq<Step>, h: Handle, kind: Kind)
    ensures Times(Reached(cfg, steps).hist.log, h, kind) <= 1
  {
    AlwaysRecorded(cfg, steps);
    assert Recorded(Reached(cfg, steps), h);
    Conservation.CleanupAtMostOnce(cfg, steps, h);
    hide Reached, Times;
  }

  /** OnConnect fires only after the same session's login issued the token it was presented,
      and handlers run only on sessions OnConnect fired for. */
  lemma CallbacksFireInOrder(cfg: Config, steps: seq<Step>)
    ensures InOrder(Reached(cfg, steps).hist.log)
  {
    AlwaysRecorded(cfg, steps);
  }

  // ---------------------------------------------------------------- forward only

  function Rank(a: Auth): nat {
    match a
    case PreLogin => 0
    case AwaitingUdp => 1
    case Ready => 2
  }

  /** A session moves forward by at most one state, and what it was given stays. */
  predicate Advances(c: Session, d: Session) {
    && Rank(c.auth) <= Rank(d.auth)
    && (LoggedIn(c) ==> d.id == c.id && d.token == c.token)
    && (c.auth == Ready ==> d.addr == c.addr)
    && (c.mark.Some? ==> d.mark == c.mark)
    && (c.wire.gone ==> d.wire.gone)
    && c.wire.cleanups <= d.wire.cleanups && c.wire.drops <= d.wire.drops
  }

  lemma StepAdvances(cfg: Config, s: State, step: Step, h: Handle)
    requires Sourced(s) && Fifo.Ordered(cfg, s)
    ensures var c, d := At(s, h), At(Next(cfg, s, step), h);
            Advances(c, d) && Rank(d.auth) <= Rank(c.auth) + 1
  {
    if step.Dispatch? {
      if s.phase == Handling && s.agenda == Done && s.batch != [] {
        var e, n := s.batch[0], Noticed(s);
        assert s.hist.accepted[|s.hist.handled|] == e;
        var action := Decide(cfg, n, e, step.choice);
        DecisionAwaits(cfg, n, e, step.choice);
        hide Decide, Act, Fifo.Ordered;
        ActAdvances(n, action, h);
      }
    } else {
      assert SameIdentity(At(s, h), At(Next(cfg, s, step), h));
      QuietAdvances(cfg, s, step, h);
      hide Next;
    }
    hide Act, Decide, IoStep, DoExec, TickStep, AgendaStep, Fifo.Ordered;
  }

  lemma DecisionAwaits(cfg: Config, s: State, e: Event, choice: Choice)
    ensures Awaited(s, Decide(cfg, s, e, choice))
  {
  }

  predicate Awaited(s: State, action: Action) {
    match action
    case LogIn(h, _, _) => At(s, h).auth == PreLogin
    case Pair(h, _, _, _) => At(s, h).auth == AwaitingUdp
    case _ => true
  }

  lemma ActAdvances(s: State, action: Action, h: Handle)
    requires Awaited(s, action)
    ensures var c, d := At(s, h), At(Act(s, action), h);
            Advances(c, d) && Rank(d.auth) <= Rank(c.auth) + 1
  {
    ActOn(s, action, h);
    hide Act;
  }

  lemma QuietAdvances(cfg: Config, s: State, step: Step, h: Handle)
    requires !step.Dispatch?
    ensures var c, d := At(s, h), At(Next(cfg, s, step), h);
            (c.mark.Some? ==> d.mark == c.mark) && c.wire.drops <= d.wire.drops
  {
    if At(s, h).mark.Some? {
      MarksStay(cfg, s, step, h);
    }
    StepDrops(cfg, s, step, h);
    hide Next, Loses;
  }

  /** The disconnect flag is never cleared, nor the reason that set it replaced. */
  lemma MarksStay(cfg: Config, s: State, step: Step, h: Handle)
    requires !step.Dispatch? && At(s, h).mark.Some?
    ensures At(Next(cfg, s, step), h).mark == At(s, h).mark
  {
    if IsIo(step) {
      IoMarksStay(cfg, s, step, h);
    } else if step.Exec? {
      ExecMarksStay(cfg, s, h);
    }
    hide IoStep, DoExec, TickStep, AgendaStep;
  }

  lemma IoMarksStay(cfg: Config, s: State, step: Step, h: Handle)
    requires IsIo(step) && At(s, h).mark.Some?
    ensures At(IoStep(cfg, s, step), h).mark == At(s, h).mark
  {
    hide IoKeeps, DoReceive;
  }

  lemma ExecMarksStay(cfg: Config, s: State, h: Handle)
    requires At(s, h).mark.Some?
    ensures At(DoExec(cfg, s), h).mark == At(s, h).mark
  {
    hide ExecKeeps;
  }

  lemma IsSourced(s: State)
    requires Consistent(s)
    ensures Sourced(s)
  {
  }

  lemma AdvancesFurther(c: Session, d: Session, e: Session)
    requires Advances(c, d) && Advances(d, e)
    ensures Advances(c, e)
  {
  }

  /** Over any continuation of any run a session's authentication state never moves back, and
      its ID, token, address and disconnect reason, once set, stay. */
  lemma {:induction false} SessionsOnlyAdvance(cfg: Config, steps: seq<Step>, more: seq<Step>, h: Handle)
    ensures Advances(At(Reached(cfg, steps), h), At(Reached(cfg, steps + more), h))
    decreases |more|
  {
    if more == [] {
      assert steps + more == steps;
      assert Advances(At(Reached(cfg, steps), h), At(Reached(cfg, steps), h));
    } else {
      var rest := more[..|more| - 1];
      var all := steps + more;
      assert all[..|all| - 1] == steps + rest;
      hide Next, Fifo.Ordered, Consistent, Advances;
      SessionsOnlyAdvance(cfg, steps, rest, h);
      var s, t := Reached(cfg, steps + rest), Reached(cfg, all);
      assert t == Next(cfg, s, more[|more| - 1]);
      hide Reached;
      TablesAreConsistent(cfg, steps + rest);
      assert Sourced(s) by { IsSourced(s); }
      Fifo.AlwaysOrdered(cfg, steps + rest);
      StepAdvances(cfg, s, more[|more| - 1], h);
      AdvancesFurther(At(Reached(cfg, steps), h), At(s, h), At(t, h));
    }
    hide Reached, Advances;
  }

  /** A disconnect event lost to a full queue is lost for good: in no continuation is the session
      ever cleaned up, and OnDisconnect never fires for it. */
  lemma DroppedIsNeverCleaned(cfg: Config, steps: seq<Step>, more: seq<Step>, h: Handle)
    requires At(Reached(cfg, steps), h).wire.drops > 0
    ensures var t := Reached(cfg, steps + more);
            At(t, h).mark.Some? && At(t, h).wire.cleanups == 0 && Times(t.hist.log, h, Teardowns) == 0
  {
    SessionsOnlyAdvance(cfg, steps, more, h);
    Conservation.CleanupAtMostOnce(cfg, steps + more, h);
    AlwaysRecorded(cfg, steps + more);
    hide Reached, Times;
    assert Recorded(Reached(cfg, steps + more), h);
  }

  // ---------------------------------------------------------------- when a disconnect is lost

  /** The step pushes the session's disconnect event onto a full queue. */
  predicate Loses(cfg: Config, s: State, step: Step, h: Handle) {
    && h < |s.conns| && |s.queue| >= cfg.eventDepth
    && match step
       case ReaderPost(k) => k == h && s.conns[h].wire.reader.Posting?
       case Exec => s.agenda.Then? && s.agenda.op.Post? && s.agenda.op.who == h
       case _ => false
  }

  ghost predicate NeverLoses(cfg: Config, steps: seq<Step>, h: Handle) {
    forall i :: 0 <= i < |steps| ==> !Loses(cfg, After(cfg, steps, i), steps[i], h)
  }

  lemma StepDrops(cfg: Config, s: State, step: Step, h: Handle)
    ensures At(Next(cfg, s, step), h).wire.drops == At(s, h).wire.drops + if Loses(cfg, s, step, h) then 1 else 0
  {
    if step.Dispatch? {
      assert SameTraffic(At(s, h), At(DoDispatch(cfg, s, step.choice), h));
    } else if step.Exec? {
      ExecDropsExactly(cfg, s, h);
    } else if IsIo(step) {
      IoDropsExactly(cfg, s, step, h);
    }
    hide DoDispatch, IoStep, DoExec, TickStep, AgendaStep;
  }

  lemma IoDropsExactly(cfg: Config, s: State, step: Step, h: Handle)
    requires IsIo(step)
    ensures At(IoStep(cfg, s, step), h).wire.drops
            == At(s, h).wire.drops + if Loses(cfg, s, step, h) then 1 else 0
  {
    hide IoKeeps, SendsNothing, DecodeOne;
  }

  lemma ExecDropsExactly(cfg: Config, s: State, h: Handle)
    ensures At(DoExec(cfg, s), h).wire.drops == At(s, h).wire.drops + if Loses(cfg, s, Exec, h) then 1 else 0
  {
    hide ExecKeeps;
  }

  /** A session's disconnect has been lost exactly when some step of the run pushed it onto a
      full queue. */
  lemma {:induction false} LostExactlyWhen(cfg: Config, steps: seq<Step>, h: Handle)
    ensures At(Reached(cfg, steps), h).wire.drops == 0 <==> NeverLoses(cfg, steps, h)
  {
    hide Loses, Next;
    if steps != [] {
      var n, before := |steps| - 1, steps[..|steps| - 1];
      LostExactlyWhen(cfg, before, h);
      assert Reached(cfg, steps) == Next(cfg, Reached(cfg, before), steps[n]);
      hide Reached;
      StepDrops(cfg, Reached(cfg, before), steps[n], h);
      SplitNeverLoses(cfg, steps, h);
      hide NeverLoses;
    }
  }

  lemma SplitNeverLoses(cfg: Config, steps: seq<Step>, h: Handle)
    requires steps != []
    ensures var n, before := |steps| - 1, steps[..|steps| - 1];
            NeverLoses(cfg, steps, h) <==> NeverLoses(cfg, before, h) && !Loses(cfg, Reached(cfg, before), steps[n], h)
  {
    hide Loses, Reached;
    var n, before := |steps| - 1, steps[..|steps| - 1];
    forall i | 0 <= i < n ensures After(cfg, steps, i) == After(cfg, before, i) {
      assert steps[..i] == before[..i];
    }
    assert After(cfg, steps, n) == Reached(cfg, before);
    if NeverLoses(cfg, steps, h) {
      forall i | 0 <= i < n ensures !Loses(cfg, After(cfg, before, i), before[i], h) {
        assert !Loses(cfg, After(cfg, steps, i), steps[i], h);
      }
    }
    if NeverLoses(cfg, before, h) && !Loses(cfg, Reached(cfg, before), steps[n], h) {
      forall i | 0 <= i <= n ensures !Loses(cfg, After(cfg, steps, i), steps[i], h) {
        assert i < n ==> !Loses(cfg, After(cfg, before, i), before[i], h);
      }
    }
  }

  /** When nothing is under way any more, a marked session has been cleaned up exactly when no
      push of its disconnect event met a full queue. */
  lemma CleanedExactlyWhenNeverLost(cfg: Config, steps: seq<Step>, h: Handle)
    requires var s := Reached(cfg, steps);
             && At(s, h).mark.Some? && !At(s, h).wire.reader.Posting?
             && s.queue == [] && s.batch == [] && s.agenda == Done
    ensures At(Reached(cfg, steps), h).wire.cleanups == 1 <==> NeverLoses(cfg, steps, h)
  {
    Conservation.DisconnectsAreConserved(cfg, steps, h);
    LostExactlyWhen(cfg, steps, h);
    hide Reached, NeverLoses;
  }
}
