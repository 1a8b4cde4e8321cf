/** Subscriptions and teardown together: handlers that subscribe only their own player, and an
    OnDisconnect that drops its session's subscriptions, leave no subscriber behind. */
module Leaks {
  import opened Protocol
  import opened Identity
  import opened Tables
  import Fifo

  /** The session on whose behalf a callback may subscribe. */
  function Subscriber(cb: Callback): Option<Handle> {
    match cb
    case OnAuth(h, _, _) => Some(h)
    case OnConnect(h, _) => Some(h)
    case ClientHandler(h) => Some(h)
    case RpcHandler(h, _) => Some(h)
    case _ => None
  }

  /** User code keeps to the rule: a callback subscribes only its own session's player, or
      players that are listed, and OnDisconnect returns only after calling UnsubscribeAll with its session's ID. */
  predicate Disciplined(s: State, step: Step) {
    s.agenda.Then? && s.agenda.op.Run? ==>
      var cb := s.agenda.op.callback;
      match step
      case User(Subscribe(p, _)) => p in s.sessions || (Subscriber(cb).Some? && At(s, Subscriber(cb).value).id == p)
      case Return(_) => cb.OnDisconnect? ==> UnsubscribeAll(At(s, cb.sess).id) in s.calls
      case _ => true
  }

  /** The session whose OnDisconnect is somewhere on the agenda. */
  function Leaving(a: Agenda): Option<Handle> {
    match a
    case Done => None
    case Then(op, rest) => if op.Run? && op.callback.OnDisconnect? then Some(op.callback.sess) else Leaving(rest)
  }

  /** Every other callback on the agenda belongs to a listed player. */
  predicate RunsListed(s: State, a: Agenda) {
    match a
    case Done => true
    case Then(op, rest) =>
      (op.Run? && Subscriber(op.callback).Some? ==> At(s, Subscriber(op.callback).value).id in s.sessions)
      && RunsListed(s, rest)
  }

  predicate Accounted(s: State, p: PlayerId) {
    p in s.sessions
    || (Leaving(s.agenda).Some? && At(s, Leaving(s.agenda).value).id == p && UnsubscribeAll(p) !in s.calls)
  }

  ghost predicate NoLeak(s: State) {
    RunsListed(s, s.agenda) && forall q :: q in s.subs ==> Accounted(s, q.0)
  }

  // ---------------------------------------------------------------- one step

  lemma Plans(s: State, a: Agenda)
    ensures a.Then? ==> Leaving(a) == if a.op.Run? && a.op.callback.OnDisconnect? then Some(a.op.callback.sess)
            else Leaving(a.rest)
    ensures forall op, rest :: Leaving(Then(op, rest))
                               == if op.Run? && op.callback.OnDisconnect? then Some(op.callback.sess) else Leaving(rest)
    ensures a.Then? && RunsListed(s, a) ==> RunsListed(s, a.rest)
    ensures forall op, rest :: RunsListed(s, Then(op, rest)) <==>
                                 (op.Run? && Subscriber(op.callback).Some? ==>
                                     At(s, Subscriber(op.callback).value).id in s.sessions)
                                 && RunsListed(s, rest)
  {
  }

  /** The listing of an agenda depends only on the tables and the sessions' IDs. */
  lemma {:induction false} SameListing(s: State, t: State, a: Agenda)
    requires RunsListed(s, a) && t.sessions == s.sessions && forall h :: At(t, h).id == At(s, h).id
    ensures RunsListed(t, a)
  {
    if a.Then? {
      SameListing(s, t, a.rest);
    }
  }

  lemma SameIds(s: State, t: State)
    requires forall h :: SameIdentity(At(s, h), At(t, h))
    ensures forall h :: At(t, h).id == At(s, h).id
  {
    forall h ensures At(t, h).id == At(s, h).id {
      assert SameIdentity(At(s, h), At(t, h));
    }
  }

  lemma IoNoLeak(cfg: Config, s: State, step: Step)
    requires NoLeak(s) && IsIo(step)
    ensures NoLeak(IoStep(cfg, s, step))
  {
    var t := IoStep(cfg, s, step);
    hide IoStep;
    SameIds(s, t);
    SameListing(s, t, s.agenda);
    forall q | q in t.subs ensures Accounted(t, q.0) {
      assert Accounted(s, q.0);
    }
  }

  /** Executing an operation adds only sends, marks and posts. */
  lemma ExecAgenda(cfg: Config, s: State)
    ensures var t := DoExec(cfg, s);
            Leaving(t.agenda) == Leaving(s.agenda) && (RunsListed(s, s.agenda) ==> RunsListed(s, t.agenda))
  {
    Plans(s, s.agenda);
    hide Leaving, RunsListed, ExecKeeps;
  }

  lemma ExecNoLeak(cfg: Config, s: State)
    requires NoLeak(s)
    ensures NoLeak(DoExec(cfg, s))
  {
    var t := DoExec(cfg, s);
    ExecAgenda(cfg, s);
    hide DoExec, Leaving;
    SameIds(s, t);
    SameListing(s, t, t.agenda);
    forall q | q in t.subs ensures Accounted(t, q.0) {
      assert Accounted(s, q.0);
    }
  }

  lemma TickNoLeak(cfg: Config, s: State, step: Step)
    requires NoLeak(s) && IsTick(step)
    ensures NoLeak(TickStep(cfg, s, step))
  {
    Plans(s, s.agenda);
    var t := TickStep(cfg, s, step);
    SameListing(s, t, t.agenda) by { hide Leaving; }
    forall q | q in t.subs ensures Accounted(t, q.0) {
      assert Accounted(s, q.0);
    }
    hide Leaving, RunsListed;
  }

  lemma PickNoLeak(s: State, p: PlayerId)
    requires NoLeak(s)
    ensures NoLeak(DoPick(s, p))
  {
    Plans(s, s.agenda);
    var t := DoPick(s, p);
    hide Leaving, RunsListed;
    SameListing(s, t, t.agenda);
    forall q | q in t.subs ensures Accounted(t, q.0) {
      assert Accounted(s, q.0);
    }
  }

  lemma UserNoLeak(s: State, call: UserCall)
    requires NoLeak(s) && Disciplined(s, User(call))
    ensures NoLeak(DoUser(s, call))
  {
    Plans(s, s.agenda);
    var t := DoUser(s, call);
    hide Leaving;
    assert RunsListed(s, t.agenda);
    SameListing(s, t, t.agenda);
    forall q | q in t.subs ensures Accounted(t, q.0) {
      assert q in s.subs ==> Accounted(s, q.0);
    }
    hide RunsListed;
  }

  lemma ReturnNoLeak(s: State, outcome: Outcome)
    requires NoLeak(s) && Disciplined(s, Return(outcome))
    ensures NoLeak(DoReturn(s, outcome))
  {
    Plans(s, s.agenda);
    var t := DoReturn(s, outcome);
    hide Leaving, RunsListed;
    SameListing(s, t, t.agenda);
    forall q | q in t.subs ensures Accounted(t, q.0) {
      assert Accounted(s, q.0);
    }
  }

  /** A decision that invokes a handler names a listed player. */
  lemma DecisionIsListed(cfg: Config, s: State, e: Event, choice: Choice)
    requires Consistent(s) && ZeroStays(s)
    ensures match Decide(cfg, s, e, choice)
            case CallClient(h) => At(s, h).id in s.sessions
            case Request(h, _, _) => At(s, h).id in s.sessions
            case Pair(h, _, _, _) => At(s, h).id in s.sessions
            case _ => true
  {
    forall p | p in s.sessions ensures EntryFits(s, p) {}
    forall a | a in s.udp ensures UdpEntryFits(s, a) && Placed(s, s.udp[a]) {}
    forall h | LoggedIn(At(s, h)) && At(s, h).id == 0 ensures 0 in s.sessions {}
    hide Consistent, ZeroStays;
  }

  lemma ActNoLeak(s: State, action: Action)
    requires NoLeak(s) && s.agenda == Done
    requires match action
             case CallClient(h) => At(s, h).id in s.sessions
             case Request(h, _, _) => At(s, h).id in s.sessions
             case Pair(h, _, _, _) => At(s, h).id in s.sessions
             case LogIn(h, _, _) => h < |s.conns|
             case _ => true
    ensures NoLeak(Act(s, action))
  {
    Plans(Act(s, action), Act(s, action).agenda);
    var t := Act(s, action);
    assert RunsListed(t, Done) && Leaving(Done) == None;
    hide Leaving, RunsListed, ActKeeps;
    forall q | q in t.subs ensures Accounted(t, q.0) {
      assert Accounted(s, q.0);
    }
  }

  lemma DispatchNoLeak(cfg: Config, s: State, choice: Choice)
    requires NoLeak(s) && Consistent(s) && ZeroStays(s) && Fifo.Ordered(cfg, s)
    ensures NoLeak(DoDispatch(cfg, s, choice))
  {
    if s.phase == Handling && s.agenda == Done && s.batch != [] {
      var e, n := s.batch[0], Noticed(s);
      assert s.hist.accepted[|s.hist.handled|] == e;
      NoticedConsistent(s);
      ZeroKept(s, n);
      DecisionIsListed(cfg, n, e, choice);
      DecisionFits(cfg, n, e, choice);
      hide Consistent, ZeroStays, Decide, Fifo.Ordered;
      forall q | q in n.subs ensures Accounted(n, q.0) {
        assert Accounted(s, q.0);
      }
      ActNoLeak(n, Decide(cfg, n, e, choice));
      hide Act;
    }
    hide NoLeak;
  }

  lemma NoLeakStep(cfg: Config, s: State, step: Step)
    requires NoLeak(s) && Consistent(s) && ZeroStays(s) && Fifo.Ordered(cfg, s) && Disciplined(s, step)
    ensures NoLeak(Next(cfg, s, step))
  {
    hide NoLeak, Consistent, ZeroStays, DoDispatch, DoExec, IoStep, TickStep, Fifo.Ordered, Disciplined;
    hide DoPick, DoUser, DoReturn;
    match step {
      case Dispatch(choice) => DispatchNoLeak(cfg, s, choice);
      case Exec => ExecNoLeak(cfg, s);
      case Pick(p) => PickNoLeak(s, p);
      case User(call) => UserNoLeak(s, call);
      case Return(outcome) => ReturnNoLeak(s, outcome);
      case _ =>
        if IsIo(step) {
          IoNoLeak(cfg, s, step);
        } else {
          TickNoLeak(cfg, s, step);
        }
    }
  }

  // ---------------------------------------------------------------- every run

  ghost predicate DisciplinedRun(cfg: Config, steps: seq<Step>) {
    forall i :: 0 <= i < |steps| ==> Disciplined(After(cfg, steps, i), steps[i])
  }

  lemma {:induction false} NeverLeaks(cfg: Config, steps: seq<Step>)
    requires DisciplinedRun(cfg, steps)
    ensures NoLeak(Reached(cfg, steps))
  {
    hide Disciplined, NoLeak, Consistent, ZeroStays, Fifo.Ordered, Next;
    if steps == [] {
      EmptyNoLeak();
    } else {
      var n, before := |steps| - 1, steps[..|steps| - 1];
      forall i | 0 <= i < n ensures Disciplined(After(cfg, before, i), before[i]) {
        assert steps[..i] == before[..i];
        assert Disciplined(After(cfg, steps, i), steps[i]);
      }
      NeverLeaks(cfg, before);
      TablesAreConsistent(cfg, before);
      ZeroAlwaysStays(cfg, before);
      Fifo.AlwaysOrdered(cfg, before);
      assert Disciplined(After(cfg, steps, n), steps[n]);
      NoLeakStep(cfg, Reached(cfg, before), steps[n]);
    }
  }

  lemma EmptyNoLeak()
    ensures NoLeak(INIT)
  {
  }

  /** Between event steps of every disciplined run, every subscriber is a key of the session
      table. */
  lemma NoSubscriptionLeak(cfg: Config, steps: seq<Step>, p: PlayerId, topic: Topic)
    requires DisciplinedRun(cfg, steps)
    requires Reached(cfg, steps).agenda == Done && (p, topic) in Reached(cfg, steps).subs
    ensures p in Reached(cfg, steps).sessions
  {
    NeverLeaks(cfg, steps);
    var s := Reached(cfg, steps);
    hide Reached, DisciplinedRun;
    assert Accounted(s, (p, topic).0);
  }
}
