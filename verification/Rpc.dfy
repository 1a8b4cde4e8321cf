/** Requests and responses: every dispatched request gets exactly one response. */
module Rpc {
  import opened Protocol
  import Outbound

  /** The correlation IDs of the responses among some outbound frames. */
  function ResponseIds(fs: seq<ServerFrame>): seq<nat> {
    if fs == [] then []
    else ResponseIds(fs[..|fs| - 1]) + if fs[|fs| - 1].RpcResponse? then [fs[|fs| - 1].cid] else []
  }

  /** The response an operation of the agenda will make for h. */
  function OwedBy(op: Op, h: Handle): seq<nat> {
    match op
    case Run(RpcHandler(k, cid)) => if k == h then [cid] else []
    case Push(k, RpcResponse(cid, _)) => if k == h then [cid] else []
    case _ => []
  }

  function Owed(a: Agenda, h: Handle): seq<nat> {
    match a
    case Done => []
    case Then(op, rest) => OwedBy(op, h) + Owed(rest, h)
  }

  /** The responses queued so far, then the one still owed, answer the requests in order. */
  predicate Settled(s: State, h: Handle) {
    ResponseIds(At(s, h).wire.offered) + Owed(s.agenda, h) == At(s, h).wire.requests
  }

  // ---------------------------------------------------------------- one step

  lemma AppendIds(fs: seq<ServerFrame>, f: ServerFrame)
    ensures ResponseIds(fs + [f]) == ResponseIds(fs) + if f.RpcResponse? then [f.cid] else []
  {
    assert (fs + [f])[..|fs|] == fs;
  }

  lemma Plans(a: Agenda, h: Handle)
    ensures a.Then? ==> Owed(a, h) == OwedBy(a.op, h) + Owed(a.rest, h)
    ensures forall op, rest :: Owed(Then(op, rest), h) == OwedBy(op, h) + Owed(rest, h)
  {
  }

  lemma FreeOps(h: Handle)
    ensures forall op, rest :: OwedBy(op, h) == [] ==> Owed(Then(op, rest), h) == Owed(rest, h)
  {
  }

  lemma IoAnswered(cfg: Config, s: State, step: Step, h: Handle)
    requires Settled(s, h) && IsIo(step)
    ensures Settled(IoStep(cfg, s, step), h)
  {
    assert SameIdentity(At(s, h), At(IoStep(cfg, s, step), h));
    assert step.Write? ==> At(IoStep(cfg, s, step), h).wire.offered == At(s, h).wire.offered;
    hide ResponseIds, Owed, DoAccept, DoReceive, DoStopReading, DoReaderMark, DoReaderPost, DoDatagram, DoWrite;
  }

  /** Whichever way a push goes, the frame has been offered, and nobody owes anything new. */
  lemma PushOffers(cfg: Config, s: State, k: Handle, f: ServerFrame, h: Handle)
    ensures var t, c := DoPush(cfg, s, k, f), At(s, h);
            && At(t, h).wire.offered == (if k == h < |s.conns| then c.wire.offered + [f] else c.wire.offered)
            && At(t, h).wire.requests == c.wire.requests
            && (t.agenda == s.agenda || (t.agenda.Then? && t.agenda.op.Mark? && t.agenda.rest == s.agenda))
  {
    hide ExecKeeps;
  }

  lemma Regroup(a: seq<nat>, b: seq<nat>, c: seq<nat>)
    ensures a + (b + c) == (a + b) + c && [] + c == c && a + [] == a
  {
  }

  lemma PushAnswered(cfg: Config, s: State, k: Handle, f: ServerFrame, h: Handle)
    requires Settled(s.(agenda := Then(Push(k, f), s.agenda)), h)
    ensures Settled(DoPush(cfg, s, k, f), h)
  {
    var t, c := DoPush(cfg, s, k, f), At(s, h);
    var debt := OwedBy(Push(k, f), h);
    PushOffers(cfg, s, k, f, h);
    AppendIds(c.wire.offered, f);
    assert Owed(Then(Push(k, f), s.agenda), h) == debt + Owed(s.agenda, h);
    assert Owed(t.agenda, h) == Owed(s.agenda, h) by {
      Plans(t.agenda, h);
      Regroup([], [], Owed(s.agenda, h));
    }
    assert h >= |s.conns| ==> c == BLANK && ResponseIds(c.wire.offered) == [];
    hide ResponseIds, Owed, DoPush;
    Regroup(ResponseIds(c.wire.offered), debt, Owed(s.agenda, h));
  }

  lemma ExecAnswered(cfg: Config, s: State, h: Handle)
    requires Settled(s, h)
    ensures Settled(DoExec(cfg, s), h)
  {
    if s.agenda.Then? {
      Plans(s.agenda, h);
      var op, t := s.agenda.op, s.(agenda := s.agenda.rest);
      assert s == t.(agenda := Then(op, t.agenda));
      hide ResponseIds, Owed;
      assert !op.Push? && !op.Run? ==> Settled(t, h);
      match op {
        case Push(k, f) => PushAnswered(cfg, t, k, f, h);
        case Mark(k, r) => QuietExecAnswered(cfg, t, op, h);
        case Post(k, r) => QuietExecAnswered(cfg, t, op, h);
        case _ =>
      }
      hide DoPush, DoMark, DoPost;
    }
  }

  lemma QuietExecAnswered(cfg: Config, s: State, op: Op, h: Handle)
    requires Settled(s, h)
    ensures op.Mark? ==> Settled(DoMark(s, op.who, op.why), h)
    ensures op.Post? ==> Settled(DoPost(cfg, s, op.who, op.why), h)
  {
    Plans(s.agenda, h);
    hide ResponseIds, Owed, ExecKeeps;
  }

  lemma RequestAnswered(s: State, k: Handle, cid: nat, found: bool, h: Handle)
    requires Settled(s, h) && s.agenda == Done && k < |s.conns|
    ensures Settled(DoRequest(s, k, cid, found), h)
  {
    Plans(s.agenda, h);
    assert Owed(Done, h) == [];
    hide ResponseIds, Owed, ActKeeps;
  }

  /** Only requests are owed a response. */
  lemma OtherActOwes(s: State, action: Action, h: Handle)
    requires s.agenda == Done && !action.Request?
    ensures Owed(Act(s, action).agenda, h) == [] && At(Act(s, action), h).wire.requests == At(s, h).wire.requests
  {
    FreeOps(h);
    assert Owed(Done, h) == [];
    hide Owed, ActKeeps;
  }

  lemma ActAnswered(s: State, action: Action, h: Handle)
    requires Settled(s, h) && s.agenda == Done
    requires action.Request? ==> action.h < |s.conns|
    ensures Settled(Act(s, action), h)
  {
    if action.Request? {
      RequestAnswered(s, action.h, action.cid, action.found, h);
      hide Settled;
    } else {
      assert SameTraffic(At(s, h), At(Act(s, action), h));
      OtherActOwes(s, action, h);
      assert Owed(Done, h) == [];
      hide Act;
    }
    hide ResponseIds, Owed, DoRequest;
  }

  lemma DispatchAnswered(cfg: Config, s: State, choice: Choice, h: Handle)
    requires Settled(s, h)
    ensures Settled(DoDispatch(cfg, s, choice), h)
  {
    if s.phase == Handling && s.agenda == Done && s.batch != [] {
      var action := Decide(cfg, Noticed(s), s.batch[0], choice);
      assert action.Request? ==> At(Noticed(s), action.h).auth == Ready;
      hide Decide;
      ActAnswered(Noticed(s), action, h);
      hide Act, ResponseIds, Owed;
    }
  }

  lemma QuietAnswered(cfg: Config, s: State, step: Step, h: Handle)
    requires Settled(s, h) && (IsTick(step) || IsAgenda(step))
    ensures Settled(if IsTick(step) then TickStep(cfg, s, step) else AgendaStep(s, step), h)
  {
    if IsTick(step) {
      TickOwes(cfg, s, step, h);
    } else {
      AgendaOwes(s, step, h);
    }
    hide ResponseIds, Owed, TickStep, AgendaStep;
  }

  lemma TickOwes(cfg: Config, s: State, step: Step, h: Handle)
    requires IsTick(step)
    ensures Owed(TickStep(cfg, s, step).agenda, h) == Owed(s.agenda, h)
  {
    Plans(s.agenda, h);
    hide Owed;
  }

  lemma AgendaOwes(s: State, step: Step, h: Handle)
    requires IsAgenda(step)
    ensures Owed(AgendaStep(s, step).agenda, h) == Owed(s.agenda, h)
  {
    FreeOps(h);
    SameDebt(h);
    hide Owed;
  }

  lemma SameDebt(h: Handle)
    ensures forall p, q, rest :: OwedBy(p, h) == OwedBy(q, h) ==> Owed(Then(p, rest), h) == Owed(Then(q, rest), h)
  {
  }

  lemma AnsweredStep(cfg: Config, s: State, step: Step, h: Handle)
    requires Settled(s, h)
    ensures Settled(Next(cfg, s, step), h)
  {
    hide Settled, DoDispatch, DoExec, IoStep, TickStep, AgendaStep;
    if step.Dispatch? {
      DispatchAnswered(cfg, s, step.choice, h);
    } else if step.Exec? {
      ExecAnswered(cfg, s, h);
    } else if IsIo(step) {
      IoAnswered(cfg, s, step, h);
    } else {
      QuietAnswered(cfg, s, step, h);
    }
  }

  // ---------------------------------------------------------------- every run

  /** For every handler script and outcome: the responses given to a session's outbound queue
      are, one for one and in order, those of its dispatched requests, but for at most the one
      the tick goroutine is still working on. */
  lemma {:induction false} EveryRequestIsAnsweredOnce(cfg: Config, steps: seq<Step>, h: Handle)
    ensures Settled(Reached(cfg, steps), h)
  {
    if steps == [] {
      assert Owed(Done, h) == [];
    } else {
      var before := steps[..|steps| - 1];
      EveryRequestIsAnsweredOnce(cfg, before, h);
      AnsweredStep(cfg, Reached(cfg, before), steps[|steps| - 1], h);
      hide Next, Settled;
    }
  }

  /** Between events, the responses an unmarked session's writer took or will take are exactly
      its requests. */
  lemma UnmarkedResponsesMatch(cfg: Config, steps: seq<Step>, h: Handle)
    requires Reached(cfg, steps).agenda == Done && At(Reached(cfg, steps), h).mark.None?
    ensures var c := At(Reached(cfg, steps), h);
            ResponseIds(c.wire.written + c.outbox) == c.wire.requests
  {
    EveryRequestIsAnsweredOnce(cfg, steps, h);
    Outbound.NothingIsLostUnmarked(cfg, steps, h);
    hide Reached, ResponseIds, Outbound.Thinned;
    assert Owed(Done, h) == [];
  }
}
