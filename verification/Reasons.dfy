/** Only the first disconnect of a session counts: whatever else goes wrong meanwhile, the
    reason OnDisconnect is given is the one that won the disconnect flag. */
module Reasons {
  import opened Frame
  import opened Protocol
  import Conservation
  import Fifo
  import Identity
  import Lifecycle

  predicate PostsAgree(a: Agenda, h: Handle, won: Option<Reason>) {
    match a
    case Done => true
    case Then(op, rest) => (op.Post? && op.who == h ==> won == Some(op.why)) && PostsAgree(rest, h, won)
  }

  predicate EventsAgree(es: seq<Event>, h: Handle, won: Option<Reason>) {
    forall i :: 0 <= i < |es| ==> es[i].Disconnect? && es[i].sess == h ==> won == Some(es[i].reason)
  }

  predicate LogAgrees(log: seq<Callback>, h: Handle, won: Option<Reason>) {
    forall i :: 0 <= i < |log| ==> log[i].OnDisconnect? && log[i].sess == h ==> won == Some(log[i].reason)
  }

  /** Everything that carries a disconnect of h, or ever carried one, has the winning reason. */
  predicate Agreed(s: State, h: Handle) {
    var c := At(s, h);
    && PostsAgree(s.agenda, h, c.mark)
    && EventsAgree(s.hist.accepted, h, c.mark)
    && LogAgrees(s.hist.log, h, c.mark)
    && (c.wire.reader.Posting? ==> c.mark == Some(c.wire.reader.reason))
  }

  lemma Plans(a: Agenda, h: Handle, won: Option<Reason>)
    ensures a.Then? ==> (PostsAgree(a, h, won) <==>
                           (a.op.Post? && a.op.who == h ==> won == Some(a.op.why)) && PostsAgree(a.rest, h, won))
    ensures forall op, rest :: PostsAgree(Then(op, rest), h, won) <==>
                                 (op.Post? && op.who == h ==> won == Some(op.why)) && PostsAgree(rest, h, won)
  {
  }

  /** While nothing has won, nothing is on its way, so any reason may win. */
  lemma {:induction false} NoneIsFree(a: Agenda, h: Handle, won: Option<Reason>)
    requires PostsAgree(a, h, None)
    ensures PostsAgree(a, h, won)
  {
    if a.Then? {
      NoneIsFree(a.rest, h, won);
    }
  }

  lemma ReaderMarkAgreed(s: State, k: Handle, h: Handle)
    requires Agreed(s, h)
    ensures Agreed(DoReaderMark(s, k), h)
  {
    if At(s, h).mark.None? {
      NoneIsFree(s.agenda, h, At(DoReaderMark(s, k), h).mark);
    }
    hide IoKeeps, SendsNothing, PostsAgree;
  }

  lemma ReaderPostAgreed(cfg: Config, s: State, k: Handle, h: Handle)
    requires Agreed(s, h)
    ensures Agreed(DoReaderPost(cfg, s, k), h)
  {
    hide IoKeeps, SendsNothing, PostsAgree;
  }

  lemma ReceiveAgreed(cfg: Config, s: State, k: Handle, h: Handle)
    requires Agreed(s, h)
    ensures Agreed(DoReceive(cfg, s, k), h)
  {
    hide DecodeOne, IoKeeps, SendsNothing, PostsAgree;
  }

  lemma OtherIoAgreed(cfg: Config, s: State, step: Step, h: Handle)
    requires Agreed(s, h) && (step.Accept? || step.StopReading? || step.Datagram? || step.Write?)
    ensures Agreed(IoStep(cfg, s, step), h)
  {
    hide IoKeeps, SendsNothing, PostsAgree;
  }

  lemma IoAgreed(cfg: Config, s: State, step: Step, h: Handle)
    requires Agreed(s, h) && IsIo(step)
    ensures Agreed(IoStep(cfg, s, step), h)
  {
    match step {
      case ReaderMark(k) => ReaderMarkAgreed(s, k, h);
      case ReaderPost(k) => ReaderPostAgreed(cfg, s, k, h);
      case Receive(k) => ReceiveAgreed(cfg, s, k, h);
      case _ => OtherIoAgreed(cfg, s, step, h);
    }
    hide Agreed, DoAccept, DoReceive, DoStopReading, DoReaderMark, DoReaderPost, DoDatagram, DoWrite;
  }

  lemma MarkAgreed(s: State, k: Handle, r: Reason, h: Handle)
    requires Agreed(s, h)
    ensures Agreed(DoMark(s, k, r), h)
  {
    if At(s, h).mark.None? {
      NoneIsFree(s.agenda, h, Some(r));
    }
    Plans(s.agenda, h, At(DoMark(s, k, r), h).mark);
    hide PostsAgree, ExecKeeps;
  }

  lemma PostAgreed(cfg: Config, s: State, k: Handle, r: Reason, h: Handle)
    requires Agreed(s, h) && (k == h ==> At(s, h).mark == Some(r))
    ensures Agreed(DoPost(cfg, s, k, r), h)
  {
    hide PostsAgree, ExecKeeps;
  }

  lemma PushAgreed(cfg: Config, s: State, k: Handle, f: ServerFrame, h: Handle)
    requires Agreed(s, h)
    ensures Agreed(DoPush(cfg, s, k, f), h)
  {
    Plans(s.agenda, h, At(s, h).mark);
    hide PostsAgree, ExecKeeps;
  }

  lemma ExecAgreed(cfg: Config, s: State, h: Handle)
    requires Agreed(s, h)
    ensures Agreed(DoExec(cfg, s), h)
  {
    if s.agenda.Then? {
      Plans(s.agenda, h, At(s, h).mark);
      hide PostsAgree;
      var t := s.(agenda := s.agenda.rest);
      assert Agreed(t, h);
      match s.agenda.op {
        case Push(k, f) => PushAgreed(cfg, t, k, f, h);
        case Mark(k, r) => MarkAgreed(t, k, r, h);
        case Post(k, r) => PostAgreed(cfg, t, k, r, h);
        case _ =>
      }
      hide DoPush, DoMark, DoPost;
    }
    hide Agreed;
  }

  /** No decision plans a disconnect event. */
  lemma ActPosts(s: State, action: Action, h: Handle, won: Option<Reason>)
    requires PostsAgree(s.agenda, h, won)
    ensures PostsAgree(Act(s, action).agenda, h, won)
  {
    Plans(s.agenda, h, won);
    hide PostsAgree, ActKeeps;
  }

  lemma ActAgreed(s: State, action: Action, h: Handle)
    requires Agreed(s, h) && (action.TearDown? && action.h == h ==> At(s, h).mark == Some(action.why))
    ensures Agreed(Act(s, action), h)
  {
    assert SameTraffic(At(s, h), At(Act(s, action), h));
    ActPosts(s, action, h, At(s, h).mark);
    Lifecycle.ActLog(s, action);
    hide PostsAgree, Act;
  }

  lemma DispatchAgreed(cfg: Config, s: State, choice: Choice, h: Handle)
    requires Agreed(s, h) && Fifo.Ordered(cfg, s)
    ensures Agreed(DoDispatch(cfg, s, choice), h)
  {
    if s.phase == Handling && s.agenda == Done && s.batch != [] {
      var e, n := s.batch[0], Noticed(s);
      assert s.hist.accepted[|s.hist.handled|] == e;
      var action := Decide(cfg, n, e, choice);
      assert action.TearDown? ==> e == Disconnect(action.h, action.why);
      hide Decide, Fifo.Ordered, PostsAgree;
      assert SameTraffic(At(s, h), At(n, h));
      ActAgreed(n, action, h);
      hide Act;
    }
  }

  lemma QuietAgreed(cfg: Config, s: State, step: Step, h: Handle)
    requires Agreed(s, h) && (IsTick(step) || IsAgenda(step))
    ensures Agreed(if IsTick(step) then TickStep(cfg, s, step) else AgendaStep(s, step), h)
  {
    Plans(s.agenda, h, At(s, h).mark);
    hide PostsAgree;
  }

  lemma AgreedStep(cfg: Config, s: State, step: Step, h: Handle)
    requires Agreed(s, h) && Fifo.Ordered(cfg, s)
    ensures Agreed(Next(cfg, s, step), h)
  {
    hide Agreed, DoDispatch, DoExec, IoStep, TickStep, AgendaStep, Fifo.Ordered;
    if step.Dispatch? {
      DispatchAgreed(cfg, s, step.choice, h);
    } else if step.Exec? {
      ExecAgreed(cfg, s, h);
    } else if IsIo(step) {
      IoAgreed(cfg, s, step, h);
    } else {
      QuietAgreed(cfg, s, step, h);
    }
  }

  lemma {:induction false} AlwaysAgreed(cfg: Config, steps: seq<Step>, h: Handle)
    ensures Agreed(Reached(cfg, steps), h)
  {
    if steps != [] {
      var before := steps[..|steps| - 1];
      AlwaysAgreed(cfg, before, h);
      Fifo.AlwaysOrdered(cfg, before);
      AgreedStep(cfg, Reached(cfg, before), steps[|steps| - 1], h);
      hide Next, Agreed, Fifo.Ordered;
    }
  }

  /** OnDisconnect is only ever given the reason that won the session's flag. */
  lemma OnDisconnectGetsTheFirstReason(cfg: Config, steps: seq<Step>, h: Handle, r: Reason)
    requires OnDisconnect(h, r) in Reached(cfg, steps).hist.log
    ensures At(Reached(cfg, steps), h).mark == Some(r)
  {
    AlwaysAgreed(cfg, steps, h);
    hide Reached;
  }

  // ---------------------------------------------------------------- from acceptance to cleanup

  predicate CarriedOut(s: State, h: Handle) {
    Conservation.DisconnectsIn(s.hist.handled, h) == At(s, h).wire.cleanups
  }

  lemma CarriedOutStep(cfg: Config, s: State, step: Step, h: Handle)
    requires CarriedOut(s, h) && Conservation.Conserved(s, h)
    ensures CarriedOut(Next(cfg, s, step), h)
  {
    hide Next, Conservation.PostsIn;
    if step.Dispatch? {
      NextDispatch(cfg, s, step.choice);
      if s.phase == Handling && s.agenda == Done && s.batch != [] {
        assert s.batch[0].Disconnect? && s.batch[0].sess == h ==>
                 Conservation.DisconnectsIn(s.batch, h) > 0;
        DispatchOn(cfg, s, step.choice, h);
        HandledNext(cfg, s, step.choice, h);
        Identity.Granted(cfg, Noticed(s), s.batch[0], step.choice);
      }
    } else {
      HandledStays(cfg, s, step);
      Lifecycle.QuietIdentity(cfg, s, step, h);
    }
    hide DoDispatch, Conservation.DisconnectsIn, Decide, Noticed;
  }

  lemma HandledNext(cfg: Config, s: State, choice: Choice, h: Handle)
    requires s.phase == Handling && s.agenda == Done && s.batch != []
    ensures Conservation.DisconnectsIn(DoDispatch(cfg, s, choice).hist.handled, h)
            == Conservation.DisconnectsIn(s.hist.handled, h) + Conservation.IsDisconnect(s.batch[0], h)
  {
    Conservation.AppendCount(s.hist.handled, s.batch[0], h);
    hide Act, Decide, Conservation.DisconnectsIn;
  }

  lemma HandledStays(cfg: Config, s: State, step: Step)
    requires !step.Dispatch?
    ensures Next(cfg, s, step).hist.handled == s.hist.handled
  {
    hide IoStep, DoExec, TickStep, AgendaStep;
  }

  /** Over every run, a session's disconnects that have been handled are its cleanups. */
  lemma {:induction false} HandledIsCleanedUp(cfg: Config, steps: seq<Step>, h: Handle)
    ensures CarriedOut(Reached(cfg, steps), h)
  {
    if steps != [] {
      var before, step := steps[..|steps| - 1], steps[|steps| - 1];
      HandledIsCleanedUp(cfg, before, h);
      Conservation.DisconnectsAreConserved(cfg, before, h);
      Extend(cfg, before, step);
      assert before + [step] == steps;
      hide Reached, Next, CarriedOut, Conservation.Conserved;
      CarriedOutStep(cfg, Reached(cfg, before), step, h);
    }
  }

  /** A disconnect that the queue accepted before a tick began has been carried out by the end of
      that tick: the session is cleaned up, once, and OnDisconnect was given the reason. */
  lemma AcceptedDisconnectIsCarriedOut(cfg: Config, before: seq<Step>, now: int, after: seq<Step>, h: Handle, r: Reason)
    requires Reached(cfg, before).phase == Idle && Fifo.NoTickStart(after)
    requires Disconnect(h, r) in Reached(cfg, before).hist.accepted
    requires var s := Reached(cfg, before + [TickStart(now)] + after); s.phase == Finishing || s.phase == Idle
    ensures var s := Reached(cfg, before + [TickStart(now)] + after);
            && At(s, h).wire.cleanups == 1 && At(s, h).mark == Some(r)
            && OnDisconnect(h, r) in s.hist.log && Lifecycle.Times(s.hist.log, h, Lifecycle.Teardowns) == 1
  {
    var all := before + [TickStart(now)] + after;
    var s := Reached(cfg, all);
    hide Reached;
    Fifo.HandledWithinItsTick(cfg, before, now, after);
    HandledIsCleanedUp(cfg, all, h);
    Counted(s.hist.handled, h, r);
    Conservation.CleanupAtMostOnce(cfg, all, h);
    Lifecycle.AlwaysRecorded(cfg, all);
    AlwaysAgreed(cfg, all, h);
    Fifo.AlwaysOrdered(cfg, all);
    hide Conservation.DisconnectsIn, Conservation.PostsIn, PostsAgree;
    assert Disconnect(h, r) in s.hist.accepted;
    assert Lifecycle.Recorded(s, h);
    Fired(s.hist.log, h);
  }

  lemma {:induction false} Counted(es: seq<Event>, h: Handle, r: Reason)
    requires Disconnect(h, r) in es
    ensures Conservation.DisconnectsIn(es, h) > 0
  {
    if es[0] != Disconnect(h, r) {
      Counted(es[1..], h, r);
    }
  }

  lemma {:induction false} Fired(log: seq<Callback>, h: Handle)
    requires Lifecycle.Times(log, h, Lifecycle.Teardowns) > 0
    ensures exists i :: 0 <= i < |log| && log[i].OnDisconnect? && log[i].sess == h
  {
    var n := |log| - 1;
    if !(log[n].OnDisconnect? && log[n].sess == h) {
      Fired(log[..n], h);
      var i :| 0 <= i < n && log[..n][i].OnDisconnect? && log[..n][i].sess == h;
      assert log[i] == log[..n][i];
    }
  }
}
