/** The outbound TCP queue: nothing is lost from it unless the session is marked. */
module Outbound {
  import opened Protocol
  import Conservation

  /** An overflowing send has happened and its mark is still to be made. */
  predicate Overflowing(a: Agenda, h: Handle) {
    match a
    case Done => false
    case Then(op, rest) => op == Mark(h, OutboundQueueFull) || Overflowing(rest, h)
  }

  /** `part` is `whole` with some elements left out. */
  predicate Thinned<T(==)>(part: seq<T>, whole: seq<T>)
    decreases |whole|
  {
    if part == [] then true
    else if whole == [] then false
    else
      var p, w := |part| - 1, |whole| - 1;
      (part[p] == whole[w] && Thinned(part[..p], whole[..w])) || Thinned(part, whole[..w])
  }

  /** Frames taken by the writer and frames still queued. */
  function Delivered(c: Session): seq<ServerFrame> {
    c.wire.written + c.outbox
  }

  predicate Lossless(cfg: Config, s: State, h: Handle) {
    var c := At(s, h);
    && |c.outbox| <= cfg.sendDepth
    && (c.attached <==> c.wire.cleanups == 0)
    && (c.mark.None? && !Overflowing(s.agenda, h) ==> Delivered(c) == c.wire.offered)
    && Thinned(Delivered(c), c.wire.offered)
  }

  // ---------------------------------------------------------------- one step

  lemma {:induction false} ThinnedSelf<T>(a: seq<T>)
    ensures Thinned(a, a)
  {
    if a != [] {
      ThinnedSelf(a[..|a| - 1]);
    }
  }

  lemma ThinnedAppend<T>(part: seq<T>, whole: seq<T>, x: T)
    requires Thinned(part, whole)
    ensures Thinned(part, whole + [x]) && Thinned(part + [x], whole + [x])
  {
    assert (whole + [x])[..|whole|] == whole && (part + [x])[..|part|] == part;
  }

  lemma Plans(a: Agenda, h: Handle)
    ensures a.Then? ==> (Overflowing(a, h) <==> a.op == Mark(h, OutboundQueueFull) || Overflowing(a.rest, h))
    ensures forall op, rest :: Overflowing(Then(op, rest), h)
                               == (op == Mark(h, OutboundQueueFull) || Overflowing(rest, h))
  {
  }

  lemma WriteLossless(cfg: Config, s: State, k: Handle, h: Handle)
    requires Lossless(cfg, s, h)
    ensures Lossless(cfg, DoWrite(s, k), h)
  {
    var c := At(s, h);
    if c.outbox != [] {
      assert (c.wire.written + [c.outbox[0]]) + c.outbox[1..] == c.wire.written + c.outbox;
    }
    hide IoKeeps, Overflowing, Thinned;
  }

  lemma IoLossless(cfg: Config, s: State, step: Step, h: Handle)
    requires Lossless(cfg, s, h) && IsIo(step)
    ensures Lossless(cfg, IoStep(cfg, s, step), h)
  {
    if step.Write? {
      WriteLossless(cfg, s, step.h, h);
      hide DoWrite;
    } else {
      hide IoStep;
      assert SameIdentity(At(s, h), At(IoStep(cfg, s, step), h));
    }
    hide Overflowing, Thinned, Lossless, DoAccept, DoReceive, DoStopReading, DoReaderMark, DoReaderPost, DoDatagram;
  }

  /** A session whose outbound channel is gone was cleaned up, and so it is marked. */
  predicate MarkedIfDetached(c: Session) {
    c.wire.cleanups > 0 ==> c.mark.Some?
  }

  lemma PushLossless(cfg: Config, s: State, k: Handle, f: ServerFrame, h: Handle)
    requires Lossless(cfg, s, h) && MarkedIfDetached(At(s, h))
    ensures Lossless(cfg, DoPush(cfg, s, k, f), h)
  {
    Plans(s.agenda, h);
    hide Overflowing, Thinned, ExecKeeps;
    if k == h && h < |s.conns| {
      PushedFrame(cfg, At(s, h), f);
    }
  }

  /** The frame lands at the end of the outbox, or it is lost. */
  lemma PushedFrame(cfg: Config, c: Session, f: ServerFrame)
    requires Thinned(Delivered(c), c.wire.offered)
    ensures Thinned(Delivered(c), c.wire.offered + [f])
    ensures Thinned(c.wire.written + (c.outbox + [f]), c.wire.offered + [f])
    ensures c.wire.written + (c.outbox + [f]) == Delivered(c) + [f]
  {
    ThinnedAppend(Delivered(c), c.wire.offered, f);
    assert c.wire.written + (c.outbox + [f]) == Delivered(c) + [f];
  }

  lemma MarkLossless(cfg: Config, s: State, k: Handle, r: Reason, h: Handle)
    requires Lossless(cfg, s.(agenda := Then(Mark(k, r), s.agenda)), h)
    ensures Lossless(cfg, DoMark(s, k, r), h)
  {
    Plans(s.agenda, h);
    ThinnedSelf<ServerFrame>([]);
    hide Overflowing, Thinned, ExecKeeps;
  }

  lemma PostLossless(cfg: Config, s: State, k: Handle, r: Reason, h: Handle)
    requires Lossless(cfg, s, h)
    ensures Lossless(cfg, DoPost(cfg, s, k, r), h)
  {
    hide Overflowing, Thinned, ExecKeeps;
  }

  lemma ExecLossless(cfg: Config, s: State, h: Handle)
    requires Lossless(cfg, s, h) && MarkedIfDetached(At(s, h))
    ensures Lossless(cfg, DoExec(cfg, s), h)
  {
    if s.agenda.Then? {
      var op, t := s.agenda.op, s.(agenda := s.agenda.rest);
      Plans(s.agenda, h);
      hide Overflowing, Thinned;
      assert At(t, h) == At(s, h) && (!op.Mark? ==> Lossless(cfg, t, h));
      assert s == t.(agenda := Then(op, t.agenda));
      hide Lossless, MarkedIfDetached;
      match op {
        case Push(k, f) => PushLossless(cfg, t, k, f, h);
        case Mark(k, r) => MarkLossless(cfg, t, k, r, h);
        case Post(k, r) => PostLossless(cfg, t, k, r, h);
        case _ =>
      }
      hide DoPush, DoMark, DoPost;
    }
  }

  lemma DispatchLossless(cfg: Config, s: State, choice: Choice, h: Handle)
    requires Lossless(cfg, s, h)
    ensures Lossless(cfg, DoDispatch(cfg, s, choice), h)
  {
    if s.phase == Handling && s.agenda == Done && s.batch != [] {
      ActLossless(cfg, Noticed(s), Decide(cfg, Noticed(s), s.batch[0], choice), h);
      hide Act, Decide, Thinned;
    }
  }

  lemma ActLossless(cfg: Config, s: State, action: Action, h: Handle)
    requires Lossless(cfg, s, h) && s.agenda == Done
    ensures Lossless(cfg, Act(s, action), h)
  {
    ActOn(s, action, h);
    NoOverflow(s, action, h);
    hide Thinned, Act, Overflowing;
  }

  lemma NoOverflow(s: State, action: Action, h: Handle)
    requires s.agenda == Done
    ensures Overflowing(s.agenda, h) || Overflowing(Act(s, action).agenda, h) ==>
              action.Refuse? && action.why == OutboundQueueFull
  {
    Plans(s.agenda, h);
    assert !Overflowing(Done, h);
    hide Overflowing, ActKeeps;
  }

  lemma QuietLossless(cfg: Config, s: State, step: Step, h: Handle)
    requires Lossless(cfg, s, h) && (IsTick(step) || IsAgenda(step))
    ensures Lossless(cfg, if IsTick(step) then TickStep(cfg, s, step) else AgendaStep(s, step), h)
  {
    Plans(s.agenda, h);
    hide Overflowing, Thinned;
  }

  lemma LosslessStep(cfg: Config, s: State, step: Step, h: Handle)
    requires Lossless(cfg, s, h) && MarkedIfDetached(At(s, h))
    ensures Lossless(cfg, Next(cfg, s, step), h)
  {
    hide Lossless, DoDispatch, DoExec, IoStep, TickStep, AgendaStep, MarkedIfDetached;
    if step.Dispatch? {
      DispatchLossless(cfg, s, step.choice, h);
    } else if step.Exec? {
      ExecLossless(cfg, s, h);
    } else if IsIo(step) {
      IoLossless(cfg, s, step, h);
    } else {
      QuietLossless(cfg, s, step, h);
    }
  }

  // ---------------------------------------------------------------- every run

  /** In every reachable state: the outbox is within its depth; while the session is unmarked
      and no overflow is being dealt with, what the writer took followed by what is queued is
      exactly everything ever given to the queue; and in any case the two are that sequence
      with frames left out, never reordered, repeated or invented. */
  lemma {:induction false} NothingIsLostUnmarked(cfg: Config, steps: seq<Step>, h: Handle)
    ensures Lossless(cfg, Reached(cfg, steps), h)
  {
    if steps != [] {
      var before := steps[..|steps| - 1];
      NothingIsLostUnmarked(cfg, before, h);
      Conservation.CleanupAtMostOnce(cfg, before, h);
      assert MarkedIfDetached(At(Reached(cfg, before), h));
      LosslessStep(cfg, Reached(cfg, before), steps[|steps| - 1], h);
      hide Next, Lossless, MarkedIfDetached;
    }
  }

  // ---------------------------------------------------------------- an overflow is dealt with at once

  /** If a mark for an overflow is planned, it is the next operation. */
  predicate OnTop(a: Agenda, h: Handle) {
    a.Then? ==> !Overflowing(a.rest, h)
  }

  lemma ActOnTop(s: State, action: Action, h: Handle)
    requires s.agenda == Done && (action.Refuse? ==> action.why != OutboundQueueFull)
    ensures OnTop(Act(s, action).agenda, h)
  {
    Plans(s.agenda, h);
    assert !Overflowing(Done, h);
    hide Overflowing, ActKeeps;
  }

  lemma DispatchOnTop(cfg: Config, s: State, choice: Choice, h: Handle)
    requires OnTop(s.agenda, h)
    ensures OnTop(DoDispatch(cfg, s, choice).agenda, h)
  {
    if s.phase == Handling && s.agenda == Done && s.batch != [] {
      var action := Decide(cfg, Noticed(s), s.batch[0], choice);
      assert action.Refuse? ==> action.why != OutboundQueueFull;
      ActOnTop(Noticed(s), action, h);
    }
    hide Act, Decide, Overflowing, DispatchKeeps;
  }

  lemma ExecOnTop(cfg: Config, s: State, h: Handle)
    requires OnTop(s.agenda, h)
    ensures OnTop(DoExec(cfg, s).agenda, h)
  {
    Plans(s.agenda, h);
    if s.agenda.Then? {
      Plans(s.agenda.rest, h);
    }
    hide Overflowing, ExecKeeps;
  }

  lemma QuietOnTop(cfg: Config, s: State, step: Step, h: Handle)
    requires OnTop(s.agenda, h) && (IsTick(step) || IsAgenda(step))
    ensures OnTop((if IsTick(step) then TickStep(cfg, s, step) else AgendaStep(s, step)).agenda, h)
  {
    Plans(s.agenda, h);
    if s.agenda.Then? {
      Plans(s.agenda.rest, h);
    }
    assert !Overflowing(Done, h);
    hide Overflowing;
  }

  lemma {:induction false} OverflowIsOnTop(cfg: Config, steps: seq<Step>, h: Handle)
    ensures OnTop(Reached(cfg, steps).agenda, h)
  {
    if steps != [] {
      var before, step := steps[..|steps| - 1], steps[|steps| - 1];
      OverflowIsOnTop(cfg, before, h);
      var s := Reached(cfg, before);
      assert Reached(cfg, steps) == Next(cfg, s, step);
      hide OnTop, DoDispatch, DoExec, IoStep, TickStep, AgendaStep;
      if step.Dispatch? {
        DispatchOnTop(cfg, s, step.choice, h);
      } else if step.Exec? {
        ExecOnTop(cfg, s, h);
      } else if IsIo(step) {
        assert Next(cfg, s, step).agenda == s.agenda;
      } else {
        QuietOnTop(cfg, s, step, h);
      }
    }
  }

  // ---------------------------------------------------------------- after the close

  lemma StepAfterClose(cfg: Config, s: State, step: Step, h: Handle)
    requires !At(s, h).attached
    ensures !At(Next(cfg, s, step), h).attached && Delivered(At(Next(cfg, s, step), h)) == Delivered(At(s, h))
  {
    if step.Dispatch? {
      DispatchAfterClose(cfg, s, step.choice, h);
    } else if step.Exec? {
      ExecAfterClose(cfg, s, h);
    } else if IsIo(step) {
      IoAfterClose(cfg, s, step, h);
    }
    hide DoDispatch, DoExec, IoStep, TickStep, AgendaStep;
  }

  lemma DispatchAfterClose(cfg: Config, s: State, choice: Choice, h: Handle)
    requires !At(s, h).attached
    ensures var d := At(DoDispatch(cfg, s, choice), h); !d.attached && Delivered(d) == Delivered(At(s, h))
  {
    assert SameTraffic(At(s, h), At(DoDispatch(cfg, s, choice), h));
    if s.phase == Handling && s.agenda == Done && s.batch != [] {
      var n := Noticed(s);
      ActKeepsClosed(n, Decide(cfg, n, s.batch[0], choice), h);
    }
    hide DispatchKeeps, Decide, Act;
  }

  lemma ActKeepsClosed(s: State, action: Action, h: Handle)
    requires !At(s, h).attached
    ensures !At(Act(s, action), h).attached
  {
    ActOn(s, action, h);
    hide Act;
  }

  lemma ExecAfterClose(cfg: Config, s: State, h: Handle)
    requires !At(s, h).attached
    ensures var d := At(DoExec(cfg, s), h); !d.attached && Delivered(d) == Delivered(At(s, h))
  {
    hide ExecKeeps;
  }

  lemma IoAfterClose(cfg: Config, s: State, step: Step, h: Handle)
    requires !At(s, h).attached && IsIo(step)
    ensures var d := At(IoStep(cfg, s, step), h); !d.attached && Delivered(d) == Delivered(At(s, h))
  {
    var t := IoStep(cfg, s, step);
    assert SameIdentity(At(s, h), At(t, h)) && (!step.Write? ==> SendsNothing(s, t));
    if step.Write? && step.h == h && At(s, h).outbox != [] {
      var c := At(s, h);
      assert c.outbox == [c.outbox[0]] + c.outbox[1..];
    }
    hide IoKeeps, DoAccept, DoReceive, DoStopReading, DoReaderMark, DoReaderPost, DoDatagram;
  }

  /** Once a session has been cleaned up its outbound channel is closed, and in no continuation
      is anything put on it again. */
  lemma {:induction false} NothingIsSentAfterClose(cfg: Config, steps: seq<Step>, more: seq<Step>, h: Handle)
    requires At(Reached(cfg, steps), h).wire.cleanups > 0
    ensures var c, d := At(Reached(cfg, steps), h), At(Reached(cfg, steps + more), h);
            !d.attached && Delivered(d) == Delivered(c)
    decreases |more|
  {
    hide Next, Thinned, Delivered;
    if more == [] {
      assert steps + more == steps;
      NothingIsLostUnmarked(cfg, steps, h);
    } else {
      var all, rest := steps + more, more[..|more| - 1];
      assert all[..|all| - 1] == steps + rest;
      NothingIsSentAfterClose(cfg, steps, rest, h);
      StepAfterClose(cfg, Reached(cfg, steps + rest), more[|more| - 1], h);
      assert Reached(cfg, all) == Next(cfg, Reached(cfg, steps + rest), more[|more| - 1]);
    }
  }
}
