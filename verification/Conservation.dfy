/** Where a disconnect can be: a session's flag is set exactly when one disconnect for it is
    in flight, queued, batched, already carried out, or lost to a full event queue. */
module Conservation {
  import opened Frame
  import opened Protocol

  function IsDisconnect(e: Event, h: Handle): nat {
    if e.Disconnect? && e.sess == h then 1 else 0
  }

  function DisconnectsIn(es: seq<Event>, h: Handle): nat {
    if es == [] then 0 else IsDisconnect(es[0], h) + DisconnectsIn(es[1..], h)
  }

  function IsPost(op: Op, h: Handle): nat {
    if op.Post? && op.who == h then 1 else 0
  }

  function PostsIn(ops: Agenda, h: Handle): nat {
    match ops
    case Done => 0
    case Then(op, rest) => IsPost(op, h) + PostsIn(rest, h)
  }

  /** Every disconnect of h, wherever it is. */
  function Disconnects(s: State, h: Handle): nat {
    var w := At(s, h).wire;
    PostsIn(s.agenda, h) + (if w.reader.Posting? then 1 else 0)
    + DisconnectsIn(s.batch, h) + DisconnectsIn(s.queue, h) + w.cleanups + w.drops
  }

  predicate Conserved(s: State, h: Handle) {
    Disconnects(s, h) == if At(s, h).mark.Some? then 1 else 0
  }

  // ---------------------------------------------------------------- one step

  lemma {:induction false} AppendCount(es: seq<Event>, e: Event, h: Handle)
    ensures DisconnectsIn(es + [e], h) == DisconnectsIn(es, h) + IsDisconnect(e, h)
  {
    if es == [] {
      assert es + [e] == [e];
    } else {
      assert (es + [e])[1..] == es[1..] + [e];
      AppendCount(es[1..], e, h);
    }
  }

  lemma AppendCounts(es: seq<Event>, h: Handle)
    ensures forall e :: DisconnectsIn(es + [e], h) == DisconnectsIn(es, h) + IsDisconnect(e, h)
  {
    forall e ensures DisconnectsIn(es + [e], h) == DisconnectsIn(es, h) + IsDisconnect(e, h) {
      AppendCount(es, e, h);
    }
  }

  lemma ReceiveStep(cfg: Config, s: State, k: Handle, h: Handle)
    requires Conserved(s, h)
    ensures Conserved(DoReceive(cfg, s, k), h)
  {
    AppendCounts(s.queue, h);
    hide DisconnectsIn, PostsIn, DecodeOne, IoKeeps, SendsNothing;
  }

  lemma ReaderMarkStep(s: State, k: Handle, h: Handle)
    requires Conserved(s, h)
    ensures Conserved(DoReaderMark(s, k), h)
  {
    hide DisconnectsIn, PostsIn, IoKeeps, SendsNothing;
  }

  lemma ReaderPostStep(cfg: Config, s: State, k: Handle, h: Handle)
    requires Conserved(s, h)
    ensures Conserved(DoReaderPost(cfg, s, k), h)
  {
    AppendCounts(s.queue, h);
    hide DisconnectsIn, PostsIn, IoKeeps, SendsNothing;
  }

  lemma OtherIoStep(cfg: Config, s: State, step: Step, h: Handle)
    requires Conserved(s, h) && (step.Accept? || step.StopReading? || step.Datagram? || step.Write?)
    ensures Conserved(IoStep(cfg, s, step), h)
  {
    AppendCounts(s.queue, h);
    hide DisconnectsIn, PostsIn, IoKeeps, SendsNothing;
  }

  lemma IoSteps(cfg: Config, s: State, step: Step, h: Handle)
    requires Conserved(s, h) && IsIo(step)
    ensures Conserved(IoStep(cfg, s, step), h)
  {
    match step {
      case Receive(k) => ReceiveStep(cfg, s, k, h);
      case ReaderMark(k) => ReaderMarkStep(s, k, h);
      case ReaderPost(k) => ReaderPostStep(cfg, s, k, h);
      case _ => OtherIoStep(cfg, s, step, h);
    }
    hide Conserved, DoAccept, DoReceive, DoStopReading, DoReaderMark, DoReaderPost, DoDatagram, DoWrite;
  }

  lemma Plans(a: Agenda, h: Handle)
    ensures a.Then? ==> PostsIn(a, h) == IsPost(a.op, h) + PostsIn(a.rest, h)
    ensures forall op, rest :: PostsIn(Then(op, rest), h) == IsPost(op, h) + PostsIn(rest, h)
  {
  }

  lemma TickSteps(cfg: Config, s: State, step: Step, h: Handle)
    requires Conserved(s, h) && IsTick(step)
    ensures Conserved(TickStep(cfg, s, step), h)
  {
    AppendCounts(s.batch, h);
    Plans(s.agenda, h);
    assert s.queue != [] ==> DisconnectsIn(s.queue, h) == IsDisconnect(s.queue[0], h) + DisconnectsIn(s.queue[1..], h);
    hide DisconnectsIn, PostsIn;
  }

  lemma AgendaSteps(s: State, step: Step, h: Handle)
    requires Conserved(s, h) && IsAgenda(step)
    ensures Conserved(AgendaStep(s, step), h)
  {
    AgendaPosts(s, step, h);
    hide DisconnectsIn, PostsIn, AgendaStep;
  }

  lemma AgendaPosts(s: State, step: Step, h: Handle)
    requires IsAgenda(step)
    ensures PostsIn(AgendaStep(s, step).agenda, h) == PostsIn(s.agenda, h)
  {
    Plans(s.agenda, h);
    hide PostsIn;
  }

  lemma PushStep(cfg: Config, s: State, k: Handle, f: ServerFrame, h: Handle)
    requires Conserved(s, h)
    ensures Conserved(DoPush(cfg, s, k, f), h)
  {
    Plans(s.agenda, h);
    hide DisconnectsIn, PostsIn;
  }

  lemma MarkStep(s: State, k: Handle, r: Reason, h: Handle)
    requires Conserved(s, h)
    ensures Conserved(DoMark(s, k, r), h)
  {
    Plans(s.agenda, h);
    hide DisconnectsIn, PostsIn;
  }

  lemma PostStep(cfg: Config, s: State, k: Handle, r: Reason, h: Handle)
    requires Disconnects(s, h) + (if k == h then 1 else 0) == if At(s, h).mark.Some? then 1 else 0
    ensures Conserved(DoPost(cfg, s, k, r), h)
  {
    AppendCount(s.queue, Disconnect(k, r), h);
    hide DisconnectsIn, PostsIn;
  }

  lemma ExecStep(cfg: Config, s: State, h: Handle)
    requires Conserved(s, h)
    ensures Conserved(DoExec(cfg, s), h)
  {
    if s.agenda.Then? {
      Plans(s.agenda, h);
      hide DisconnectsIn, PostsIn;
      var t := s.(agenda := s.agenda.rest);
      match s.agenda.op {
        case Push(k, f) => PushStep(cfg, t, k, f, h);
        case Mark(k, r) => MarkStep(t, k, r, h);
        case Post(k, r) => PostStep(cfg, t, k, r, h);
        case _ =>
      }
      hide DoPush, DoMark, DoPost;
    }
  }

  lemma TearDownStep(s: State, k: Handle, r: Reason, h: Handle)
    requires Disconnects(s, h) + (if k == h then 1 else 0) == if At(s, h).mark.Some? then 1 else 0
    ensures Conserved(DoTearDown(s, k, r), h)
  {
    Plans(s.agenda, h);
    hide DisconnectsIn, PostsIn;
  }

  lemma ActStep(s: State, action: Action, h: Handle)
    requires Conserved(s, h) && !action.TearDown?
    ensures Conserved(Act(s, action), h)
  {
    ActOn(s, action, h);
    ActPosts(s, action, h);
    assert ActKeeps(s, Act(s, action));
    hide DisconnectsIn, PostsIn, Act;
  }

  lemma ActPosts(s: State, action: Action, h: Handle)
    ensures PostsIn(Act(s, action).agenda, h) == PostsIn(s.agenda, h)
  {
    Plans(s.agenda, h);
    hide PostsIn, ActKeeps;
  }

  lemma DispatchStep(cfg: Config, s: State, choice: Choice, h: Handle)
    requires Conserved(s, h)
    ensures Conserved(DoDispatch(cfg, s, choice), h)
  {
    if s.phase == Handling && s.agenda == Done && s.batch != [] {
      var t := Noticed(s);
      assert DisconnectsIn(s.batch, h) == IsDisconnect(s.batch[0], h) + DisconnectsIn(t.batch, h);
      var action := Decide(cfg, t, s.batch[0], choice);
      assert action.TearDown? <==> s.batch[0].Disconnect?;
      hide DisconnectsIn, PostsIn, Decide;
      assert At(t, h).mark == At(s, h).mark && At(t, h).wire == At(s, h).wire;
      if action.TearDown? {
        TearDownStep(t, action.h, action.why, h);
      } else {
        ActStep(t, action, h);
      }
      hide Act;
    }
  }

  lemma ConservedStep(cfg: Config, s: State, step: Step, h: Handle)
    requires Conserved(s, h)
    ensures Conserved(Next(cfg, s, step), h)
  {
    hide Conserved, DoDispatch, DoExec, IoStep, TickStep, AgendaStep;
    if step.Dispatch? {
      DispatchStep(cfg, s, step.choice, h);
    } else if step.Exec? {
      ExecStep(cfg, s, h);
    } else if IsIo(step) {
      IoSteps(cfg, s, step, h);
    } else if IsTick(step) {
      TickSteps(cfg, s, step, h);
    } else {
      AgendaSteps(s, step, h);
    }
  }

  // ---------------------------------------------------------------- every run

  /** Disconnect conservation, in every reachable state of every interleaving. */
  lemma {:induction false} DisconnectsAreConserved(cfg: Config, steps: seq<Step>, h: Handle)
    ensures Conserved(Reached(cfg, steps), h)
  {
    if steps == [] {
      assert PostsIn(Done, h) == 0;
    } else {
      var before := steps[..|steps| - 1];
      DisconnectsAreConserved(cfg, before, h);
      ConservedStep(cfg, Reached(cfg, before), steps[|steps| - 1], h);
      hide Next, Conserved;
    }
  }

  /** No session is cleaned up twice, and one that was cleaned up or lost its disconnect has
      no other disconnect left anywhere. */
  lemma CleanupAtMostOnce(cfg: Config, steps: seq<Step>, h: Handle)
    ensures var s := Reached(cfg, steps);
            var w := At(s, h).wire;
            && w.cleanups + w.drops <= 1
            && (w.cleanups + w.drops == 1 ==>
                  At(s, h).mark.Some? && DisconnectsIn(s.queue + s.batch, h) == 0 && PostsIn(s.agenda, h) == 0)
  {
    DisconnectsAreConserved(cfg, steps, h);
    var s := Reached(cfg, steps);
    ConcatCount(s.queue, s.batch, h);
    hide Reached, DisconnectsIn, PostsIn;
  }

  lemma {:induction false} ConcatCount(a: seq<Event>, b: seq<Event>, h: Handle)
    ensures DisconnectsIn(a + b, h) == DisconnectsIn(a, h) + DisconnectsIn(b, h)
    decreases |b|
  {
    if b == [] {
      assert a + b == a;
    } else {
      assert a + b == (a + b[..1]) + b[1..];
      ConcatCount(a + b[..1], b[1..], h);
      AppendCount(a, b[0], h);
      assert b[..1] == [b[0]];
    }
  }
}
