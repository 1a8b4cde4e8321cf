/** The event queue: one global order, and what a tick takes from it. */
module Fifo {
  import opened Frame
  import opened Protocol

  /** Handled events, then the rest of the batch, then the queue are all accepted events in
      order; and the tick goroutine's place fixes how far handling has come. */
  predicate Ordered(cfg: Config, s: State) {
    && s.hist.accepted == s.hist.handled + s.batch + s.queue
    && |s.queue| <= cfg.eventDepth
    && s.hist.cut <= |s.hist.accepted|
    && match s.phase
       case Idle => s.batch == [] && s.agenda == Done && |s.hist.handled| == s.hist.cut
       case Draining(n) => s.agenda == Done && |s.batch| <= n && |s.hist.handled| + n == s.hist.cut
       case Handling => |s.hist.handled| + |s.batch| == s.hist.cut
       case Finishing => s.batch == [] && |s.hist.handled| == s.hist.cut
  }

  lemma IoOrdered(cfg: Config, s: State, step: Step)
    requires Ordered(cfg, s) && IsIo(step)
    ensures Ordered(cfg, IoStep(cfg, s, step))
  {
    var t := IoStep(cfg, s, step);
    IoAccepts(cfg, s, step);
    hide IoStep;
    if t.queue != s.queue {
      assert s.hist.handled + s.batch + t.queue == s.hist.handled + s.batch + s.queue + t.queue[|s.queue|..];
    }
  }

  /** An I/O step accepts at most one event, and only while there is room. */
  lemma IoAccepts(cfg: Config, s: State, step: Step)
    requires IsIo(step)
    ensures var t := IoStep(cfg, s, step);
            || (t.queue == s.queue && t.hist.accepted == s.hist.accepted)
            || (|s.queue| < cfg.eventDepth && |t.queue| == |s.queue| + 1 && t.queue[..|s.queue|] == s.queue
                && t.hist.accepted == s.hist.accepted + t.queue[|s.queue|..])
  {
    hide DecodeOne, SameIdentity;
  }

  lemma ExecOrdered(cfg: Config, s: State)
    requires Ordered(cfg, s)
    ensures Ordered(cfg, DoExec(cfg, s))
  {
  }

  lemma TickOrdered(cfg: Config, s: State, step: Step)
    requires Ordered(cfg, s) && IsTick(step)
    ensures Ordered(cfg, TickStep(cfg, s, step))
  {
  }

  lemma DispatchOrdered(cfg: Config, s: State, choice: Choice)
    requires Ordered(cfg, s)
    ensures Ordered(cfg, DoDispatch(cfg, s, choice))
  {
    hide Act, Decide;
    if s.phase == Handling && s.agenda == Done && s.batch != [] {
      assert s.batch == [s.batch[0]] + s.batch[1..];
    }
  }

  lemma AgendaOrdered(cfg: Config, s: State, step: Step)
    requires Ordered(cfg, s) && IsAgenda(step)
    ensures Ordered(cfg, AgendaStep(s, step))
  {
    assert s.agenda == Done ==> AgendaStep(s, step) == s;
    hide AgendaStep;
  }

  lemma OrderedStep(cfg: Config, s: State, step: Step)
    requires Ordered(cfg, s)
    ensures Ordered(cfg, Next(cfg, s, step))
  {
    hide DoDispatch, DoExec, IoStep, TickStep, AgendaStep;
    if step.Dispatch? {
      DispatchOrdered(cfg, s, step.choice);
    } else if step.Exec? {
      ExecOrdered(cfg, s);
    } else if IsIo(step) {
      IoOrdered(cfg, s, step);
    } else if IsTick(step) {
      TickOrdered(cfg, s, step);
    } else {
      AgendaOrdered(cfg, s, step);
    }
  }

  // ---------------------------------------------------------------- every run

  lemma {:induction false} AlwaysOrdered(cfg: Config, steps: seq<Step>)
    ensures Ordered(cfg, Reached(cfg, steps))
  {
    if steps != [] {
      var before := steps[..|steps| - 1];
      AlwaysOrdered(cfg, before);
      OrderedStep(cfg, Reached(cfg, before), steps[|steps| - 1]);
      hide Next, Ordered;
    }
  }

  /** The drain loop always finds the events it counted, so it ends at its snapshot and never
      early; and once it ends, the batch is exactly what had been accepted and not handled
      when the tick began, whatever was pushed meanwhile. */
  lemma DrainTakesItsSnapshot(cfg: Config, steps: seq<Step>)
    ensures var s := Reached(cfg, steps);
            && (s.phase.Draining? && |s.batch| < s.phase.size ==> s.queue != [])
            && (s.phase.Draining? ==> DoDrainDone(s) != s ==> |s.batch| == s.phase.size)
            && (s.phase == Handling ==> s.hist.cut <= |s.hist.accepted| && |s.hist.handled| <= s.hist.cut
                                        && s.batch == s.hist.accepted[|s.hist.handled|..s.hist.cut])
  {
    AlwaysOrdered(cfg, steps);
    hide Reached;
  }

  /** Everything accepted before the tick began, and nothing else, is handled by its end. */
  lemma TickHandlesItsSnapshot(cfg: Config, steps: seq<Step>)
    ensures var s := Reached(cfg, steps);
            s.phase == Finishing ==> s.hist.cut <= |s.hist.accepted| && s.hist.handled == s.hist.accepted[..s.hist.cut]
  {
    AlwaysOrdered(cfg, steps);
    hide Reached;
  }

  predicate NoTickStart(steps: seq<Step>) {
    forall i :: 0 <= i < |steps| ==> !steps[i].TickStart?
  }

  lemma {:induction false} CutStays(cfg: Config, s: State, steps: seq<Step>)
    requires NoTickStart(steps)
    ensures var t := RunFrom(cfg, s, steps);
            t.hist.cut == s.hist.cut && s.hist.accepted <= t.hist.accepted
  {
    if steps != [] {
      var before := steps[..|steps| - 1];
      CutStays(cfg, s, before);
      CutStep(cfg, RunFrom(cfg, s, before), steps[|steps| - 1]);
      hide Next;
    }
  }

  lemma CutStep(cfg: Config, s: State, step: Step)
    requires !step.TickStart?
    ensures Next(cfg, s, step).hist.cut == s.hist.cut
    ensures s.hist.accepted <= Next(cfg, s, step).hist.accepted
  {
    if IsIo(step) {
      IoAccepts(cfg, s, step);
      hide IoStep;
    }
    hide DoDispatch;
  }

  /** An event accepted before a tick begins is handled in that tick, and one accepted later is
      not: in a run that starts a tick from idle and has not started another since, handling
      stays within what had been accepted at the start, and has reached it all at the end. */
  lemma HandledWithinItsTick(cfg: Config, before: seq<Step>, now: int, after: seq<Step>)
    requires Reached(cfg, before).phase == Idle && NoTickStart(after)
    ensures var snapshot := Reached(cfg, before).hist.accepted;
            var s := Reached(cfg, before + [TickStart(now)] + after);
            && s.hist.handled <= snapshot
            && (s.phase == Finishing || s.phase == Idle ==> s.hist.handled == snapshot)
  {
    var start := before + [TickStart(now)];
    var all := start + after;
    assert start[..|start| - 1] == before;
    RunSplit(cfg, INIT, start, after);
    CutStays(cfg, Reached(cfg, start), after);
    AlwaysOrdered(cfg, all);
    AlwaysOrdered(cfg, before);
    var s, mid := Reached(cfg, all), Reached(cfg, start);
    assert mid == Next(cfg, Reached(cfg, before), TickStart(now));
    assert mid.hist.cut == |mid.hist.accepted| && mid.hist.accepted == Reached(cfg, before).hist.accepted;
    hide Reached, RunFrom, Next;
    assert s.hist.handled <= s.hist.accepted && mid.hist.accepted <= s.hist.accepted;
  }
}
