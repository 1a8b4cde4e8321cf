/** The zombie sweep: which silent sessions a tick marks, and when. */
module Sweep {
  import opened Frame
  import opened Protocol
  import Conservation
  import Fifo
  import Lifecycle
  import opened Tables
  import opened Cadence

  /** The players the sweep on the agenda has still to look at. */
  function Unswept(a: Agenda): set<PlayerId> {
    match a
    case Done => {}
    case Then(op, rest) => (if op.Sweep? then op.todo else {}) + Unswept(rest)
  }

  predicate Condemned(a: Agenda, h: Handle) {
    match a
    case Done => false
    case Then(op, rest) => (op.Mark? && op.who == h) || Condemned(rest, h)
  }

  function Cutoff(cfg: Config, s: State): int {
    s.now - cfg.Timeout()
  }

  /** Sweeps and timeout marks on the agenda belong to this tick's ping round. */
  predicate Timely(cfg: Config, s: State, a: Agenda) {
    match a
    case Done => true
    case Then(op, rest) =>
      && (op.Sweep? ==> op.cutoff == Cutoff(cfg, s) && s.phase == Finishing)
      && (op.Mark? && op.why == PingTimeout ==> Silent(At(s, op.who), Cutoff(cfg, s)) && s.phase == Finishing)
      && Timely(cfg, s, rest)
  }

  /** A listed session that has been silent too long is marked, about to be, or still unswept. */
  predicate SweptOrAhead(cfg: Config, s: State, p: PlayerId)
    requires p in s.sessions
  {
    var h := s.sessions[p];
    s.phase == Finishing && Silent(At(s, h), Cutoff(cfg, s)) ==>
      At(s, h).mark.Some? || p in Unswept(s.agenda) || Condemned(s.agenda, h)
  }

  ghost predicate Sweeping(cfg: Config, s: State) {
    && Timely(cfg, s, s.agenda)
    && (forall p :: p in s.sessions ==> SweptOrAhead(cfg, s, p))
    && (forall h :: At(s, h).wire.reader.Stopping? ==> At(s, h).wire.reader.reason != PingTimeout)
  }

  // ---------------------------------------------------------------- one step

  lemma Plans(cfg: Config, s: State, a: Agenda)
    ensures a.Then? ==> Unswept(a) == (if a.op.Sweep? then a.op.todo else {}) + Unswept(a.rest)
    ensures forall op, rest :: Unswept(Then(op, rest)) == (if op.Sweep? then op.todo else {}) + Unswept(rest)
    ensures a.Then? ==> forall h :: Condemned(a, h) <==> (a.op.Mark? && a.op.who == h) || Condemned(a.rest, h)
    ensures forall op, rest, h :: Condemned(Then(op, rest), h) <==> (op.Mark? && op.who == h) || Condemned(rest, h)
    ensures a.Then? && Timely(cfg, s, a) ==> Timely(cfg, s, a.rest)
    ensures forall op, rest :: Timely(cfg, s, Then(op, rest)) <==>
              && (op.Sweep? ==> op.cutoff == Cutoff(cfg, s) && s.phase == Finishing)
              && (op.Mark? && op.why == PingTimeout ==> Silent(At(s, op.who), Cutoff(cfg, s)) && s.phase == Finishing)
              && Timely(cfg, s, rest)
  {
  }

  /** Timeliness depends only on the clock, the phase and the sessions' identities. */
  lemma {:induction false} SameTimely(cfg: Config, s: State, t: State, a: Agenda)
    requires Timely(cfg, s, a) && t.now == s.now && t.phase == s.phase
    requires forall h :: SameIdentity(At(s, h), At(t, h))
    ensures Timely(cfg, t, a)
  {
    if a.Then? {
      SameTimely(cfg, s, t, a.rest);
      assert a.op.Mark? ==> SameIdentity(At(s, a.op.who), At(t, a.op.who));
    }
  }

  lemma ReaderReasons(cfg: Config, s: State, step: Step, h: Handle)
    requires IsIo(step) && (At(s, h).wire.reader.Stopping? ==> At(s, h).wire.reader.reason != PingTimeout)
    ensures var c := At(IoStep(cfg, s, step), h); c.wire.reader.Stopping? ==> c.wire.reader.reason != PingTimeout
  {
    hide IoKeeps, SendsNothing, DecodeOne;
  }

  lemma IoSweeping(cfg: Config, s: State, step: Step)
    requires Sweeping(cfg, s) && IsIo(step)
    ensures Sweeping(cfg, IoStep(cfg, s, step))
  {
    var t := IoStep(cfg, s, step);
    forall h ensures t.conns != [] && At(t, h).wire.reader.Stopping? ==> At(t, h).wire.reader.reason != PingTimeout {
      ReaderReasons(cfg, s, step, h);
    }
    forall h | At(s, h).mark.Some? ensures At(t, h).mark.Some? {
      Lifecycle.IoMarksStay(cfg, s, step, h);
    }
    hide IoStep;
    SameTimely(cfg, s, t, s.agenda);
    forall p | p in t.sessions ensures SweptOrAhead(cfg, t, p) {
      assert SweptOrAhead(cfg, s, p) && SameIdentity(At(s, s.sessions[p]), At(t, s.sessions[p]));
    }
  }

  /** Executing a planned operation: what it does to the sweep. */
  lemma ExecSweep(cfg: Config, s: State, h: Handle)
    requires h < |s.conns|
    ensures Unswept(DoExec(cfg, s).agenda) == Unswept(s.agenda)
    ensures At(s, h).mark.Some? || Condemned(s.agenda, h) ==>
              At(DoExec(cfg, s), h).mark.Some? || Condemned(DoExec(cfg, s).agenda, h)
  {
    ExecUnswept(cfg, s);
    ExecCondemned(cfg, s, h);
    hide Unswept, Condemned, DoExec;
  }

  lemma ExecUnswept(cfg: Config, s: State)
    ensures Unswept(DoExec(cfg, s).agenda) == Unswept(s.agenda)
  {
    Plans(cfg, s, s.agenda);
    hide Timely, Unswept, Condemned, ExecKeeps;
  }

  lemma ExecCondemned(cfg: Config, s: State, h: Handle)
    requires h < |s.conns|
    ensures At(s, h).mark.Some? || Condemned(s.agenda, h) ==>
              At(DoExec(cfg, s), h).mark.Some? || Condemned(DoExec(cfg, s).agenda, h)
  {
    Plans(cfg, s, s.agenda);
    hide Timely, Unswept, Condemned, ExecKeeps;
  }

  lemma ExecTimely(cfg: Config, s: State)
    requires Timely(cfg, s, s.agenda)
    ensures Timely(cfg, s, DoExec(cfg, s).agenda)
  {
    Plans(cfg, s, s.agenda);
    hide Timely, Unswept, Condemned, ExecKeeps;
  }

  lemma ExecSweeping(cfg: Config, s: State)
    requires Sweeping(cfg, s)
    ensures Sweeping(cfg, DoExec(cfg, s))
  {
    var t := DoExec(cfg, s);
    ExecTimely(cfg, s);
    forall p | p in s.sessions ensures SweptOrAhead(cfg, t, p) {
      assert SweptOrAhead(cfg, s, p) && SameIdentity(At(s, s.sessions[p]), At(t, s.sessions[p]));
      if s.sessions[p] < |s.conns| {
        ExecSweep(cfg, s, s.sessions[p]);
      }
    }
    hide DoExec, Unswept, Condemned;
    SameTimely(cfg, s, t, t.agenda);
  }

  lemma AgendaSweeping(cfg: Config, s: State, step: Step)
    requires Sweeping(cfg, s) && IsAgenda(step)
    ensures Sweeping(cfg, AgendaStep(s, step))
  {
    var t := AgendaStep(s, step);
    AgendaTimely(cfg, s, step);
    SameTimely(cfg, s, t, t.agenda);
    forall p | p in t.sessions ensures SweptOrAhead(cfg, t, p) {
      AgendaSwept(cfg, s, step, p);
    }
    hide Timely, AgendaStep, SweptOrAhead;
  }

  lemma AgendaTimely(cfg: Config, s: State, step: Step)
    requires Timely(cfg, s, s.agenda) && IsAgenda(step)
    ensures Timely(cfg, s, AgendaStep(s, step).agenda)
  {
    Plans(cfg, s, s.agenda);
    hide Unswept, Condemned, Timely;
  }

  lemma AgendaSwept(cfg: Config, s: State, step: Step, p: PlayerId)
    requires Timely(cfg, s, s.agenda) && IsAgenda(step) && p in s.sessions && SweptOrAhead(cfg, s, p)
    ensures AgendaStep(s, step).sessions == s.sessions && SweptOrAhead(cfg, AgendaStep(s, step), p)
  {
    Plans(cfg, s, s.agenda);
    hide Unswept, Condemned, Timely;
  }

  lemma TickSweeping(cfg: Config, s: State, step: Step)
    requires Sweeping(cfg, s) && IsTick(step) && Fifo.Ordered(cfg, s)
    ensures Sweeping(cfg, TickStep(cfg, s, step))
  {
    var t := TickStep(cfg, s, step);
    Plans(cfg, t, t.agenda);
    assert Timely(cfg, t, Done);
    hide Condemned;
    forall p | p in t.sessions ensures SweptOrAhead(cfg, t, p) {
      assert SweptOrAhead(cfg, s, p);
    }
    assert step.StartSweep? ==> Timely(cfg, t, t.agenda);
    assert !step.StartSweep? ==> Timely(cfg, t, t.agenda);
    forall h ensures At(t, h) == At(s, h) {}
  }

  lemma ActTimely(cfg: Config, s: State, action: Action)
    requires s.agenda == Done && s.phase == Handling && (action.Refuse? ==> action.why != PingTimeout)
    ensures var t := Act(s, action); Timely(cfg, t, t.agenda)
  {
    var t := Act(s, action);
    Plans(cfg, t, t.agenda);
    assert Timely(cfg, t, Done);
    hide Timely, ActKeeps;
  }

  lemma DispatchSweeping(cfg: Config, s: State, choice: Choice)
    requires Sweeping(cfg, s)
    ensures Sweeping(cfg, DoDispatch(cfg, s, choice))
  {
    var t := DoDispatch(cfg, s, choice);
    if s.phase == Handling && s.agenda == Done && s.batch != [] {
      var action := Decide(cfg, Noticed(s), s.batch[0], choice);
      assert action.Refuse? ==> action.why != PingTimeout;
      ActTimely(cfg, Noticed(s), action);
      hide Act, Decide;
      forall p | p in t.sessions ensures SweptOrAhead(cfg, t, p) {}
      forall h ensures At(t, h).wire.reader == At(s, h).wire.reader {
        assert SameTraffic(At(s, h), At(t, h));
      }
    }
    hide Timely;
  }

  lemma SweepingStep(cfg: Config, s: State, step: Step)
    requires Sweeping(cfg, s) && Fifo.Ordered(cfg, s)
    ensures Sweeping(cfg, Next(cfg, s, step))
  {
    hide Sweeping, DoDispatch, DoExec, IoStep, TickStep, AgendaStep, Fifo.Ordered;
    if step.Dispatch? {
      DispatchSweeping(cfg, s, step.choice);
    } else if step.Exec? {
      ExecSweeping(cfg, s);
    } else if IsIo(step) {
      IoSweeping(cfg, s, step);
    } else if IsTick(step) {
      TickSweeping(cfg, s, step);
    } else {
      AgendaSweeping(cfg, s, step);
    }
  }

  // ---------------------------------------------------------------- every run

  lemma {:induction false} AlwaysSweeping(cfg: Config, steps: seq<Step>)
    ensures Sweeping(cfg, Reached(cfg, steps))
  {
    if steps != [] {
      var before := steps[..|steps| - 1];
      AlwaysSweeping(cfg, before);
      Fifo.AlwaysOrdered(cfg, before);
      SweepingStep(cfg, Reached(cfg, before), steps[|steps| - 1]);
      hide Next, Sweeping, Fifo.Ordered;
    }
  }

  /** A tick is over but for the bookkeeping. */
  predicate TickOver(s: State) {
    s.phase == Finishing && s.agenda == Done
  }

  /** At the end of every tick, every listed session silent for longer than the timeout is marked. */
  lemma TickMarksTheSilent(cfg: Config, steps: seq<Step>, p: PlayerId)
    requires var s := Reached(cfg, steps);
             TickOver(s) && p in s.sessions && Silent(At(s, s.sessions[p]), Cutoff(cfg, s))
    ensures var s := Reached(cfg, steps); At(s, s.sessions[p]).mark.Some?
  {
    AlwaysSweeping(cfg, steps);
    var s := Reached(cfg, steps);
    hide Reached;
    assert SweptOrAhead(cfg, s, p);
    assert Unswept(Done) == {} && !Condemned(Done, s.sessions[p]);
  }

  /** No session is newly marked for silence at a time at or before last-seen plus the timeout,
      in any step of any run. */
  lemma NobodyIsMarkedTooSoon(cfg: Config, steps: seq<Step>, step: Step, h: Handle)
    requires At(Reached(cfg, steps), h).mark.None?
    requires At(Next(cfg, Reached(cfg, steps), step), h).mark == Some(PingTimeout)
    ensures var s := Reached(cfg, steps);
            At(s, h).auth == Ready && s.now > At(s, h).lastSeen + cfg.Timeout()
  {
    AlwaysSweeping(cfg, steps);
    var s := Reached(cfg, steps);
    hide Reached;
    assert step.Dispatch? ==> SameTraffic(At(s, h), At(Next(cfg, s, step), h));
    if step.Exec? {
      ExecMark(cfg, s, h);
    } else if IsIo(step) {
      IoMark(cfg, s, step, h);
    }
    hide DoDispatch, DoExec, IoStep, TickStep, AgendaStep;
  }

  lemma ExecMark(cfg: Config, s: State, h: Handle)
    requires Timely(cfg, s, s.agenda) && At(s, h).mark.None? && At(DoExec(cfg, s), h).mark == Some(PingTimeout)
    ensures Silent(At(s, h), Cutoff(cfg, s))
  {
    hide ExecKeeps;
  }

  lemma IoMark(cfg: Config, s: State, step: Step, h: Handle)
    requires IsIo(step) && At(s, h).mark.None? && At(IoStep(cfg, s, step), h).mark.Some?
    ensures At(s, h).wire.reader.Stopping? && At(IoStep(cfg, s, step), h).mark == Some(At(s, h).wire.reader.reason)
  {
    hide IoKeeps, DecodeOne, SendsNothing;
  }

  // ---------------------------------------------------------------- the deadline

  /** How one step moves the tick goroutine's place and the record of ping rounds. */
  lemma RoundStep(cfg: Config, s: State, step: Step)
    ensures var t := Next(cfg, s, step);
            || (t.hist.ticks == s.hist.ticks && (s.phase == Finishing ==>
                TickOver(s) || (t.phase == Finishing && t.now == s.now)))
            || (t.hist.ticks == s.hist.ticks + [s.now] && t.phase == Finishing && t.now == s.now)
  {
    hide IoStep, DoExec, DoDispatch, AgendaStep;
  }

  /** The session is ready, and was last seen at the given time. */
  predicate QuietSince(s: State, h: Handle, seen: int) {
    At(s, h).auth == Ready && At(s, h).lastSeen == seen
  }

  predicate LastRoundBy(s: State, limit: int) {
    s.hist.ticks != [] && s.hist.ticks[|s.hist.ticks| - 1] <= limit
  }

  /** The end of a tick in the window after the limit, with the session marked. */
  predicate MarkedIn(s: State, h: Handle, limit: int, d: int) {
    TickOver(s) && limit < s.now <= limit + d && At(s, h).mark.Some?
  }

  ghost predicate MarkedBy(cfg: Config, steps: seq<Step>, n: nat, h: Handle, limit: int, d: int)
    requires n <= |steps|
  {
    exists i :: 0 <= i <= n && MarkedIn(After(cfg, steps, i), h, limit, d)
  }

  /** A tick in the window after the limit, or none yet after the limit. */
  predicate Approaching(s: State, limit: int, d: int) {
    LastRoundBy(s, limit) || (s.phase == Finishing && limit < s.now <= limit + d)
  }

  lemma RoundProgress(cfg: Config, s: State, step: Step, limit: int, d: int)
    requires Approaching(s, limit, d) && !(TickOver(s) && limit < s.now <= limit + d)
    requires GapsAtMost(Next(cfg, s, step).hist.ticks, d)
    ensures Approaching(Next(cfg, s, step), limit, d)
  {
    RoundStep(cfg, s, step);
    hide Next, TickOver;
    var was, ticks := s.hist.ticks, Next(cfg, s, step).hist.ticks;
    assert ticks != was && was != [] ==> ticks[|was| - 1] == was[|was| - 1] && ticks[|was|] <= ticks[|was| - 1] + d;
  }

  lemma NextDeadline(cfg: Config, steps: seq<Step>, n: nat, h: Handle, seen: int, d: int)
    requires 0 < n <= |steps| && QuietSince(After(cfg, steps, n - 1), h, seen)
    requires GapsAtMost(After(cfg, steps, n).hist.ticks, d)
    requires Approaching(After(cfg, steps, n - 1), seen + cfg.Timeout(), d)
    ensures var limit := seen + cfg.Timeout();
            Approaching(After(cfg, steps, n), limit, d) || MarkedBy(cfg, steps, n, h, limit, d)
  {
    hide After, Next, Approaching, TickOver, QuietSince, GapsAtMost;
    var limit, s := seen + cfg.Timeout(), After(cfg, steps, n - 1);
    if TickOver(s) && limit < s.now <= limit + d {
      QuietIsMarked(cfg, steps, n - 1, h, seen);
      assert MarkedIn(After(cfg, steps, n - 1), h, limit, d);
    } else {
      AfterNext(cfg, steps, n);
      RoundProgress(cfg, s, steps[n - 1], limit, d);
    }
  }

  lemma {:induction false} DeadlineProgress(cfg: Config, steps: seq<Step>, start: nat, n: nat, h: Handle,
        seen: int, d: int)
    requires start <= n <= |steps|
    requires QuietFor(cfg, steps, start, n, h, seen, d)
    requires Approaching(After(cfg, steps, start), seen + cfg.Timeout(), d)
    ensures var limit := seen + cfg.Timeout();
            Approaching(After(cfg, steps, n), limit, d) || MarkedBy(cfg, steps, n, h, limit, d)
    decreases n
  {
    hide After, Approaching, MarkedBy, QuietSince, GapsAtMost, QuietFor;
    if n > start {
      QuietBefore(cfg, steps, start, n, h, seen, d);
      DeadlineProgress(cfg, steps, start, n - 1, h, seen, d);
      MarkedStays(cfg, steps, n, h, seen + cfg.Timeout(), d);
      if Approaching(After(cfg, steps, n - 1), seen + cfg.Timeout(), d) {
        NextDeadline(cfg, steps, n, h, seen, d);
      }
    }
  }

  /** From one point of the run to another the session is quiet and ping rounds are at most d apart. */
  ghost predicate QuietFor(cfg: Config, steps: seq<Step>, start: nat, n: nat, h: Handle, seen: int, d: int)
    requires n <= |steps|
  {
    forall i :: start <= i <= n ==>
      QuietSince(After(cfg, steps, i), h, seen) && GapsAtMost(After(cfg, steps, i).hist.ticks, d)
  }

  lemma QuietBefore(cfg: Config, steps: seq<Step>, start: nat, n: nat, h: Handle, seen: int, d: int)
    requires start < n <= |steps| && QuietFor(cfg, steps, start, n, h, seen, d)
    ensures QuietFor(cfg, steps, start, n - 1, h, seen, d) && QuietSince(After(cfg, steps, n - 1), h, seen)
    ensures GapsAtMost(After(cfg, steps, n).hist.ticks, d)
  {
    hide After, QuietSince, GapsAtMost;
  }

  lemma MarkedStays(cfg: Config, steps: seq<Step>, n: nat, h: Handle, limit: int, d: int)
    requires 0 < n <= |steps|
    ensures MarkedBy(cfg, steps, n - 1, h, limit, d) ==> MarkedBy(cfg, steps, n, h, limit, d)
  {
    hide After, MarkedIn;
  }

  lemma AfterNext(cfg: Config, steps: seq<Step>, n: nat)
    requires 0 < n <= |steps|
    ensures After(cfg, steps, n) == Next(cfg, After(cfg, steps, n - 1), steps[n - 1])
  {
    hide Next;
    assert steps[..n][..n - 1] == steps[..n - 1];
  }

  lemma QuietIsMarked(cfg: Config, steps: seq<Step>, n: nat, h: Handle, seen: int)
    requires n <= |steps|
    requires var s := After(cfg, steps, n); QuietSince(s, h, seen) && TickOver(s) && s.now > seen + cfg.Timeout()
    ensures At(After(cfg, steps, n), h).mark.Some?
  {
    var s := Reached(cfg, steps[..n]);
    TablesAreConsistent(cfg, steps[..n]);
    Conservation.CleanupAtMostOnce(cfg, steps[..n], h);
    hide Reached, Conservation.DisconnectsIn, Conservation.PostsIn;
    assert Placed(s, h);
    if Live(At(s, h)) {
      TickMarksTheSilent(cfg, steps[..n], At(s, h).id);
    }
  }

  /** The zombie deadline: when ping rounds are at most d apart, a session that stays ready
      with one last-seen time from a round before its limit on is marked, whether or not it is
      still listed, and the tick that has marked it ends no later than the limit plus d, by the
      time a round after the limit is over. */
  lemma ZombieIsMarkedInTime(cfg: Config, steps: seq<Step>, start: nat, h: Handle, seen: int, d: int)
    requires start <= |steps|
    requires QuietFor(cfg, steps, start, |steps|, h, seen, d)
    requires LastRoundBy(After(cfg, steps, start), seen + cfg.Timeout())
    requires !LastRoundBy(Reached(cfg, steps), seen + cfg.Timeout()) && Reached(cfg, steps).phase != Finishing
    ensures MarkedBy(cfg, steps, |steps|, h, seen + cfg.Timeout(), d)
    ensures At(Reached(cfg, steps), h).mark.Some?
  {
    assert steps[..|steps|] == steps;
    assert After(cfg, steps, |steps|) == Reached(cfg, steps);
    hide Reached, QuietFor;
    DeadlineProgress(cfg, steps, start, |steps|, h, seen, d);
    hide MarkedBy;
    MarkStays(cfg, steps, h, seen + cfg.Timeout(), d);
  }

  lemma MarkStays(cfg: Config, steps: seq<Step>, h: Handle, limit: int, d: int)
    requires MarkedBy(cfg, steps, |steps|, h, limit, d)
    ensures At(Reached(cfg, steps), h).mark.Some?
  {
    hide Reached;
    var i :| 0 <= i <= |steps| && MarkedIn(After(cfg, steps, i), h, limit, d);
    Lifecycle.SessionsOnlyAdvance(cfg, steps[..i], steps[i..], h);
    assert steps[..i] + steps[i..] == steps;
  }
}
