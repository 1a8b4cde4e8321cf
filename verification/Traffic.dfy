/** What a session's last-seen time stands for: the traffic it came from. The zombie sweep is
    documented to go by silence on UDP; it does, exactly as long as no Pong comes over TCP. */
module Traffic {
  import opened Protocol
  import opened Cadence
  import opened Sweep
  import opened Tables
  import Fifo
  import Lifecycle

  datatype Sign =
    | Paired(at: int)      // the handshake that paired it, by the wall clock
    | Heard(at: int)       // a datagram from its address, in the tick of that time
    | TcpPong(at: int)     // a Pong on its TCP connection, in the tick of that time
  {
    predicate OverUdp() {
      !TcpPong?
    }
  }

  /** The sign of life of the session that the step deals with, if it deals with one. */
  function SignIn(cfg: Config, s: State, step: Step, h: Handle): Option<Sign> {
    if !step.Dispatch? || s.phase != Handling || s.agenda != Done || s.batch == [] then None
    else
      match s.batch[0]
      case Disconnect(_, _) => None
      case TcpMessage(k, p) =>
        if k == h && cfg.decode(p).Pong? && (At(s, h).id == 0 || At(s, h).id in s.sessions)
            then Some(TcpPong(s.now)) else None
      case UdpMessage(a, p) =>
        if PairsWith(s, cfg.decode(p), h) then Some(Paired(step.choice.clock))
        else if a in s.udp && s.udp[a] == h then Some(Heard(s.now))
        else None
  }

  /** The frame is a handshake that pairs the session. */
  predicate PairsWith(s: State, frame: ClientFrame, h: Handle) {
    && frame.UdpHandshake? && frame.player in s.sessions && s.sessions[frame.player] == h
    && At(s, h).token == frame.token && At(s, h).auth == AwaitingUdp
  }

  /** All signs of life of the session over a run, oldest first. */
  function Signs(cfg: Config, steps: seq<Step>, h: Handle): seq<Sign> {
    if steps == [] then []
    else
      var n := |steps| - 1;
      var g := SignIn(cfg, Reached(cfg, steps[..n]), steps[n], h);
      Signs(cfg, steps[..n], h) + if g.Some? then [g.value] else []
  }

  function Latest(signs: seq<Sign>): int {
    if signs == [] then 0 else signs[|signs| - 1].at
  }

  function LatestOverUdp(signs: seq<Sign>): Option<int> {
    if signs == [] then None
    else if signs[|signs| - 1].OverUdp() then Some(signs[|signs| - 1].at)
    else LatestOverUdp(signs[..|signs| - 1])
  }

  // ---------------------------------------------------------------- one step

  /** Taking a datagram off the batch shows the session paired with its source to be alive. */
  lemma NoticedSeen(s: State, h: Handle)
    requires s.batch != [] && h < |s.conns|
    ensures var n, e, c := Noticed(s), s.batch[0], At(s, h);
            && At(n, h) == c.(lastSeen := if e.UdpMessage? && e.addr in s.udp && s.udp[e.addr] == h then s.now
                else c.lastSeen)
            && n.sessions == s.sessions && n.udp == s.udp && n.now == s.now && |n.conns| == |s.conns|
            && forall k :: At(n, k).auth == At(s, k).auth && At(n, k).token == At(s, k).token
                && At(n, k).id == At(s, k).id
  {
    hide DispatchKeeps;
  }

  lemma ActSeen(s: State, action: Action, h: Handle)
    requires h < |s.conns|
    ensures At(Act(s, action), h).lastSeen
            == if action.Pair? && action.h == h then action.clock
               else if action.Refresh? && action.h == h then s.now
               else At(s, h).lastSeen
    ensures At(Act(s, action), h).auth == Ready && At(s, h).auth != Ready ==> action.Pair? && action.h == h
  {
    ActOn(s, action, h);
    hide Act;
  }

  /** The decisions that touch the session's last-seen time. */
  lemma DecideSeen(cfg: Config, s: State, e: Event, choice: Choice, h: Handle)
    ensures var action := Decide(cfg, s, e, choice);
            && (action.Pair? && action.h == h <==> e.UdpMessage? && PairsWith(s, cfg.decode(e.payload), h))
            && (action.Pair? ==> action.clock == choice.clock)
            && (action.Refresh? && action.h == h
                <==> || (e.UdpMessage? && cfg.decode(e.payload).Pong? && e.addr in s.udp && s.udp[e.addr] == h)
                     || (e.TcpMessage? && e.sess == h && cfg.decode(e.payload).Pong?
                         && (At(s, h).id == 0 || At(s, h).id in s.sessions)))
  {
  }

  lemma DispatchSign(cfg: Config, s: State, choice: Choice, h: Handle)
    requires h < |s.conns|
    ensures var g := SignIn(cfg, s, Dispatch(choice), h);
            && At(DoDispatch(cfg, s, choice), h).lastSeen == (if g.Some? then g.value.at else At(s, h).lastSeen)
            && (At(DoDispatch(cfg, s, choice), h).auth == Ready && At(s, h).auth != Ready ==>
                g.Some? && g.value.Paired?)
  {
    if s.phase == Handling && s.agenda == Done && s.batch != [] {
      var n := Noticed(s);
      NoticedSeen(s, h);
      DecideSeen(cfg, n, s.batch[0], choice, h);
      ActSeen(n, Decide(cfg, n, s.batch[0], choice), h);
    }
    hide DispatchKeeps, Noticed, Decide, Act;
  }

  lemma StepSign(cfg: Config, s: State, step: Step, h: Handle)
    requires h < |s.conns|
    ensures var g := SignIn(cfg, s, step, h);
            && At(Next(cfg, s, step), h).lastSeen == (if g.Some? then g.value.at else At(s, h).lastSeen)
            && (At(Next(cfg, s, step), h).auth == Ready && At(s, h).auth != Ready ==> g.Some? && g.value.Paired?)
  {
    if step.Dispatch? {
      DispatchSign(cfg, s, step.choice, h);
    } else {
      Lifecycle.QuietIdentity(cfg, s, step, h);
      hide Next;
    }
    hide DoDispatch, IoStep, DoExec, TickStep, AgendaStep;
  }

  /** A connection not accepted yet gives no sign of life. */
  lemma NotYetSeen(cfg: Config, s: State, step: Step, h: Handle)
    requires Consistent(s) && Fifo.Ordered(cfg, s) && h >= |s.conns|
    ensures SignIn(cfg, s, step, h).None?
  {
    if s.batch != [] {
      assert s.hist.accepted[|s.hist.handled|] == s.batch[0];
    }
    forall p | p in s.sessions ensures s.sessions[p] != h {
      assert EntryFits(s, p);
    }
    forall a | a in s.udp ensures s.udp[a] != h {
      assert UdpEntryFits(s, a);
    }
    hide Consistent;
  }

  // ---------------------------------------------------------------- every run

  predicate Explained(c: Session, signs: seq<Sign>) {
    c.lastSeen == Latest(signs) && (c.auth == Ready ==> exists i :: 0 <= i < |signs| && signs[i].Paired?)
  }

  lemma ExplainedFurther(c: Session, d: Session, signs: seq<Sign>, g: Option<Sign>)
    requires Explained(c, signs)
    requires d.lastSeen == if g.Some? then g.value.at else c.lastSeen
    requires d.auth == Ready && c.auth != Ready ==> g.Some? && g.value.Paired?
    ensures Explained(d, signs + if g.Some? then [g.value] else [])
  {
    var more := signs + if g.Some? then [g.value] else [];
    assert forall i :: 0 <= i < |signs| ==> more[i] == signs[i];
    if d.auth == Ready && c.auth != Ready {
      assert more[|signs|].Paired?;
    }
  }

  /** In every reachable state a session's last-seen time is the time of its latest sign of
      life, and a ready session has had one at least, the handshake that paired it. */
  lemma {:induction false} LastSeenIsTheLatestSign(cfg: Config, steps: seq<Step>, h: Handle)
    ensures Explained(At(Reached(cfg, steps), h), Signs(cfg, steps, h))
  {
    if steps != [] {
      var n, before := |steps| - 1, steps[..|steps| - 1];
      var s := Reached(cfg, before);
      LastSeenIsTheLatestSign(cfg, before, h);
      assert Reached(cfg, steps) == Next(cfg, s, steps[n]);
      TablesAreConsistent(cfg, before);
      Fifo.AlwaysOrdered(cfg, before);
      hide Next, Reached, Consistent, Fifo.Ordered, Explained, SignIn;
      if h < |s.conns| {
        StepSign(cfg, s, steps[n], h);
      } else {
        NotYetSeen(cfg, s, steps[n], h);
        Newcomer(cfg, s, steps[n], h);
      }
      ExplainedFurther(At(s, h), At(Reached(cfg, steps), h), Signs(cfg, before, h), SignIn(cfg, s, steps[n], h));
    }
  }

  lemma Newcomer(cfg: Config, s: State, step: Step, h: Handle)
    requires h >= |s.conns|
    ensures At(Next(cfg, s, step), h).lastSeen == 0 && At(Next(cfg, s, step), h).auth == PreLogin
  {
    if step.Dispatch? {
      assert |DoDispatch(cfg, s, step.choice).conns| == |s.conns|;
    } else {
      Lifecycle.QuietIdentity(cfg, s, step, h);
      hide Next;
    }
    hide DoDispatch, IoStep, DoExec, TickStep, AgendaStep;
  }

  // ---------------------------------------------------------------- silence on UDP

  /** A ready session that has been silent on UDP for longer than the timeout is taken for a
      zombie exactly when no Pong over TCP has come within the timeout after that. */
  lemma UdpSilenceCountsExactlyWhen(cfg: Config, steps: seq<Step>, h: Handle)
    requires At(Reached(cfg, steps), h).auth == Ready
    requires var udp := LatestOverUdp(Signs(cfg, steps, h)); udp.Some? ==> udp.value < Cutoff(cfg, Reached(cfg, steps))
    ensures var s, signs := Reached(cfg, steps), Signs(cfg, steps, h);
            Silent(At(s, h), Cutoff(cfg, s))
            <==> !(signs != [] && signs[|signs| - 1].TcpPong? && signs[|signs| - 1].at >= Cutoff(cfg, s))
  {
    LastSeenIsTheLatestSign(cfg, steps, h);
    TablesAreConsistent(cfg, steps);
    hide Reached, Signs;
    assert Placed(Reached(cfg, steps), h);
  }

  /** No session is marked for silence while its latest sign of life, over UDP or TCP, is
      within the timeout. */
  lemma NobodyHeardOfIsMarked(cfg: Config, steps: seq<Step>, step: Step, h: Handle)
    ensures var s, signs := Reached(cfg, steps), Signs(cfg, steps, h);
            At(s, h).mark.None? && At(Next(cfg, s, step), h).mark == Some(PingTimeout) ==>
              signs != [] && s.now > signs[|signs| - 1].at + cfg.Timeout()
  {
    hide Reached, Signs, Next;
    var s := Reached(cfg, steps);
    if At(s, h).mark.None? && At(Next(cfg, s, step), h).mark == Some(PingTimeout) {
      NobodyIsMarkedTooSoon(cfg, steps, step, h);
      LastSeenIsTheLatestSign(cfg, steps, h);
    }
  }

  lemma {:induction false} SignsGrow(cfg: Config, steps: seq<Step>, i: nat, h: Handle)
    requires i <= |steps|
    ensures Signs(cfg, steps[..i], h) <= Signs(cfg, steps, h)
    decreases |steps|
  {
    hide SignIn, Reached;
    if i == |steps| {
      assert steps[..i] == steps;
    } else {
      var before := steps[..|steps| - 1];
      assert before[..i] == steps[..i];
      SignsGrow(cfg, before, i, h);
    }
  }

  lemma {:induction false} TicksGrow(cfg: Config, steps: seq<Step>, i: nat)
    requires i <= |steps|
    ensures After(cfg, steps, i).hist.ticks <= Reached(cfg, steps).hist.ticks
    decreases |steps|
  {
    if i == |steps| {
      assert steps[..i] == steps;
    } else {
      var before := steps[..|steps| - 1];
      assert before[..i] == steps[..i];
      TicksGrow(cfg, before, i);
      RoundStep(cfg, Reached(cfg, before), steps[|steps| - 1]);
      assert Reached(cfg, steps) == Next(cfg, Reached(cfg, before), steps[|steps| - 1]);
    }
    hide Next;
  }

  /** The documented bound: with ping rounds at most d apart, a ready session that is heard of no
      more after its latest sign over UDP is marked by a tick that ends no later than that sign
      plus the timeout plus d. */
  lemma UdpSilenceIsMarkedInTime(cfg: Config, steps: seq<Step>, start: nat, h: Handle, seen: int, d: int)
    requires start <= |steps| && At(After(cfg, steps, start), h).auth == Ready
    requires Signs(cfg, steps, h) == Signs(cfg, steps[..start], h) != []
    requires var latest := Signs(cfg, steps, h)[|Signs(cfg, steps, h)| - 1]; latest.OverUdp() && latest.at == seen
    requires GapsAtMost(Reached(cfg, steps).hist.ticks, d)
    requires LastRoundBy(After(cfg, steps, start), seen + cfg.Timeout())
    requires !LastRoundBy(Reached(cfg, steps), seen + cfg.Timeout()) && Reached(cfg, steps).phase != Finishing
    ensures MarkedBy(cfg, steps, |steps|, h, seen + cfg.Timeout(), d)
    ensures At(Reached(cfg, steps), h).mark.Some?
  {
    hide Reached, After, Signs, QuietSince, GapsAtMost, LastRoundBy, MarkedBy;
    assert QuietFor(cfg, steps, start, |steps|, h, seen, d) by {
      forall i | start <= i <= |steps|
        ensures QuietSince(After(cfg, steps, i), h, seen) && GapsAtMost(After(cfg, steps, i).hist.ticks, d)
      {
        QuietThroughout(cfg, steps, start, i, h, seen, d);
      }
    }
    hide QuietFor;
    ZombieIsMarkedInTime(cfg, steps, start, h, seen, d);
  }

  lemma QuietThroughout(cfg: Config, steps: seq<Step>, start: nat, i: nat, h: Handle, seen: int, d: int)
    requires start <= i <= |steps| && At(After(cfg, steps, start), h).auth == Ready
    requires Signs(cfg, steps, h) == Signs(cfg, steps[..start], h) && Latest(Signs(cfg, steps, h)) == seen
    requires GapsAtMost(Reached(cfg, steps).hist.ticks, d)
    ensures QuietSince(After(cfg, steps, i), h, seen) && GapsAtMost(After(cfg, steps, i).hist.ticks, d)
  {
    hide Reached, After, Signs;
    HeardNoMore(cfg, steps, start, i, h);
    TicksGrow(cfg, steps, i);
  }

  lemma HeardNoMore(cfg: Config, steps: seq<Step>, start: nat, i: nat, h: Handle)
    requires start <= i <= |steps| && At(After(cfg, steps, start), h).auth == Ready
    requires Signs(cfg, steps, h) == Signs(cfg, steps[..start], h)
    ensures At(After(cfg, steps, i), h).auth == Ready
    ensures At(After(cfg, steps, i), h).lastSeen == Latest(Signs(cfg, steps, h))
  {
    hide Reached, Signs;
    SignsGrow(cfg, steps, i, h);
    SignsGrow(cfg, steps[..i], start, h);
    assert steps[..i][..start] == steps[..start] && steps[..start] + steps[start..i] == steps[..i];
    Lifecycle.SessionsOnlyAdvance(cfg, steps[..start], steps[start..i], h);
    LastSeenIsTheLatestSign(cfg, steps[..i], h);
  }
}
