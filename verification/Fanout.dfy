/** Broadcast and publish: each targeted session is given exactly one copy, whatever the I/O
    goroutines do while the loop runs. */
module Fanout {
  import opened Frame
  import opened Protocol
  import opened Tables
  import Fifo
  import Outbound

  function Depth(a: Agenda): nat {
    match a
    case Done => 0
    case Then(_, rest) => 1 + Depth(rest)
  }

  /** The loop targets the session: one of the players leads to it in the session table. */
  ghost predicate Target(sessions: map<PlayerId, Handle>, players: set<PlayerId>, h: Handle) {
    exists p :: p in players && p in sessions && sessions[p] == h
  }

  predicate OnePlayerEach(sessions: map<PlayerId, Handle>) {
    forall p, q :: p in sessions && q in sessions && sessions[p] == sessions[q] ==> p == q
  }

  /** The frame h is owed or not, as a sequence. */
  ghost function Copy(given: bool, body: Bytes): seq<ServerFrame> {
    if given then [Game(body)] else []
  }

  /** A fan-out to `all` that began in s, above `rest`, is under way in t with `todo` left; h
      has been given its copy if it was targeted and the send is not still ahead. */
  ghost predicate Underway(s: State, t: State, all: set<PlayerId>, todo: set<PlayerId>, body: Bytes,
        rest: Agenda, h: Handle) {
    && t.sessions == s.sessions && t.udp == s.udp && t.subs == s.subs
    && (t.phase == Handling || t.phase == Finishing) && todo <= all
    && var loop := Then(Fan(todo, body), rest);
       || (t.agenda == loop
           && At(t, h).wire.offered == At(s, h).wire.offered + Copy(Target(s.sessions, all - todo, h), body))
       || (t.agenda.Then? && t.agenda.rest == loop && (t.agenda.op.Mark? || t.agenda.op.Post?)
           && At(t, h).wire.offered == At(s, h).wire.offered + Copy(Target(s.sessions, all - todo, h), body))
       || (exists p :: (p in all - todo && p in s.sessions && t.agenda == Then(Push(s.sessions[p], Game(body)), loop)
                        && At(t, h).wire.offered
                           == At(s, h).wire.offered + Copy(Target(s.sessions, all - todo, h)
                                                                    && s.sessions[p] != h, body)))
  }

  ghost predicate Finished(s: State, t: State, all: set<PlayerId>, body: Bytes, rest: Agenda, h: Handle) {
    && t.sessions == s.sessions && t.udp == s.udp && t.subs == s.subs && t.agenda == rest
    && At(t, h).wire.offered == At(s, h).wire.offered + Copy(Target(s.sessions, all, h), body)
  }

  ghost predicate FanState(s: State, t: State, all: set<PlayerId>, body: Bytes, rest: Agenda, h: Handle) {
    Finished(s, t, all, body, rest, h) || exists todo :: Underway(s, t, all, todo, body, rest, h)
  }

  // ---------------------------------------------------------------- one step

  lemma PickUnderway(s: State, t: State, all: set<PlayerId>, todo: set<PlayerId>, body: Bytes, rest: Agenda,
        h: Handle, p: PlayerId)
    requires Underway(s, t, all, todo, body, rest, h) && OnePlayerEach(s.sessions)
    ensures FanState(s, DoPick(t, p), all, body, rest, h)
  {
    var u := DoPick(t, p);
    if t.agenda == Then(Fan(todo, body), rest) && p in todo {
      var left := todo - {p};
      assert all - left == (all - todo) + {p};
      if p in s.sessions {
        assert Target(s.sessions, all - left, s.sessions[p]) && !Target(s.sessions, all - todo, s.sessions[p]);
        if h != s.sessions[p] {
          assert Target(s.sessions, all - left, h) <==> Target(s.sessions, all - todo, h);
        }
      } else {
        assert Target(s.sessions, all - left, h) <==> Target(s.sessions, all - todo, h);
      }
      assert Underway(s, u, all, left, body, rest, h);
    } else {
      assert u == t;
    }
  }

  lemma ExecUnderway(cfg: Config, s: State, t: State, all: set<PlayerId>, todo: set<PlayerId>, body: Bytes,
        rest: Agenda, h: Handle)
    requires Underway(s, t, all, todo, body, rest, h)
    requires forall p :: p in s.sessions ==> s.sessions[p] < |t.conns|
    ensures FanState(s, DoExec(cfg, t), all, body, rest, h)
  {
    var u := DoExec(cfg, t);
    if t.agenda == Then(Fan(todo, body), rest) {
      if todo == {} {
        assert all - todo == all;
        assert Finished(s, u, all, body, rest, h);
      } else {
        assert u == t;
      }
    } else {
      ExecAbove(cfg, t, h);
      hide DoExec;
      assert Underway(s, u, all, todo, body, rest, h) by {
        if t.agenda.op.Push? {
          assert Target(s.sessions, all - todo, t.agenda.op.to);
        }
      }
    }
  }

  /** What executing a send, a mark or a post does to the agenda and to what h was given. */
  lemma ExecAbove(cfg: Config, t: State, h: Handle)
    requires t.agenda.Then? && (t.agenda.op.Push? || t.agenda.op.Mark? || t.agenda.op.Post?)
    requires t.agenda.op.Push? ==> t.agenda.op.to < |t.conns|
    ensures var u := DoExec(cfg, t);
            && (u.agenda == t.agenda.rest
                || (u.agenda.Then? && u.agenda.rest == t.agenda.rest && (u.agenda.op.Mark? || u.agenda.op.Post?)))
            && At(u, h).wire.offered == At(t, h).wire.offered
                                        + if t.agenda.op.Push? && t.agenda.op.to == h then [t.agenda.op.frame] else []
  {
    hide ExecKeeps;
  }

  /** The other steps leave a fan-out where it is. */
  lemma OtherUnderway(cfg: Config, s: State, t: State, step: Step, all: set<PlayerId>, todo: set<PlayerId>,
        body: Bytes, rest: Agenda, h: Handle)
    requires Underway(s, t, all, todo, body, rest, h) && !step.Exec? && !step.Pick?
    ensures Underway(s, Next(cfg, t, step), all, todo, body, rest, h)
  {
    var u := Next(cfg, t, step);
    if IsIo(step) {
      IoOffersNothing(cfg, t, step, h);
    } else {
      NothingMoves(cfg, t, step);
    }
    hide Next, Target;
  }

  lemma IoOffersNothing(cfg: Config, t: State, step: Step, h: Handle)
    requires IsIo(step)
    ensures var u := Next(cfg, t, step);
            && t.sessions == u.sessions && t.udp == u.udp && t.subs == u.subs && t.phase == u.phase
            && t.agenda == u.agenda && At(u, h).wire.offered == At(t, h).wire.offered
  {
    assert step.Write? ==> At(IoStep(cfg, t, step), h).wire.offered == At(t, h).wire.offered;
    hide IoStep;
  }

  /** While an operation that is no callback is up next, only executing it moves the tick goroutine. */
  lemma NothingMoves(cfg: Config, t: State, step: Step)
    requires t.agenda.Then? && !t.agenda.op.Run? && (t.phase == Handling || t.phase == Finishing)
    requires !IsIo(step) && !step.Exec? && !step.Pick?
    ensures Next(cfg, t, step) == t
  {
    hide DoExec, IoStep;
  }

  // ---------------------------------------------------------------- every run

  /** The loop is on throughout the steps, and may end with the last of them. */
  ghost predicate LoopRuns(cfg: Config, s: State, more: seq<Step>, rest: Agenda) {
    forall i :: 0 <= i < |more| ==> Depth(RunFrom(cfg, s, more[..i]).agenda) > Depth(rest)
  }

  lemma {:induction false} FanProgress(cfg: Config, s: State, more: seq<Step>, all: set<PlayerId>, body: Bytes,
        rest: Agenda, h: Handle)
    requires s.agenda == Then(Fan(all, body), rest) && (s.phase == Handling || s.phase == Finishing)
    requires OnePlayerEach(s.sessions) && forall p :: p in s.sessions ==> s.sessions[p] < |s.conns|
    requires LoopRuns(cfg, s, more, rest)
    ensures var t := RunFrom(cfg, s, more);
            FanState(s, t, all, body, rest, h) && |s.conns| <= |t.conns|
  {
    hide Next, Target;
    if more == [] {
      FanStarts(s, all, body, rest, h);
    } else {
      var n, before := |more| - 1, more[..|more| - 1];
      forall i | 0 <= i < n ensures Depth(RunFrom(cfg, s, before[..i]).agenda) > Depth(rest) {
        assert before[..i] == more[..i];
      }
      FanProgress(cfg, s, before, all, body, rest, h);
      var t, step := RunFrom(cfg, s, before), more[n];
      assert RunFrom(cfg, s, more) == Next(cfg, t, step);
      assert Depth(t.agenda) > Depth(rest);
      hide RunFrom, LoopRuns, Underway;
      ConnsGrow(cfg, t, step);
      var todo :| Underway(s, t, all, todo, body, rest, h);
      FanStep(cfg, s, t, step, all, todo, body, rest, h);
    }
    hide FanState;
  }

  lemma FanStarts(s: State, all: set<PlayerId>, body: Bytes, rest: Agenda, h: Handle)
    requires s.agenda == Then(Fan(all, body), rest) && (s.phase == Handling || s.phase == Finishing)
    ensures FanState(s, s, all, body, rest, h)
  {
    assert Underway(s, s, all, all, body, rest, h);
  }

  lemma ConnsGrow(cfg: Config, t: State, step: Step)
    ensures |t.conns| <= |Next(cfg, t, step).conns|
  {
    hide IoStep, DoExec, DoDispatch, TickStep, AgendaStep;
  }

  lemma FanStep(cfg: Config, s: State, t: State, step: Step, all: set<PlayerId>, todo: set<PlayerId>,
        body: Bytes, rest: Agenda, h: Handle)
    requires Underway(s, t, all, todo, body, rest, h)
    requires OnePlayerEach(s.sessions) && forall p :: p in s.sessions ==> s.sessions[p] < |t.conns|
    ensures FanState(s, Next(cfg, t, step), all, body, rest, h)
  {
    hide Underway, OnePlayerEach;
    if step.Exec? {
      ExecUnderway(cfg, s, t, all, todo, body, rest, h);
    } else if step.Pick? {
      PickUnderway(s, t, all, todo, body, rest, h, step.player);
    } else {
      OtherUnderway(cfg, s, t, step, all, todo, body, rest, h);
    }
    hide DoExec, DoPick, IoStep, TickStep, DoDispatch;
  }

  /** In any run from a reachable state whose next work is a fan-out, with any I/O in between:
      when the loop is over, every session it targeted has been given exactly one copy, every
      other session nothing, and the tables it walked are as they were. */
  lemma FanOutIsExact(cfg: Config, steps: seq<Step>, more: seq<Step>, all: set<PlayerId>, body: Bytes,
        rest: Agenda, h: Handle)
    requires Reached(cfg, steps).agenda == Then(Fan(all, body), rest)
    requires LoopRuns(cfg, Reached(cfg, steps), more, rest)
    requires Depth(Reached(cfg, steps + more).agenda) <= Depth(rest)
    ensures Finished(Reached(cfg, steps), Reached(cfg, steps + more), all, body, rest, h)
  {
    var s := Reached(cfg, steps);
    RunSplit(cfg, INIT, steps, more);
    TablesAreConsistent(cfg, steps);
    Fifo.AlwaysOrdered(cfg, steps);
    assert s.phase == Handling || s.phase == Finishing;
    hide Fifo.Ordered, Target, LoopRuns;
    forall p | p in s.sessions ensures s.sessions[p] < |s.conns| && At(s, s.sessions[p]).id == p {
      assert EntryFits(s, p);
    }
    hide Reached, Consistent;
    FanProgress(cfg, s, more, all, body, rest, h);
  }

  /** And so an unmarked session's writer has taken, or will take, that one copy after all it
      was given before, or nothing more if it was not targeted. */
  lemma FanOutIsDelivered(cfg: Config, steps: seq<Step>, more: seq<Step>, all: set<PlayerId>, body: Bytes,
        rest: Agenda, h: Handle)
    requires Reached(cfg, steps).agenda == Then(Fan(all, body), rest)
    requires LoopRuns(cfg, Reached(cfg, steps), more, rest)
    requires Depth(Reached(cfg, steps + more).agenda) <= Depth(rest)
    requires At(Reached(cfg, steps + more), h).mark.None?
    ensures Outbound.Delivered(At(Reached(cfg, steps + more), h))
            == At(Reached(cfg, steps), h).wire.offered + Copy(Target(Reached(cfg, steps).sessions, all, h), body)
  {
    FanOutIsExact(cfg, steps, more, all, body, rest, h);
    Outbound.OverflowIsOnTop(cfg, steps, h);
    Outbound.NothingIsLostUnmarked(cfg, steps + more, h);
    hide Reached, LoopRuns, Target, Outbound.Thinned;
  }

  // ---------------------------------------------------------------- whom they target

  /** A broadcast targets exactly the sessions listed when it is called. */
  lemma BroadcastReachesTheListed(cfg: Config, steps: seq<Step>, body: Bytes, h: Handle)
    requires Reached(cfg, steps).agenda.Then? && Reached(cfg, steps).agenda.op.Run?
    ensures var s, t := Reached(cfg, steps), Reached(cfg, steps + [User(BroadcastTcp(body))]);
            && t.agenda == Then(Fan(s.sessions.Keys, body), s.agenda)
            && t.sessions == s.sessions && t.udp == s.udp && t.subs == s.subs && t.conns == s.conns
            && (Target(t.sessions, s.sessions.Keys, h) <==> h in s.sessions.Values)
  {
    Extend(cfg, steps, User(BroadcastTcp(body)));
    hide Reached;
  }

  /** A publication targets exactly the listed sessions of the topic's subscribers. */
  lemma PublishReachesTheSubscribed(cfg: Config, steps: seq<Step>, topic: Topic, body: Bytes, h: Handle)
    requires Reached(cfg, steps).agenda.Then? && Reached(cfg, steps).agenda.op.Run?
    ensures var s, t := Reached(cfg, steps), Reached(cfg, steps + [User(Publish(topic, body))]);
            && t.agenda == Then(Fan(Subscribers(s, topic), body), s.agenda)
            && t.sessions == s.sessions && t.udp == s.udp && t.subs == s.subs && t.conns == s.conns
            && (Target(t.sessions, Subscribers(s, topic), h) <==> Subscribed(s, topic, h))
  {
    Extend(cfg, steps, User(Publish(topic, body)));
    var s := Reached(cfg, steps);
    hide Reached;
    assert forall p :: p in Subscribers(s, topic) <==> (p, topic) in s.subs;
  }

  ghost predicate Subscribed(s: State, topic: Topic, h: Handle) {
    exists p :: (p, topic) in s.subs && p in s.sessions && s.sessions[p] == h
  }

  /** What a call that fans a body out has done, once the callback that made it is on again. */
  ghost predicate FannedOut(s: State, t: State, h: Handle, body: Bytes, given: bool) {
    && t.sessions == s.sessions && t.udp == s.udp && t.subs == s.subs && t.agenda == s.agenda
    && At(t, h).wire.offered == At(s, h).wire.offered + Copy(given, body)
  }

  /** A broadcast gives each session listed at the call exactly one copy and every other session
      nothing, whatever I/O and overflows happen on the way. */
  lemma BroadcastIsExact(cfg: Config, steps: seq<Step>, body: Bytes, more: seq<Step>, h: Handle)
    requires Reached(cfg, steps).agenda.Then? && Reached(cfg, steps).agenda.op.Run?
    requires var called := steps + [User(BroadcastTcp(body))];
             && LoopRuns(cfg, Reached(cfg, called), more, Reached(cfg, steps).agenda)
             && Depth(Reached(cfg, called + more).agenda) <= Depth(Reached(cfg, steps).agenda)
    ensures var s, t := Reached(cfg, steps), Reached(cfg, steps + [User(BroadcastTcp(body))] + more);
            FannedOut(s, t, h, body, h in s.sessions.Values)
  {
    BroadcastReachesTheListed(cfg, steps, body, h);
    var s := Reached(cfg, steps);
    FanOutIsExact(cfg, steps + [User(BroadcastTcp(body))], more, s.sessions.Keys, body, s.agenda, h);
    hide Reached, Target, LoopRuns;
  }

  /** A publication over TCP gives each listed subscriber's session exactly one copy and every
      other session nothing. */
  lemma PublishIsExact(cfg: Config, steps: seq<Step>, topic: Topic, body: Bytes, more: seq<Step>, h: Handle)
    requires Reached(cfg, steps).agenda.Then? && Reached(cfg, steps).agenda.op.Run?
    requires var called := steps + [User(Publish(topic, body))];
             && LoopRuns(cfg, Reached(cfg, called), more, Reached(cfg, steps).agenda)
             && Depth(Reached(cfg, called + more).agenda) <= Depth(Reached(cfg, steps).agenda)
    ensures var s, t := Reached(cfg, steps), Reached(cfg, steps + [User(Publish(topic, body))] + more);
            FannedOut(s, t, h, body, Subscribed(s, topic, h))
  {
    PublishReachesTheSubscribed(cfg, steps, topic, body, h);
    var s := Reached(cfg, steps);
    FanOutIsExact(cfg, steps + [User(Publish(topic, body))], more, Subscribers(s, topic), body, s.agenda, h);
    hide Reached, Target, LoopRuns, Subscribed;
  }
}
