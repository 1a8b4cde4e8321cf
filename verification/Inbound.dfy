/** From one connection's byte stream to the event queue: no gaps. */
module Inbound {
  import opened Frame
  import opened Protocol

  /** The payloads of the message events of one connection, in order. */
  function FramesFrom(es: seq<Event>, h: Handle): seq<Bytes> {
    if es == [] then []
    else
      var e := es[|es| - 1];
      FramesFrom(es[..|es| - 1], h) + if e.TcpMessage? && e.sess == h then [e.payload] else []
  }

  function Payloads(cfg: Config, bytes: Bytes): seq<Bytes> {
    DecodeAll(bytes, cfg.maxFrame, Closed).payloads
  }

  /** What was accepted is the front of what the stream decodes to; a reader that is still
      reading has the rest in front of it; and one that has stopped left its session marked. */
  predicate GapFree(cfg: Config, s: State, h: Handle) {
    var c := At(s, h);
    var w := c.wire;
    && FramesFrom(s.hist.accepted, h) <= Payloads(cfg, w.stream)
    && (w.reader == Reading ==> FramesFrom(s.hist.accepted, h) + Payloads(cfg, w.unread) == Payloads(cfg, w.stream))
    && (w.reader.Posting? || w.reader.Exited? ==> c.mark.Some?)
  }

  lemma AppendFrames(es: seq<Event>, h: Handle)
    ensures forall e :: FramesFrom(es + [e], h)
                        == FramesFrom(es, h) + if e.TcpMessage? && e.sess == h then [e.payload] else []
  {
    forall e
      ensures FramesFrom(es + [e], h) == FramesFrom(es, h) + if e.TcpMessage? && e.sess == h then [e.payload] else []
    {
      assert (es + [e])[..|es|] == es;
    }
  }

  lemma ReceiveGapFree(cfg: Config, s: State, k: Handle, h: Handle)
    requires GapFree(cfg, s, h)
    ensures GapFree(cfg, DoReceive(cfg, s, k), h)
  {
    AppendFrames(s.hist.accepted, h);
    NextPayload(cfg, At(s, h).wire.unread, FramesFrom(s.hist.accepted, h));
    hide DecodeOne, Payloads, FramesFrom, IoKeeps, SendsNothing;
  }

  /** Decoding one frame takes one payload off the front of those to come. */
  lemma NextPayload(cfg: Config, unread: Bytes, got: seq<Bytes>)
    ensures match DecodeOne(unread, cfg.maxFrame, Closed)
            case Payload(p, rest) => got + Payloads(cfg, unread) == got + [p] + Payloads(cfg, rest)
            case Failed(_, _) => Payloads(cfg, unread) == []
  {
    hide DecodeOne;
    match DecodeOne(unread, cfg.maxFrame, Closed) {
      case Payload(p, rest) =>
        assert Payloads(cfg, unread) == [p] + Payloads(cfg, rest);
        assert got + ([p] + Payloads(cfg, rest)) == got + [p] + Payloads(cfg, rest);
      case Failed(_, _) =>
    }
  }

  lemma ReaderEndsGapFree(cfg: Config, s: State, k: Handle, e: ReadError, h: Handle)
    requires GapFree(cfg, s, h)
    ensures GapFree(cfg, DoStopReading(s, k, e), h)
    ensures GapFree(cfg, DoReaderMark(s, k), h)
  {
    hide Payloads, FramesFrom, IoKeeps, SendsNothing;
  }

  lemma ReaderPostGapFree(cfg: Config, s: State, k: Handle, h: Handle)
    requires GapFree(cfg, s, h)
    ensures GapFree(cfg, DoReaderPost(cfg, s, k), h)
  {
    AppendFrames(s.hist.accepted, h);
    hide Payloads, FramesFrom, IoKeeps, SendsNothing;
  }

  lemma RestGapFree(cfg: Config, s: State, step: Step, h: Handle)
    requires GapFree(cfg, s, h)
    ensures match step
            case Accept(stream) => GapFree(cfg, DoAccept(s, stream), h)
            case Datagram(a, p) => GapFree(cfg, DoDatagram(cfg, s, a, p), h)
            case _ => true
  {
    AppendFrames(s.hist.accepted, h);
    assert Payloads(cfg, []) == [];
    hide Payloads, FramesFrom, IoKeeps, SendsNothing;
  }

  lemma WriteGapFree(cfg: Config, s: State, k: Handle, h: Handle)
    requires GapFree(cfg, s, h)
    ensures GapFree(cfg, DoWrite(s, k), h)
  {
    hide Payloads, FramesFrom, IoKeeps;
  }

  lemma IoGapFree(cfg: Config, s: State, step: Step, h: Handle)
    requires GapFree(cfg, s, h) && IsIo(step)
    ensures GapFree(cfg, IoStep(cfg, s, step), h)
  {
    hide GapFree;
    match step {
      case Receive(k) => ReceiveGapFree(cfg, s, k, h);
      case StopReading(k, e) => ReaderEndsGapFree(cfg, s, k, e, h);
      case ReaderMark(k) => ReaderEndsGapFree(cfg, s, k, EndOfFile, h);
      case ReaderPost(k) => ReaderPostGapFree(cfg, s, k, h);
      case Write(k) => WriteGapFree(cfg, s, k, h);
      case _ => RestGapFree(cfg, s, step, h);
    }
    hide DoAccept, DoReceive, DoStopReading, DoReaderMark, DoReaderPost, DoDatagram, DoWrite;
  }

  lemma GapFreeStep(cfg: Config, s: State, step: Step, h: Handle)
    requires GapFree(cfg, s, h)
    ensures GapFree(cfg, Next(cfg, s, step), h)
  {
    if step.Dispatch? {
      assert SameTraffic(At(s, h), At(DoDispatch(cfg, s, step.choice), h));
      hide DoDispatch;
    } else if step.Exec? {
      ExecGapFree(cfg, s, h);
    } else if IsIo(step) {
      IoGapFree(cfg, s, step, h);
    }
    hide FramesFrom, Payloads, DoDispatch, DoExec, IoStep, TickStep, AgendaStep;
  }

  /** Executing an operation accepts no message and clears no flag. */
  lemma ExecTraffic(cfg: Config, s: State, h: Handle)
    ensures FramesFrom(DoExec(cfg, s).hist.accepted, h) == FramesFrom(s.hist.accepted, h)
    ensures At(s, h).mark.Some? ==> At(DoExec(cfg, s), h).mark.Some?
  {
    AppendFrames(s.hist.accepted, h);
    hide FramesFrom, ExecKeeps, SameTick, SameIdentity;
  }

  lemma ExecGapFree(cfg: Config, s: State, h: Handle)
    requires GapFree(cfg, s, h)
    ensures GapFree(cfg, DoExec(cfg, s), h)
  {
    ExecTraffic(cfg, s, h);
    assert ExecKeeps(s, DoExec(cfg, s));
    hide FramesFrom, Payloads, DoExec;
  }

  /** The message events accepted for a connection are, in order and without a gap, a prefix of
      the payloads its byte stream encodes, and every way a reader ends marks the session. */
  lemma {:induction false} AcceptedFramesAreAPrefix(cfg: Config, steps: seq<Step>, h: Handle)
    ensures GapFree(cfg, Reached(cfg, steps), h)
  {
    if steps != [] {
      var before := steps[..|steps| - 1];
      AcceptedFramesAreAPrefix(cfg, before, h);
      GapFreeStep(cfg, Reached(cfg, before), steps[|steps| - 1], h);
      hide Next, GapFree;
    } else {
      assert Payloads(cfg, []) == [];
    }
  }
}
