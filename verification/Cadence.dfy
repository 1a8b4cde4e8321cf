/** How often pings are sent: the times of the ping batches against the times of the ticks. */
module Cadence {
  import opened Protocol

  /** The batch times a sequence of tick times leads to. */
  function BatchTimes(interval: int, ticks: seq<int>): seq<int> {
    if ticks == [] then []
    else
      var earlier, now := BatchTimes(interval, ticks[..|ticks| - 1]), ticks[|ticks| - 1];
      if earlier == [] || now - earlier[|earlier| - 1] >= interval then earlier + [now] else earlier
  }

  lemma BatchAfter(interval: int, ticks: seq<int>, now: int)
    ensures var b := BatchTimes(interval, ticks);
            BatchTimes(interval, ticks + [now]) == if b == [] || now - b[|b| - 1] >= interval then b + [now] else b
  {
    var all := ticks + [now];
    assert all[..|all| - 1] == ticks && all[|all| - 1] == now;
  }

  predicate OnSchedule(cfg: Config, s: State) {
    var b := s.hist.batches;
    && b == BatchTimes(cfg.Interval(), s.hist.ticks)
    && s.lastBatch == if b == [] then None else Some(b[|b| - 1])
  }

  lemma SweepOnSchedule(cfg: Config, s: State)
    requires OnSchedule(cfg, s)
    ensures OnSchedule(cfg, DoStartSweep(cfg, s))
  {
    BatchAfter(cfg.Interval(), s.hist.ticks, s.now);
    hide BatchTimes;
  }

  lemma {:induction false} AlwaysOnSchedule(cfg: Config, steps: seq<Step>)
    ensures OnSchedule(cfg, Reached(cfg, steps))
  {
    if steps != [] {
      var before, step := steps[..|steps| - 1], steps[|steps| - 1];
      AlwaysOnSchedule(cfg, before);
      SweepOnSchedule(cfg, Reached(cfg, before));
      KeepsSchedule(cfg, Reached(cfg, before), step);
      hide Next, DoStartSweep, OnSchedule;
    }
  }

  lemma KeepsSchedule(cfg: Config, s: State, step: Step)
    requires OnSchedule(cfg, s) && OnSchedule(cfg, DoStartSweep(cfg, s))
    ensures OnSchedule(cfg, Next(cfg, s, step))
  {
    hide IoStep, DoExec, DoDispatch, AgendaStep, BatchTimes, DoStartSweep;
  }

  // ---------------------------------------------------------------- the cadence

  predicate NonDecreasing(ts: seq<int>) {
    forall i :: 0 < i < |ts| ==> ts[i - 1] <= ts[i]
  }

  predicate GapsAtMost(ts: seq<int>, d: int) {
    forall i :: 0 < i < |ts| ==> ts[i] <= ts[i - 1] + d
  }

  predicate GapsAtLeast(ts: seq<int>, d: int) {
    forall i :: 0 < i < |ts| ==> ts[i] >= ts[i - 1] + d
  }

  /** The batches against the ticks: they start together, the last batch is less than the
      interval behind the last tick, and batches are neither too close nor too far apart. */
  predicate Paced(ticks: seq<int>, batches: seq<int>, interval: int, d: int) {
    && (ticks == [] <==> batches == [])
    && (ticks != [] ==>
          && batches[0] == ticks[0]
          && batches[|batches| - 1] <= ticks[|ticks| - 1] < batches[|batches| - 1] + interval)
    && GapsAtLeast(batches, interval)
    && GapsAtMost(batches, interval + d - 1)
  }

  lemma {:induction false} BatchesArePaced(ticks: seq<int>, interval: int, d: int)
    requires interval > 0 && NonDecreasing(ticks) && GapsAtMost(ticks, d)
    ensures Paced(ticks, BatchTimes(interval, ticks), interval, d)
  {
    if ticks != [] {
      var before := ticks[..|ticks| - 1];
      BatchesArePaced(before, interval, d);
      hide BatchTimes;
      assert before != [] ==> before[|before| - 1] == ticks[|ticks| - 2];
    }
  }

  /** Ping cadence: over any run whose tick times do not decrease and are at most d apart,
      consecutive ping batches are at least the interval, and less than the interval plus d,
      apart. */
  lemma PingCadence(cfg: Config, steps: seq<Step>, d: int)
    requires var ticks := Reached(cfg, steps).hist.ticks; NonDecreasing(ticks) && GapsAtMost(ticks, d)
    ensures var h := Reached(cfg, steps).hist; Paced(h.ticks, h.batches, cfg.Interval(), d)
  {
    AlwaysOnSchedule(cfg, steps);
    BatchesArePaced(Reached(cfg, steps).hist.ticks, cfg.Interval(), d);
    hide Reached, BatchTimes, Paced;
  }

  lemma {:induction false} SpanOf(ts: seq<int>, low: int, high: int)
    requires ts != [] && GapsAtLeast(ts, low) && GapsAtMost(ts, high)
    ensures (|ts| - 1) * low <= ts[|ts| - 1] - ts[0] <= (|ts| - 1) * high
  {
    if |ts| > 1 {
      var before := ts[..|ts| - 1];
      SpanOf(before, low, high);
      assert (|ts| - 1) * low == (|before| - 1) * low + low && (|ts| - 1) * high == (|before| - 1) * high + high;
    }
  }

  /** The number of batches sent over a run is bounded from both sides by how long it lasted. */
  lemma BatchCount(cfg: Config, steps: seq<Step>, d: int)
    requires var ticks := Reached(cfg, steps).hist.ticks; ticks != [] && NonDecreasing(ticks) && GapsAtMost(ticks, d)
    ensures var h := Reached(cfg, steps).hist;
            var span, n := h.ticks[|h.ticks| - 1] - h.ticks[0], |h.batches|;
            n > 0 && (n - 1) * cfg.Interval() <= span < (n - 1) * (cfg.Interval() + d - 1) + cfg.Interval()
  {
    PingCadence(cfg, steps, d);
    var h := Reached(cfg, steps).hist;
    hide Reached;
    SpanOf(h.batches, cfg.Interval(), cfg.Interval() + d - 1);
  }
}
