/** What ends a run, stated on the rows and the clock alone (internal/orch/fill.go:159-261). */
module FillExits {
  import opened Common
  import opened FillRows
  import opened FillMonitor
  import opened FillRun
  import opened FillBoots

  /** In a run older than the silence limit, a working VM was last heard of longer ago than that. */
  predicate Hung(k: Knobs, m: Monitor, rows: seq<Row>, now: int) {
    now - m.start > k.silenceLimit &&
    exists v :: 0 <= v < |rows| && HungWorker(k, m.run, rows[v], now)
  }

  predicate HungWorker(k: Knobs, run: nat, r: Row, now: int) {
    r.run == Some(run) && r.status == Working && r.seen.Some? && now - r.seen.value > k.silenceLimit
  }

  /** For longer than the stall limit nothing has moved: no VM works, no byte is new, none is power-cycled now. */
  predicate Stuck(k: Knobs, m: Monitor, rows: seq<Row>, now: int) {
    && now - m.lastProgress > k.stallLimit
    && (forall v :: 0 <= v < |rows| ==> !(rows[v].run == Some(m.run) && rows[v].status == Working))
    && Written(rows, m.run) <= m.prevWritten
    && forall v: nat :: v < |rows| ==> Judge(k, m, rows, v, now) != PowerCycle
  }

  predicate AllReported(run: nat, rows: seq<Row>) {
    forall v :: 0 <= v < |rows| ==> rows[v].run == Some(run) && (rows[v].status == Done || rows[v].status == Failed)
  }

  predicate AllDone(run: nat, rows: seq<Row>) {
    forall v :: 0 <= v < |rows| ==> rows[v].run == Some(run) && rows[v].status == Done
  }

  /** Done and failed VMs are the whole fleet exactly when every VM is one or the other. */
  lemma {:induction false} ReportedCount(rows: seq<Row>, run: nat)
    ensures Count(rows, run, Done) + Count(rows, run, Failed) <= |rows|
    ensures Count(rows, run, Done) + Count(rows, run, Failed) == |rows| <==> AllReported(run, rows)
  {
    if rows != [] {
      var init := rows[..|rows| - 1];
      ReportedCount(init, run);
      assert forall v :: 0 <= v < |init| ==> init[v] == rows[v];
    }
  }

  lemma QuietIsHung(k: Knobs, run: nat, r: Row, now: int)
    ensures QuietWorker(k, run, r, now) <==> HungWorker(k, run, r, now)
  {
  }

  lemma StuckExactly(k: Knobs, m: Monitor, rows: seq<Row>, now: int)
    requires k.stallLimit >= 0
    ensures now - PassMonitor(k, m, rows, now).lastProgress > k.stallLimit <==> Stuck(k, m, rows, now)
  {
    CountExtremes(rows, m.run, Working);
    if !(forall v: nat :: v < |rows| ==> Judge(k, m, rows, v, now) != PowerCycle) {
      var v: nat :| v < |rows| && Judge(k, m, rows, v, now) == PowerCycle;
      assert v in Cycled(k, m, rows, now);
    }
  }

  /** A pass ends the run if and only if a worker hangs, nothing moves, every VM has reported or the deadline is over;
      it ends succeeded if and only if every VM is done and neither of the first two holds. */
  lemma PassEndsExactly(k: Knobs, m: Monitor, rows: seq<Row>, now: int)
    requires |rows| == m.fleet && k.stallLimit >= 0
    ensures var outcome := PassOutcome(k, m, rows, now);
            && (outcome != GoOn <==>
                  Hung(k, m, rows, now) || Stuck(k, m, rows, now) || AllReported(m.run, rows) || now > m.start + k.runTimeout)
            && (outcome != GoOn ==>
                  (Terminal(m, rows, outcome) == Succeeded <==>
                     !Hung(k, m, rows, now) && !Stuck(k, m, rows, now) && AllDone(m.run, rows)))
  {
    forall v | 0 <= v < |rows| ensures QuietWorker(k, m.run, rows[v], now) <==> HungWorker(k, m.run, rows[v], now) {
      QuietIsHung(k, m.run, rows[v], now);
    }
    StuckExactly(k, m, rows, now);
    ReportedCount(rows, m.run);
    CountExtremes(rows, m.run, Failed);
  }

  /** Over reachable states: a poll that meets a hung worker, or a run in which nothing has moved for too long, records
      the run as failed. */
  lemma HungOrStuckFails(c: Config, es: seq<Event>, power: seq<bool>)
    requires var s := Run(c, INITIAL, es);
      s.phase.Polling? && (Hung(c.knobs, s.phase.m, s.rows, s.now) || Stuck(c.knobs, s.phase.m, s.rows, s.now))
    requires c.knobs.stallLimit >= 0
    ensures var s, t := Run(c, INITIAL, es), Run(c, INITIAL, es + [Poll(power)]);
      !t.phase.Polling? && s.phase.m.run < |t.runs| && t.runs[s.phase.m.run] == RunFailed
  {
    var s := Run(c, INITIAL, es);
    Reachable(c, es);
    RunSnoc(c, INITIAL, es, Poll(power));
    EarlyExit(c.knobs, s.phase.m, s.rows, s.now);
    EarlyExitIsFailed(c, s, power);
  }

  lemma EarlyExit(k: Knobs, m: Monitor, rows: seq<Row>, now: int)
    requires k.stallLimit >= 0 && (Hung(k, m, rows, now) || Stuck(k, m, rows, now))
    ensures PassOutcome(k, m, rows, now) in {Silent, Stalled}
  {
    forall v | 0 <= v < |rows| ensures QuietWorker(k, m.run, rows[v], now) <==> HungWorker(k, m.run, rows[v], now) {
      QuietIsHung(k, m.run, rows[v], now);
    }
    StuckExactly(k, m, rows, now);
  }

  lemma EarlyExitIsFailed(c: Config, s: State, power: seq<bool>)
    requires Inv(s) && s.phase.Polling? && c.knobs.stallLimit >= 0
    requires PassOutcome(c.knobs, s.phase.m, s.rows, s.now) in {Silent, Stalled}
    ensures var t := Apply(c, s, Poll(power)); !t.phase.Polling? && s.phase.m.run < |t.runs| && t.runs[s.phase.m.run] == RunFailed
  {
  }

  /** A run survives a poll exactly when none of the four holds at it. */
  lemma SurvivesExactly(c: Config, es: seq<Event>, power: seq<bool>)
    requires Run(c, INITIAL, es).phase.Polling? && c.knobs.stallLimit >= 0
    ensures var s := Run(c, INITIAL, es);
      var k, m := c.knobs, s.phase.m;
      Run(c, INITIAL, es + [Poll(power)]).phase.Polling? <==>
        !Hung(k, m, s.rows, s.now) && !Stuck(k, m, s.rows, s.now) && !AllReported(m.run, s.rows) && s.now <= m.start + k.runTimeout
  {
    var s := Run(c, INITIAL, es);
    Reachable(c, es);
    PassEndsExactly(c.knobs, s.phase.m, s.rows, s.now);
    RunSnoc(c, INITIAL, es, Poll(power));
  }

  // ---- A worker that falls silent ----

  function Later(a: int, b: int): int {
    if a < b then b else a
  }

  /** The silent worker's row, and when the monitor last looked. */
  predicate WorkerInv(c: Config, t: State, m: Monitor, v: nat, heard: int, since: int, look: int, poll: int) {
    && t.phase.Polling? && t.phase.m.run == m.run && t.phase.m.start == m.start
    && v < |t.rows| && Is(t.rows[v], m.run, Working) && t.rows[v].seen == Some(heard)
    && look <= Later(since, Later(heard, m.start) + c.knobs.silenceLimit)
    && t.now <= look + poll
  }

  lemma WorkerPoll(c: Config, t: State, power: seq<bool>, m: Monitor, v: nat, heard: int, since: int, look: int, poll: int)
    requires WorkerInv(c, t, m, v, heard, since, look, poll) && Apply(c, t, Poll(power)).phase.Polling? && poll >= 0
    ensures WorkerInv(c, Apply(c, t, Poll(power)), m, v, heard, since, t.now, poll)
  {
    PollRows(c, t, t.phase.m, power);
    QuietIsHung(c.knobs, m.run, t.rows[v], t.now);
  }

  lemma WorkerOther(c: Config, t: State, e: Event, m: Monitor, v: nat, heard: int, since: int, look: int, poll: int)
    requires WorkerInv(c, t, m, v, heard, since, look, poll) && !e.Poll? && !Disturbs(t, e, v)
    requires Apply(c, t, e).phase.Polling? && Apply(c, t, e).now <= look + poll
    ensures WorkerInv(c, Apply(c, t, e), m, v, heard, since, look, poll)
  {
    if AgentEvent(e) {
      AgentFrame(c, t, e);
    }
  }

  lemma {:induction false} WorkerHolds(c: Config, s: State, later: seq<Event>, v: nat, heard: int, poll: int)
    requires s.phase.Polling? && v < |s.rows| && Is(s.rows[v], s.phase.m.run, Working) && s.rows[v].seen == Some(heard)
    requires SilentWhilePolled(c, s, later, v, poll) && poll >= 0
    ensures WorkerInv(c, Run(c, s, later), s.phase.m, v, heard, s.now, LookedAt(c, s, later), poll)
  {
    if later != [] {
      var init, e := later[..|later| - 1], later[|later| - 1];
      WorkerHolds(c, s, init, v, heard, poll);
      if e.Poll? {
        WorkerPoll(c, Run(c, s, init), e.power, s.phase.m, v, heard, s.now, LookedAt(c, s, init), poll);
      } else {
        WorkerOther(c, Run(c, s, init), e, s.phase.m, v, heard, s.now, LookedAt(c, s, init), poll);
      }
    }
  }

  /** Whatever the rest of the fleet does: from a reachable state in which a VM works and is never heard of again, no
      promptly polled run goes on for more than the silence limit and one poll gap. */
  lemma SilentWorkerEndsRun(c: Config, es: seq<Event>, later: seq<Event>, v: nat, heard: int, poll: int)
    requires var s := Run(c, INITIAL, es);
      s.phase.Polling? && v < |s.rows| && Is(s.rows[v], s.phase.m.run, Working) && s.rows[v].seen == Some(heard)
    requires SilentWhilePolled(c, Run(c, INITIAL, es), later, v, poll) && poll >= 0
    ensures var s := Run(c, INITIAL, es);
      Run(c, s, later).now <= Later(s.now, Later(heard, s.phase.m.start) + c.knobs.silenceLimit) + poll
  {
    WorkerHolds(c, Run(c, INITIAL, es), later, v, heard, poll);
  }
}
