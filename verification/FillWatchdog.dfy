/**
 The boot watchdog over whole runs (internal/orch/fill.go): what any sequence of passes
 does to one VM, and how a fleet that never boots ends.
 */
module FillWatchdog {
  import opened Common
  import opened FillRows
  import opened FillMonitor

  /** What one pass finds: the time and the freshly listed rows. */
  datatype Sight = Sight(now: int, rows: seq<Row>)

  /** The monitor after any passes. A run ends with its first pass that is not GoOn, so its
      passes are a prefix of such a sequence. */
  function Watch(k: Knobs, m: Monitor, seen: seq<Sight>): Monitor {
    if seen == [] then m
    else
      var last := seen[|seen| - 1];
      PassMonitor(k, Watch(k, m, seen[..|seen| - 1]), last.rows, last.now)
  }

  /** The watchdog's decision about `v` at pass `i`. */
  function JudgedAt(k: Knobs, m: Monitor, seen: seq<Sight>, i: nat, v: nat): Verdict
    requires i < |seen|
  {
    Judge(k, Watch(k, m, seen[..i]), seen[i].rows, v, seen[i].now)
  }

  /** How often the passes power-cycle `v`. */
  function Cycles(k: Knobs, m: Monitor, seen: seq<Sight>, v: nat): nat {
    if seen == [] then 0
    else Cycles(k, m, seen[..|seen| - 1], v) + (if JudgedAt(k, m, seen, |seen| - 1, v) == PowerCycle then 1 else 0)
  }

  /** When `v` was last (re)booted: the last pass that power-cycled it, else the start of the run. */
  function LastBoot(k: Knobs, m: Monitor, seen: seq<Sight>, v: nat): int {
    if seen == [] then m.start
    else if JudgedAt(k, m, seen, |seen| - 1, v) == PowerCycle then seen[|seen| - 1].now
    else LastBoot(k, m, seen[..|seen| - 1], v)
  }

  lemma WatchKeepsRun(k: Knobs, m: Monitor, seen: seq<Sight>)
    ensures var w := Watch(k, m, seen); w.run == m.run && w.fleet == m.fleet && w.start == m.start
  {
  }

  /** What one pass does to the two map entries of a VM. */
  lemma PassEntry(k: Knobs, m: Monitor, rows: seq<Row>, now: int, v: nat)
    ensures var w := PassMonitor(k, m, rows, now);
            if Judge(k, m, rows, v, now) == PowerCycle
            then BootAt(w, v) == now && Tries(w, v) == Tries(m, v) + 1
            else BootAt(w, v) == BootAt(m, v) && Tries(w, v) == Tries(m, v)
  {
    var vs := Cycled(k, m, rows, now);
    assert v in vs <==> Judge(k, m, rows, v, now) == PowerCycle;
    assert v in Restamped(m, vs, now) <==> v in m.bootAt || v in vs;
    assert v in Retried(m, vs) <==> v in m.tries || v in vs;
  }

  /** The monitor's boot map is the real boot history, its counter the number of boots. */
  lemma {:induction false} MapsAreHistory(k: Knobs, run: nat, fleet: nat, start: int, seen: seq<Sight>, v: nat)
    requires v < fleet
    ensures var m := Fresh(run, fleet, start);
            && BootAt(Watch(k, m, seen), v) == LastBoot(k, m, seen, v)
            && Tries(Watch(k, m, seen), v) == 1 + Cycles(k, m, seen, v)
  {
    if seen != [] {
      var m := Fresh(run, fleet, start);
      var init, last := seen[..|seen| - 1], seen[|seen| - 1];
      MapsAreHistory(k, run, fleet, start, init, v);
      PassEntry(k, Watch(k, m, init), last.rows, last.now, v);
    }
  }

  /** Over any passes of one monitor a VM is power-cycled at most maxBoots - 1 times. */
  lemma {:induction false} CyclesBounded(k: Knobs, run: nat, fleet: nat, start: int, seen: seq<Sight>, v: nat)
    requires v < fleet && k.maxBoots >= 1
    ensures Cycles(k, Fresh(run, fleet, start), seen, v) <= k.maxBoots - 1
  {
    if seen != [] {
      var init := seen[..|seen| - 1];
      CyclesBounded(k, run, fleet, start, init, v);
      MapsAreHistory(k, run, fleet, start, init, v);
    }
  }

  /** Only a VM of the run that is still pending, has not been heard from since its last (re)boot
      and has had its full boot time is power-cycled or failed, and it is failed exactly when it
      has used up its boots. */
  lemma VerdictIsDeserved(k: Knobs, run: nat, fleet: nat, start: int, seen: seq<Sight>, v: nat, i: nat)
    requires v < fleet && i < |seen| && v < |seen[i].rows|
    ensures var m := Fresh(run, fleet, start);
            var boot := LastBoot(k, m, seen[..i], v);
            var row := seen[i].rows[v];
            JudgedAt(k, m, seen, i, v) != Leave <==>
              && Is(row, run, Pending)
              && (row.seen.Some? ==> row.seen.value <= boot)
              && seen[i].now >= boot + k.bootTimeout
    ensures var m := Fresh(run, fleet, start);
            JudgedAt(k, m, seen, i, v) == GiveUp ==> Cycles(k, m, seen[..i], v) >= k.maxBoots - 1
    ensures var m := Fresh(run, fleet, start);
            JudgedAt(k, m, seen, i, v) == PowerCycle ==> Cycles(k, m, seen[..i], v) < k.maxBoots - 1
  {
    MapsAreHistory(k, run, fleet, start, seen[..i], v);
    WatchKeepsRun(k, Fresh(run, fleet, start), seen[..i]);
  }

  // ---- Deadlines ----

  function LastOf(start: int, times: seq<int>): int {
    if times == [] then start else times[|times| - 1]
  }

  /** Polls come in order, at most `poll` apart, the first at most `poll` after the start. */
  predicate Punctual(start: int, times: seq<int>, poll: int) {
    times == [] ||
    var init := times[..|times| - 1];
    Punctual(start, init, poll) && LastOf(start, init) < times[|times| - 1] <= LastOf(start, init) + poll
  }

  function Times(seen: seq<Sight>): (times: seq<int>)
    ensures |times| == |seen|
  {
    if seen == [] then [] else Times(seen[..|seen| - 1]) + [seen[|seen| - 1].now]
  }

  /** `v` is pending and unheard of in every pass. */
  predicate NeverBoots(run: nat, start: int, seen: seq<Sight>, v: nat) {
    forall i :: 0 <= i < |seen| ==>
      && v < |seen[i].rows|
      && Is(seen[i].rows[v], run, Pending)
      && (seen[i].rows[v].seen.Some? ==> seen[i].rows[v].seen.value <= start)
  }

  predicate NeverGivenUp(k: Knobs, m: Monitor, seen: seq<Sight>, v: nat) {
    forall i :: 0 <= i < |seen| ==> JudgedAt(k, m, seen, i, v) != GiveUp
  }

  lemma StepOfBoots(j: nat, max: nat, step: int)
    requires 1 <= j <= max && step >= 0
    ensures (j - 1) * step + step == j * step <= max * step
  {
    var rest: nat := max - j;
    assert rest * step >= 0;
    assert max * step == j * step + rest * step;
  }

  lemma DeadPrefix(k: Knobs, m: Monitor, start: int, seen: seq<Sight>, v: nat, poll: int)
    requires seen != [] && Punctual(start, Times(seen), poll) && NeverBoots(m.run, start, seen, v) && NeverGivenUp(k, m, seen, v)
    ensures var init := seen[..|seen| - 1];
            && Punctual(start, Times(init), poll) && NeverBoots(m.run, start, init, v) && NeverGivenUp(k, m, init, v)
            && LastOf(start, Times(init)) < seen[|seen| - 1].now <= LastOf(start, Times(init)) + poll
            && JudgedAt(k, m, seen, |seen| - 1, v) != GiveUp
  {
    var init := seen[..|seen| - 1];
    assert Times(seen)[..|seen| - 1] == Times(init);
    forall i | 0 <= i < |init|
      ensures JudgedAt(k, m, init, i, v) != GiveUp
    {
      assert init[..i] == seen[..i];
      assert JudgedAt(k, m, seen, i, v) != GiveUp;
    }
  }

  /** A dead VM that was not given up is within the boot time of its current attempt. */
  lemma {:induction false} DeadVMInTime(k: Knobs, run: nat, fleet: nat, start: int, seen: seq<Sight>, v: nat, poll: int)
    requires v < fleet && k.bootTimeout > 0 && poll >= 0
    requires Punctual(start, Times(seen), poll) && NeverBoots(run, start, seen, v)
    requires NeverGivenUp(k, Fresh(run, fleet, start), seen, v)
    ensures start <= LastBoot(k, Fresh(run, fleet, start), seen, v) <= LastOf(start, Times(seen))
    ensures LastOf(start, Times(seen)) < LastBoot(k, Fresh(run, fleet, start), seen, v) + k.bootTimeout
  {
    if seen != [] {
      var m, init := Fresh(run, fleet, start), seen[..|seen| - 1];
      DeadPrefix(k, m, start, seen, v, poll);
      DeadVMInTime(k, run, fleet, start, init, v, poll);
      VerdictIsDeserved(k, run, fleet, start, seen, v, |init|);
    }
  }

  /** Each boot attempt of a dead VM lasts less than bootTimeout + poll. */
  lemma {:induction false} DeadVMProgress(k: Knobs, run: nat, fleet: nat, start: int, seen: seq<Sight>, v: nat, poll: int)
    requires v < fleet && k.bootTimeout > 0 && poll >= 0
    requires Punctual(start, Times(seen), poll) && NeverBoots(run, start, seen, v)
    requires NeverGivenUp(k, Fresh(run, fleet, start), seen, v)
    ensures var m := Fresh(run, fleet, start);
            LastBoot(k, m, seen, v) <= start + Cycles(k, m, seen, v) * (k.bootTimeout + poll)
  {
    if seen != [] {
      var m, init := Fresh(run, fleet, start), seen[..|seen| - 1];
      DeadPrefix(k, m, start, seen, v, poll);
      DeadVMProgress(k, run, fleet, start, init, v, poll);
      DeadVMInTime(k, run, fleet, start, init, v, poll);
      StepOfBoots(Cycles(k, m, init, v) + 1, Cycles(k, m, init, v) + 1, k.bootTimeout + poll);
    }
  }

  lemma BootsInTime(start: int, boot: int, now: int, c: nat, k: Knobs, poll: int)
    requires k.bootTimeout > 0 && poll >= 0 && c + 1 <= k.maxBoots
    requires boot <= start + c * (k.bootTimeout + poll) && now < boot + k.bootTimeout
    ensures now < start + k.maxBoots * (k.bootTimeout + poll)
  {
    StepOfBoots(c + 1, k.maxBoots, k.bootTimeout + poll);
  }

  lemma DeadVMIsQuick(k: Knobs, run: nat, fleet: nat, start: int, seen: seq<Sight>, v: nat, poll: int)
    requires v < fleet && k.bootTimeout > 0 && poll >= 0 && k.maxBoots >= 1
    requires Punctual(start, Times(seen), poll) && NeverBoots(run, start, seen, v)
    requires NeverGivenUp(k, Fresh(run, fleet, start), seen, v)
    ensures LastOf(start, Times(seen)) < start + k.maxBoots * (k.bootTimeout + poll)
  {
    var m := Fresh(run, fleet, start);
    DeadVMProgress(k, run, fleet, start, seen, v, poll);
    DeadVMInTime(k, run, fleet, start, seen, v, poll);
    CyclesBounded(k, run, fleet, start, seen, v);
    BootsInTime(start, LastBoot(k, m, seen, v), LastOf(start, Times(seen)), Cycles(k, m, seen, v), k, poll);
  }

  /** Some pass gave `v` up. */
  predicate GivenUp(k: Knobs, m: Monitor, seen: seq<Sight>, v: nat) {
    seen != [] && (GivenUp(k, m, seen[..|seen| - 1], v) || JudgedAt(k, m, seen, |seen| - 1, v) == GiveUp)
  }

  /** The passes of a VM that never boots: pending and unheard of until it is given up, failed in every pass after. */
  predicate DeadHistory(k: Knobs, m: Monitor, seen: seq<Sight>, v: nat) {
    seen == [] ||
      var init, rows := seen[..|seen| - 1], seen[|seen| - 1].rows;
      && DeadHistory(k, m, init, v) && v < |rows|
      && if GivenUp(k, m, init, v) then Is(rows[v], m.run, Failed)
         else Is(rows[v], m.run, Pending) && (rows[v].seen.Some? ==> rows[v].seen.value <= m.start)
  }

  /** Until it is given up, such a VM is pending and unheard of in every pass. */
  lemma {:induction false} DeadUntilGivenUp(k: Knobs, m: Monitor, seen: seq<Sight>, v: nat)
    requires DeadHistory(k, m, seen, v) && !GivenUp(k, m, seen, v)
    ensures NeverBoots(m.run, m.start, seen, v) && NeverGivenUp(k, m, seen, v)
  {
    if seen != [] {
      var init := seen[..|seen| - 1];
      DeadUntilGivenUp(k, m, init, v);
      forall i | 0 <= i < |seen| ensures JudgedAt(k, m, seen, i, v) != GiveUp {
        if i < |init| {
          assert init[..i] == seen[..i];
          assert JudgedAt(k, m, init, i, v) != GiveUp;
        }
      }
    }
  }

  /** A pass that gives the VM up comes soon enough. */
  lemma GivenUpInTime(k: Knobs, run: nat, fleet: nat, start: int, seen: seq<Sight>, v: nat, poll: int)
    requires v < fleet && k.bootTimeout > 0 && poll >= 0 && k.maxBoots >= 1 && seen != []
    requires Punctual(start, Times(seen), poll)
    requires DeadHistory(k, Fresh(run, fleet, start), seen[..|seen| - 1], v) && !GivenUp(k, Fresh(run, fleet, start), seen[..|seen| - 1], v)
    ensures seen[|seen| - 1].now < start + k.maxBoots * (k.bootTimeout + poll)
  {
    var m, init := Fresh(run, fleet, start), seen[..|seen| - 1];
    assert Times(seen)[..|seen| - 1] == Times(init);
    DeadUntilGivenUp(k, m, init, v);
    DeadVMProgress(k, run, fleet, start, init, v, poll);
    DeadVMInTime(k, run, fleet, start, init, v, poll);
    CyclesBounded(k, run, fleet, start, init, v);
    LastBootInTime(start, LastBoot(k, m, init, v), LastOf(start, Times(init)), seen[|seen| - 1].now, Cycles(k, m, init, v), k, poll);
  }

  lemma LastBootInTime(start: int, boot: int, look: int, now: int, c: nat, k: Knobs, poll: int)
    requires k.bootTimeout > 0 && poll >= 0 && c + 1 <= k.maxBoots
    requires boot <= start + c * (k.bootTimeout + poll) && look < boot + k.bootTimeout && now <= look + poll
    ensures now < start + k.maxBoots * (k.bootTimeout + poll)
  {
    StepOfBoots(c + 1, k.maxBoots, k.bootTimeout + poll);
  }

  /** Pass i gave the VM up, in time, and it is failed in every later pass. */
  predicate FailedFrom(k: Knobs, m: Monitor, seen: seq<Sight>, v: nat, i: nat, bound: int) {
    && i < |seen| && JudgedAt(k, m, seen, i, v) == GiveUp && seen[i].now < bound
    && forall j :: i < j < |seen| ==> v < |seen[j].rows| && Is(seen[j].rows[v], m.run, Failed)
  }

  lemma FailedFromGrows(k: Knobs, m: Monitor, seen: seq<Sight>, v: nat, i: nat, bound: int)
    requires seen != [] && FailedFrom(k, m, seen[..|seen| - 1], v, i, bound)
    requires v < |seen[|seen| - 1].rows| && Is(seen[|seen| - 1].rows[v], m.run, Failed)
    ensures FailedFrom(k, m, seen, v, i, bound)
  {
    var init := seen[..|seen| - 1];
    assert init[..i] == seen[..i] && init[i] == seen[i];
    assert forall j :: i < j < |init| ==> init[j] == seen[j];
  }

  lemma {:induction false} GivenUpIsFailed(k: Knobs, run: nat, fleet: nat, start: int, seen: seq<Sight>, v: nat, poll: int) returns (i: nat)
    requires v < fleet && k.bootTimeout > 0 && poll >= 0 && k.maxBoots >= 1
    requires Punctual(start, Times(seen), poll) && DeadHistory(k, Fresh(run, fleet, start), seen, v)
    requires GivenUp(k, Fresh(run, fleet, start), seen, v)
    ensures FailedFrom(k, Fresh(run, fleet, start), seen, v, i, start + k.maxBoots * (k.bootTimeout + poll))
  {
    var m, init := Fresh(run, fleet, start), seen[..|seen| - 1];
    assert Times(seen)[..|seen| - 1] == Times(init);
    if GivenUp(k, m, init, v) {
      i := GivenUpIsFailed(k, run, fleet, start, init, v, poll);
      FailedFromGrows(k, m, seen, v, i, start + k.maxBoots * (k.bootTimeout + poll));
    } else {
      i := |seen| - 1;
      GivenUpInTime(k, run, fleet, start, seen, v, poll);
    }
  }

  /** A VM that never boots is given up, by itself, before maxBoots * (bootTimeout + poll) have passed, whatever the
      rest of the fleet does, in every history of passes that lasts that long; from then on its row is failed. */
  lemma DeadVMIsGivenUp(k: Knobs, run: nat, fleet: nat, start: int, seen: seq<Sight>, v: nat, poll: int) returns (i: nat)
    requires v < fleet && k.bootTimeout > 0 && poll >= 0 && k.maxBoots >= 1
    requires Punctual(start, Times(seen), poll) && DeadHistory(k, Fresh(run, fleet, start), seen, v)
    requires LastOf(start, Times(seen)) >= start + k.maxBoots * (k.bootTimeout + poll)
    ensures FailedFrom(k, Fresh(run, fleet, start), seen, v, i, start + k.maxBoots * (k.bootTimeout + poll))
  {
    var m := Fresh(run, fleet, start);
    if !GivenUp(k, m, seen, v) {
      DeadUntilGivenUp(k, m, seen, v);
      DeadVMIsQuick(k, run, fleet, start, seen, v, poll);
      assert false;
    }
    i := GivenUpIsFailed(k, run, fleet, start, seen, v, poll);
  }

  /** Every pass let the run go on. */
  predicate StillPolling(k: Knobs, m: Monitor, seen: seq<Sight>) {
    seen == [] ||
      var init, last := seen[..|seen| - 1], seen[|seen| - 1];
      StillPolling(k, m, init) && PassOutcome(k, Watch(k, m, init), last.rows, last.now) == GoOn
  }

  /** While a monitor's passes let the run go on, none of them is after the deadline. */
  lemma {:induction false} PollingIsInTime(k: Knobs, run: nat, fleet: nat, start: int, seen: seq<Sight>)
    requires StillPolling(k, Fresh(run, fleet, start), seen)
    ensures seen != [] ==> seen[|seen| - 1].now <= start + k.runTimeout
  {
    if seen != [] {
      WatchKeepsRun(k, Fresh(run, fleet, start), seen[..|seen| - 1]);
    }
  }

  /** Every monitor exits by its deadline: with polls at most `poll` apart, the last pass of any history is at most
      `poll` after the deadline, and if it is after the deadline it exits. A restart begins a new monitor with a new
      start, so this bound, like that on power cycles, is one per monitor. */
  lemma EveryMonitorExits(k: Knobs, run: nat, fleet: nat, start: int, seen: seq<Sight>, poll: int)
    requires k.runTimeout >= 0 && Punctual(start, Times(seen), poll) && seen != []
    requires StillPolling(k, Fresh(run, fleet, start), seen[..|seen| - 1])
    ensures seen[|seen| - 1].now <= start + k.runTimeout + poll
    ensures seen[|seen| - 1].now > start + k.runTimeout ==> !StillPolling(k, Fresh(run, fleet, start), seen)
  {
    var init := seen[..|seen| - 1];
    assert Times(seen)[..|seen| - 1] == Times(init);
    PollingIsInTime(k, run, fleet, start, init);
    if StillPolling(k, Fresh(run, fleet, start), seen) {
      PollingIsInTime(k, run, fleet, start, seen);
    }
  }

  // ---- A fleet that never boots ----

  /** A fleet whose rows only the watchdog changes: the state after the polls at `times`, until an exit. */
  datatype Wake = Wake(m: Monitor, rows: seq<Row>, outcome: Outcome)

  function DeadRun(k: Knobs, m: Monitor, rows: seq<Row>, times: seq<int>): Wake {
    if times == [] then Wake(m, rows, GoOn)
    else
      var w := DeadRun(k, m, rows, times[..|times| - 1]);
      var now := times[|times| - 1];
      if w.outcome != GoOn then w
      else Wake(PassMonitor(k, w.m, w.rows, now), PassRows(k, w.m, w.rows, now), PassOutcome(k, w.m, w.rows, now))
  }

  /** A freshly assigned fleet of which nothing has been heard since the start. */
  predicate DeadFleet(rows: seq<Row>, run: nat, start: int) {
    rows != [] && forall v :: 0 <= v < |rows| ==>
      Is(rows[v], run, Pending) && rows[v].written == 0 && (rows[v].seen.Some? ==> rows[v].seen.value <= start)
  }

  function AllFailed(rows: seq<Row>): seq<Row> {
    seq(|rows|, v requires 0 <= v < |rows| => rows[v].(status := Failed))
  }

  lemma {:induction false} NothingWritten(rows: seq<Row>, run: nat)
    requires forall v :: 0 <= v < |rows| ==> rows[v].written == 0
    ensures Written(rows, run) == 0
  {
    if rows != [] {
      assert forall v :: 0 <= v < |rows| - 1 ==> rows[..|rows| - 1][v] == rows[v];
      NothingWritten(rows[..|rows| - 1], run);
    }
  }

  /** Every VM was last booted at `boot`, `j` times in all. */
  predicate Lockstep(m: Monitor, boot: int, j: nat) {
    && m.lastProgress == boot
    && m.prevWritten == 0
    && forall v: nat :: v < m.fleet ==> BootAt(m, v) == boot && Tries(m, v) == j
  }

  /** The fleet waits for its j-th boot, begun at `boot`, or has just been given up after the last one. */
  predicate Waiting(k: Knobs, rows: seq<Row>, start: int, poll: int, w: Wake, now: int, boot: int, j: nat) {
    && Lockstep(w.m, boot, j) && 1 <= j <= k.maxBoots
    && start <= boot <= start + (j - 1) * (k.bootTimeout + poll)
    && boot <= now
    && ((w.rows == rows && now < boot + k.bootTimeout)
        || (w.rows == AllFailed(rows) && j == k.maxBoots && now < boot + k.bootTimeout + poll))
  }

  /** The dead fleet at time `now`: waiting for its j-th boot, given up, or over. */
  ghost predicate DeadState(k: Knobs, rows: seq<Row>, run: nat, start: int, poll: int, w: Wake, now: int) {
    && w.m.run == run && w.m.fleet == |rows| && w.m.start == start
    && match w.outcome
       case Complete => w.rows == AllFailed(rows)
       case GoOn =>
         exists boot, j: nat :: Waiting(k, rows, start, poll, w, now, boot, j)
       case _ => false
  }

  /** One poll of a fleet waiting for its j-th boot. */
  lemma WaitingPass(k: Knobs, m: Monitor, rows: seq<Row>, boot: int, j: nat, now: int)
    requires m.fleet == |rows| && DeadFleet(rows, m.run, m.start) && Lockstep(m, boot, j) && m.start <= boot <= now
    requires now - boot <= k.stallLimit && now <= m.start + k.runTimeout
    ensures PassOutcome(k, m, rows, now) == GoOn
    ensures if now - boot < k.bootTimeout then
              PassMonitor(k, m, rows, now) == m && PassRows(k, m, rows, now) == rows
            else if j < k.maxBoots then
              Lockstep(PassMonitor(k, m, rows, now), now, j + 1) && PassRows(k, m, rows, now) == rows
            else
              Lockstep(PassMonitor(k, m, rows, now), boot, j) && PassRows(k, m, rows, now) == AllFailed(rows)
  {
    var verdict := if now - boot < k.bootTimeout then Leave else if j < k.maxBoots then PowerCycle else GiveUp;
    forall v: nat | v < |rows|
      ensures Judge(k, m, rows, v, now) == verdict
    {
      assert BootAt(m, v) == boot && Tries(m, v) == j;
    }
    NothingWritten(rows, m.run);
    CountExtremes(rows, m.run, Working);
    CountExtremes(rows, m.run, Done);
    CountExtremes(rows, m.run, Failed);
    var cycled := Cycled(k, m, rows, now);
    forall v: nat | v < |rows|
      ensures BootAt(PassMonitor(k, m, rows, now), v) == if verdict == PowerCycle then now else boot
      ensures Tries(PassMonitor(k, m, rows, now), v) == if verdict == PowerCycle then j + 1 else j
    {
      PassEntry(k, m, rows, now, v);
    }
    if verdict == PowerCycle {
      assert 0 in cycled by {
        assert Judge(k, m, rows, 0, now) == PowerCycle;
      }
    } else {
      assert cycled == {};
      NoneCycled(m, now);
    }
  }

  /** The poll after every VM was given up completes the run. */
  lemma GivenUpPass(k: Knobs, m: Monitor, rows: seq<Row>, boot: int, j: nat, now: int)
    requires m.fleet == |rows| && DeadFleet(rows, m.run, m.start) && Lockstep(m, boot, j)
    requires now - boot <= k.stallLimit
    ensures PassOutcome(k, m, AllFailed(rows), now) == Complete
    ensures PassRows(k, m, AllFailed(rows), now) == AllFailed(rows)
    ensures Terminal(m, AllFailed(rows), Complete) == RunFailed
  {
    var failed := AllFailed(rows);
    NothingWritten(failed, m.run);
    CountExtremes(failed, m.run, Working);
    CountExtremes(failed, m.run, Failed);
    assert Cycled(k, m, failed, now) == {};
  }

  predicate PatientKnobs(k: Knobs, poll: int) {
    && k.bootTimeout > 0 && k.maxBoots >= 1 && poll >= 0
    && k.bootTimeout + 2 * poll <= k.stallLimit
    && k.maxBoots * (k.bootTimeout + poll) + poll <= k.runTimeout
  }

  lemma {:induction false} DeadRunState(k: Knobs, rows: seq<Row>, run: nat, start: int, poll: int, times: seq<int>)
    requires PatientKnobs(k, poll) && DeadFleet(rows, run, start) && Punctual(start, times, poll)
    ensures DeadState(k, rows, run, start, poll, DeadRun(k, Fresh(run, |rows|, start), rows, times), LastOf(start, times))
  {
    var m := Fresh(run, |rows|, start);
    if times == [] {
      assert Waiting(k, rows, start, poll, Wake(m, rows, GoOn), start, start, 1);
    } else {
      var n := |times| - 1;
      var init, now := times[..n], times[n];
      DeadRunState(k, rows, run, start, poll, init);
      var w, prev := DeadRun(k, m, rows, init), LastOf(start, init);
      if w.outcome == GoOn {
        var boot, j: nat :| Waiting(k, rows, start, poll, w, prev, boot, j);
        DeadStep(k, rows, run, start, poll, w, prev, now, boot, j);
      }
    }
  }

  lemma NotTimedOut(k: Knobs, start: int, boot: int, j: nat, prev: int, now: int, poll: int)
    requires PatientKnobs(k, poll) && 1 <= j <= k.maxBoots && now <= prev + poll
    requires boot <= start + (j - 1) * (k.bootTimeout + poll) && prev < boot + k.bootTimeout + poll
    ensures boot + k.bootTimeout + poll <= start + j * (k.bootTimeout + poll)
    ensures now <= start + k.runTimeout && now - boot <= k.stallLimit
  {
    StepOfBoots(j, k.maxBoots, k.bootTimeout + poll);
  }

  function AfterPoll(k: Knobs, w: Wake, now: int): Wake {
    Wake(PassMonitor(k, w.m, w.rows, now), PassRows(k, w.m, w.rows, now), PassOutcome(k, w.m, w.rows, now))
  }

  lemma WaitsOn(k: Knobs, rows: seq<Row>, start: int, poll: int, w: Wake, v: Wake, prev: int, now: int, boot: int, j: nat)
    requires Waiting(k, rows, start, poll, w, prev, boot, j) && prev < now < boot + k.bootTimeout
    requires w.rows == rows && v.m == w.m && v.rows == rows
    ensures Waiting(k, rows, start, poll, v, now, boot, j)
  {
  }

  lemma WaitsAgain(k: Knobs, rows: seq<Row>, start: int, poll: int, v: Wake, now: int, j: nat)
    requires k.bootTimeout > 0 && Lockstep(v.m, now, j + 1) && v.rows == rows && 1 <= j < k.maxBoots
    requires start <= now <= start + j * (k.bootTimeout + poll)
    ensures Waiting(k, rows, start, poll, v, now, now, j + 1)
  {
    assert j + 1 - 1 == j;
  }

  /** A poll before the boot timeout, one that power-cycles, and one that gives up. */
  lemma DeadWait(k: Knobs, rows: seq<Row>, start: int, poll: int, w: Wake, prev: int, now: int, boot: int, j: nat)
    requires PatientKnobs(k, poll) && DeadFleet(rows, w.m.run, start) && w.m.fleet == |rows| && w.m.start == start
    requires Waiting(k, rows, start, poll, w, prev, boot, j) && w.rows == rows && prev < now <= prev + poll
    ensures AfterPoll(k, w, now).outcome == GoOn
    ensures var cycled := now - boot >= k.bootTimeout && j < k.maxBoots;
      Waiting(k, rows, start, poll, AfterPoll(k, w, now), now, if cycled then now else boot, if cycled then j + 1 else j)
  {
    NotTimedOut(k, start, boot, j, prev, now, poll);
    WaitingPass(k, w.m, rows, boot, j, now);
    var v := AfterPoll(k, w, now);
    if now - boot < k.bootTimeout {
      WaitsOn(k, rows, start, poll, w, v, prev, now, boot, j);
    } else if j < k.maxBoots {
      assert now <= boot + k.bootTimeout + poll;
      WaitsAgain(k, rows, start, poll, v, now, j);
    }
  }

  lemma DeadStep(k: Knobs, rows: seq<Row>, run: nat, start: int, poll: int, w: Wake, prev: int, now: int, boot: int, j: nat)
    requires PatientKnobs(k, poll) && DeadFleet(rows, run, start)
    requires w.m.run == run && w.m.fleet == |rows| && w.m.start == start
    requires Waiting(k, rows, start, poll, w, prev, boot, j) && prev < now <= prev + poll
    ensures DeadState(k, rows, run, start, poll, AfterPoll(k, w, now), now)
  {
    if w.rows == rows {
      DeadWait(k, rows, start, poll, w, prev, now, boot, j);
    } else {
      NotTimedOut(k, start, boot, j, prev, now, poll);
      GivenUpPass(k, w.m, rows, boot, j, now);
    }
  }

  lemma StillWaiting(k: Knobs, rows: seq<Row>, start: int, poll: int, w: Wake, now: int, boot: int, j: nat)
    requires PatientKnobs(k, poll) && Waiting(k, rows, start, poll, w, now, boot, j)
    ensures now < start + k.maxBoots * (k.bootTimeout + poll)
  {
    StepOfBoots(j, k.maxBoots, k.bootTimeout + poll);
  }

  /** A whole fleet that never boots: no poll stalls, times out or hears silence; the run ends failed with
      every VM failed individually, by maxBoots * (bootTimeout + poll) + poll after its start. */
  lemma DeadFleetFailsIndividually(k: Knobs, rows: seq<Row>, run: nat, start: int, poll: int, times: seq<int>)
    requires PatientKnobs(k, poll) && DeadFleet(rows, run, start) && Punctual(start, times, poll)
    ensures var w := DeadRun(k, Fresh(run, |rows|, start), rows, times);
            && w.outcome in {GoOn, Complete}
            && (w.outcome == Complete ==>
                  w.rows == AllFailed(rows) && Count(w.rows, run, Failed) == |rows| && Count(w.rows, run, Done) == 0)
            && (LastOf(start, times) >= start + k.maxBoots * (k.bootTimeout + poll) + poll ==> w.outcome == Complete)
  {
    DeadRunState(k, rows, run, start, poll, times);
    CountExtremes(AllFailed(rows), run, Failed);
    CountExtremes(AllFailed(rows), run, Done);
    var w := DeadRun(k, Fresh(run, |rows|, start), rows, times);
    if w.outcome == GoOn {
      var boot, j: nat :| Waiting(k, rows, start, poll, w, LastOf(start, times), boot, j);
      StillWaiting(k, rows, start, poll, w, LastOf(start, times), boot, j);
    }
  }

  /** The source's own knobs are patient for any poll gap up to 150 seconds. */
  lemma DefaultsArePatient(poll: int)
    ensures 0 <= poll <= 150 <==> PatientKnobs(DEFAULTS, poll)
  {
  }
}
