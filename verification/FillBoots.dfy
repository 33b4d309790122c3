/** Boot attempts over whole histories of a deployment: how often a VM is power-cycled, and what becomes of one
    that is never heard of (internal/orch/fill.go:136-141, :196-216, internal/orch/orchestrator.go:227-267). */
module FillBoots {
  import opened Common
  import opened FillRows
  import opened FillMonitor
  import opened FillWatchdog
  import opened FillRun

  // ---- Power cycles ----

  /** The event is a poll of run `r` that power-cycles VM `v`. */
  predicate Cycles(c: Config, s: State, e: Event, r: nat, v: nat) {
    e.Poll? && s.phase.Polling? && s.phase.m.run == r && Judge(c.knobs, s.phase.m, s.rows, v, s.now) == PowerCycle
  }

  function CyclesIn(c: Config, es: seq<Event>, r: nat, v: nat): nat {
    if es == [] then 0
    else CyclesIn(c, es[..|es| - 1], r, v) + if Cycles(c, Run(c, INITIAL, es[..|es| - 1]), es[|es| - 1], r, v) then 1 else 0
  }

  /** The restarts of the controller during run `r`. */
  function RestartsIn(c: Config, es: seq<Event>, r: nat): nat {
    if es == [] then 0
    else
      RestartsIn(c, es[..|es| - 1], r)
      + if es[|es| - 1].Restart? && ActiveRun(Run(c, INITIAL, es[..|es| - 1]).phase) == Some(r) then 1 else 0
  }

  /** The power cycles `n` monitors may make: each boots a VM once before it cycles it. */
  function Allowance(k: Knobs, n: nat): int {
    if n == 0 then 0 else Allowance(k, n - 1) + k.maxBoots - 1
  }

  lemma {:induction false} AllowanceIsProduct(k: Knobs, n: nat)
    ensures Allowance(k, n) == (k.maxBoots - 1) * n
  {
    if n > 0 {
      AllowanceIsProduct(k, n - 1);
      assert (k.maxBoots - 1) * n == (k.maxBoots - 1) * (n - 1) + (k.maxBoots - 1);
    }
  }

  /** How much of the allowance may be used: a monitor's tries so far, none before it opens, all of it when it is gone. */
  predicate Spent(c: Config, s: State, r: nat, v: nat, cycles: nat, restarts: nat) {
    if r >= |s.runs| then cycles == 0 && restarts == 0
    else match s.phase
      case Polling(m) =>
        if m.run == r then Tries(m, v) <= c.knobs.maxBoots && cycles + 1 <= Allowance(c.knobs, restarts) + Tries(m, v)
        else cycles <= Allowance(c.knobs, restarts + 1)
      case Opening(run) => cycles <= if run == r then Allowance(c.knobs, restarts) else Allowance(c.knobs, restarts + 1)
      case _ => cycles <= Allowance(c.knobs, restarts + 1)
  }

  lemma SpentByPoll(c: Config, s: State, power: seq<bool>, r: nat, v: nat, cycles: nat, restarts: nat)
    requires c.knobs.maxBoots >= 1 && s.phase.Polling? && s.phase.m.run == r && r < |s.runs|
    requires Spent(c, s, r, v, cycles, restarts)
    ensures Spent(c, Apply(c, s, Poll(power)), r, v, cycles + (if Cycles(c, s, Poll(power), r, v) then 1 else 0), restarts)
  {
    var m := s.phase.m;
    PollRows(c, s, m, power);
    PassEntry(c.knobs, m, s.rows, s.now, v);
  }

  lemma SpentByOthers(c: Config, s: State, e: Event, r: nat, v: nat, cycles: nat, restarts: nat)
    requires c.knobs.maxBoots >= 1 && Inv(s) && v < |s.rows| && Spent(c, s, r, v, cycles, restarts)
    requires !(e.Poll? && s.phase.Polling? && s.phase.m.run == r) && !e.Restart?
    ensures Spent(c, Apply(c, s, e), r, v, cycles, restarts)
  {
    if AgentEvent(e) {
      AgentFrame(c, s, e);
    } else if e.Poll? && s.phase.Polling? {
      PollRows(c, s, s.phase.m, e.power);
    }
  }

  lemma SpentByRestart(c: Config, s: State, r: nat, v: nat, cycles: nat, restarts: nat)
    requires c.knobs.maxBoots >= 1 && Inv(s) && Spent(c, s, r, v, cycles, restarts)
    ensures Spent(c, Apply(c, s, Restart), r, v, cycles, restarts + if ActiveRun(s.phase) == Some(r) then 1 else 0)
  {
    assert Allowance(c.knobs, restarts + 2) == Allowance(c.knobs, restarts + 1) + c.knobs.maxBoots - 1;
  }

  lemma SpentByStep(c: Config, s: State, e: Event, r: nat, v: nat, cycles: nat, restarts: nat)
    requires c.knobs.maxBoots >= 1 && Inv(s) && v < |s.rows| && Spent(c, s, r, v, cycles, restarts)
    ensures Spent(c, Apply(c, s, e), r, v, cycles + (if Cycles(c, s, e, r, v) then 1 else 0),
                  restarts + if e.Restart? && ActiveRun(s.phase) == Some(r) then 1 else 0)
  {
    if e.Restart? {
      SpentByRestart(c, s, r, v, cycles, restarts);
    } else if e.Poll? && s.phase.Polling? && s.phase.m.run == r {
      SpentByPoll(c, s, e.power, r, v, cycles, restarts);
    } else {
      SpentByOthers(c, s, e, r, v, cycles, restarts);
    }
  }

  /** The allowance once VM `v` exists; before that it is not cycled. */
  predicate Budget(c: Config, s: State, r: nat, v: nat, cycles: nat, restarts: nat) {
    && (r >= |s.runs| ==> cycles == 0 && restarts == 0)
    && if v < |s.rows| then Spent(c, s, r, v, cycles, restarts) else cycles == 0
  }

  lemma RowsStep(c: Config, s: State, e: Event)
    requires Inv(s)
    ensures var t := Apply(c, s, e);
            && |t.rows| >= |s.rows| && |t.runs| >= |s.runs|
            && (|t.rows| > |s.rows| ==> e.Deploy? && t.phase == Idle && |t.runs| == |s.runs|)
  {
    if AgentEvent(e) {
      AgentFrame(c, s, e);
    } else if e.Poll? && s.phase.Polling? {
      PollRows(c, s, s.phase.m, e.power);
    }
  }

  lemma NoneYet(c: Config, s: State, r: nat, v: nat, restarts: nat)
    requires c.knobs.maxBoots >= 1 && s.phase == Idle && (r >= |s.runs| ==> restarts == 0)
    ensures Spent(c, s, r, v, 0, restarts)
  {
    AllowanceIsNatural(c.knobs, restarts + 1);
  }

  lemma ActiveIsStarted(s: State, r: nat)
    requires Inv(s) && ActiveRun(s.phase) == Some(r)
    ensures r < |s.runs|
  {
  }

  lemma BudgetStep(c: Config, s: State, e: Event, r: nat, v: nat, cycles: nat, restarts: nat)
    requires c.knobs.maxBoots >= 1 && Inv(s) && Budget(c, s, r, v, cycles, restarts)
    ensures Budget(c, Apply(c, s, e), r, v, cycles + (if Cycles(c, s, e, r, v) then 1 else 0),
                   restarts + if e.Restart? && ActiveRun(s.phase) == Some(r) then 1 else 0)
  {
    RowsStep(c, s, e);
    if ActiveRun(s.phase) == Some(r) {
      ActiveIsStarted(s, r);
    }
    if v < |s.rows| {
      SpentByStep(c, s, e, r, v, cycles, restarts);
    } else if v < |Apply(c, s, e).rows| {
      NoneYet(c, Apply(c, s, e), r, v, restarts);
    }
  }

  lemma HistoryStep(c: Config, es: seq<Event>, r: nat, v: nat)
    requires es != []
    ensures var init, e := es[..|es| - 1], es[|es| - 1];
            var s := Run(c, INITIAL, init);
            && Run(c, INITIAL, es) == Apply(c, s, e)
            && CyclesIn(c, es, r, v) == CyclesIn(c, init, r, v) + (if Cycles(c, s, e, r, v) then 1 else 0)
            && RestartsIn(c, es, r) == RestartsIn(c, init, r) + if e.Restart? && ActiveRun(s.phase) == Some(r) then 1 else 0
  {
  }

  lemma {:induction false} BudgetHolds(c: Config, es: seq<Event>, r: nat, v: nat) returns (s: State, cycles: nat, restarts: nat)
    requires c.knobs.maxBoots >= 1
    ensures s == Run(c, INITIAL, es) && cycles == CyclesIn(c, es, r, v) && restarts == RestartsIn(c, es, r)
    ensures Budget(c, s, r, v, cycles, restarts)
  {
    if es == [] {
      s, cycles, restarts := INITIAL, 0, 0;
    } else {
      var init, e := es[..|es| - 1], es[|es| - 1];
      s, cycles, restarts := BudgetHolds(c, init, r, v);
      Reachable(c, init);
      BudgetStep(c, s, e, r, v, cycles, restarts);
      HistoryStep(c, es, r, v);
      s, cycles, restarts := Apply(c, s, e), cycles + (if Cycles(c, s, e, r, v) then 1 else 0),
                             restarts + if e.Restart? && ActiveRun(s.phase) == Some(r) then 1 else 0;
    }
  }

  function MaxCycles(k: Knobs, restarts: nat): int {
    (k.maxBoots - 1) * (restarts + 1)
  }

  /** Over every history a run power-cycles a VM at most maxBoots - 1 times for each of its monitors: the first, and
      one more for every restart of the controller during the run. */
  lemma CyclesPerRun(c: Config, es: seq<Event>, r: nat, v: nat)
    requires c.knobs.maxBoots >= 1
    ensures CyclesIn(c, es, r, v) <= MaxCycles(c.knobs, RestartsIn(c, es, r))
  {
    var s, cycles, restarts := BudgetHolds(c, es, r, v);
    BudgetBounds(c, s, r, v, cycles, restarts);
  }

  lemma BudgetBounds(c: Config, s: State, r: nat, v: nat, cycles: nat, restarts: nat)
    requires c.knobs.maxBoots >= 1 && Budget(c, s, r, v, cycles, restarts)
    ensures cycles <= MaxCycles(c.knobs, restarts)
  {
    AllowanceIsNatural(c.knobs, restarts);
    AllowanceIsProduct(c.knobs, restarts + 1);
  }

  lemma {:induction false} AllowanceIsNatural(k: Knobs, n: nat)
    requires k.maxBoots >= 1
    ensures Allowance(k, n) >= 0
  {
    if n > 0 {
      AllowanceIsNatural(k, n - 1);
    }
  }

  // ---- A VM that is never heard of ----

  /** The event hears of VM `v`: its agent's request or report, or it replaces the monitor. */
  predicate Disturbs(s: State, e: Event, v: nat) {
    match e
    case Touch(req) => req in s.requests && s.requests[req].vm == v
    case Grant(req) => req in s.requests && s.requests[req].vm == v
    case Report(vm, _, _, _) => vm == v
    case Restart => true
    case _ => false
  }

  /** When the monitor last looked, from the moment `s` it opened. */
  function LookedAt(c: Config, s: State, later: seq<Event>): int {
    if later == [] then s.now
    else if later[|later| - 1].Poll? then Run(c, s, later[..|later| - 1]).now
    else LookedAt(c, s, later[..|later| - 1])
  }

  /** The monitor polls on, at most `poll` apart, and nothing is heard of `v`; whatever else happens is free. */
  predicate SilentWhilePolled(c: Config, s: State, later: seq<Event>, v: nat, poll: int) {
    && Run(c, s, later).phase.Polling?
    && Run(c, s, later).now - LookedAt(c, s, later) <= poll
    && (later != [] ==>
      && SilentWhilePolled(c, s, later[..|later| - 1], v, poll)
      && !Disturbs(Run(c, s, later[..|later| - 1]), later[|later| - 1], v))
  }

  /** A monitor has just opened, VM `v` is pending, and its agent has not been heard of later than now. */
  predicate JustOpened(s: State, run: nat, v: nat) {
    && s.phase == Polling(Fresh(run, |s.rows|, s.now)) && v < |s.rows|
    && Is(s.rows[v], run, Pending) && (s.rows[v].seen.Some? ==> s.rows[v].seen.value <= s.now)
  }

  /** The silent VM has failed, or waits for its current boot, begun within the time its tries allow. */
  predicate SilentInv(c: Config, t: State, run: nat, start: int, v: nat, look: int, poll: int) {
    && t.phase.Polling? && t.phase.m.run == run && t.phase.m.start == start && v < |t.rows|
    && look <= t.now <= look + poll
    && (Is(t.rows[v], run, Failed) ||
      var m := t.phase.m;
      && Is(t.rows[v], run, Pending) && (t.rows[v].seen.Some? ==> t.rows[v].seen.value <= start)
      && 1 <= Tries(m, v) <= c.knobs.maxBoots
      && start <= BootAt(m, v) <= start + (Tries(m, v) - 1) * (c.knobs.bootTimeout + poll)
      && BootAt(m, v) <= look < BootAt(m, v) + c.knobs.bootTimeout)
  }

  /** What one poll does to the silent VM's row and boot. */
  lemma SilentPoll(c: Config, t: State, power: seq<bool>, run: nat, start: int, v: nat, look: int, poll: int)
    requires SilentInv(c, t, run, start, v, look, poll) && Apply(c, t, Poll(power)).phase.Polling?
    requires c.knobs.bootTimeout > 0 && c.knobs.maxBoots >= 1 && poll >= 0
    ensures SilentInv(c, Apply(c, t, Poll(power)), run, start, v, t.now, poll)
  {
    var m := t.phase.m;
    PollRows(c, t, m, power);
    PassEntry(c.knobs, m, t.rows, t.now, v);
    if Is(t.rows[v], run, Pending) {
      var n := Tries(m, v);
      var step := c.knobs.bootTimeout + poll;
      StepOfBoots(n, n, step);
      assert (n + 1 - 1) * step == n * step;
    }
  }

  lemma SilentOther(c: Config, t: State, e: Event, run: nat, start: int, v: nat, look: int, poll: int)
    requires SilentInv(c, t, run, start, v, look, poll) && !e.Poll? && !Disturbs(t, e, v)
    requires Apply(c, t, e).phase.Polling? && Apply(c, t, e).now <= look + poll
    ensures SilentInv(c, Apply(c, t, e), run, start, v, look, poll)
  {
    if AgentEvent(e) {
      AgentFrame(c, t, e);
    }
  }

  lemma SilentStart(c: Config, s: State, run: nat, v: nat, poll: int)
    requires JustOpened(s, run, v) && c.knobs.bootTimeout > 0 && c.knobs.maxBoots >= 1 && poll >= 0
    ensures SilentInv(c, s, run, s.now, v, s.now, poll)
  {
  }

  lemma {:induction false} SilentHolds(c: Config, s: State, later: seq<Event>, run: nat, v: nat, poll: int)
    requires JustOpened(s, run, v) && SilentWhilePolled(c, s, later, v, poll)
    requires c.knobs.bootTimeout > 0 && c.knobs.maxBoots >= 1 && poll >= 0
    ensures SilentInv(c, Run(c, s, later), run, s.now, v, LookedAt(c, s, later), poll)
  {
    if later == [] {
      SilentStart(c, s, run, v, poll);
    } else {
      var init, e := later[..|later| - 1], later[|later| - 1];
      SilentHolds(c, s, init, run, v, poll);
      if e.Poll? {
        SilentPoll(c, Run(c, s, init), e.power, run, s.now, v, LookedAt(c, s, init), poll);
      } else {
        SilentOther(c, Run(c, s, init), e, run, s.now, v, LookedAt(c, s, init), poll);
      }
    }
  }

  /** Whatever the rest of the fleet does: a VM that is never heard of after the monitor opened is failed, by itself,
      by maxBoots * (bootTimeout + poll) after that, in every promptly polled history whose run lasts that long. */
  lemma SilentVMIsFailed(c: Config, es: seq<Event>, later: seq<Event>, run: nat, v: nat, poll: int)
    requires JustOpened(Run(c, INITIAL, es), run, v) && SilentWhilePolled(c, Run(c, INITIAL, es), later, v, poll)
    requires c.knobs.bootTimeout > 0 && c.knobs.maxBoots >= 1 && poll >= 0
    ensures var s, t := Run(c, INITIAL, es), Run(c, Run(c, INITIAL, es), later);
            t.now >= s.now + c.knobs.maxBoots * (c.knobs.bootTimeout + poll) ==> v < |t.rows| && Is(t.rows[v], run, Failed)
  {
    var s := Run(c, INITIAL, es);
    var t := Run(c, s, later);
    SilentHolds(c, s, later, run, v, poll);
    if !Is(t.rows[v], run, Failed) {
      SilentBound(s.now, BootAt(t.phase.m, v), LookedAt(c, s, later), t.now, Tries(t.phase.m, v), c.knobs, poll);
    }
  }

  lemma SilentBound(start: int, boot: int, look: int, now: int, tries: nat, k: Knobs, poll: int)
    requires k.bootTimeout > 0 && poll >= 0 && 1 <= tries <= k.maxBoots
    requires boot <= start + (tries - 1) * (k.bootTimeout + poll) && look < boot + k.bootTimeout && now <= look + poll
    ensures now < start + k.maxBoots * (k.bootTimeout + poll)
  {
    StepOfBoots(tries, k.maxBoots, k.bootTimeout + poll);
  }

  /** What was heard of an agent was heard before now. */
  predicate HeardBefore(s: State) {
    forall v: nat :: v < |s.rows| && s.rows[v].seen.Some? ==> s.rows[v].seen.value <= s.now
  }

  lemma HeardByAgents(c: Config, s: State, e: Event)
    requires HeardBefore(s) && AgentEvent(e)
    ensures HeardBefore(Apply(c, s, e))
  {
  }

  lemma HeardByJob(c: Config, s: State, e: Event)
    requires HeardBefore(s) && !AgentEvent(e)
    ensures HeardBefore(Apply(c, s, e))
  {
    if e.Poll? && s.phase.Polling? {
      PollRows(c, s, s.phase.m, e.power);
      assert Apply(c, s, e).now == s.now;
    }
  }

  lemma {:induction false} HeardHolds(c: Config, es: seq<Event>)
    ensures HeardBefore(Run(c, INITIAL, es))
  {
    if es != [] {
      var init, e := es[..|es| - 1], es[|es| - 1];
      HeardHolds(c, init);
      if AgentEvent(e) {
        HeardByAgents(c, Run(c, INITIAL, init), e);
      } else {
        HeardByJob(c, Run(c, INITIAL, init), e);
      }
    }
  }

  lemma StartAndOpen(c: Config, s: State, power: seq<bool>, v: nat)
    requires s.phase.Idle? && v < |s.rows| && HeardBefore(s)
    ensures JustOpened(Apply(c, Apply(c, s, StartFill), Open(true, power)), |s.runs|, v)
  {
    var t := Apply(c, s, StartFill);
    assert t.rows == AssignAll(s.rows, |s.runs|, c.target);
    assert t.rows[v] == AssignRow(s.rows[v], |s.runs|, c.target);
  }

  /** Every fill run opens so for every VM of its fleet. */
  lemma FillOpensSo(c: Config, es: seq<Event>, power: seq<bool>, v: nat)
    requires var s := Run(c, INITIAL, es); s.phase.Idle? && v < |s.rows|
    ensures var s := Run(c, INITIAL, es);
            JustOpened(Run(c, INITIAL, es + [StartFill] + [Open(true, power)]), |s.runs|, v)
  {
    var s := Run(c, INITIAL, es);
    HeardHolds(c, es);
    RunSnoc(c, INITIAL, es, StartFill);
    RunSnoc(c, INITIAL, es + [StartFill], Open(true, power));
    StartAndOpen(c, s, power, v);
  }
}
