/**
 Fill runs of one deployment as a system of atomic steps: the job goroutine that opens,
 polls and closes a run (internal/orch/fill.go), agent requests that act on a VM row read
 earlier (internal/api/boot.go), progress reports, cancelling, and controller restarts.

 A request takes four steps, any others in between: it reads the VM row by its token, touches
 the agent's liveness, reads the run status, and enters the locked section that hands out work.
 A poll pass is one step.
 */
module FillRun {
  import opened Common
  import opened FillRows
  import opened FillMonitor

  /** The parts of the deployment's spec the protocol reads; they do not change. */
  datatype Spec = Spec(vmCount: nat, maxParallel: nat, rateLimitMBps: int, shutdown: bool)

  datatype Config = Config(spec: Spec, knobs: Knobs, target: int)

  /** The bounds ProfileSpec.Validate puts on these fields. */
  predicate ValidSpec(s: Spec) {
    1 <= s.vmCount <= 1000 && s.maxParallel <= s.vmCount && s.rateLimitMBps >= 0
  }

  /** What the deployment's job goroutine is doing. `Opening`: run started, hypervisor not yet
      opened. `Closing`: every VM has finished and VMs 0..next have been told to power off, the
      `missed` ones in vain; the verdict is not recorded yet. `Cleanup`: powering off after a failed
      run was recorded. */
  datatype Phase =
    | Idle
    | Opening(run: nat)
    | Polling(m: Monitor)
    | Closing(closing: nat, verdict: RunStatus, next: nat, missed: set<nat>)
    | Cleanup(done: nat, next: nat)

  datatype Stage = Read | Touched | Checked

  /** A request in flight: its VM, the row it read and how far it has come. */
  datatype Request = Request(vm: nat, snap: Row, stage: Stage)

  /** A work order that was handed out, and the rate it carries. */
  datatype Order = Order(run: nat, vm: nat, rate: nat)

  datatype State = State(
    now: int,
    rows: seq<Row>,
    on: seq<bool>,
    runs: seq<RunStatus>,
    fleets: seq<nat>,             // the number of VMs each run was started for
    phase: Phase,
    requests: map<nat, Request>,
    rates: seq<nat>,              // the rate each VM's last work order carried
    handed: seq<Order>,           // every work order handed out so far
    reported: set<(nat, nat)>     // the (run, VM) pairs whose row took a done report
  )

  datatype Event =
    | Tick(d: nat)
    | Deploy
    | StartFill
    | Open(ok: bool, power: seq<bool>)
    | Poll(power: seq<bool>)
    | Cancel
    | PowerOffNext(ok: bool)
    | Auth(req: nat, vm: nat)
    | Touch(req: nat)
    | Check(req: nat)
    | Grant(req: nat)
    | Report(vm: nat, written: int, done: bool, error: bool)
    | Restart

  const NEW_ROW := Row(None, Unassigned, 0, 0, None)

  const INITIAL := State(0, [], [], [], [], Idle, map[], [], [], {})

  function ActiveRun(p: Phase): Option<nat> {
    match p
    case Idle => None
    case Opening(r) => Some(r)
    case Polling(m) => Some(m.run)
    case Closing(r, _, _, _) => Some(r)
    case Cleanup(_, _) => None
  }

  /** The per-VM share of the deployment's rate cap; 0 means unlimited. */
  function PerVMRateKBps(s: Spec): nat {
    if s.rateLimitMBps <= 0 then 0
    else
      var par := if 0 < s.maxParallel < s.vmCount then s.maxParallel else s.vmCount;
      s.rateLimitMBps * 1024 / (if par < 1 then 1 else par)
  }

  /** Whether the locked section hands this request a work order. */
  predicate HandsOut(spec: Spec, rows: seq<Row>, q: Request) {
    && q.snap.run.Some?
    && (q.snap.status == Working
        || (q.snap.status == Pending
            && (spec.maxParallel == 0 || Count(rows, q.snap.run.value, Working) < spec.maxParallel)))
  }

  function GrantRows(rows: seq<Row>, q: Request): seq<Row> {
    if q.snap.status == Pending && q.vm < |rows| then rows[q.vm := rows[q.vm].(status := Working)] else rows
  }

  function GrantState(c: Config, s: State, req: nat): State
    requires req in s.requests
  {
    var q := s.requests[req];
    var answered := s.(requests := s.requests - {req});
    if !HandsOut(c.spec, s.rows, q) then answered
    else
      answered.(
        rows := GrantRows(s.rows, q),
        rates := if q.vm < |s.rates| then s.rates[q.vm := PerVMRateKBps(c.spec)] else s.rates,
        handed := s.handed + [Order(q.snap.run.value, q.vm, PerVMRateKBps(c.spec))])
  }

  function FinishState(s: State, run: nat, status: RunStatus, phase: Phase): State {
    s.(runs := if run < |s.runs| then s.runs[run := status] else s.runs, phase := phase)
  }

  function PollState(c: Config, s: State, m: Monitor, power: seq<bool>): State {
    var t := s.(rows := PassRows(c.knobs, m, s.rows, s.now), on := if |power| == |s.on| then power else s.on);
    var outcome := PassOutcome(c.knobs, m, s.rows, s.now);
    if outcome == GoOn then t.(phase := Polling(PassMonitor(c.knobs, m, s.rows, s.now)))
    else
      var verdict := Terminal(m, s.rows, outcome);
      if !c.spec.shutdown then FinishState(t, m.run, verdict, Idle)
      else if outcome == Complete then t.(phase := Closing(m.run, verdict, 0, {}))
      else FinishState(t, m.run, verdict, Cleanup(m.run, 0))
  }

  function PowerOffState(s: State, ok: bool): State {
    match s.phase
    case Closing(r, verdict, next, missed) =>
      if next < |s.on| && next < |s.rows| then
        var t := if ok then s.(on := s.on[next := false], rows := s.rows[next := s.rows[next].(seen := None)]) else s;
        t.(phase := Closing(r, verdict, next + 1, if ok then missed else missed + {next}))
      else FinishState(s, r, verdict, Idle)
    case Cleanup(r, next) =>
      if next < |s.on| && next < |s.rows| then
        var t := if ok then s.(on := s.on[next := false], rows := s.rows[next := s.rows[next].(seen := None)]) else s;
        t.(phase := Cleanup(r, next + 1))
      else s.(phase := Idle)
    case _ => s
  }

  /** One step. An event that does not apply changes nothing. */
  function Apply(c: Config, s: State, e: Event): State {
    match e
    case Tick(d) => s.(now := s.now + d)
    case Deploy =>
      if s.phase.Idle? then s.(rows := s.rows + [NEW_ROW], on := s.on + [false], rates := s.rates + [0]) else s
    case StartFill =>
      if s.phase.Idle? && s.rows != [] then
        s.(runs := s.runs + [Running], fleets := s.fleets + [|s.rows|], rows := AssignAll(s.rows, |s.runs|, c.target), phase := Opening(|s.runs|))
      else s
    case Open(ok, power) =>
      if !s.phase.Opening? then s
      else if !ok then FinishState(s, s.phase.run, RunFailed, Idle)
      else s.(phase := Polling(Fresh(s.phase.run, |s.rows|, s.now)), on := if |power| == |s.on| then power else s.on)
    case Poll(power) => if s.phase.Polling? then PollState(c, s, s.phase.m, power) else s
    case Cancel =>
      if s.phase.Polling? then
        FinishState(s.(rows := CancelUnfinished(s.rows, s.phase.m.run)), s.phase.m.run, Cancelled, Idle)
      else s
    case PowerOffNext(ok) => PowerOffState(s, ok)
    case Auth(req, vm) =>
      if vm < |s.rows| && req !in s.requests then s.(requests := s.requests[req := Request(vm, s.rows[vm], Read)]) else s
    case Touch(req) =>
      if req in s.requests && s.requests[req].stage == Read then
        var q := s.requests[req];
        s.(requests := s.requests[req := q.(stage := Touched)],
           rows := if q.vm < |s.rows| then s.rows[q.vm := s.rows[q.vm].(seen := Some(s.now))] else s.rows)
      else s
    case Check(req) =>
      if req in s.requests && s.requests[req].stage == Touched then
        var q := s.requests[req];
        if q.snap.run.Some? && q.snap.run.value < |s.runs| && s.runs[q.snap.run.value] == Running
           && q.snap.status !in {Done, Failed}
        then s.(requests := s.requests[req := q.(stage := Checked)])
        else s.(requests := s.requests - {req})
      else s
    case Grant(req) =>
      if req in s.requests && s.requests[req].stage == Checked then GrantState(c, s, req) else s
    case Report(vm, written, done, error) =>
      if vm < |s.rows| then
        var row := ReportRow(s.rows[vm], s.now, written, done, error);
        s.(rows := s.rows[vm := row],
           reported := if row.status == Done && row.run.Some? then s.reported + {(row.run.value, vm)} else s.reported)
      else s
    case Restart =>
      s.(requests := map[],
         phase := match ActiveRun(s.phase) case Some(r) => Opening(r) case None => Idle)
  }

  function Run(c: Config, s: State, es: seq<Event>): State {
    if es == [] then s else Apply(c, Run(c, s, es[..|es| - 1]), es[|es| - 1])
  }

  // ---- What every step keeps ----

  predicate Belongs(s: State, r: Row) {
    if r.run.Some? then r.run.value < |s.runs| && r.status != Unassigned else r.status != Pending
  }

  /** A run is Running exactly while the job goroutine works on it, and then it is the latest run. */
  predicate RunsInv(s: State) {
    && |s.fleets| == |s.runs|
    && (forall r: nat :: r < |s.runs| ==> (s.runs[r] == Running <==> ActiveRun(s.phase) == Some(r)))
    && (ActiveRun(s.phase).Some? ==> ActiveRun(s.phase).value == |s.runs| - 1)
    && (s.phase.Closing? ==> s.phase.verdict != Running)
  }

  /** Every row belongs to a started run, all of them to the active one. */
  predicate RowsInv(s: State) {
    && |s.on| == |s.rows| == |s.rates|
    && (forall v :: 0 <= v < |s.rows| ==> Belongs(s, s.rows[v]))
    && (ActiveRun(s.phase).Some? ==>
          && s.rows != []
          && s.fleets != [] && s.fleets[|s.fleets| - 1] == |s.rows|
          && forall v :: 0 <= v < |s.rows| ==> s.rows[v].run == ActiveRun(s.phase))
    && (s.phase.Polling? ==> s.phase.m.fleet == |s.rows|)
  }

  predicate AllReported(s: State, run: nat, fleet: nat) {
    forall v: nat :: v < fleet ==> (run, v) in s.reported
  }

  /** A done row was reported done, and so was every VM of a succeeded run. */
  predicate ReportsInv(s: State) {
    && (forall v: nat :: v < |s.rows| && s.rows[v].status == Done && s.rows[v].run.Some? ==>
          (s.rows[v].run.value, v) in s.reported)
    && (forall r: nat :: r < |s.runs| && r < |s.fleets| && s.runs[r] == Succeeded ==> AllReported(s, r, s.fleets[r]))
    && (s.phase.Closing? && s.phase.verdict == Succeeded ==> AllReported(s, s.phase.closing, |s.rows|))
  }

  /** While closing, the VMs handled so far are off unless the hypervisor refused. */
  predicate PowerInv(s: State) {
    s.phase.Closing? ==>
      && s.phase.next <= |s.on|
      && forall v: nat :: v < s.phase.next && v !in s.phase.missed ==> !s.on[v]
  }

  predicate Inv(s: State) {
    RunsInv(s) && RowsInv(s) && ReportsInv(s) && PowerInv(s)
  }

  /** Steps of agents and the clock: the runs and the job goroutine stay as they are, and so does
      the run of every row; a row becomes Done only by a done report, which is recorded. */
  predicate AgentEvent(e: Event) {
    e.Tick? || e.Auth? || e.Touch? || e.Check? || e.Grant? || e.Report?
  }

  lemma AgentFrame(c: Config, s: State, e: Event)
    requires AgentEvent(e)
    ensures var t := Apply(c, s, e);
            && t.runs == s.runs && t.fleets == s.fleets && t.phase == s.phase && t.on == s.on
            && |t.rows| == |s.rows| && |t.rates| == |s.rates| && s.reported <= t.reported
    ensures var t := Apply(c, s, e);
            forall v: nat :: v < |s.rows| ==>
              && t.rows[v].run == s.rows[v].run
              && (t.rows[v].status == s.rows[v].status || t.rows[v].status in {Working, Done, Failed})
              && (t.rows[v].status == Done && t.rows[v].run.Some? ==>
                    s.rows[v].status == Done || (t.rows[v].run.value, v) in t.reported)
  {
  }

  lemma RunsInvStep(c: Config, s: State, e: Event)
    requires RunsInv(s)
    ensures RunsInv(Apply(c, s, e))
  {
    if AgentEvent(e) {
      AgentFrame(c, s, e);
    }
  }

  lemma PollRows(c: Config, s: State, m: Monitor, power: seq<bool>)
    ensures var t := PollState(c, s, m, power);
            && t.rows == PassRows(c.knobs, m, s.rows, s.now)
            && |t.on| == |s.on| && t.rates == s.rates && t.fleets == s.fleets && t.reported == s.reported
            && t.requests == s.requests && |t.runs| == |s.runs|
            && (ActiveRun(t.phase).Some? ==> ActiveRun(t.phase) == Some(m.run))
            && (t.phase.Polling? ==> t.phase.m.fleet == m.fleet)
  {
  }

  lemma RowsInvPoll(c: Config, s: State, power: seq<bool>)
    requires RunsInv(s) && RowsInv(s) && s.phase.Polling?
    ensures RowsInv(PollState(c, s, s.phase.m, power))
  {
    var t := PollState(c, s, s.phase.m, power);
    PollRows(c, s, s.phase.m, power);
    forall v | 0 <= v < |t.rows| ensures Belongs(t, t.rows[v]) && t.rows[v].run == s.rows[v].run {
      assert Belongs(s, s.rows[v]);
    }
  }

  lemma RowsInvPlan(c: Config, s: State, e: Event)
    requires RunsInv(s) && RowsInv(s) && (e.Deploy? || e.StartFill? || e.Open? || e.Restart?)
    ensures RowsInv(Apply(c, s, e))
  {
  }

  lemma RowsInvCancel(c: Config, s: State)
    requires RunsInv(s) && RowsInv(s)
    ensures RowsInv(Apply(c, s, Cancel))
  {
  }

  lemma RowsInvPowerOff(c: Config, s: State, ok: bool)
    requires RunsInv(s) && RowsInv(s)
    ensures RowsInv(PowerOffState(s, ok))
  {
  }

  lemma RowsInvJobStep(c: Config, s: State, e: Event)
    requires RunsInv(s) && RowsInv(s) && !AgentEvent(e)
    ensures RowsInv(Apply(c, s, e))
  {
    match e {
      case Poll(power) => if s.phase.Polling? { RowsInvPoll(c, s, power); }
      case Cancel => RowsInvCancel(c, s);
      case PowerOffNext(ok) => RowsInvPowerOff(c, s, ok);
      case _ => RowsInvPlan(c, s, e);
    }
  }

  lemma RowsInvStep(c: Config, s: State, e: Event)
    requires RunsInv(s) && RowsInv(s)
    ensures RowsInv(Apply(c, s, e))
  {
    if AgentEvent(e) {
      AgentFrame(c, s, e);
      var t := Apply(c, s, e);
      forall v | 0 <= v < |t.rows|
        ensures Belongs(t, t.rows[v])
      {
        assert Belongs(s, s.rows[v]);
      }
    } else {
      RowsInvJobStep(c, s, e);
    }
  }

  lemma ReportsInvPoll(c: Config, s: State, power: seq<bool>)
    requires s.phase.Polling? && RunsInv(s) && RowsInv(s) && ReportsInv(s)
    ensures ReportsInv(PollState(c, s, s.phase.m, power))
  {
    var m := s.phase.m;
    PollRows(c, s, m, power);
    if PassOutcome(c.knobs, m, s.rows, s.now) != GoOn {
      SucceededMeansAllDone(c.knobs, m, s.rows, s.now);
      if Terminal(m, s.rows, PassOutcome(c.knobs, m, s.rows, s.now)) == Succeeded {
        forall v: nat | v < |s.rows|
          ensures (m.run, v) in s.reported
        {
          assert Is(s.rows[v], m.run, Done);
        }
        assert AllReported(s, m.run, |s.rows|);
      }
    }
  }

  lemma ReportsInvPlan(c: Config, s: State, e: Event)
    requires RunsInv(s) && RowsInv(s) && ReportsInv(s) && (e.Deploy? || e.StartFill? || e.Open? || e.Restart?)
    ensures ReportsInv(Apply(c, s, e))
  {
  }

  lemma ReportsInvEnd(c: Config, s: State, e: Event)
    requires RunsInv(s) && RowsInv(s) && ReportsInv(s) && (e.Cancel? || e.PowerOffNext?)
    ensures ReportsInv(Apply(c, s, e))
  {
  }

  lemma ReportsInvStep(c: Config, s: State, e: Event)
    requires RunsInv(s) && RowsInv(s) && ReportsInv(s)
    ensures ReportsInv(Apply(c, s, e))
  {
    if AgentEvent(e) {
      AgentFrame(c, s, e);
    } else if e.Poll? {
      if s.phase.Polling? {
        ReportsInvPoll(c, s, e.power);
      }
    } else if e.Cancel? || e.PowerOffNext? {
      ReportsInvEnd(c, s, e);
    } else {
      ReportsInvPlan(c, s, e);
    }
  }

  lemma PowerInvStep(c: Config, s: State, e: Event)
    requires RowsInv(s) && PowerInv(s)
    ensures PowerInv(Apply(c, s, e))
  {
    if AgentEvent(e) {
      AgentFrame(c, s, e);
    }
  }

  lemma {:induction false} Reachable(c: Config, es: seq<Event>)
    ensures Inv(Run(c, INITIAL, es))
  {
    if es != [] {
      var s, e := Run(c, INITIAL, es[..|es| - 1]), es[|es| - 1];
      Reachable(c, es[..|es| - 1]);
      RunsInvStep(c, s, e);
      RowsInvStep(c, s, e);
      ReportsInvStep(c, s, e);
      PowerInvStep(c, s, e);
    }
  }

  // ---- Outcome truth ----

  /** While a run is active, pending, working, done and failed partition the VMs it was started for. */
  lemma StatusesPartitionRun(c: Config, es: seq<Event>)
    ensures var s := Run(c, INITIAL, es);
            ActiveRun(s.phase).Some? ==>
              var r := ActiveRun(s.phase).value;
              && r < |s.fleets|
              && Count(s.rows, r, Pending) + Count(s.rows, r, Working) + Count(s.rows, r, Done) + Count(s.rows, r, Failed)
                 == s.fleets[r]
  {
    Reachable(c, es);
    var s := Run(c, INITIAL, es);
    if ActiveRun(s.phase).Some? {
      var r := ActiveRun(s.phase).value;
      forall v | 0 <= v < |s.rows|
        ensures s.rows[v].run == Some(r) && s.rows[v].status != Unassigned
      {
        assert Belongs(s, s.rows[v]);
      }
      StatusesPartitionFleet(s.rows, r);
    }
  }

  /** In every reachable state, each row of a succeeded run's fleet took a done report while it belonged to the run;
      the report itself carries no run. */
  lemma SucceededMeansReported(c: Config, es: seq<Event>, r: nat, v: nat)
    requires var s := Run(c, INITIAL, es); r < |s.runs| && s.runs[r] == Succeeded
    ensures var s := Run(c, INITIAL, es);
            r < |s.fleets| && (v < s.fleets[r] ==> (r, v) in s.reported)
  {
    Reachable(c, es);
    var s := Run(c, INITIAL, es);
    assert AllReported(s, r, s.fleets[r]);
  }

  lemma StatusStep(c: Config, s: State, e: Event, r: nat)
    requires Inv(s) && r < |s.runs|
    ensures var t := Apply(c, s, e);
            && r < |t.runs|
            && (s.runs[r] != Running ==> t.runs[r] == s.runs[r])
            && (s.runs[r] == Running && t.runs[r] != Running ==> ActiveRun(s.phase) == Some(r) && ActiveRun(t.phase) == None)
  {
    if AgentEvent(e) {
      AgentFrame(c, s, e);
    }
  }

  lemma RunSnoc(c: Config, s: State, es: seq<Event>, e: Event)
    ensures Run(c, s, es + [e]) == Apply(c, Run(c, s, es), e)
  {
    assert (es + [e])[..|es|] == es;
  }

  /** The run's terminal status is written once: nothing that happens later changes it. */
  lemma {:induction false} TerminalIsFinal(c: Config, es: seq<Event>, later: seq<Event>, r: nat)
    requires r < |Run(c, INITIAL, es).runs| && Run(c, INITIAL, es).runs[r] != Running
    ensures var t := Run(c, INITIAL, es + later);
            r < |t.runs| && t.runs[r] == Run(c, INITIAL, es).runs[r]
  {
    if later == [] {
      assert es + later == es;
    } else {
      var init, e := later[..|later| - 1], later[|later| - 1];
      TerminalIsFinal(c, es, init, r);
      assert es + later == (es + init) + [e];
      RunSnoc(c, INITIAL, es + init, e);
      Reachable(c, es + init);
      StatusStep(c, Run(c, INITIAL, es + init), e, r);
    }
  }

  /** With the shutdown option a run is recorded succeeded only after every VM was told to power off,
      and each of them is off then unless the hypervisor refused. */
  lemma SucceededMeansPoweredOff(c: Config, es: seq<Event>, e: Event, r: nat, v: nat)
    requires c.spec.shutdown
    requires var s := Run(c, INITIAL, es);
             r < |s.runs| && s.runs[r] == Running && v < |s.on| && Apply(c, s, e).runs[r] == Succeeded
    ensures var s := Run(c, INITIAL, es);
            var t := Apply(c, s, e);
            && s.phase.Closing? && s.phase.closing == r && s.phase.next == |s.on|
            && v < |t.on| && (t.on[v] ==> v in s.phase.missed)
  {
    Reachable(c, es);
    var s := Run(c, INITIAL, es);
    StatusStep(c, s, e, r);
    if AgentEvent(e) {
      AgentFrame(c, s, e);
    }
  }

  // ---- Work orders after the end ----

  /** A request that passed the run-status check while `r` was still running. */
  predicate HeldCheck(s: State, r: nat) {
    exists req :: req in s.requests && s.requests[req].stage == Checked && s.requests[req].snap.run == Some(r)
  }

  /** A work order for `r` is handed out exactly when a request of `r` that passed the check is granted and the gate lets it. */
  lemma OrderStepExact(c: Config, s: State, e: Event, r: nat)
    ensures var t := Apply(c, s, e);
            && s.handed <= t.handed
            && ((exists i :: |s.handed| <= i < |t.handed| && t.handed[i].run == r) <==>
                  && e.Grant? && e.req in s.requests && s.requests[e.req].stage == Checked
                  && s.requests[e.req].snap.run == Some(r) && HandsOut(c.spec, s.rows, s.requests[e.req]))
  {
    var t := Apply(c, s, e);
    if e.Grant? && e.req in s.requests && s.requests[e.req].stage == Checked && HandsOut(c.spec, s.rows, s.requests[e.req]) {
      assert t.handed[|s.handed|].run == s.requests[e.req].snap.run.value;
    } else {
      assert t.handed == s.handed;
    }
  }

  lemma NoOrderStep(c: Config, s: State, e: Event, r: nat)
    requires Inv(s) && r < |s.runs| && s.runs[r] != Running && !HeldCheck(s, r)
    ensures var t := Apply(c, s, e);
            && r < |t.runs| && t.runs[r] != Running && !HeldCheck(t, r)
            && s.handed <= t.handed
            && forall i :: |s.handed| <= i < |t.handed| ==> t.handed[i].run != r
  {
    StatusStep(c, s, e, r);
  }

  /** Once a run has ended and no request is between the status check and the locked section, no work
      order for it is ever handed out again. */
  lemma {:induction false} NoOrderAfterEnd(c: Config, es: seq<Event>, later: seq<Event>, r: nat)
    requires var s := Run(c, INITIAL, es); r < |s.runs| && s.runs[r] != Running && !HeldCheck(s, r)
    ensures var s, t := Run(c, INITIAL, es), Run(c, INITIAL, es + later);
            && r < |t.runs| && t.runs[r] != Running && !HeldCheck(t, r)
            && s.handed <= t.handed
            && forall i :: |s.handed| <= i < |t.handed| ==> t.handed[i].run != r
  {
    if later == [] {
      assert es + later == es;
    } else {
      var init, e := later[..|later| - 1], later[|later| - 1];
      NoOrderAfterEnd(c, es, init, r);
      assert es + later == (es + init) + [e];
      RunSnoc(c, INITIAL, es + init, e);
      Reachable(c, es + init);
      NoOrderStep(c, Run(c, INITIAL, es + init), e, r);
    }
  }
}
