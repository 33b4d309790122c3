/**
 The parallelism gate and the rate cap over whole histories of a deployment
 (internal/orch/fill.go:385-449): when they hold, and the two interleavings that break them.
 */
module FillGate {
  import opened Common
  import opened FillRows
  import opened FillMonitor
  import opened FillRun

  /** At most maxParallel VMs of any run are working, when there is a cap. */
  ghost predicate Gate(c: Config, s: State) {
    c.spec.maxParallel > 0 ==> forall r: nat :: Count(s.rows, r, Working) <= c.spec.maxParallel
  }

  /** Promoting this VM to working would exceed the cap of the run its row belongs to. */
  predicate Full(c: Config, s: State, v: nat) {
    && v < |s.rows| && s.rows[v].run.Some? && s.rows[v].status != Working
    && Count(s.rows, s.rows[v].run.value, Working) >= c.spec.maxParallel
  }

  /** The two ways a step can exceed the cap: a work order granted on a row that meanwhile belongs to a
      different, full run, or a progress report for a VM that is not working. */
  predicate Breaks(c: Config, s: State, e: Event) {
    c.spec.maxParallel > 0 &&
    match e
    case Grant(req) =>
      && req in s.requests && s.requests[req].stage == Checked && s.requests[req].snap.status == Pending
      && HandsOut(c.spec, s.rows, s.requests[req])
      && Full(c, s, s.requests[req].vm)
    case Report(vm, _, done, error) => !done && !error && Full(c, s, vm)
    case _ => false
  }

  /** No row enters the working status. */
  predicate NoneStarts(s: State, t: State) {
    |s.rows| == |t.rows| && forall v: nat :: v < |t.rows| && t.rows[v].status == Working ==>
      s.rows[v].status == Working && s.rows[v].run == t.rows[v].run
  }

  lemma NoneStartsKeepsGate(c: Config, s: State, t: State)
    requires Gate(c, s) && NoneStarts(s, t)
    ensures Gate(c, t)
  {
    forall r: nat
      ensures Count(t.rows, r, Working) <= Count(s.rows, r, Working)
    {
      CountMonotone(s.rows, t.rows, r, Working);
    }
  }

  /** Setting one row's status to working, all else unchanged. */
  lemma StartOne(c: Config, s: State, t: State, v: nat, row: Row)
    requires Gate(c, s) && c.spec.maxParallel > 0 && v < |s.rows|
    requires row.run == s.rows[v].run && row.status == Working && t.rows == s.rows[v := row]
    ensures Gate(c, t) <==> !Full(c, s, v)
  {
    forall r: nat
      ensures Count(t.rows, r, Working)
           == Count(s.rows, r, Working) + (if s.rows[v].run == Some(r) && s.rows[v].status != Working then 1 else 0)
    {
      CountUpdate(s.rows, v, row, r, Working);
    }
  }

  lemma JobStepStartsNone(c: Config, s: State, e: Event)
    requires !AgentEvent(e) && !e.Deploy?
    ensures NoneStarts(s, Apply(c, s, e))
  {
  }

  /** A step keeps the gate exactly when it is neither of the two. */
  lemma GateStepExact(c: Config, s: State, e: Event)
    requires Gate(c, s)
    ensures Gate(c, Apply(c, s, e)) <==> !Breaks(c, s, e)
  {
    var t := Apply(c, s, e);
    if c.spec.maxParallel == 0 {
    } else if e.Deploy? {
      forall r: nat
        ensures Count(t.rows, r, Working) == Count(s.rows, r, Working)
      {
        CountAppend(s.rows, NEW_ROW, r, Working);
      }
    } else if e.Grant? {
      GrantExact(c, s, e.req);
    } else if e.Report? && e.vm < |s.rows| && !e.done && !e.error {
      StartOne(c, s, t, e.vm, ReportRow(s.rows[e.vm], s.now, e.written, e.done, e.error));
    } else {
      assert NoneStarts(s, t) by {
        if !AgentEvent(e) {
          JobStepStartsNone(c, s, e);
        }
      }
      NoneStartsKeepsGate(c, s, t);
    }
  }

  lemma GrantExact(c: Config, s: State, req: nat)
    requires Gate(c, s) && c.spec.maxParallel > 0
    ensures Gate(c, Apply(c, s, Grant(req))) <==> !Breaks(c, s, Grant(req))
  {
    var t := Apply(c, s, Grant(req));
    if req in s.requests && s.requests[req].stage == Checked {
      var q := s.requests[req];
      if HandsOut(c.spec, s.rows, q) && q.snap.status == Pending && q.vm < |s.rows| {
        StartOne(c, s, t, q.vm, s.rows[q.vm].(status := Working));
      } else {
        NoneStartsKeepsGate(c, s, t);
      }
    } else {
      NoneStartsKeepsGate(c, s, t);
    }
  }

  ghost predicate GateAlways(c: Config, es: seq<Event>) {
    Gate(c, Run(c, INITIAL, es)) && (es == [] || GateAlways(c, es[..|es| - 1]))
  }

  /** No step of the history is one of the two. */
  predicate NeverBreaks(c: Config, es: seq<Event>) {
    es == [] || (NeverBreaks(c, es[..|es| - 1]) && !Breaks(c, Run(c, INITIAL, es[..|es| - 1]), es[|es| - 1]))
  }

  /** The gate holds in every state of a history exactly when no step of it is one of the two. */
  lemma {:induction false} GateHoldsExactly(c: Config, es: seq<Event>)
    ensures GateAlways(c, es) <==> NeverBreaks(c, es)
  {
    if es != [] {
      var init := es[..|es| - 1];
      GateHoldsExactly(c, init);
      if GateAlways(c, init) {
        assert Gate(c, Run(c, INITIAL, init));
        GateStepExact(c, Run(c, INITIAL, init), es[|es| - 1]);
      }
    } else {
      assert forall r: nat :: Count(INITIAL.rows, r, Working) == 0;
    }
  }

  /** The hypotheses under which agents behave: progress that is neither done nor an error is reported only for a VM
      that is working, and no pending VM is granted work after it was assigned to another run. */
  predicate Orderly(c: Config, s: State, e: Event) {
    match e
    case Report(vm, _, done, error) => !done && !error && vm < |s.rows| ==> s.rows[vm].status == Working
    case Grant(req) =>
      && req in s.requests && s.requests[req].stage == Checked && s.requests[req].snap.status == Pending
      && HandsOut(c.spec, s.rows, s.requests[req]) && s.requests[req].vm < |s.rows|
      ==> s.rows[s.requests[req].vm].run == s.requests[req].snap.run
    case _ => true
  }

  predicate OrderlyHistory(c: Config, s: State, es: seq<Event>) {
    es == [] || (OrderlyHistory(c, s, es[..|es| - 1]) && Orderly(c, Run(c, s, es[..|es| - 1]), es[|es| - 1]))
  }

  /** Although "pending" is decided on a row read before the lock, an orderly step never breaks the gate. */
  lemma OrderlyNeverBreaks(c: Config, s: State, e: Event)
    requires Orderly(c, s, e)
    ensures !Breaks(c, s, e)
  {
  }

  /** In every state of every orderly history, at most maxParallel VMs of a run are working. */
  lemma {:induction false} GateHolds(c: Config, es: seq<Event>)
    requires OrderlyHistory(c, INITIAL, es)
    ensures Gate(c, Run(c, INITIAL, es))
  {
    if es != [] {
      var init, e := es[..|es| - 1], es[|es| - 1];
      GateHolds(c, init);
      OrderlyNeverBreaks(c, Run(c, INITIAL, init), e);
      GateStepExact(c, Run(c, INITIAL, init), e);
    }
  }

  // ---- The aggregate rate ----

  /** The sum of the rates held by the working VMs of `run`. */
  function HeldRate(rows: seq<Row>, rates: seq<nat>, run: nat): nat
    requires |rates| == |rows|
  {
    if rows == [] then 0
    else
      var n := |rows| - 1;
      HeldRate(rows[..n], rates[..n], run) + (if Is(rows[n], run, Working) then rates[n] else 0)
  }

  /** Every working VM holds the current per-VM share. */
  predicate SharesHeld(c: Config, s: State) {
    |s.rates| == |s.rows| &&
    forall v: nat :: v < |s.rows| && s.rows[v].status == Working ==> s.rates[v] == PerVMRateKBps(c.spec)
  }

  lemma SharesHeldStep(c: Config, s: State, e: Event)
    requires SharesHeld(c, s) && Orderly(c, s, e)
    ensures SharesHeld(c, Apply(c, s, e))
  {
    if !AgentEvent(e) && !e.Deploy? {
      JobStepStartsNone(c, s, e);
      assert Apply(c, s, e).rates == s.rates;
    }
  }

  lemma {:induction false} SharesAreHeld(c: Config, es: seq<Event>)
    requires OrderlyHistory(c, INITIAL, es)
    ensures SharesHeld(c, Run(c, INITIAL, es))
  {
    if es != [] {
      SharesAreHeld(c, es[..|es| - 1]);
      SharesHeldStep(c, Run(c, INITIAL, es[..|es| - 1]), es[|es| - 1]);
    }
  }

  lemma {:induction false} HeldRateIsProduct(rows: seq<Row>, rates: seq<nat>, run: nat, share: nat)
    requires |rates| == |rows|
    requires forall v: nat :: v < |rows| && rows[v].status == Working ==> rates[v] == share
    ensures HeldRate(rows, rates, run) == Count(rows, run, Working) * share
  {
    if rows != [] {
      var n := |rows| - 1;
      HeldRateIsProduct(rows[..n], rates[..n], run, share);
      var c := Count(rows[..n], run, Working);
      assert (c + 1) * share == c * share + share;
    }
  }

  /** How many VMs share the cap. */
  function Sharers(s: Spec): nat {
    if 0 < s.maxParallel < s.vmCount then s.maxParallel else s.vmCount
  }

  /** For a valid spec with a rate cap the integer share is at least 1 (0 would mean unlimited), and the
      shares of all sharers together stay within the cap, while a share of one more would not. */
  lemma ShareFits(s: Spec, n: nat)
    requires ValidSpec(s) && s.rateLimitMBps > 0 && n <= Sharers(s)
    ensures 1 <= PerVMRateKBps(s)
    ensures n * PerVMRateKBps(s) <= s.rateLimitMBps * 1024 < Sharers(s) * (PerVMRateKBps(s) + 1)
  {
    var total, par, share := s.rateLimitMBps * 1024, Sharers(s), PerVMRateKBps(s);
    assert 1 <= par <= 1000 && total >= 1024 && share == total / par;
    QuotientFits(total, par, n);
  }

  lemma QuotientFits(total: nat, par: nat, n: nat)
    requires n <= par && 1 <= par <= total
    ensures total / par >= 1 && n * (total / par) <= total < par * (total / par + 1)
  {
    var q := total / par;
    assert total == par * q + total % par;
    var rest: nat := par - n;
    assert par * q == n * q + rest * q;
    assert rest * q >= 0;
  }

  /** In every state of every orderly history of a valid spec with a rate cap, as long as the deployment
      has no more VMs than the spec's count: every working VM is limited, and the limits of the working
      VMs of a run sum to at most the cap. */
  lemma RateCapHolds(c: Config, es: seq<Event>, r: nat)
    requires ValidSpec(c.spec) && c.spec.rateLimitMBps > 0 && OrderlyHistory(c, INITIAL, es)
    requires |Run(c, INITIAL, es).rows| <= c.spec.vmCount
    ensures var s := Run(c, INITIAL, es);
            && |s.rates| == |s.rows|
            && HeldRate(s.rows, s.rates, r) <= c.spec.rateLimitMBps * 1024
            && forall v: nat :: v < |s.rows| && s.rows[v].status == Working ==> s.rates[v] >= 1
  {
    var s := Run(c, INITIAL, es);
    GateHolds(c, es);
    SharesAreHeld(c, es);
    HeldRateIsProduct(s.rows, s.rates, r, PerVMRateKBps(c.spec));
    CountExtremes(s.rows, r, Working);
    ShareFits(c.spec, Count(s.rows, r, Working));
  }

  // ---- Where the hypotheses are needed ----

  /** Extends a history by one event. */
  lemma Then(c: Config, es: seq<Event>, s: State, e: Event) returns (next: seq<Event>, t: State)
    requires s == Run(c, INITIAL, es)
    ensures next == es + [e] && t == Apply(c, s, e) && t == Run(c, INITIAL, next)
  {
    next := es + [e];
    RunSnoc(c, INITIAL, es, e);
    t := Run(c, INITIAL, next);
  }

  /** A row of `run` as just assigned. */
  function Fill(run: nat, status: FillStatus, total: int, seen: Option<int>): Row {
    Row(Some(run), status, 0, total, seen)
  }

  lemma CountTwo(a: Row, b: Row, r: nat, st: FillStatus)
    ensures Count([a, b], r, st) == (if Is(a, r, st) then 1 else 0) + (if Is(b, r, st) then 1 else 0)
  {
    assert [a, b][..1] == [a];
    assert Count([a], r, st) == Count([a][..0], r, st) + (if Is(a, r, st) then 1 else 0);
  }

  /** Two VMs are deployed and run 0 is polling; request 1 of VM 0 has passed the status check. */
  lemma FirstRunChecked(c: Config) returns (es: seq<Event>, s: State)
    ensures s == Run(c, INITIAL, es)
    ensures s.rows == [Fill(0, Pending, c.target, Some(0)), Fill(0, Pending, c.target, None)]
    ensures s.runs == [Running] && s.phase.Polling? && s.phase.m.run == 0 && s.fleets == [2]
    ensures s.requests == map[1 := Request(0, Fill(0, Pending, c.target, None), Checked)]
    ensures s.on == [true, true] && s.rates == [0, 0] && s.now == 0 && s.handed == []
  {
    es, s := [], INITIAL;
    es, s := Then(c, es, s, Deploy);
    es, s := Then(c, es, s, Deploy);
    es, s := Then(c, es, s, StartFill);
    es, s := Then(c, es, s, Open(true, [true, true]));
    assert s.rows == [Fill(0, Pending, c.target, None), Fill(0, Pending, c.target, None)];
    es, s := Then(c, es, s, Auth(1, 0));
    es, s := Then(c, es, s, Touch(1));
    es, s := Then(c, es, s, Check(1));
  }

  /** The run is cancelled and run 1 started. */
  lemma SecondRunStarted(c: Config) returns (es: seq<Event>, s: State)
    ensures s == Run(c, INITIAL, es)
    ensures s.rows == [Fill(1, Pending, c.target, Some(0)), Fill(1, Pending, c.target, None)]
    ensures s.runs == [Cancelled, Running] && |s.rates| == 2 && s.now == 0
    ensures s.requests == map[1 := Request(0, Fill(0, Pending, c.target, None), Checked)]
  {
    es, s := FirstRunChecked(c);
    es, s := Then(c, es, s, Cancel);
    es, s := Then(c, es, s, StartFill);
    es, s := Then(c, es, s, Open(true, [true, true]));
  }

  /** VM 1 asks for work. */
  lemma SecondRunChecked(c: Config) returns (es: seq<Event>, s: State)
    ensures s == Run(c, INITIAL, es) && |s.rates| == 2
    ensures s.rows == [Fill(1, Pending, c.target, Some(0)), Fill(1, Pending, c.target, Some(0))]
    ensures s.requests == map[1 := Request(0, Fill(0, Pending, c.target, None), Checked),
                              2 := Request(1, Fill(1, Pending, c.target, None), Checked)]
  {
    es, s := SecondRunStarted(c);
    es, s := Then(c, es, s, Auth(2, 1));
    es, s := Then(c, es, s, Touch(2));
    es, s := Then(c, es, s, Check(2));
  }

  /** VM 1 takes the only slot of run 1. */
  lemma SecondRunFull(c: Config) returns (es: seq<Event>, s: State)
    requires c.spec.maxParallel == 1
    ensures s == Run(c, INITIAL, es) && Gate(c, s)
    ensures s.rows == [Fill(1, Pending, c.target, Some(0)), Fill(1, Working, c.target, Some(0))]
    ensures s.requests == map[1 := Request(0, Fill(0, Pending, c.target, None), Checked)]
  {
    es, s := SecondRunChecked(c);
    CountTwo(s.rows[0], s.rows[1], 1, Working);
    es, s := Then(c, es, s, Grant(2));
    forall r: nat
      ensures Count(s.rows, r, Working) <= 1
    {
      CountTwo(s.rows[0], s.rows[1], r, Working);
    }
  }

  /** A request that outlives its run breaks the gate: with a cap of one, request 1, checked for run 0,
      counts run 0's workers but promotes a VM of run 1. */
  lemma CrossRunGrantBreaksGate(c: Config)
    requires c.spec.maxParallel == 1
    ensures exists es :: Gate(c, Run(c, INITIAL, es)) && !Gate(c, Run(c, INITIAL, es + [Grant(1)]))
  {
    var es, s := SecondRunFull(c);
    CountTwo(s.rows[0], s.rows[1], 0, Working);
    CountTwo(s.rows[0], s.rows[1], 1, Working);
    assert Breaks(c, s, Grant(1));
    GateStepExact(c, s, Grant(1));
    RunSnoc(c, INITIAL, es, Grant(1));
  }

  /** VM 0 is handed work in run 0, which is cancelled; in run 1, VM 1 takes the only slot. */
  lemma FirstRunGranted(c: Config) returns (es: seq<Event>, s: State)
    requires c.spec.maxParallel == 1
    ensures s == Run(c, INITIAL, es) && s.runs == [Cancelled, Running] && |s.rates| == 2 && s.now == 0
    ensures s.rows == [Fill(1, Pending, c.target, Some(0)), Fill(1, Pending, c.target, None)] && s.requests == map[]
    ensures Order(0, 0, PerVMRateKBps(c.spec)) in s.handed
  {
    es, s := FirstRunChecked(c);
    CountTwo(s.rows[0], s.rows[1], 0, Working);
    es, s := Then(c, es, s, Grant(1));
    assert s.handed[0] == Order(0, 0, PerVMRateKBps(c.spec));
    es, s := Then(c, es, s, Cancel);
    es, s := Then(c, es, s, StartFill);
    es, s := Then(c, es, s, Open(true, [true, true]));
  }

  lemma SlotAsked(c: Config) returns (es: seq<Event>, s: State)
    requires c.spec.maxParallel == 1
    ensures s == Run(c, INITIAL, es) && s.runs == [Cancelled, Running] && |s.rates| == 2
    ensures s.rows == [Fill(1, Pending, c.target, Some(0)), Fill(1, Pending, c.target, Some(0))]
    ensures s.requests == map[2 := Request(1, Fill(1, Pending, c.target, None), Checked)]
    ensures Order(0, 0, PerVMRateKBps(c.spec)) in s.handed
  {
    es, s := FirstRunGranted(c);
    es, s := Then(c, es, s, Auth(2, 1));
    es, s := Then(c, es, s, Touch(2));
    es, s := Then(c, es, s, Check(2));
  }

  lemma SlotTaken(c: Config) returns (es: seq<Event>, s: State)
    requires c.spec.maxParallel == 1
    ensures s == Run(c, INITIAL, es) && s.runs == [Cancelled, Running]
    ensures s.rows == [Fill(1, Pending, c.target, Some(0)), Fill(1, Working, c.target, Some(0))]
    ensures Order(0, 0, PerVMRateKBps(c.spec)) in s.handed
  {
    es, s := SlotAsked(c);
    CountTwo(s.rows[0], s.rows[1], 1, Working);
    es, s := Then(c, es, s, Grant(2));
  }

  /** A report carries no run: with a cap of one, a progress report of VM 0's agent, still at work on the cancelled
      run 0, marks the VM working in run 1, whose only slot is taken. */
  lemma StaleReportBreaksGate(c: Config, written: int)
    requires c.spec.maxParallel == 1
    ensures exists es ::
              && Gate(c, Run(c, INITIAL, es)) && Run(c, INITIAL, es).runs == [Cancelled, Running]
              && Order(0, 0, PerVMRateKBps(c.spec)) in Run(c, INITIAL, es).handed
              && !Gate(c, Run(c, INITIAL, es + [Report(0, written, false, false)]))
  {
    var es, s := SlotTaken(c);
    forall r: nat ensures Count(s.rows, r, Working) <= 1 {
      CountTwo(s.rows[0], s.rows[1], r, Working);
    }
    CountTwo(s.rows[0], s.rows[1], 1, Working);
    var e := Report(0, written, false, false);
    assert Breaks(c, s, e);
    GateStepExact(c, s, e);
    RunSnoc(c, INITIAL, es, e);
  }

  /** One VM is pending for run 0; two of its requests have passed the status check. */
  lemma TwoChecked(c: Config) returns (es: seq<Event>, s: State)
    ensures s == Run(c, INITIAL, es) && s.runs == [Running] && s.now == 0
    ensures s.phase == Polling(Fresh(0, 1, 0)) && |s.rates| == 1 && s.handed == []
    ensures s.rows == [Fill(0, Pending, c.target, Some(0))]
    ensures 1 in s.requests && s.requests[1] == Request(0, Fill(0, Pending, c.target, None), Checked)
    ensures 2 in s.requests && s.requests[2] == Request(0, Fill(0, Pending, c.target, None), Checked)
  {
    es, s := [], INITIAL;
    es, s := Then(c, es, s, Deploy);
    es, s := Then(c, es, s, StartFill);
    es, s := Then(c, es, s, Open(true, [true]));
    assert s.rows == [Fill(0, Pending, c.target, None)];
    es, s := Then(c, es, s, Auth(1, 0));
    es, s := Then(c, es, s, Auth(2, 0));
    es, s := Then(c, es, s, Touch(1));
    es, s := Then(c, es, s, Touch(2));
    es, s := Then(c, es, s, Check(1));
    es, s := Then(c, es, s, Check(2));
  }

  lemma CompletePoll(c: Config, row: Row)
    requires c.knobs == DEFAULTS && row.written > 0 && Is(row, 0, Done)
    ensures PassOutcome(c.knobs, Fresh(0, 1, 0), [row], 0) == Complete
    ensures Terminal(Fresh(0, 1, 0), [row], Complete) == Succeeded
    ensures PassRows(c.knobs, Fresh(0, 1, 0), [row], 0) == [row]
  {
    CountExtremes([row], 0, Done);
    CountExtremes([row], 0, Failed);
    assert Written([row], 0) == Written([row][..0], 0) + row.written;
  }

  /** The VM is granted work through request 2 and reports it done; request 1 still waits for the lock. */
  lemma DoneWithRequestWaiting(c: Config) returns (es: seq<Event>, s: State)
    requires c.spec.maxParallel == 0
    ensures s == Run(c, INITIAL, es) && s.runs == [Running] && s.now == 0
    ensures s.phase == Polling(Fresh(0, 1, 0)) && |s.rates| == 1
    ensures |s.rows| == 1 && Is(s.rows[0], 0, Done) && s.rows[0].written == 1
    ensures 1 in s.requests && s.requests[1] == Request(0, Fill(0, Pending, c.target, None), Checked)
  {
    es, s := TwoChecked(c);
    es, s := Then(c, es, s, Grant(2));
    es, s := Then(c, es, s, Report(0, 1, true, false));
  }

  /** The run-status check is made before the lock, so a work order can be handed out, and a done VM
      marked working again, after the run was recorded succeeded. */
  lemma LateWorkOrder(c: Config)
    requires c.spec.maxParallel == 0 && !c.spec.shutdown && c.knobs == DEFAULTS
    ensures exists es ::
              var s, t := Run(c, INITIAL, es), Run(c, INITIAL, es + [Grant(1)]);
              && s.runs == [Succeeded] && |t.handed| == |s.handed| + 1 && t.handed[|s.handed|].run == 0
              && s.rows != [] && s.rows[0].status == Done && t.rows != [] && t.rows[0].status == Working
  {
    var es, s := DoneWithRequestWaiting(c);
    assert s.rows == [s.rows[0]];
    CompletePoll(c, s.rows[0]);
    es, s := Then(c, es, s, Poll([true]));
    RunSnoc(c, INITIAL, es, Grant(1));
  }
}
