/** When a run ends and what can still follow, over whole histories of a deployment (internal/orch/fill.go:115-161, :255-260, internal/orch/orchestrator.go:227-267). */
module FillEnd {
  import opened Common
  import opened FillRows
  import opened FillMonitor
  import opened FillRun

  /** The job goroutine looks at the run: its monitor opens or polls. */
  predicate Looks(s: State, e: Event) {
    (e.Poll? && s.phase.Polling?) || (e.Open? && e.ok && s.phase.Opening?)
  }

  /** When the goroutine last looked. */
  function LastLook(c: Config, es: seq<Event>): int {
    if es == [] then INITIAL.now
    else
      var s := Run(c, INITIAL, es[..|es| - 1]);
      if Looks(s, es[|es| - 1]) then s.now else LastLook(c, es[..|es| - 1])
  }

  /** While a run is polled, a poll is never more than `poll` away. */
  predicate Prompt(c: Config, es: seq<Event>, poll: int) {
    var s := Run(c, INITIAL, es);
    && (s.phase.Polling? ==> s.now - LastLook(c, es) <= poll)
    && (es != [] ==> Prompt(c, es[..|es| - 1], poll))
  }

  /** A monitor that lives through a pass saw it before its deadline. */
  lemma GoOnIsInTime(c: Config, s: State, power: seq<bool>)
    requires s.phase.Polling? && Apply(c, s, Poll(power)).phase.Polling?
    ensures s.now <= s.phase.m.start + c.knobs.runTimeout
    ensures Apply(c, s, Poll(power)).phase.m.start == s.phase.m.start
  {
  }

  lemma PhaseKept(c: Config, s: State, e: Event)
    requires !Looks(s, e) && Apply(c, s, e).phase.Polling?
    ensures s.phase == Apply(c, s, e).phase
  {
    if AgentEvent(e) {
      AgentFrame(c, s, e);
    }
  }

  lemma {:induction false} LastLookInTime(c: Config, es: seq<Event>)
    requires c.knobs.runTimeout >= 0
    ensures var s := Run(c, INITIAL, es);
      s.phase.Polling? ==> LastLook(c, es) <= s.phase.m.start + c.knobs.runTimeout
  {
    if es != [] {
      var before, e := es[..|es| - 1], es[|es| - 1];
      var s := Run(c, INITIAL, before);
      LastLookInTime(c, before);
      if Apply(c, s, e).phase.Polling? {
        if e.Poll? && s.phase.Polling? {
          GoOnIsInTime(c, s, e.power);
        } else if !Looks(s, e) {
          PhaseKept(c, s, e);
        }
      }
    }
  }

  /** In every reachable state of a promptly polled history, a run still being polled is at most one poll gap past
      the deadline of its monitor: every run exits by its deadline. */
  lemma EveryRunExits(c: Config, es: seq<Event>, poll: int)
    requires c.knobs.runTimeout >= 0 && Prompt(c, es, poll)
    ensures var s := Run(c, INITIAL, es);
      s.phase.Polling? ==> s.now <= s.phase.m.start + c.knobs.runTimeout + poll
  {
    LastLookInTime(c, es);
  }

  /** A restart of the controller resumes the run with a new monitor: its deadline, its boot times and its boot
      attempts begin again (`FillBoots.CyclesPerRun` bounds what that adds up to). */
  lemma RestartBeginsAnew(c: Config, s: State, power: seq<bool>)
    requires ActiveRun(s.phase).Some?
    ensures Apply(c, Apply(c, s, Restart), Open(true, power)).phase == Polling(Fresh(ActiveRun(s.phase).value, |s.rows|, s.now))
  {
  }

  // ---- Work orders for a run that has ended ----

  /** What a request carries was read from a row of a started run; one past the check was pending or working. */
  predicate SnapshotsInv(s: State) {
    forall req :: req in s.requests ==>
      var q := s.requests[req];
      && (q.snap.run.Some? ==> q.snap.status != Unassigned)
      && (q.stage == Checked ==> q.snap.run.Some? && q.snap.status in {Pending, Working})
  }

  lemma SnapshotsStep(c: Config, s: State, e: Event)
    requires RowsInv(s) && SnapshotsInv(s)
    ensures SnapshotsInv(Apply(c, s, e))
  {
    if e.Auth? && e.vm < |s.rows| {
      assert Belongs(s, s.rows[e.vm]);
    } else if e.Touch? || e.Check? || e.Grant? {
      RequestStep(c, s, e);
    }
  }

  lemma RequestStep(c: Config, s: State, e: Event)
    requires SnapshotsInv(s) && (e.Touch? || e.Check? || e.Grant?)
    ensures SnapshotsInv(Apply(c, s, e))
  {
  }

  lemma {:induction false} SnapshotsHold(c: Config, es: seq<Event>)
    ensures SnapshotsInv(Run(c, INITIAL, es))
  {
    if es != [] {
      SnapshotsHold(c, es[..|es| - 1]);
      Reachable(c, es[..|es| - 1]);
      SnapshotsStep(c, Run(c, INITIAL, es[..|es| - 1]), es[|es| - 1]);
    }
  }

  /** The working VMs of a run report done, one after the other. */
  lemma {:induction false} Drain(c: Config, s: State, r: nat, n: nat) returns (later: seq<Event>, t: State)
    requires n <= |s.rows|
    ensures t == Run(c, s, later)
    ensures t.requests == s.requests && t.handed == s.handed && |t.rows| == |s.rows|
    ensures forall v :: 0 <= v < n ==> !Is(t.rows[v], r, Working)
  {
    if n == 0 {
      later, t := [], s;
    } else {
      later, t := Drain(c, s, r, n - 1);
      if Is(t.rows[n - 1], r, Working) {
        var e := Report(n - 1, 0, true, false);
        RunSnoc(c, s, later, e);
        later, t := later + [e], Apply(c, t, e);
      }
    }
  }

  lemma {:induction false} RunConcat(c: Config, s: State, es: seq<Event>, later: seq<Event>)
    ensures Run(c, s, es + later) == Run(c, Run(c, s, es), later)
  {
    if later == [] {
      assert es + later == es;
    } else {
      var init, e := later[..|later| - 1], later[|later| - 1];
      RunConcat(c, s, es, init);
      RunSnoc(c, s, es + init, e);
      RunSnoc(c, Run(c, s, es), init, e);
      assert es + later == (es + init) + [e] && later == init + [e];
    }
  }

  /** Between the two states a work order for `r` was handed out. */
  predicate NewOrder(s: State, t: State, r: nat) {
    s.handed <= t.handed && exists i :: |s.handed| <= i < |t.handed| && t.handed[i].run == r
  }

  /** A request past the check gets its work order once the run's other VMs have made room. */
  lemma HeldCheckIsServed(c: Config, es: seq<Event>, r: nat, req: nat) returns (later: seq<Event>)
    requires var s := Run(c, INITIAL, es);
      req in s.requests && s.requests[req].stage == Checked && s.requests[req].snap.run == Some(r)
    ensures NewOrder(Run(c, INITIAL, es), Run(c, INITIAL, es + later), r)
  {
    var s := Run(c, INITIAL, es);
    SnapshotsHold(c, es);
    var drained, t := Drain(c, s, r, |s.rows|);
    CountExtremes(t.rows, r, Working);
    later := drained + [Grant(req)];
    RunConcat(c, INITIAL, es, later);
    RunSnoc(c, s, drained, Grant(req));
    var u := Apply(c, t, Grant(req));
    assert u.handed[|t.handed|].run == r;
  }

  /** After a run has ended, some continuation hands out a work order for it if and only if a request of the run
      is past the status check. */
  lemma LateOrderExact(c: Config, es: seq<Event>, r: nat)
    requires var s := Run(c, INITIAL, es); r < |s.runs| && s.runs[r] != Running
    ensures HeldCheck(Run(c, INITIAL, es), r) <==>
      exists later :: NewOrder(Run(c, INITIAL, es), Run(c, INITIAL, es + later), r)
  {
    var s := Run(c, INITIAL, es);
    if HeldCheck(s, r) {
      var req :| req in s.requests && s.requests[req].stage == Checked && s.requests[req].snap.run == Some(r);
      var later := HeldCheckIsServed(c, es, r, req);
    } else {
      forall later ensures !NewOrder(s, Run(c, INITIAL, es + later), r) {
        NoOrderAfterEnd(c, es, later, r);
      }
    }
  }
}
