/**
 The per-VM fill columns of the `managed_vms` table, the statements that update them
 and the `runs` status column (internal/store/managed_vms.go).

 A VM is identified by its index in `rows`, a run by its index in `runs`. Times are whole
 seconds, as the store keeps them.
 */
module FillRows {
  import opened Common

  datatype FillStatus = Unassigned | Pending | Working | Done | Failed

  datatype RunStatus = Running | Succeeded | RunFailed | Cancelled

  /** `run` is the fill_run_id column, `seen` the agent_seen_at column. */
  datatype Row = Row(run: Option<nat>, status: FillStatus, written: int, total: int, seen: Option<int>)

  predicate Is(r: Row, run: nat, st: FillStatus) {
    r.run == Some(run) && r.status == st
  }

  /** The number of rows of `run` in status `st`. */
  function Count(rows: seq<Row>, run: nat, st: FillStatus): nat {
    if rows == [] then 0
    else Count(rows[..|rows| - 1], run, st) + (if Is(rows[|rows| - 1], run, st) then 1 else 0)
  }

  /** The bytes the rows of `run` report as written. */
  function Written(rows: seq<Row>, run: nat): int {
    if rows == [] then 0
    else Written(rows[..|rows| - 1], run) + (if rows[|rows| - 1].run == Some(run) then rows[|rows| - 1].written else 0)
  }

  function AssignRow(r: Row, run: nat, total: int): Row {
    r.(run := Some(run), status := Pending, written := 0, total := total)
  }

  function AssignAll(rows: seq<Row>, run: nat, total: int): seq<Row> {
    seq(|rows|, i requires 0 <= i < |rows| => AssignRow(rows[i], run, total))
  }

  function CancelRow(r: Row, run: nat): Row {
    if Is(r, run, Pending) || Is(r, run, Working) then r.(status := Failed) else r
  }

  function CancelUnfinished(rows: seq<Row>, run: nat): seq<Row> {
    seq(|rows|, i requires 0 <= i < |rows| => CancelRow(rows[i], run))
  }

  /** A progress report: an error wins over done, anything else marks the VM working. */
  function ReportRow(r: Row, now: int, written: int, done: bool, error: bool): Row {
    r.(written := written, status := if error then Failed else if done then Done else Working, seen := Some(now))
  }

  // ---- Counting ----

  lemma {:induction false} CountUpdate(rows: seq<Row>, i: nat, r: Row, run: nat, st: FillStatus)
    requires i < |rows|
    ensures Count(rows[i := r], run, st) + (if Is(rows[i], run, st) then 1 else 0)
         == Count(rows, run, st) + (if Is(r, run, st) then 1 else 0)
  {
    var n := |rows| - 1;
    if i == n {
      assert rows[i := r][..n] == rows[..n];
    } else {
      CountUpdate(rows[..n], i, r, run, st);
      assert rows[i := r][..n] == rows[..n][i := r];
    }
  }

  lemma {:induction false} CountAppend(rows: seq<Row>, r: Row, run: nat, st: FillStatus)
    ensures Count(rows + [r], run, st) == Count(rows, run, st) + (if Is(r, run, st) then 1 else 0)
  {
    assert (rows + [r])[..|rows|] == rows;
  }

  /** A count is zero exactly when no row matches, and full exactly when every row does. */
  lemma {:induction false} CountExtremes(rows: seq<Row>, run: nat, st: FillStatus)
    ensures Count(rows, run, st) <= |rows|
    ensures Count(rows, run, st) == 0 <==> forall i :: 0 <= i < |rows| ==> !Is(rows[i], run, st)
    ensures Count(rows, run, st) == |rows| <==> forall i :: 0 <= i < |rows| ==> Is(rows[i], run, st)
  {
    if rows != [] {
      var init := rows[..|rows| - 1];
      CountExtremes(init, run, st);
      assert forall i :: 0 <= i < |init| ==> init[i] == rows[i];
    }
  }

  /** Pointwise worse rows (a status left, never entered) never raise a count. */
  lemma {:induction false} CountMonotone(before: seq<Row>, after: seq<Row>, run: nat, st: FillStatus)
    requires |before| == |after|
    requires forall i :: 0 <= i < |after| && Is(after[i], run, st) ==> Is(before[i], run, st)
    ensures Count(after, run, st) <= Count(before, run, st)
  {
    if before != [] {
      var n := |before| - 1;
      assert forall i :: 0 <= i < n ==> after[..n][i] == after[i] && before[..n][i] == before[i];
      assert forall i :: 0 <= i < n && Is(after[..n][i], run, st) ==> Is(before[..n][i], run, st);
      CountMonotone(before[..n], after[..n], run, st);
    }
  }

  /** When every row belongs to `run`, the four statuses partition the fleet. */
  lemma {:induction false} StatusesPartitionFleet(rows: seq<Row>, run: nat)
    requires forall i :: 0 <= i < |rows| ==> rows[i].run == Some(run) && rows[i].status != Unassigned
    ensures Count(rows, run, Pending) + Count(rows, run, Working) + Count(rows, run, Done)
          + Count(rows, run, Failed) == |rows|
  {
    if rows != [] {
      var init := rows[..|rows| - 1];
      assert forall i :: 0 <= i < |init| ==> init[i] == rows[i];
      StatusesPartitionFleet(init, run);
      assert rows[|rows| - 1].run == Some(run);
    }
  }

  /** What a report does to the tallies: in the run the VM's row belongs to, one VM leaves its status and enters
      Done, Failed or Working as reported; no other run's counts or bytes change. */
  ghost predicate MovesOne(before: seq<Row>, after: seq<Row>, vm: nat, written: int, st: FillStatus)
    requires vm < |before|
  {
    && (forall run: nat, any: FillStatus ::
          Count(after, run, any) == Count(before, run, any)
            + (if before[vm].run == Some(run) && any == st then 1 else 0) - (if Is(before[vm], run, any) then 1 else 0))
    && (forall run: nat ::
          Written(after, run) == Written(before, run) + if before[vm].run == Some(run) then written - before[vm].written else 0)
  }

  lemma {:induction false} WrittenUpdate(rows: seq<Row>, i: nat, r: Row, run: nat)
    requires i < |rows| && r.run == rows[i].run
    ensures Written(rows[i := r], run) == Written(rows, run) + if r.run == Some(run) then r.written - rows[i].written else 0
  {
    var n := |rows| - 1;
    if i == n {
      assert rows[i := r][..n] == rows[..n];
    } else {
      WrittenUpdate(rows[..n], i, r, run);
      assert rows[i := r][..n] == rows[..n][i := r];
    }
  }

  lemma ReportMovesOne(rows: seq<Row>, vm: nat, now: int, written: int, done: bool, error: bool)
    requires vm < |rows|
    ensures MovesOne(rows, rows[vm := ReportRow(rows[vm], now, written, done, error)], vm, written,
                     if error then Failed else if done then Done else Working)
  {
    var row := ReportRow(rows[vm], now, written, done, error);
    forall run: nat, any: FillStatus
      ensures Count(rows[vm := row], run, any) + (if Is(rows[vm], run, any) then 1 else 0)
           == Count(rows, run, any) + (if Is(row, run, any) then 1 else 0)
    {
      CountUpdate(rows, vm, row, run, any);
    }
    forall run: nat
      ensures Written(rows[vm := row], run)
           == Written(rows, run) + if row.run == Some(run) then written - rows[vm].written else 0
    {
      WrittenUpdate(rows, vm, row, run);
    }
  }

  /** What cancelling a run does to the tallies: nothing of it is pending or working any more, all of that has failed,
      what was done stays done, and no other run's counts change. */
  lemma {:induction false} CancelMovesUnfinished(rows: seq<Row>, run: nat)
    ensures var after := CancelUnfinished(rows, run);
      && Count(after, run, Pending) == 0 && Count(after, run, Working) == 0
      && Count(after, run, Failed) == Count(rows, run, Failed) + Count(rows, run, Pending) + Count(rows, run, Working)
      && Count(after, run, Done) == Count(rows, run, Done)
      && forall other: nat, st: FillStatus :: other != run ==> Count(after, other, st) == Count(rows, other, st)
  {
    if rows != [] {
      var n := |rows| - 1;
      CancelMovesUnfinished(rows[..n], run);
      assert CancelUnfinished(rows, run)[..n] == CancelUnfinished(rows[..n], run);
    }
  }

  /** The fill columns and run statuses as the store keeps them. */
  class FillStore {
    var rows: seq<Row>
    var runs: seq<RunStatus>

    constructor (fleet: seq<Row>)
      ensures rows == fleet && runs == []
    {
      rows, runs := fleet, [];
    }

    /** Returns the new run's id. The run is created and started in one step. */
    method StartRun() returns (run: nat)
      modifies `runs
      ensures run == old(|runs|) && runs == old(runs) + [Running]
    {
      run := |runs|;
      runs := runs + [Running];
    }

    /** No other run's status changes, and an unknown run changes nothing. */
    method FinishRun(run: nat, status: RunStatus) returns (found: bool)
      modifies `runs
      ensures found == (run < old(|runs|))
      ensures |runs| == old(|runs|) && forall r: nat :: r < |runs| && r != run ==> runs[r] == old(runs[r])
      ensures runs == if found then old(runs)[run := status] else old(runs)
    {
      found := run < |runs|;
      if found {
        runs := runs[run := status];
      }
    }

    /** The loop of StartFill: every VM of the fleet becomes pending for the run. */
    method AssignFleet(run: nat, total: int)
      modifies `rows
      ensures rows == AssignAll(old(rows), run, total)
    {
      var i := 0;
      while i < |rows|
        invariant 0 <= i <= |rows| == old(|rows|)
        invariant forall j :: 0 <= j < i ==> rows[j] == AssignRow(old(rows)[j], run, total)
        invariant forall j :: i <= j < |rows| ==> rows[j] == old(rows)[j]
      {
        AssignFill(i, run, total);
        i := i + 1;
      }
    }

    method AssignFill(vm: nat, run: nat, total: int)
      modifies `rows
      ensures vm < old(|rows|) ==> rows == old(rows)[vm := AssignRow(old(rows)[vm], run, total)]
      ensures vm >= old(|rows|) ==> rows == old(rows)
    {
      if vm < |rows| {
        rows := rows[vm := AssignRow(rows[vm], run, total)];
      }
    }

    method CountFillStatus(run: nat, st: FillStatus) returns (n: nat)
      ensures n == Count(rows, run, st)
    {
      n := 0;
      for i := 0 to |rows|
        invariant n == Count(rows[..i], run, st)
      {
        assert rows[..i + 1][..i] == rows[..i];
        if Is(rows[i], run, st) {
          n := n + 1;
        }
      }
      assert rows[..|rows|] == rows;
    }

    method SetFillStatus(vm: nat, st: FillStatus)
      modifies `rows
      ensures vm < old(|rows|) ==> rows == old(rows)[vm := old(rows)[vm].(status := st)]
      ensures vm >= old(|rows|) ==> rows == old(rows)
    {
      if vm < |rows| {
        rows := rows[vm := rows[vm].(status := st)];
      }
    }

    method CancelUnfinishedFills(run: nat)
      modifies `rows
      ensures rows == CancelUnfinished(old(rows), run)
      ensures forall i :: 0 <= i < |rows| ==>
        if old(rows)[i].run == Some(run) && old(rows)[i].status in {Pending, Working} then rows[i].status == Failed else rows[i] == old(rows)[i]
    {
      var i := 0;
      while i < |rows|
        invariant 0 <= i <= |rows| == old(|rows|)
        invariant forall j :: 0 <= j < i ==> rows[j] == CancelRow(old(rows)[j], run)
        invariant forall j :: i <= j < |rows| ==> rows[j] == old(rows)[j]
      {
        rows := rows[i := CancelRow(rows[i], run)];
        i := i + 1;
      }
    }

    /** The agent's own byte target replaces the controller's estimate. */
    method SetFillTotal(vm: nat, total: int)
      modifies `rows
      ensures rows == if vm < old(|rows|) then old(rows)[vm := old(rows)[vm].(total := total)] else old(rows)
    {
      if vm < |rows| {
        rows := rows[vm := rows[vm].(total := total)];
      }
    }

    /** An error wins over done, done over progress; one VM of one run moves in the tallies. */
    method ReportFillProgress(vm: nat, now: int, written: int, done: bool, error: bool)
      modifies `rows
      ensures |rows| == old(|rows|)
      ensures vm < |rows| ==> (rows[vm].status == Done <==> done && !error) && (rows[vm].status == Failed <==> error)
      ensures vm < |rows| ==> (rows[vm].status == Working <==> !done && !error)
      ensures vm < |rows| ==> rows[vm].seen == Some(now) && rows[vm].written == written
      ensures vm < |rows| ==> MovesOne(old(rows), rows, vm, written, rows[vm].status)
      ensures vm < old(|rows|) ==> rows == old(rows)[vm := ReportRow(old(rows)[vm], now, written, done, error)]
      ensures vm >= old(|rows|) ==> rows == old(rows)
    {
      if vm < |rows| {
        ReportMovesOne(rows, vm, now, written, done, error);
        rows := rows[vm := ReportRow(rows[vm], now, written, done, error)];
      }
    }
  }
}
