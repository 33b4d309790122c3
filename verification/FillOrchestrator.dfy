/**
 The orchestrator's entry points for a fill run, on the shared store
 (internal/orch/fill.go:60-102, :382-449). Each method performs steps of `FillRun.Apply`.
 */
module FillOrchestrator {
  import opened Common
  import opened FillRows
  import opened FillRun

  datatype StartError = Busy | NothingDeployed | NotFilled

  class Orchestrator {
    const spec: Spec
    const target: int
    const store: FillStore
    var active: bool

    constructor (spec: Spec, target: int, store: FillStore)
      ensures this.spec == spec && this.target == target && this.store == store && !active
    {
      this.spec, this.target, this.store, active := spec, target, store, false;
    }

    /** A refused start leaves everything as it was, the deployment's lock included. `needsData` is set
        for incremental and verify runs, `filled` when the disks hold data or the deployment was adopted. */
    method StartFill(needsData: bool, filled: bool) returns (r: Result<nat, StartError>)
      modifies this`active, store
      ensures r.Ok? <==> !old(active) && old(store.rows) != [] && (needsData ==> filled)
      ensures r.Ok? ==> r.value == old(|store.runs|) && active
      ensures r.Ok? ==> store.runs == old(store.runs) + [Running]
      ensures r.Ok? ==> store.rows == AssignAll(old(store.rows), r.value, target)
      ensures r.Err? ==> active == old(active) && store.rows == old(store.rows) && store.runs == old(store.runs)
    {
      if active {
        return Err(Busy);
      }
      active := true;
      if |store.rows| == 0 {
        active := false;
        return Err(NothingDeployed);
      }
      if needsData && !filled {
        active := false;
        return Err(NotFilled);
      }
      var run := store.StartRun();
      store.AssignFleet(run, target);
      return Ok(run);
    }

    /** The locked section of WorkOrderForToken: a pending VM is refused exactly when as many VMs of its run work as
        the cap allows, and a working one never; who is not refused is working after and gets its order. */
    method WorkOrder(q: Request) returns (order: Option<Order>)
      requires q.snap.run.Some? && q.snap.status in {Pending, Working}
      modifies store`rows
      ensures order.Some? <==> HandsOut(spec, old(store.rows), q)
      ensures order.None? <==>
        q.snap.status == Pending && spec.maxParallel > 0
        && Count(old(store.rows), q.snap.run.value, Working) >= spec.maxParallel
      ensures order.Some? && q.snap.status == Pending && q.vm < |store.rows| ==> store.rows[q.vm].status == Working
      ensures order.Some? ==> order.value == Order(q.snap.run.value, q.vm, PerVMRateKBps(spec))
      ensures store.rows == if order.Some? then GrantRows(old(store.rows), q) else old(store.rows)
    {
      var run := q.snap.run.value;
      if q.snap.status == Pending {
        if spec.maxParallel > 0 {
          var working := store.CountFillStatus(run, Working);
          if working >= spec.maxParallel {
            return None; // the cap is reached: the VM stays pending
          }
        }
        store.SetFillStatus(q.vm, Working);
      }
      return Some(Order(run, q.vm, PerVMRateKBps(spec)));
    }

    /** The progress handler: an unknown token changes nothing; a known VM's byte target is corrected first, and
        then its report is recorded, whatever run the VM's row belongs to by then. */
    method AgentProgress(vm: Option<nat>, now: int, written: int, total: int, done: bool, error: bool) returns (known: bool)
      requires vm.Some? ==> vm.value < |store.rows|
      modifies store`rows
      ensures known == vm.Some? && (vm.None? ==> store.rows == old(store.rows))
      ensures |store.rows| == old(|store.rows|)
      ensures vm.Some? ==> store.rows[vm.value].run == old(store.rows[vm.value].run)
      ensures vm.Some? ==> store.rows[vm.value].total == if total > 0 then total else old(store.rows[vm.value].total)
      ensures vm.Some? ==> (store.rows[vm.value].status == Done <==> done && !error)
      ensures vm.Some? ==> MovesOne(old(store.rows), store.rows, vm.value, written, store.rows[vm.value].status)
      ensures forall v: nat :: v < |store.rows| && vm != Some(v) ==> store.rows[v] == old(store.rows[v])
    {
      if vm.None? {
        return false;
      }
      ghost var before := store.rows;
      if total > 0 {
        store.SetFillTotal(vm.value, total);
        TotalIsNoTally(before, vm.value, total);
      }
      store.ReportFillProgress(vm.value, now, written, done, error);
      return true;
    }

    method CancelFill(run: nat)
      modifies this`active, store
      ensures !active
      ensures store.rows == CancelUnfinished(old(store.rows), run)
      ensures store.runs == if run < old(|store.runs|) then old(store.runs)[run := Cancelled] else old(store.runs)
    {
      store.CancelUnfinishedFills(run);
      var _ := store.FinishRun(run, Cancelled);
      active := false;
    }
  }

  /** A corrected byte target moves nothing in the tallies. */
  lemma TotalIsNoTally(rows: seq<Row>, vm: nat, total: int)
    requires vm < |rows|
    ensures forall run: nat, st: FillStatus ::
              Count(rows[vm := rows[vm].(total := total)], run, st) == Count(rows, run, st)
    ensures forall run: nat :: Written(rows[vm := rows[vm].(total := total)], run) == Written(rows, run)
  {
    var row := rows[vm].(total := total);
    forall run: nat, st: FillStatus ensures Count(rows[vm := row], run, st) == Count(rows, run, st) {
      CountUpdate(rows, vm, row, run, st);
    }
    forall run: nat ensures Written(rows[vm := row], run) == Written(rows, run) {
      WrittenUpdate(rows, vm, row, run);
    }
  }
}
