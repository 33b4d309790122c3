/** The scheduler's loop over the schedule table (internal/sched/sched.go:79-172, internal/store/schedules.go:46-97). */
module SchedulerTable {
  import opened Common
  import opened Calendar
  import opened Scheduler
  import opened ScheduleLife

  /** A tick whose outcome is stored, or lost. */
  function Ticked(c: Cell, now: int, r: Reply, stored: bool): Cell {
    if stored then TickCell(c, now, r) else LostCell(c, now, r)
  }

  /** A row that changes was due; it goes on to its first fire time after now, or none if its deployment is gone. */
  ghost predicate MovedOn(before: Schedule, after: Schedule, now: int, r: Reply) {
    && Due(before, now) && after.kind == before.kind
    && (Readable(before.kind) ==> if Gone(r) then after.next == None else Earliest(before.kind, now, after.next))
    && (after.enabled <==> after.next.Some?)
  }

  lemma TickMovesOn(c: Cell, now: int, r: Reply, stored: bool)
    ensures Ticked(c, now, r, stored).sched != c.sched ==> MovedOn(c.sched, Ticked(c, now, r, stored).sched, now, r)
  {
    if Readable(c.sched.kind) && Due(c.sched, now) && !Held(c, now, r) {
      AnswerIsRecorded(c, now, r);
    }
  }

  /** The schedule table and the scheduler's in-memory busy marks. */
  class SchedulerLoop {
    var table: map<nat, Schedule>
    var busySince: map<nat, int>

    constructor (table: map<nat, Schedule>)
      ensures this.table == table && busySince == map[]
    {
      this.table, busySince := table, map[];
    }

    function CellOf(id: nat): Cell
      requires id in table
      reads this
    {
      Cell(table[id], if id in busySince then Some(busySince[id]) else None)
    }

    /** The due schedules, each once. The store orders them by fire time; the order has no effect. */
    method ListDue(now: int) returns (due: seq<nat>)
      ensures forall id :: id in due <==> id in table && Due(table[id], now)
      ensures forall i, j :: 0 <= i < j < |due| ==> due[i] != due[j]
    {
      due := [];
      var rest := table.Keys;
      while rest != {}
        invariant rest <= table.Keys
        invariant forall id :: id in due <==> id in table && id !in rest && Due(table[id], now)
        invariant forall i, j :: 0 <= i < j < |due| ==> due[i] != due[j]
        decreases rest
      {
        var id :| id in rest;
        rest := rest - {id};
        if Due(table[id], now) {
          due := due + [id];
        }
      }
    }

    /** Fires every due schedule once; the others are left alone. */
    method Tick(now: int, replies: nat -> Reply, stored: nat -> bool)
      modifies this
      ensures table.Keys == old(table.Keys)
      ensures forall id :: id in table ==> CellOf(id) == Ticked(old(CellOf(id)), now, replies(id), stored(id))
      ensures forall id :: id in table && table[id] != old(table[id]) ==> MovedOn(old(table[id]), table[id], now, replies(id))
    {
      var due := ListDue(now);
      for i := 0 to |due|
        invariant table.Keys == old(table.Keys)
        invariant forall id :: id in table ==>
                    (CellOf(id) == if id in due[..i] then Ticked(old(CellOf(id)), now, replies(id), stored(id)) else old(CellOf(id)))
      {
        assert due[i] in due && due[i] !in due[..i];
        TakeOneMore(due, i);
        Fire(due[i], now, replies(due[i]), stored(due[i]));
      }
      assert due[..|due|] == due;
      forall id | id in table && table[id] != old(table[id]) ensures MovedOn(old(table[id]), table[id], now, replies(id)) {
        TickMovesOn(old(CellOf(id)), now, replies(id), stored(id));
      }
    }

    /** `stored` says whether the write of the outcome, if there is one, succeeds. */
    method Fire(id: nat, now: int, reply: Reply, stored: bool)
      requires id in table && Due(table[id], now)
      modifies this
      ensures table.Keys == old(table.Keys)
      ensures CellOf(id) == Ticked(old(CellOf(id)), now, reply, stored)
      ensures table[id] != old(table[id]) ==> MovedOn(old(table[id]), table[id], now, reply)
      ensures forall o :: o in table && o != id ==> CellOf(o) == old(CellOf(o))
    {
      match reply {
        case Missing => Advance(id, now, ErrorMissing, None, false, stored);
        case Deleted => Advance(id, now, SkippedDeleted, None, false, stored);
        case Started(run) => Advance(id, now, Fired, Some(run), true, stored);
        case Busy =>
          if id !in busySince {
            busySince := busySince[id := now];
            return; // the first busy tick: the row is left for the next one
          }
          if now - busySince[id] < BUSY_GRACE {
            return;
          }
          Advance(id, now, SkippedBusy, None, true, stored);
        case Refused => Advance(id, now, ErrorStart, None, true, stored);
      }
      TickMovesOn(old(CellOf(id)), now, reply, stored);
    }

    /** The mark goes in any case; a failed write leaves the row. */
    method Advance(id: nat, now: int, result: FireResult, run: Option<nat>, recur: bool, stored: bool)
      requires id in table
      modifies this
      ensures table.Keys == old(table.Keys)
      ensures CellOf(id) == Cell(if stored then Advanced(old(table[id]), now, result, run, recur) else old(table[id]), None)
      ensures forall o :: o in table && o != id ==> CellOf(o) == old(CellOf(o))
    {
      busySince := busySince - {id};
      var next := None;
      if recur {
        next := ComputeNext(table[id].kind, now);
      }
      if stored {
        table := table[id := table[id].(next := next, enabled := next.Some?, lastFired := Some(now),
                                        lastRun := run, lastResult := result)];
      }
    }
  }
}
