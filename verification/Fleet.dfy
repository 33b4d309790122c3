/** The reconciler's steps on a driver and the deployment's records
    (internal/orch/orchestrator.go:359-545, internal/hypervisor/fake/fake.go:62-149, internal/store/managed_vms.go:19-45). */
module Fleet {
  import opened Common
  import opened Names
  import opened Reconcile
  import opened ReconcileDisks

  class Driver {
    var vms: map<nat, HvVM>
    var next: nat
    var calls: nat

    constructor ()
      ensures vms == map[] && next == 0 && calls == 0
    {
      vms, next, calls := map[], 0, 0;
    }

    method Find(name: string) returns (r: Option<nat>)
      ensures r == FirstNamed(vms, name, next + 1)
    {
      r := None;
      for n := 0 to next + 1
        invariant r == FirstNamed(vms, name, n)
      {
        if r.None? && n in vms && vms[n].name == name {
          r := Some(n);
        }
      }
    }

    /** The VMs of the given names. */
    method FindVMs(names: set<string>) returns (found: set<nat>)
      ensures found == set r | r in vms && vms[r].name in names
    {
      found := {};
      var rest := vms.Keys;
      while rest != {}
        invariant rest <= vms.Keys
        invariant found == set r | r in vms && r !in rest && vms[r].name in names
        decreases |rest|
      {
        var r :| r in rest;
        rest := rest - {r};
        if vms[r].name in names {
          found := found + {r};
        }
      }
    }
  }

  class Records {
    var recs: seq<Rec>

    constructor ()
      ensures recs == []
    {
      recs := [];
    }

    method AddManagedVM(name: string, ref: nat, diskCount: int, diskSize: int)
      modifies this
      ensures recs == old(recs) + [Rec(name, ref, diskCount, diskSize)]
    {
      recs := recs + [Rec(name, ref, diskCount, diskSize)];
    }

    method UpdateManagedVMDisks(k: nat, diskCount: int, diskSize: int)
      requires k < |recs|
      modifies this
      ensures recs == old(recs)[k := old(recs[k]).(diskCount := diskCount, diskSize := diskSize)]
    {
      recs := recs[k := recs[k].(diskCount := diskCount, diskSize := diskSize)];
    }

    method Names() returns (names: set<string>)
      ensures forall w: World :: w.recs == recs ==> names == Recorded(w)
    {
      names := {};
      for k := 0 to |recs|
        invariant names == set j | 0 <= j < k :: recs[j].name
      {
        names := names + {recs[k].name};
      }
    }
  }

  /** What one job sees: the hypervisor driver, the deployment's records, and its statistics. */
  class Reconciler {
    const driver: Driver
    const store: Records
    var vmsCreated: nat

    constructor (driver: Driver, store: Records)
      ensures this.driver == driver && this.store == store && vmsCreated == 0
    {
      this.driver, this.store, vmsCreated := driver, store, 0;
    }

    function Now(): World
      reads driver, store
    {
      World(driver.vms, driver.next, driver.calls, store.recs)
    }

    method CreateVM(dep: Dep, name: string) returns (ref: nat)
      modifies driver
      ensures Made(Now(), ref) == Reconcile.CreateVM(dep, old(Now()), name)
      ensures ref in driver.vms && (ref !in old(driver.vms) ==> Exactly(dep, driver.vms[ref]))
    {
      driver.calls := driver.calls + 1;
      var found := driver.Find(name);
      if found.Some? {
        ref := found.value;
        driver.vms := driver.vms[ref := driver.vms[ref].(owner := dep.id)];
      } else {
        driver.next := driver.next + 1;
        ref := driver.next;
        driver.vms := driver.vms[ref := HvVM(name, dep.id, NewDisks(dep.disks, dep.size))];
      }
    }

    method TargetNames(dep: Dep) returns (names: set<string>)
      ensures names == Targets(dep)
    {
      names := {};
      var i := 1;
      while i <= dep.count
        invariant i == 1 || 1 <= i <= dep.count + 1
        invariant names == set j: nat | 1 <= j < i :: NameOf(dep, j)
      {
        names := names + {NameOf(dep, i)};
        i := i + 1;
      }
    }

    method FindConflicts(dep: Dep) returns (out: set<nat>)
      ensures out == Conflicts(dep, Now())
    {
      var recorded := store.Names();
      var targets := TargetNames(dep);
      var found := driver.FindVMs(targets - recorded);
      out := set r | r in found && driver.vms[r].owner != dep.id;
      assert recorded == Recorded(Now());
    }

    /** Deletes the conflicts one by one; when deletion fails, exactly those of `before` are gone. */
    method CleanConflicts(conflicts: set<nat>, before: Option<set<nat>>) returns (ok: bool)
      modifies driver
      ensures ok == before.None?
      ensures Now() == DeleteVMs(old(Now()), if before.Some? then before.value * conflicts else conflicts)
    {
      var doomed := if before.Some? then before.value * conflicts else conflicts;
      ghost var was := Now();
      var rest := doomed;
      NoneDeleted(was, doomed);
      while rest != {}
        invariant rest <= doomed && Now() == DeleteVMs(was, doomed - rest)
        decreases |rest|
      {
        var r :| r in rest;
        OneMoreDeleted(was, doomed, rest, r);
        driver.vms := driver.vms - {r};
        driver.calls := driver.calls + 1;
        rest := rest - {r};
      }
      ok := before.None?;
    }

    method MissingIndices(dep: Dep) returns (missing: set<nat>)
      ensures missing == Missing(dep, Now())
    {
      var recorded := store.Names();
      assert recorded == Recorded(Now());
      missing := {};
      var i := 1;
      while i <= dep.count
        invariant i == 1 || 1 <= i <= dep.count + 1
        invariant missing == set j: nat | 1 <= j < i && NameOf(dep, j) !in recorded
      {
        if NameOf(dep, i) !in recorded {
          missing := missing + {i};
        }
        i := i + 1;
      }
    }

    /** One goroutine's step: its driver call, or its bookkeeping under the mutex. */
    method CreateStep(dep: Dep, e: Event, tasks: map<nat, Task>, firstErr: bool)
      returns (tasks': map<nat, Task>, firstErr': bool)
      modifies driver, store, this`vmsCreated
      ensures Creating(Now(), tasks', firstErr', vmsCreated)
        == Step(dep, Creating(old(Now()), tasks, firstErr, old(vmsCreated)), e)
    {
      tasks', firstErr' := tasks, firstErr;
      if e.i !in tasks {
        return;
      }
      match e {
        case Create(i, outcome) =>
          if tasks[i] == Waiting {
            if outcome == Refuses {
              driver.calls := driver.calls + 1;
              tasks' := tasks[i := Refused];
            } else {
              var ref := CreateVM(dep, NameOf(dep, i));
              tasks' := tasks[i := if outcome == Succeeds then Created(ref) else Refused];
            }
          }
        case Settle(i, recorded) =>
          if tasks[i] == Refused {
            tasks', firstErr' := tasks[i := Settled], true;
          } else if tasks[i].Created? {
            tasks' := tasks[i := Settled];
            if recorded {
              store.AddManagedVM(NameOf(dep, i), tasks[i].ref, dep.disks, dep.size);
            }
            if !recorded && !firstErr {
              firstErr' := true;
            } else {
              vmsCreated := vmsCreated + 1;
            }
          }
      }
    }

    /** The creates in the order they happen; true when every goroutine returned without an error. */
    method CreateMissing(dep: Dep, es: seq<Event>) returns (ok: bool)
      modifies driver, store, this`vmsCreated
      ensures var s := PlayCreates(dep, StartCreating(dep, old(Now())).(created := old(vmsCreated)), es);
        Now() == s.w && vmsCreated == s.created && ok == (Joined(s) && !s.failed)
    {
      ghost var start := StartCreating(dep, Now()).(created := vmsCreated);
      var missing := MissingIndices(dep);
      var tasks: map<nat, Task> := map i | i in missing :: Waiting;
      var firstErr := false;
      for k := 0 to |es|
        invariant Creating(Now(), tasks, firstErr, vmsCreated) == PlayCreates(dep, start, es[..k])
      {
        assert es[..k + 1][..k] == es[..k];
        tasks, firstErr := CreateStep(dep, es[k], tasks, firstErr);
      }
      assert es[..|es|] == es;
      ok := !firstErr && forall i :: i in tasks ==> tasks[i] == Settled;
    }

    method GrowVM(dep: Dep, k: nat, f: GrowFault) returns (ok: bool)
      requires k < |store.recs|
      modifies driver, store
      ensures Grown(Now(), ok) == GrowOne(dep, old(Now()), k, f)
    {
      var rec := store.recs[k];
      var add := dep.disks - rec.diskCount;
      if add > 0 {
        driver.calls := driver.calls + 1;
        if f == AddFails || rec.ref !in driver.vms {
          return false;
        }
        var vm := driver.vms[rec.ref];
        driver.vms := driver.vms[rec.ref := vm.(disks := vm.disks + NewDisks(add, dep.size))];
      }
      if rec.diskSize < dep.size {
        driver.calls := driver.calls + 1;
        if f == ExtendFails || rec.ref !in driver.vms {
          return false;
        }
        var vm := driver.vms[rec.ref];
        driver.vms := driver.vms[rec.ref := vm.(disks := Extended(vm.disks, dep.size))];
      }
      if rec.diskCount != dep.disks || rec.diskSize != dep.size {
        if f == UpdateFails {
          return false;
        }
        store.UpdateManagedVMDisks(k, dep.disks, dep.size);
      }
      return true;
    }

    method GrowAll(dep: Dep, n: nat, f: nat -> GrowFault) returns (ok: bool)
      requires n <= |store.recs|
      modifies driver, store
      ensures Grown(Now(), ok) == Grow(dep, old(Now()), n, f)
    {
      ghost var was := Now();
      for k := 0 to n
        invariant |store.recs| == |was.recs|
        invariant Grown(Now(), true) == Grow(dep, was, k, f)
      {
        GrowNext(dep, was, k, n, f);
        ok := GrowVM(dep, k, f(k));
        if !ok {
          return false;
        }
      }
      return true;
    }

    method ReconcileCore(dep: Dep, mode: Mode, luck: Luck) returns (ok: bool)
      modifies driver, store, this`vmsCreated
      ensures Grown(Now(), ok) == Pass(dep, mode, luck, old(Now()))
    {
      var actual := |store.recs|;
      var conflicts := FindConflicts(dep);
      if conflicts != {} {
        if mode == Clean {
          ok := CleanConflicts(conflicts, luck.cleaned);
          if !ok {
            return false;
          }
        } else if mode == Abort {
          return false;
        }
      }
      ghost var clear := Now();
      ghost var start := StartCreating(dep, clear).(created := vmsCreated);
      CountIsIdle(dep, StartCreating(dep, clear), vmsCreated, luck.events);
      RecordsGrow(dep, StartCreating(dep, clear), luck.events);
      ok := CreateMissing(dep, luck.events);
      if !ok {
        return false;
      }
      ok := GrowAll(dep, actual, luck.grow);
    }
  }

  lemma NoneDeleted(w: World, doomed: set<nat>)
    ensures DeleteVMs(w, doomed - doomed) == w && doomed - {} == doomed
  {
    assert doomed - doomed == {};
  }

  lemma OneMoreDeleted(w: World, doomed: set<nat>, rest: set<nat>, r: nat)
    requires r in rest && rest <= doomed
    ensures var v := DeleteVMs(w, doomed - rest);
      DeleteVMs(w, doomed - (rest - {r})) == v.(vms := v.vms - {r}, calls := v.calls + 1)
  {
    assert doomed - (rest - {r}) == doomed - rest + {r};
    assert w.vms - (doomed - rest) - {r} == w.vms - (doomed - (rest - {r}));
  }

  lemma {:induction false} GrowStops(dep: Dep, w: World, k: nat, n: nat, f: nat -> GrowFault)
    requires k <= n <= |w.recs| && !Grow(dep, w, k, f).ok
    ensures Grow(dep, w, n, f) == Grow(dep, w, k, f)
    decreases n
  {
    if k < n {
      GrowStops(dep, w, k, n - 1, f);
    }
  }

  lemma GrowNext(dep: Dep, w: World, k: nat, n: nat, f: nat -> GrowFault)
    requires k < n <= |w.recs| && Grow(dep, w, k, f).ok
    ensures Grow(dep, w, k + 1, f) == GrowOne(dep, Grow(dep, w, k, f).w, k, f(k))
    ensures !Grow(dep, w, k + 1, f).ok ==> Grow(dep, w, n, f) == Grow(dep, w, k + 1, f)
  {
    if !Grow(dep, w, k + 1, f).ok {
      GrowStops(dep, w, k + 1, n, f);
    }
  }

  /** The running count does not steer the creates. */
  lemma {:induction false} CountIsIdle(dep: Dep, s: Creating, c: nat, es: seq<Event>)
    ensures var a, b := PlayCreates(dep, s, es), PlayCreates(dep, s.(created := c), es);
      b == a.(created := b.created)
  {
    if es != [] {
      CountIsIdle(dep, s, c, es[..|es| - 1]);
    }
  }
}
