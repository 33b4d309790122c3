/** What the reconciler's records promise of the disks on the hypervisor
    (internal/orch/orchestrator.go:396-486, internal/hypervisor/fake/fake.go:62-119, internal/api/deployments.go:110-131). */
module ReconcileDisks {
  import opened Common
  import opened Names
  import opened Reconcile
  import opened ReconcileLaws
  import opened ReconcileSafety
  import opened ReconcileSchedules

  /** At least `count` disks, none smaller than `size`. */
  predicate Holds(vm: HvVM, count: int, size: int) {
    |vm.disks| >= count && forall i :: 0 <= i < |vm.disks| ==> vm.disks[i] >= size
  }

  predicate Fits(dep: Dep, vm: HvVM) {
    Holds(vm, dep.disks, dep.size)
  }

  /** Just the disks of the spec. */
  predicate Exactly(dep: Dep, vm: HvVM) {
    |vm.disks| == (if dep.disks < 0 then 0 else dep.disks) && forall i :: 0 <= i < |vm.disks| ==> vm.disks[i] == dep.size
  }

  /** Every record's VM has the disks recorded. */
  predicate Backed(w: World) {
    forall k :: 0 <= k < |w.recs| ==>
      w.recs[k].ref in w.vms && Holds(w.vms[w.recs[k].ref], w.recs[k].diskCount, w.recs[k].diskSize)
  }

  /** No record's disks are larger than the spec's: a deployment never shrinks. */
  predicate NotShrunk(dep: Dep, w: World) {
    forall k :: 0 <= k < |w.recs| ==> w.recs[k].diskSize <= dep.size
  }

  /** A VM created under a new reference has exactly the disks of the spec; one taken over keeps its own. */
  lemma CreatedDisks(dep: Dep, w: World, name: string)
    requires RefsInRange(w)
    ensures var m := CreateVM(dep, w, name);
      && m.ref in m.w.vms && w.vms.Keys <= m.w.vms.Keys <= w.vms.Keys + {m.ref}
      && (m.ref !in w.vms ==> Exactly(dep, m.w.vms[m.ref]))
      && (forall r :: r in w.vms ==> m.w.vms[r].disks == w.vms[r].disks && m.w.vms[r].name == w.vms[r].name)
  {
  }

  // ---- The creates ----

  /** VMs there before keep name and disks; new ones have exactly the disks of the spec. */
  predicate DisksKept(dep: Dep, w: World, v: World) {
    && w.vms.Keys <= v.vms.Keys
    && (forall r :: r in w.vms ==> v.vms[r].disks == w.vms[r].disks && v.vms[r].name == w.vms[r].name)
    && (forall r :: r in v.vms && r !in w.vms ==> Exactly(dep, v.vms[r]))
  }

  lemma CreateKeepsDisks(dep: Dep, w: World, v: World, name: string)
    requires RefsInRange(v) && DisksKept(dep, w, v)
    ensures DisksKept(dep, w, CreateVM(dep, v, name).w)
  {
    CreatedDisks(dep, v, name);
  }

  lemma DisksKeptStep(dep: Dep, w: World, s: Creating, e: Event)
    requires RefsInRange(s.w) && DisksKept(dep, w, s.w)
    ensures DisksKept(dep, w, Step(dep, s, e).w)
  {
    if e.Create? && e.i in s.tasks && s.tasks[e.i] == Waiting && e.outcome != Refuses {
      CreateKeepsDisks(dep, w, s.w, NameOf(dep, e.i));
      assert Step(dep, s, e).w == CreateVM(dep, s.w, NameOf(dep, e.i)).w;
    } else {
      assert Step(dep, s, e).w.vms == s.w.vms;
    }
  }

  lemma {:induction false} CreatesKeepDisks(dep: Dep, s: Creating, es: seq<Event>)
    requires CreatingInv(dep, s)
    ensures DisksKept(dep, s.w, PlayCreates(dep, s, es).w)
  {
    if es != [] {
      var init := es[..|es| - 1];
      CreatesKeepDisks(dep, s, init);
      CreatesKeep(dep, s, init);
      DisksKeptStep(dep, s.w, PlayCreates(dep, s, init), es[|es| - 1]);
    }
  }

  /** The records from `n` on are of missing targets. */
  predicate NewOnesMissing(dep: Dep, missing: set<nat>, w: World, n: nat) {
    forall k :: n <= k < |w.recs| ==> exists i :: i in missing && w.recs[k].name == NameOf(dep, i)
  }

  lemma NewOnesStep(dep: Dep, missing: set<nat>, s: Creating, e: Event, n: nat)
    requires s.tasks.Keys == missing && NewOnesMissing(dep, missing, s.w, n)
    ensures NewOnesMissing(dep, missing, Step(dep, s, e).w, n) && Step(dep, s, e).tasks.Keys == missing
  {
  }

  lemma {:induction false} NewRecordsAreMissing(dep: Dep, missing: set<nat>, s: Creating, es: seq<Event>, n: nat)
    requires s.tasks.Keys == missing && NewOnesMissing(dep, missing, s.w, n)
    ensures NewOnesMissing(dep, missing, PlayCreates(dep, s, es).w, n) && PlayCreates(dep, s, es).tasks.Keys == missing
  {
    if es != [] {
      NewRecordsAreMissing(dep, missing, s, es[..|es| - 1], n);
      NewOnesStep(dep, missing, PlayCreates(dep, s, es[..|es| - 1]), es[|es| - 1], n);
    }
  }

  /** Every VM that is there under a missing target's name has the disks of the spec. */
  predicate AllFit(dep: Dep, w: World) {
    forall r, i :: r in w.vms && i in Missing(dep, w) && w.vms[r].name == NameOf(dep, i) ==> Fits(dep, w.vms[r])
  }

  /** Everything the creates leave is known: `s` is where they end, from `w`. */
  ghost predicate CreatedFrom(dep: Dep, w: World, s: Creating) {
    && CreatingInv(dep, s) && DisksKept(dep, w, s.w)
    && |s.w.recs| >= |w.recs| && s.w.recs[..|w.recs|] == w.recs
    && NewOnesMissing(dep, Missing(dep, w), s.w, |w.recs|) && NewOnesShaped(dep, s.w, |w.recs|)
  }

  lemma CreatesAre(dep: Dep, w: World, es: seq<Event>)
    requires Inv(dep, w)
    ensures CreatedFrom(dep, w, PlayCreates(dep, StartCreating(dep, w), es))
  {
    var start := StartCreating(dep, w);
    StartIsFine(dep, w);
    CreatesKeep(dep, start, es);
    CreatesKeepDisks(dep, start, es);
    RecordsGrow(dep, start, es);
    NewRecordsAreMissing(dep, Missing(dep, w), start, es, |w.recs|);
    NewRecordsAreShaped(dep, start, es, |w.recs|);
  }

  lemma NewRecordIsBacked(dep: Dep, w: World, s: Creating, k: nat)
    requires CreatedFrom(dep, w, s) && AllFit(dep, w) && |w.recs| <= k < |s.w.recs|
    ensures s.w.recs[k].ref in s.w.vms && Holds(s.w.vms[s.w.recs[k].ref], s.w.recs[k].diskCount, s.w.recs[k].diskSize)
  {
    var r := s.w.recs[k].ref;
    var i :| i in Missing(dep, w) && s.w.recs[k].name == NameOf(dep, i);
    assert r in s.w.vms && s.w.vms[r].name == NameOf(dep, i);
    if r in w.vms {
      assert Fits(dep, w.vms[r]);
    }
  }

  lemma CreatesBack(dep: Dep, w: World, s: Creating)
    requires Inv(dep, w) && Backed(w) && NotShrunk(dep, w) && AllFit(dep, w) && CreatedFrom(dep, w, s)
    ensures Backed(s.w) && NotShrunk(dep, s.w)
  {
    forall k | 0 <= k < |s.w.recs|
      ensures s.w.recs[k].ref in s.w.vms && Holds(s.w.vms[s.w.recs[k].ref], s.w.recs[k].diskCount, s.w.recs[k].diskSize)
      ensures s.w.recs[k].diskSize <= dep.size
    {
      if k < |w.recs| {
        assert s.w.recs[k] == s.w.recs[..|w.recs|][k];
      } else {
        NewRecordIsBacked(dep, w, s, k);
        assert Shaped(dep, s.w.recs[k]);
      }
    }
  }

  // ---- Growth ----

  lemma AddedHold(vm: HvVM, count: int, size: int, add: int, least: int)
    requires Holds(vm, count, least) && add >= 0 && least <= size
    ensures Holds(vm.(disks := vm.disks + NewDisks(add, size)), count + add, least)
  {
    var all := vm.disks + NewDisks(add, size);
    assert |all| == |vm.disks| + add;
    forall i | 0 <= i < |all| ensures all[i] >= least {
      if i >= |vm.disks| {
        assert all[i] == NewDisks(add, size)[i - |vm.disks|];
      }
    }
  }

  lemma ExtendedHold(vm: HvVM, count: int, size: int)
    requires |vm.disks| >= count
    ensures Holds(vm.(disks := Extended(vm.disks, size)), count, size)
  {
  }

  lemma MoreHolds(vm: HvVM, count: int, size: int, less: int)
    requires Holds(vm, count, size) && less <= count
    ensures Holds(vm, less, size)
  {
  }

  /** The record's VM after its growth, whichever step failed, holds what the record then says. */
  lemma GrownHolds(dep: Dep, w: World, k: nat, f: GrowFault)
    requires k < |w.recs| && w.recs[k].ref in w.vms && w.recs[k].diskSize <= dep.size
    requires Holds(w.vms[w.recs[k].ref], w.recs[k].diskCount, w.recs[k].diskSize)
    ensures var v := GrowOne(dep, w, k, f).w;
      var rec := v.recs[k];
      rec.ref == w.recs[k].ref && rec.ref in v.vms && rec.diskSize <= dep.size && Holds(v.vms[rec.ref], rec.diskCount, rec.diskSize)
  {
    var rec, vm := w.recs[k], w.vms[w.recs[k].ref];
    var add := dep.disks - rec.diskCount;
    var more := if add > 0 then vm.(disks := vm.disks + NewDisks(add, dep.size)) else vm;
    if add > 0 {
      AddedHold(vm, rec.diskCount, dep.size, add, rec.diskSize);
      MoreHolds(more, dep.disks, rec.diskSize, rec.diskCount);
    } else {
      MoreHolds(vm, rec.diskCount, rec.diskSize, dep.disks);
    }
    ExtendedHold(more, dep.disks, dep.size);
    ExtendedHold(more, rec.diskCount, dep.size);
    MoreSize(more.(disks := Extended(more.disks, dep.size)), rec.diskCount, dep.size, rec.diskSize);
  }

  lemma MoreSize(vm: HvVM, count: int, size: int, less: int)
    requires Holds(vm, count, size) && less <= size
    ensures Holds(vm, count, less)
  {
  }

  lemma OtherRef(dep: Dep, w: World, j: nat, k: nat)
    requires Inv(dep, w) && j < |w.recs| && k < |w.recs| && j != k
    ensures w.recs[j].ref != w.recs[k].ref
  {
  }

  lemma GrowOneBacks(dep: Dep, w: World, k: nat, f: GrowFault)
    requires Inv(dep, w) && Backed(w) && NotShrunk(dep, w) && k < |w.recs|
    ensures var v := GrowOne(dep, w, k, f).w; Inv(dep, v) && Backed(v) && NotShrunk(dep, v)
  {
    var v := GrowOne(dep, w, k, f).w;
    GrowOneKeepsFleet(dep, w, k, f);
    SameFleetKeeps(dep, w, v);
    GrowOneFrame(dep, w, k, f);
    GrownHolds(dep, w, k, f);
    forall j | 0 <= j < |v.recs|
      ensures v.recs[j].ref in v.vms && Holds(v.vms[v.recs[j].ref], v.recs[j].diskCount, v.recs[j].diskSize)
      ensures v.recs[j].diskSize <= dep.size
    {
      if j != k {
        OtherRef(dep, w, j, k);
      }
    }
  }

  lemma {:induction false} GrowBacks(dep: Dep, w: World, n: nat, f: nat -> GrowFault)
    requires Inv(dep, w) && Backed(w) && NotShrunk(dep, w) && n <= |w.recs|
    ensures var v := Grow(dep, w, n, f).w; Inv(dep, v) && Backed(v) && NotShrunk(dep, v)
  {
    if n > 0 {
      GrowBacks(dep, w, n - 1, f);
      var front := Grow(dep, w, n - 1, f);
      if front.ok {
        GrowOneBacks(dep, front.w, n - 1, f(n - 1));
      }
    }
  }

  // ---- Passes ----

  lemma ClearBacks(dep: Dep, mode: Mode, luck: Luck, w: World)
    requires Inv(dep, w) && Backed(w)
    ensures Backed(AfterConflicts(dep, mode, luck, w).w)
  {
    ClearKeeps(dep, mode, luck, w);
    ClearTouches(dep, mode, luck, w);
  }

  /** Every pass, failed or cut short too, keeps every record's VM at the disks recorded or more, if the VMs it takes
      over under missing names have the disks of the spec. */
  lemma PassBacks(dep: Dep, mode: Mode, luck: Luck, w: World)
    requires Inv(dep, w) && Backed(w) && NotShrunk(dep, w)
    requires AfterConflicts(dep, mode, luck, w).ok ==> AllFit(dep, AfterConflicts(dep, mode, luck, w).w)
    ensures Backed(Pass(dep, mode, luck, w).w) && NotShrunk(dep, Pass(dep, mode, luck, w).w)
  {
    var clear := AfterConflicts(dep, mode, luck, w);
    ClearKeeps(dep, mode, luck, w);
    ClearBacks(dep, mode, luck, w);
    if clear.ok {
      var s := PlayCreates(dep, StartCreating(dep, clear.w), luck.events);
      CreatesAre(dep, clear.w, luck.events);
      CreatesBack(dep, clear.w, s);
      if Joined(s) && !s.failed {
        GrowBacks(dep, s.w, |w.recs|, luck.grow);
      }
    }
  }

  lemma TakenIsRecorded(dep: Dep, w: World, s: Creating, r: nat, i: nat) returns (k: nat)
    requires Inv(dep, w) && CreatedFrom(dep, w, s) && s.tasks.Keys == Missing(dep, w) && Joined(s) && !s.failed
    requires r in w.vms && i in Missing(dep, w) && w.vms[r].name == NameOf(dep, i)
    ensures |w.recs| <= k < |s.w.recs| && s.w.recs[k].ref == r && s.w.recs[k].name == NameOf(dep, i)
  {
    assert i in s.tasks;
    assert NameOf(dep, i) in Recorded(s.w);
    forall j | 0 <= j < |w.recs| ensures s.w.recs[j].name != NameOf(dep, i) {
      assert s.w.recs[..|w.recs|][j] == s.w.recs[j];
      assert w.recs[j].name in Recorded(w);
    }
    k :| 0 <= k < |s.w.recs| && s.w.recs[k].name == NameOf(dep, i);
    assert IsTarget(dep, NameOf(dep, i));
  }

  lemma NotOwned(dep: Dep, w: World, k: nat, n: nat)
    requires Inv(dep, w) && n <= k < |w.recs|
    ensures w.recs[k].ref !in Owned(w, n)
  {
    forall j | 0 <= j < n ensures w.recs[j].ref != w.recs[k].ref {
      OtherRef(dep, w, j, k);
    }
  }

  /** Exactly when a successful pass leaves every record backed: when every VM that was there under a missing name had
      the disks of the spec. */
  lemma SuccessBacksExactly(dep: Dep, mode: Mode, luck: Luck, w: World)
    requires Inv(dep, w) && Backed(w) && NotShrunk(dep, w) && Pass(dep, mode, luck, w).ok
    ensures Backed(Pass(dep, mode, luck, w).w) <==> AllFit(dep, AfterConflicts(dep, mode, luck, w).w)
  {
    var clear := AfterConflicts(dep, mode, luck, w).w;
    if AllFit(dep, clear) {
      PassBacks(dep, mode, luck, w);
    } else {
      var r, i :| r in clear.vms && i in Missing(dep, clear) && clear.vms[r].name == NameOf(dep, i) && !Fits(dep, clear.vms[r]);
      ClearKeeps(dep, mode, luck, w);
      MisfitStays(dep, clear, luck.events, |w.recs|, luck.grow, r, i);
    }
  }

  lemma MisfitStays(dep: Dep, w: World, es: seq<Event>, n: nat, f: nat -> GrowFault, r: nat, i: nat)
    requires Inv(dep, w) && n == |w.recs|
    requires r in w.vms && i in Missing(dep, w) && w.vms[r].name == NameOf(dep, i) && !Fits(dep, w.vms[r])
    requires var s := PlayCreates(dep, StartCreating(dep, w), es); Joined(s) && !s.failed
    ensures var s := PlayCreates(dep, StartCreating(dep, w), es);
      n <= |s.w.recs| && !Backed(Grow(dep, s.w, n, f).w)
  {
    var s := PlayCreates(dep, StartCreating(dep, w), es);
    CreatesAre(dep, w, es);
    StartIsFine(dep, w);
    CreatesKeep(dep, StartCreating(dep, w), es);
    var k := TakenIsRecorded(dep, w, s, r, i);
    var v := Grow(dep, s.w, n, f).w;
    GrowShapes(dep, s.w, n, f);
    GrowExtends(dep, s.w, n, f);
    NotOwned(dep, s.w, k, n);
    assert v.recs[k] == s.w.recs[k] && Shaped(dep, v.recs[k]);
    assert v.vms[r] == s.w.vms[r];
  }

  // ---- Histories that adopt nothing ----

  /** Our own VMs that no record points at, left by creates whose records failed, have the disks of the spec. */
  ghost predicate OwnFit(dep: Dep, w: World) {
    forall r :: r in w.vms && w.vms[r].owner == dep.id && IsTarget(dep, w.vms[r].name) && w.vms[r].name !in Recorded(w)
      ==> Fits(dep, w.vms[r])
  }

  /** Without adopting, what is left under missing names after the conflicts is our own. */
  lemma OwnFitIsEnough(dep: Dep, mode: Mode, luck: Luck, w: World)
    requires OwnFit(dep, w) && mode != Adopt && AfterConflicts(dep, mode, luck, w).ok
    ensures AllFit(dep, AfterConflicts(dep, mode, luck, w).w)
  {
    var v := AfterConflicts(dep, mode, luck, w).w;
    ClearTouches(dep, mode, luck, w);
    assert v.recs == w.recs && Recorded(v) == Recorded(w);
    forall r, i | r in v.vms && i in Missing(dep, v) && v.vms[r].name == NameOf(dep, i) ensures Fits(dep, v.vms[r]) {
      assert IsTarget(dep, NameOf(dep, i));
      assert NameOf(dep, i) in Targets(dep);
      assert r !in Conflicts(dep, w);
    }
  }

  lemma OwnFitAfterClear(dep: Dep, mode: Mode, luck: Luck, w: World)
    requires OwnFit(dep, w)
    ensures OwnFit(dep, AfterConflicts(dep, mode, luck, w).w)
  {
    var v := AfterConflicts(dep, mode, luck, w).w;
    ClearTouches(dep, mode, luck, w);
    assert v.recs == w.recs && Recorded(v) == Recorded(w);
  }

  lemma OwnFitAfterCreates(dep: Dep, w: World, es: seq<Event>)
    requires Inv(dep, w) && OwnFit(dep, w) && AllFit(dep, w)
    ensures OwnFit(dep, PlayCreates(dep, StartCreating(dep, w), es).w)
  {
    var v := PlayCreates(dep, StartCreating(dep, w), es).w;
    CreatesAre(dep, w, es);
    StartIsFine(dep, w);
    CreatesExtend(dep, StartCreating(dep, w), es);
    EarlierRecorded(w, v);
    forall r | r in v.vms && v.vms[r].owner == dep.id && IsTarget(dep, v.vms[r].name) && v.vms[r].name !in Recorded(v)
      ensures Fits(dep, v.vms[r])
    {
      if r in w.vms && w.vms[r].owner != dep.id {
        assert r !in Foreign(dep, w);
        MissingTarget(dep, w, r);
      }
    }
  }

  lemma EarlierRecorded(w: World, v: World)
    requires |v.recs| >= |w.recs| && v.recs[..|w.recs|] == w.recs
    ensures Recorded(w) <= Recorded(v)
  {
    forall k | 0 <= k < |w.recs| ensures w.recs[k].name in Recorded(v) {
      assert v.recs[k] == v.recs[..|w.recs|][k];
    }
  }

  lemma MissingTarget(dep: Dep, w: World, r: nat)
    requires r in w.vms && w.vms[r].name in Targets(dep) && w.vms[r].name !in Recorded(w) && AllFit(dep, w)
    ensures Fits(dep, w.vms[r])
  {
    var i: nat :| 1 <= i <= dep.count && w.vms[r].name == NameOf(dep, i);
    assert i in Missing(dep, w);
  }

  lemma OwnFitAfterGrowth(dep: Dep, w: World, n: nat, f: nat -> GrowFault)
    requires Inv(dep, w) && OwnFit(dep, w) && n <= |w.recs|
    ensures OwnFit(dep, Grow(dep, w, n, f).w)
  {
    var v := Grow(dep, w, n, f).w;
    GrowKeepsFleet(dep, w, n, f);
    SameFleetKeeps(dep, w, v);
    GrowExtends(dep, w, n, f);
    forall r | r in Owned(w, n) ensures r in w.vms && w.vms[r].name in Recorded(w) {
      var k :| 0 <= k < n && w.recs[k].ref == r;
      assert w.recs[k].name in Recorded(w);
    }
  }

  lemma PassKeepsOwnFit(dep: Dep, mode: Mode, luck: Luck, w: World)
    requires Inv(dep, w) && OwnFit(dep, w) && mode != Adopt
    ensures OwnFit(dep, Pass(dep, mode, luck, w).w)
  {
    var clear := AfterConflicts(dep, mode, luck, w);
    OwnFitAfterClear(dep, mode, luck, w);
    ClearKeeps(dep, mode, luck, w);
    if clear.ok {
      OwnFitIsEnough(dep, mode, luck, w);
      OwnFitAfterCreates(dep, clear.w, luck.events);
      CreatesAre(dep, clear.w, luck.events);
      var s := PlayCreates(dep, StartCreating(dep, clear.w), luck.events);
      if Joined(s) && !s.failed {
        OwnFitAfterGrowth(dep, s.w, |w.recs|, luck.grow);
      }
    }
  }

  /** Attempts that adopt nothing, for one deployment of one shape; its number of VMs may change. */
  predicate NothingAdopted(dep: Dep, h: seq<Attempt>) {
    forall k :: 0 <= k < |h| ==> h[k].mode != Adopt && h[k].dep == dep.(count := h[k].dep.count)
  }

  lemma CountIsFree(dep: Dep, other: Dep, w: World)
    requires other == dep.(count := other.count) && Inv(dep, w) && OwnFit(dep, w)
    ensures Inv(other, w) && OwnFit(other, w)
  {
    InvIgnoresSize(dep, other, w);
    forall r | r in w.vms && w.vms[r].owner == other.id && IsTarget(other, w.vms[r].name) && w.vms[r].name !in Recorded(w)
      ensures Fits(other, w.vms[r])
    {
      var i: nat :| i >= 1 && w.vms[r].name == NameOf(other, i);
      assert w.vms[r].name == NameOf(dep, i);
    }
  }

  /** Over every history of passes that adopts nothing, whatever failed in them: each record's VM has at least the
      disks recorded, none smaller than recorded. */
  lemma {:induction false} HistoryBacks(dep: Dep, w: World, h: seq<Attempt>)
    requires Inv(dep, w) && Backed(w) && NotShrunk(dep, w) && OwnFit(dep, w) && NothingAdopted(dep, h)
    ensures var v := Passes(w, h); Inv(dep, v) && Backed(v) && NotShrunk(dep, v) && OwnFit(dep, v)
  {
    if h != [] {
      var n := |h| - 1;
      var a, v := h[n], Passes(w, h[..n]);
      HistoryBacks(dep, w, h[..n]);
      CountIsFree(dep, a.dep, v);
      PassKeeps(a.dep, a.mode, a.luck, v);
      PassKeepsOwnFit(a.dep, a.mode, a.luck, v);
      if AfterConflicts(a.dep, a.mode, a.luck, v).ok {
        OwnFitIsEnough(a.dep, a.mode, a.luck, v);
      }
      PassBacks(a.dep, a.mode, a.luck, v);
      CountIsFree(a.dep, dep, Passes(w, h));
    }
  }

  /** When a pass of such a history succeeds, every recorded VM has at least the spec's disks of at least the spec's size. */
  lemma SuccessHasDisks(dep: Dep, w: World, h: seq<Attempt>, last: Attempt)
    requires Inv(dep, w) && Backed(w) && NotShrunk(dep, w) && OwnFit(dep, w) && NothingAdopted(dep, h + [last])
    requires Pass(last.dep, last.mode, last.luck, Passes(w, h)).ok
    ensures var v := Pass(last.dep, last.mode, last.luck, Passes(w, h)).w;
      forall k :: 0 <= k < |v.recs| ==> v.recs[k].ref in v.vms && Fits(dep, v.vms[v.recs[k].ref])
  {
    HistoryBacks(dep, w, h + [last]);
    assert (h + [last])[..|h|] == h;
    assert (h + [last])[|h|] == last;
    assert forall k :: 0 <= k < |h| ==> h[k] == (h + [last])[k];
    HistoryBacks(dep, w, h);
    CountIsFree(dep, last.dep, Passes(w, h));
    SuccessConverges(last.dep, last.mode, last.luck, Passes(w, h));
  }

  /** The deployment as the last attempt knew it. */
  function LastDep(dep: Dep, h: seq<Attempt>): Dep {
    if h == [] then dep else h[|h| - 1].dep
  }

  /** Attempts for one deployment that only grows, of any mode, each finding the disks of its spec on the VMs it takes over. */
  predicate TakesOverFit(dep: Dep, w: World, h: seq<Attempt>) {
    h == [] ||
    var init, a := h[..|h| - 1], h[|h| - 1];
    var clear := AfterConflicts(a.dep, a.mode, a.luck, Passes(w, init));
    && TakesOverFit(dep, w, init) && (clear.ok ==> AllFit(a.dep, clear.w))
    && a.dep.prefix == LastDep(dep, init).prefix && a.dep.pad == LastDep(dep, init).pad && a.dep.size >= LastDep(dep, init).size
  }

  /** Adoptions and growing specs included: as long as every VM taken over has the disks of the spec, each record's VM has
      at least the disks recorded after any history. */
  lemma {:induction false} GrowingHistoryBacks(dep: Dep, w: World, h: seq<Attempt>)
    requires Inv(dep, w) && Backed(w) && NotShrunk(dep, w) && TakesOverFit(dep, w, h)
    ensures var v := Passes(w, h); Inv(LastDep(dep, h), v) && Backed(v) && NotShrunk(LastDep(dep, h), v)
  {
    if h != [] {
      var init, a := h[..|h| - 1], h[|h| - 1];
      GrowingHistoryBacks(dep, w, init);
      InvIgnoresSize(LastDep(dep, init), a.dep, Passes(w, init));
      PassBacks(a.dep, a.mode, a.luck, Passes(w, init));
      PassKeeps(a.dep, a.mode, a.luck, Passes(w, init));
    }
  }

  // ---- Records that promise too much ----

  /** An adopted VM without disks is recorded with those of the spec. */
  lemma AdoptionOverstates(dep: Dep, grow: nat -> GrowFault)
    requires dep.count == 1 && dep.disks > 0 && dep.id != "stranger" && forall k :: grow(k) == NoGrowFault
    ensures var luck := Luck(None, [Create(1, Succeeds)] + [Settle(1, true)], grow);
      Pass(dep, Adopt, luck, Stranded(dep)).ok && !Backed(Pass(dep, Adopt, luck, Stranded(dep)).w)
  {
    var w, luck := Stranded(dep), Luck(None, [Create(1, Succeeds)] + [Settle(1, true)], grow);
    AdoptionCanStrand(dep, luck);
    AdoptionWouldSucceed(dep, grow);
    SuccessBacksExactly(dep, Adopt, luck, w);
    assert 1 in Missing(dep, w) && !Fits(dep, w.vms[1]);
  }

  /** The deployment's one VM, created with some disks and not recorded. */
  function Leftover(dep: Dep, disks: int, size: int): World {
    World(map[1 := HvVM(NameOf(dep, 1), dep.id, NewDisks(disks, size))], 1, 1, [])
  }

  lemma OneMissing(dep: Dep, w: World)
    requires dep.count == 1 && w.recs == []
    ensures Missing(dep, w) == {1} && StartCreating(dep, w).tasks == map[1 := Waiting]
  {
    assert 1 in Missing(dep, w);
  }

  /** A pass whose create succeeds and whose record fails leaves such a VM. */
  lemma FailedRecordLeaves(dep: Dep, grow: nat -> GrowFault)
    requires dep.count == 1
    ensures var luck := Luck(None, [Create(1, Succeeds)] + [Settle(1, false)], grow);
      Pass(dep, Abort, luck, World(map[], 0, 0, [])) == Grown(Leftover(dep, dep.disks, dep.size), false)
  {
    var w := World(map[], 0, 0, []);
    assert Conflicts(dep, w) == {};
    OneMissing(dep, w);
    var s := StartCreating(dep, w);
    PlaySnoc(dep, s, [], Create(1, Succeeds));
    assert [] + [Create(1, Succeeds)] == [Create(1, Succeeds)];
    PlaySnoc(dep, s, [Create(1, Succeeds)], Settle(1, false));
    assert CreateVM(dep, w, NameOf(dep, 1)) == Made(Leftover(dep, dep.disks, dep.size), 1);
  }

  lemma LeftoverIsFine(dep: Dep, disks: int, size: int)
    requires dep.count == 1
    ensures var w := Leftover(dep, disks, size); Inv(dep, w) && Conflicts(dep, w) == {} && Backed(w) && NotShrunk(dep, w)
  {
  }

  lemma LeftoverIsTaken(dep: Dep, disks: int, size: int, grow: nat -> GrowFault)
    requires dep.count == 1 && forall k :: grow(k) == NoGrowFault
    ensures Pass(dep, Abort, Luck(None, [Create(1, Succeeds)] + [Settle(1, true)], grow), Leftover(dep, disks, size)).ok
  {
    var w, luck := Leftover(dep, disks, size), Luck(None, [Create(1, Succeeds)] + [Settle(1, true)], grow);
    LeftoverIsFine(dep, disks, size);
    OneMissing(dep, w);
    var s := StartCreating(dep, w);
    PlaySnoc(dep, s, [], Create(1, Succeeds));
    assert [] + [Create(1, Succeeds)] == [Create(1, Succeeds)];
    PlaySnoc(dep, s, [Create(1, Succeeds)], Settle(1, true));
    GoodPassSucceeds(dep, Abort, luck, w);
  }

  /** If the spec has grown since, the next pass takes that VM over as it is and records the disks of the new spec. */
  lemma GrownSpecOverstates(dep: Dep, disks: int, size: int, grow: nat -> GrowFault)
    requires dep.count == 1 && 0 < disks < dep.disks && forall k :: grow(k) == NoGrowFault
    ensures var luck := Luck(None, [Create(1, Succeeds)] + [Settle(1, true)], grow);
      var g := Pass(dep, Abort, luck, Leftover(dep, disks, size));
      g.ok && !Backed(g.w)
  {
    var w, luck := Leftover(dep, disks, size), Luck(None, [Create(1, Succeeds)] + [Settle(1, true)], grow);
    LeftoverIsFine(dep, disks, size);
    LeftoverIsTaken(dep, disks, size, grow);
    OneMissing(dep, w);
    SuccessBacksExactly(dep, Abort, luck, w);
    LeftoverMisfits(dep, disks, size, luck);
  }

  lemma LeftoverMisfits(dep: Dep, disks: int, size: int, luck: Luck)
    requires dep.count == 1 && 0 < disks < dep.disks
    ensures !AllFit(dep, AfterConflicts(dep, Abort, luck, Leftover(dep, disks, size)).w)
  {
    var w := Leftover(dep, disks, size);
    LeftoverIsFine(dep, disks, size);
    OneMissing(dep, w);
    assert 1 in w.vms && 1 in Missing(dep, w) && w.vms[1].name == NameOf(dep, 1) && !Fits(dep, w.vms[1]);
  }
}
