/** One reconcile pass as a transition: conflicts, parallel creates, growth
    (internal/orch/orchestrator.go:359-545, internal/hypervisor/fake/fake.go:62-119). */
module Reconcile {
  import opened Common
  import opened Names

  datatype HvVM = HvVM(name: string, owner: string, disks: seq<int>)
  datatype Rec = Rec(name: string, ref: nat, diskCount: int, diskSize: int)

  /** The deployment's id and the part of its spec the reconciler uses. */
  datatype Dep = Dep(id: string, prefix: string, pad: nat, count: int, disks: int, size: int)

  /** The hypervisor and this deployment's records; `calls` counts the driver calls that may change the hypervisor. */
  datatype World = World(vms: map<nat, HvVM>, next: nat, calls: nat, recs: seq<Rec>)

  function NameOf(dep: Dep, i: nat): string {
    VMName(dep.prefix, dep.pad, i)
  }

  function Targets(dep: Dep): set<string> {
    set i: nat | 1 <= i <= dep.count :: NameOf(dep, i)
  }

  function Recorded(w: World): set<string> {
    set k | 0 <= k < |w.recs| :: w.recs[k].name
  }

  // ---- The driver ----

  /** The first VM of that name among the refs below `n`. */
  function FirstNamed(vms: map<nat, HvVM>, name: string, n: nat): (r: Option<nat>)
    ensures r.Some? ==> r.value in vms && vms[r.value].name == name && r.value < n
    ensures r.None? ==> forall q :: q in vms && q < n ==> vms[q].name != name
  {
    if n == 0 then None
    else
      var earlier := FirstNamed(vms, name, n - 1);
      if earlier.Some? then earlier
      else if n - 1 in vms && vms[n - 1].name == name then Some(n - 1)
      else None
  }

  function NewDisks(count: int, size: int): seq<int> {
    if count <= 0 then [] else seq(count, _ => size)
  }

  datatype Made = Made(w: World, ref: nat)

  /** Takes over an existing VM of that name, re-stamping its owner, or creates one. */
  function CreateVM(dep: Dep, w: World, name: string): Made {
    var found := FirstNamed(w.vms, name, w.next + 1);
    if found.Some? then
      Made(w.(vms := w.vms[found.value := w.vms[found.value].(owner := dep.id)], calls := w.calls + 1), found.value)
    else
      var vm := HvVM(name, dep.id, NewDisks(dep.disks, dep.size));
      Made(w.(vms := w.vms[w.next + 1 := vm], next := w.next + 1, calls := w.calls + 1), w.next + 1)
  }

  function DeleteVMs(w: World, refs: set<nat>): World {
    w.(vms := w.vms - refs, calls := w.calls + |refs|)
  }

  function AddDisks(w: World, ref: nat, count: int, size: int): World
    requires ref in w.vms
  {
    w.(vms := w.vms[ref := w.vms[ref].(disks := w.vms[ref].disks + NewDisks(count, size))], calls := w.calls + 1)
  }

  function Extended(disks: seq<int>, size: int): seq<int> {
    seq(|disks|, i requires 0 <= i < |disks| => if disks[i] < size then size else disks[i])
  }

  function ExtendDisks(w: World, ref: nat, size: int): World
    requires ref in w.vms
  {
    w.(vms := w.vms[ref := w.vms[ref].(disks := Extended(w.vms[ref].disks, size))], calls := w.calls + 1)
  }

  // ---- Conflicts ----

  datatype Mode = Abort | Clean | Adopt

  /** VMs under an unrecorded target name that another or an unknown deployment owns. */
  function Conflicts(dep: Dep, w: World): set<nat> {
    set r | r in w.vms && w.vms[r].name in Targets(dep) && w.vms[r].name !in Recorded(w) && w.vms[r].owner != dep.id
  }

  // ---- Parallel creation ----

  function Missing(dep: Dep, w: World): set<nat> {
    set i: nat | 1 <= i <= dep.count && NameOf(dep, i) !in Recorded(w)
  }

  /** A creating goroutine: not started its driver call, back from it, or done. */
  datatype Task = Waiting | Created(ref: nat) | Refused | Settled

  datatype Outcome = Succeeds | Refuses | FailsLate

  /** The goroutines' steps in the order they happen: the driver call, and the bookkeeping under the mutex. */
  datatype Event = Create(i: nat, outcome: Outcome) | Settle(i: nat, recorded: bool)

  datatype Creating = Creating(w: World, tasks: map<nat, Task>, failed: bool, created: nat)

  function StartCreating(dep: Dep, w: World): Creating {
    Creating(w, map i | i in Missing(dep, w) :: Waiting, false, 0)
  }

  function Step(dep: Dep, s: Creating, e: Event): Creating {
    if e.i !in s.tasks then s
    else match e
      case Create(i, outcome) =>
        if s.tasks[i] != Waiting then s
        else if outcome == Refuses then s.(w := s.w.(calls := s.w.calls + 1), tasks := s.tasks[i := Refused])
        else
          var made := CreateVM(dep, s.w, NameOf(dep, i));
          s.(w := made.w, tasks := s.tasks[i := if outcome == Succeeds then Created(made.ref) else Refused])
      case Settle(i, recorded) =>
        if s.tasks[i] == Refused then s.(failed := true, tasks := s.tasks[i := Settled])
        else if !s.tasks[i].Created? then s
        else if recorded then
          var r := Rec(NameOf(dep, i), s.tasks[i].ref, dep.disks, dep.size);
          s.(w := s.w.(recs := s.w.recs + [r]), created := s.created + 1, tasks := s.tasks[i := Settled])
        else if !s.failed then s.(failed := true, tasks := s.tasks[i := Settled])
        else s.(created := s.created + 1, tasks := s.tasks[i := Settled])
  }

  function PlayCreates(dep: Dep, s: Creating, es: seq<Event>): Creating {
    if es == [] then s else Step(dep, PlayCreates(dep, s, es[..|es| - 1]), es[|es| - 1])
  }

  /** Every goroutine has returned. */
  predicate Joined(s: Creating) {
    forall i :: i in s.tasks ==> s.tasks[i] == Settled
  }

  // ---- Growth ----

  datatype GrowFault = NoGrowFault | AddFails | ExtendFails | UpdateFails

  datatype Grown = Grown(w: World, ok: bool)

  function GrowOne(dep: Dep, w: World, k: nat, f: GrowFault): (g: Grown)
    requires k < |w.recs|
    ensures |g.w.recs| == |w.recs|
  {
    var rec := w.recs[k];
    var add := dep.disks - rec.diskCount;
    if add > 0 && (f == AddFails || rec.ref !in w.vms) then Grown(w.(calls := w.calls + 1), false)
    else
      var w := if add > 0 then AddDisks(w, rec.ref, add, dep.size) else w;
      if rec.diskSize < dep.size && (f == ExtendFails || rec.ref !in w.vms) then Grown(w.(calls := w.calls + 1), false)
      else
        var w := if rec.diskSize < dep.size then ExtendDisks(w, rec.ref, dep.size) else w;
        if rec.diskCount == dep.disks && rec.diskSize == dep.size then Grown(w, true)
        else if f == UpdateFails then Grown(w, false)
        else Grown(w.(recs := w.recs[k := rec.(diskCount := dep.disks, diskSize := dep.size)]), true)
  }

  /** The first `n` records, in order; the first failure ends the pass. */
  function Grow(dep: Dep, w: World, n: nat, f: nat -> GrowFault): (g: Grown)
    requires n <= |w.recs|
    ensures |g.w.recs| == |w.recs|
  {
    if n == 0 then Grown(w, true)
    else
      var front := Grow(dep, w, n - 1, f);
      if !front.ok then front else GrowOne(dep, front.w, n - 1, f(n - 1))
  }

  // ---- The pass ----

  /** What goes wrong: the conflicts deleted before a deletion failed, the creates' schedule and failures (a
      schedule that ends early is a crash), the growth failures. */
  datatype Luck = Luck(cleaned: Option<set<nat>>, events: seq<Event>, grow: nat -> GrowFault)

  function AfterConflicts(dep: Dep, mode: Mode, luck: Luck, w: World): Grown {
    var conflicts := Conflicts(dep, w);
    if conflicts == {} || mode == Adopt then Grown(w, true)
    else if mode == Abort then Grown(w, false)
    else if luck.cleaned.Some? then Grown(DeleteVMs(w, luck.cleaned.value * conflicts), false)
    else Grown(DeleteVMs(w, conflicts), true)
  }

  lemma {:induction false} RecordsGrow(dep: Dep, s: Creating, es: seq<Event>)
    ensures |PlayCreates(dep, s, es).w.recs| >= |s.w.recs|
    ensures PlayCreates(dep, s, es).w.recs[..|s.w.recs|] == s.w.recs
  {
    if es != [] {
      RecordsGrow(dep, s, es[..|es| - 1]);
    }
  }

  function Pass(dep: Dep, mode: Mode, luck: Luck, w: World): Grown {
    var clear := AfterConflicts(dep, mode, luck, w);
    if !clear.ok then clear
    else
      var s := PlayCreates(dep, StartCreating(dep, clear.w), luck.events);
      RecordsGrow(dep, StartCreating(dep, clear.w), luck.events);
      if !Joined(s) || s.failed then Grown(s.w, false)
      else Grow(dep, s.w, |w.recs|, luck.grow)
  }
}
