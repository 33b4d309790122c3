/** What reconcile passes keep and reach, under any failures and any order of parallel creates. */
module ReconcileLaws {
  import opened Common
  import opened Names
  import opened Reconcile

  ghost predicate IsTarget(dep: Dep, name: string) {
    exists i: nat :: i >= 1 && name == NameOf(dep, i)
  }

  /** No two VMs share a name of the deployment's scheme. */
  ghost predicate UniqueVMs(dep: Dep, w: World) {
    forall r, q :: r in w.vms && q in w.vms && w.vms[r].name == w.vms[q].name && IsTarget(dep, w.vms[r].name) ==> r == q
  }

  predicate UniqueRecords(w: World) {
    forall a, b :: 0 <= a < b < |w.recs| ==> w.recs[a].name != w.recs[b].name
  }

  /** Every record points at a VM of its name. */
  predicate LiveRecords(w: World) {
    forall k :: 0 <= k < |w.recs| ==> w.recs[k].ref in w.vms && w.vms[w.recs[k].ref].name == w.recs[k].name
  }

  predicate RefsInRange(w: World) {
    forall r :: r in w.vms ==> r <= w.next
  }

  ghost predicate Inv(dep: Dep, w: World) {
    UniqueVMs(dep, w) && UniqueRecords(w) && LiveRecords(w) && RefsInRange(w)
  }

  // ---- Driver calls ----

  /** CreateVM yields a VM of the name, keeps every other VM, and makes no second one of a name. */
  lemma CreateKeeps(dep: Dep, w: World, i: nat)
    requires Inv(dep, w) && i >= 1
    ensures var m := CreateVM(dep, w, NameOf(dep, i));
      && Inv(dep, m.w)
      && m.ref in m.w.vms && m.w.vms[m.ref].name == NameOf(dep, i) && m.w.vms[m.ref].owner == dep.id
      && m.w.recs == w.recs
      && (forall r :: r in w.vms ==> r in m.w.vms && m.w.vms[r].name == w.vms[r].name)
      && (forall r :: r in w.vms && w.vms[r].name != NameOf(dep, i) ==> m.w.vms[r] == w.vms[r])
  {
    var name := NameOf(dep, i);
    assert IsTarget(dep, name);
    var m := CreateVM(dep, w, name);
    forall r, q | r in m.w.vms && q in m.w.vms && m.w.vms[r].name == m.w.vms[q].name && IsTarget(dep, m.w.vms[r].name)
      ensures r == q
    {
    }
  }

  lemma DeleteKeeps(dep: Dep, w: World, refs: set<nat>)
    requires Inv(dep, w) && refs <= Conflicts(dep, w)
    ensures Inv(dep, DeleteVMs(w, refs))
  {
    var v := DeleteVMs(w, refs);
    forall k | 0 <= k < |v.recs| ensures v.recs[k].ref in v.vms {
      assert w.recs[k].name in Recorded(w);
    }
  }

  // ---- The creating goroutines ----

  /** Each goroutine's VM exists under its name, and only settled ones can be recorded. */
  ghost predicate CreatingInv(dep: Dep, s: Creating) {
    && Inv(dep, s.w)
    && (forall i :: i in s.tasks ==> 1 <= i <= dep.count)
    && (forall i :: i in s.tasks && s.tasks[i] != Settled ==> NameOf(dep, i) !in Recorded(s.w))
    && (forall i :: i in s.tasks && s.tasks[i].Created? ==>
      s.tasks[i].ref in s.w.vms && s.w.vms[s.tasks[i].ref].name == NameOf(dep, i))
    && (forall i :: i in s.tasks && s.tasks[i] == Settled && !s.failed ==> NameOf(dep, i) in Recorded(s.w))
  }

  lemma CreateStepKeeps(dep: Dep, s: Creating, e: Event)
    requires CreatingInv(dep, s) && e.Create?
    ensures CreatingInv(dep, Step(dep, s, e)) && Step(dep, s, e).tasks.Keys == s.tasks.Keys
  {
    if e.i in s.tasks && s.tasks[e.i] == Waiting && e.outcome != Refuses {
      CreateKeeps(dep, s.w, e.i);
      var made := CreateVM(dep, s.w, NameOf(dep, e.i));
      MadeKeeps(dep, s, e.i, made, if e.outcome == Succeeds then Created(made.ref) else Refused);
    }
  }

  lemma MadeKeeps(dep: Dep, s: Creating, i: nat, made: Made, task: Task)
    requires CreatingInv(dep, s) && i in s.tasks && s.tasks[i] == Waiting
    requires Inv(dep, made.w) && made.w.recs == s.w.recs
    requires made.ref in made.w.vms && made.w.vms[made.ref].name == NameOf(dep, i)
    requires forall r :: r in s.w.vms ==> r in made.w.vms && made.w.vms[r].name == s.w.vms[r].name
    requires task == Created(made.ref) || task == Refused
    ensures CreatingInv(dep, s.(w := made.w, tasks := s.tasks[i := task]))
  {
    assert Recorded(made.w) == Recorded(s.w);
  }

  lemma RecordedGrows(w: World, r: Rec)
    ensures Recorded(w.(recs := w.recs + [r])) == Recorded(w) + {r.name}
  {
    var v := w.(recs := w.recs + [r]);
    assert v.recs[|w.recs|] == r;
    assert forall k :: 0 <= k < |w.recs| ==> v.recs[k] == w.recs[k];
  }

  lemma RecordKeeps(dep: Dep, w: World, r: Rec)
    requires Inv(dep, w) && r.name !in Recorded(w) && r.ref in w.vms && w.vms[r.ref].name == r.name
    ensures Inv(dep, w.(recs := w.recs + [r]))
  {
    forall k | 0 <= k < |w.recs| ensures w.recs[k].name != r.name {
      assert w.recs[k].name in Recorded(w);
    }
  }

  lemma SettleStepKeeps(dep: Dep, s: Creating, e: Event)
    requires CreatingInv(dep, s) && e.Settle?
    ensures CreatingInv(dep, Step(dep, s, e)) && Step(dep, s, e).tasks.Keys == s.tasks.Keys
  {
    if e.i in s.tasks && s.tasks[e.i].Created? && e.recorded {
      RecordStepKeeps(dep, s, e.i);
    } else {
      FailedSettleKeeps(dep, s, e);
    }
  }

  lemma RecordStepKeeps(dep: Dep, s: Creating, i: nat)
    requires CreatingInv(dep, s) && i in s.tasks && s.tasks[i].Created?
    ensures CreatingInv(dep, Step(dep, s, Settle(i, true))) && Step(dep, s, Settle(i, true)).tasks.Keys == s.tasks.Keys
  {
    var r := Rec(NameOf(dep, i), s.tasks[i].ref, dep.disks, dep.size);
    RecordedGrows(s.w, r);
    RecordKeeps(dep, s.w, r);
    forall j | j in s.tasks && j != i ensures NameOf(dep, j) != NameOf(dep, i) {
      VMNameIsInjective(dep.prefix, dep.pad, i, dep.prefix, dep.pad, j);
    }
  }

  lemma FailedSettleKeeps(dep: Dep, s: Creating, e: Event)
    requires CreatingInv(dep, s) && e.Settle? && !(e.i in s.tasks && s.tasks[e.i].Created? && e.recorded)
    ensures CreatingInv(dep, Step(dep, s, e)) && Step(dep, s, e).tasks.Keys == s.tasks.Keys
  {
  }

  lemma {:induction false} CreatesKeep(dep: Dep, s: Creating, es: seq<Event>)
    requires CreatingInv(dep, s)
    ensures CreatingInv(dep, PlayCreates(dep, s, es)) && PlayCreates(dep, s, es).tasks.Keys == s.tasks.Keys
  {
    if es != [] {
      var n := |es| - 1;
      CreatesKeep(dep, s, es[..n]);
      if es[n].Create? {
        CreateStepKeeps(dep, PlayCreates(dep, s, es[..n]), es[n]);
      } else {
        SettleStepKeeps(dep, PlayCreates(dep, s, es[..n]), es[n]);
      }
    }
  }

  lemma StartIsFine(dep: Dep, w: World)
    requires Inv(dep, w)
    ensures CreatingInv(dep, StartCreating(dep, w))
  {
  }

  // ---- Growth ----

  /** The same VMs and records under the same names and owners, of other shapes perhaps. */
  predicate SameFleet(w: World, v: World) {
    && v.next == w.next && v.vms.Keys == w.vms.Keys
    && (forall r :: r in w.vms ==> v.vms[r].name == w.vms[r].name && v.vms[r].owner == w.vms[r].owner)
    && |v.recs| == |w.recs|
    && (forall k :: 0 <= k < |w.recs| ==> v.recs[k].name == w.recs[k].name && v.recs[k].ref == w.recs[k].ref)
  }

  lemma SameFleetKeeps(dep: Dep, w: World, v: World)
    requires Inv(dep, w) && SameFleet(w, v)
    ensures Inv(dep, v) && Recorded(v) == Recorded(w)
  {
    SameNamesSameRecorded(w, v);
  }

  lemma GrowOneKeepsFleet(dep: Dep, w: World, k: nat, f: GrowFault)
    requires k < |w.recs|
    ensures SameFleet(w, GrowOne(dep, w, k, f).w)
  {
  }

  predicate Shaped(dep: Dep, r: Rec) {
    r.diskCount == dep.disks && r.diskSize == dep.size
  }

  predicate SameExcept(w: World, v: World, k: nat)
    requires k < |w.recs|
  {
    && v.vms.Keys == w.vms.Keys && |v.recs| == |w.recs|
    && (forall r :: r in w.vms && r != w.recs[k].ref ==> v.vms[r] == w.vms[r])
    && (forall j :: 0 <= j < |w.recs| && j != k ==> v.recs[j] == w.recs[j])
  }

  lemma GrowOneFrame(dep: Dep, w: World, k: nat, f: GrowFault)
    requires k < |w.recs|
    ensures SameExcept(w, GrowOne(dep, w, k, f).w, k)
    ensures GrowOne(dep, w, k, f).ok ==> Shaped(dep, GrowOne(dep, w, k, f).w.recs[k])
  {
  }

  lemma SameNamesSameRecorded(w: World, v: World)
    requires |v.recs| == |w.recs| && forall j :: 0 <= j < |w.recs| ==> v.recs[j].name == w.recs[j].name
    ensures Recorded(v) == Recorded(w)
  {
    forall name ensures name in Recorded(v) <==> name in Recorded(w) {
      if name in Recorded(w) {
        var k :| 0 <= k < |w.recs| && w.recs[k].name == name;
        assert v.recs[k].name == name;
      }
      if name in Recorded(v) {
        var k :| 0 <= k < |v.recs| && v.recs[k].name == name;
        assert w.recs[k].name == name;
      }
    }
  }

  lemma {:induction false} GrowKeepsFleet(dep: Dep, w: World, n: nat, f: nat -> GrowFault)
    requires n <= |w.recs|
    ensures SameFleet(w, Grow(dep, w, n, f).w)
  {
    if n > 0 {
      GrowKeepsFleet(dep, w, n - 1, f);
      var front := Grow(dep, w, n - 1, f);
      if front.ok {
        GrowOneKeepsFleet(dep, front.w, n - 1, f(n - 1));
      }
    }
  }

  lemma {:induction false} GrowShapes(dep: Dep, w: World, n: nat, f: nat -> GrowFault)
    requires n <= |w.recs|
    ensures var g := Grow(dep, w, n, f);
      && (forall k :: n <= k < |w.recs| ==> g.w.recs[k] == w.recs[k])
      && (g.ok ==> forall k :: 0 <= k < n ==> Shaped(dep, g.w.recs[k]))
  {
    if n > 0 {
      GrowShapes(dep, w, n - 1, f);
      var front := Grow(dep, w, n - 1, f);
      if front.ok {
        GrowOneFrame(dep, front.w, n - 1, f(n - 1));
      }
    }
  }

  // ---- Passes ----

  /** Every pass, successful, failed or cut short, keeps names unique on the hypervisor and in the records,
      and every record pointing at a VM of its name. */
  lemma PassKeeps(dep: Dep, mode: Mode, luck: Luck, w: World)
    requires Inv(dep, w)
    ensures Inv(dep, Pass(dep, mode, luck, w).w)
  {
    var clear := AfterConflicts(dep, mode, luck, w);
    ClearKeeps(dep, mode, luck, w);
    if clear.ok {
      StartIsFine(dep, clear.w);
      CreatesKeep(dep, StartCreating(dep, clear.w), luck.events);
      RecordsGrow(dep, StartCreating(dep, clear.w), luck.events);
      var s := PlayCreates(dep, StartCreating(dep, clear.w), luck.events);
      if Joined(s) && !s.failed {
        GrowKeepsFleet(dep, s.w, |w.recs|, luck.grow);
        SameFleetKeeps(dep, s.w, Grow(dep, s.w, |w.recs|, luck.grow).w);
      }
    }
  }

  lemma ClearKeeps(dep: Dep, mode: Mode, luck: Luck, w: World)
    requires Inv(dep, w)
    ensures Inv(dep, AfterConflicts(dep, mode, luck, w).w) && AfterConflicts(dep, mode, luck, w).w.recs == w.recs
  {
    if luck.cleaned.Some? {
      DeleteKeeps(dep, w, luck.cleaned.value * Conflicts(dep, w));
    }
    DeleteKeeps(dep, w, Conflicts(dep, w));
  }

  /** Every target is recorded, and every record has the spec's shape. */
  predicate Converged(dep: Dep, w: World) {
    Targets(dep) <= Recorded(w) && forall k :: 0 <= k < |w.recs| ==> Shaped(dep, w.recs[k])
  }

  predicate NewOnesShaped(dep: Dep, w: World, n: nat) {
    forall k :: n <= k < |w.recs| ==> Shaped(dep, w.recs[k])
  }

  lemma {:induction false} NewRecordsAreShaped(dep: Dep, s: Creating, es: seq<Event>, n: nat)
    requires NewOnesShaped(dep, s.w, n)
    ensures NewOnesShaped(dep, PlayCreates(dep, s, es).w, n)
  {
    if es != [] {
      NewRecordsAreShaped(dep, s, es[..|es| - 1], n);
    }
  }

  lemma AllTargetsRecorded(dep: Dep, w: World, s: Creating)
    requires CreatingInv(dep, s) && s.tasks.Keys == Missing(dep, w) && Joined(s) && !s.failed
    requires |s.w.recs| >= |w.recs| && s.w.recs[..|w.recs|] == w.recs
    ensures Targets(dep) <= Recorded(s.w)
  {
    forall i: nat | 1 <= i <= dep.count ensures NameOf(dep, i) in Recorded(s.w) {
      if i in Missing(dep, w) {
        assert i in s.tasks;
      } else {
        var k :| 0 <= k < |w.recs| && w.recs[k].name == NameOf(dep, i);
        assert s.w.recs[k] == s.w.recs[..|w.recs|][k];
      }
    }
  }

  /** A successful pass records the whole fleet, in the spec's shape. */
  lemma SuccessConverges(dep: Dep, mode: Mode, luck: Luck, w: World)
    requires Inv(dep, w) && Pass(dep, mode, luck, w).ok
    ensures Converged(dep, Pass(dep, mode, luck, w).w)
  {
    var clear := AfterConflicts(dep, mode, luck, w);
    ClearKeeps(dep, mode, luck, w);
    var start := StartCreating(dep, clear.w);
    StartIsFine(dep, clear.w);
    CreatesKeep(dep, start, luck.events);
    RecordsGrow(dep, start, luck.events);
    var s := PlayCreates(dep, start, luck.events);
    AllTargetsRecorded(dep, clear.w, s);
    NewRecordsAreShaped(dep, start, luck.events, |w.recs|);
    GrowKeepsFleet(dep, s.w, |w.recs|, luck.grow);
    SameFleetKeeps(dep, s.w, Grow(dep, s.w, |w.recs|, luck.grow).w);
    GrowShapes(dep, s.w, |w.recs|, luck.grow);
  }

  lemma {:induction false} NothingToCreate(dep: Dep, s: Creating, es: seq<Event>)
    requires s.tasks == map[]
    ensures PlayCreates(dep, s, es) == s
  {
    if es != [] {
      NothingToCreate(dep, s, es[..|es| - 1]);
    }
  }

  lemma {:induction false} NothingToGrow(dep: Dep, w: World, n: nat, f: nat -> GrowFault)
    requires n <= |w.recs| && forall k :: 0 <= k < |w.recs| ==> Shaped(dep, w.recs[k])
    ensures Grow(dep, w, n, f) == Grown(w, true)
  {
    if n > 0 {
      NothingToGrow(dep, w, n - 1, f);
    }
  }

  /** On a converged world a pass of any mode, whatever luck it has, succeeds without a driver call or a change. */
  lemma ConvergedIsStable(dep: Dep, mode: Mode, luck: Luck, w: World)
    requires Converged(dep, w)
    ensures Pass(dep, mode, luck, w) == Grown(w, true)
  {
    assert Conflicts(dep, w) == {};
    assert forall i :: i in Missing(dep, w) ==> NameOf(dep, i) in Targets(dep);
    assert Missing(dep, w) == {};
    var start := StartCreating(dep, w);
    assert start.tasks == map[];
    NothingToCreate(dep, start, luck.events);
    NothingToGrow(dep, w, |w.recs|, luck.grow);
  }

  // ---- Histories ----

  datatype Attempt = Attempt(dep: Dep, mode: Mode, luck: Luck)

  function Passes(w: World, h: seq<Attempt>): World {
    if h == [] then w
    else var a := h[|h| - 1]; Pass(a.dep, a.mode, a.luck, Passes(w, h[..|h| - 1])).w
  }

  /** Attempts for one deployment: its id and naming stay, its size may change. */
  predicate SameDeployment(dep: Dep, h: seq<Attempt>) {
    forall k :: 0 <= k < |h| ==> h[k].dep.id == dep.id && h[k].dep.prefix == dep.prefix && h[k].dep.pad == dep.pad
  }

  lemma InvIgnoresSize(dep: Dep, other: Dep, w: World)
    requires Inv(dep, w) && other.prefix == dep.prefix && other.pad == dep.pad
    ensures Inv(other, w)
  {
    forall r, q | r in w.vms && q in w.vms && w.vms[r].name == w.vms[q].name && IsTarget(other, w.vms[r].name) ensures r == q {
      var i: nat :| i >= 1 && w.vms[r].name == NameOf(other, i);
      assert w.vms[r].name == NameOf(dep, i);
    }
  }

  /** The invariant holds after any sequence of passes, with scale-ups, failures and crashes. */
  lemma {:induction false} HistoryKeeps(dep: Dep, w: World, h: seq<Attempt>)
    requires Inv(dep, w) && SameDeployment(dep, h)
    ensures Inv(dep, Passes(w, h))
  {
    if h != [] {
      var n := |h| - 1;
      HistoryKeeps(dep, w, h[..n]);
      InvIgnoresSize(dep, h[n].dep, Passes(w, h[..n]));
      PassKeeps(h[n].dep, h[n].mode, h[n].luck, Passes(w, h[..n]));
      InvIgnoresSize(h[n].dep, dep, Passes(w, h));
    }
  }

  /** However a history went, once a pass succeeds the fleet is recorded, one VM to a name, and a further pass is idle. */
  lemma ReconcileConverges(dep: Dep, w: World, h: seq<Attempt>, last: Attempt, mode: Mode, luck: Luck)
    requires Inv(dep, w) && SameDeployment(dep, h) && last.dep == dep
    requires Pass(dep, last.mode, last.luck, Passes(w, h)).ok
    ensures var end := Pass(dep, last.mode, last.luck, Passes(w, h)).w;
      Inv(dep, end) && Converged(dep, end) && Pass(dep, mode, luck, end) == Grown(end, true)
  {
    HistoryKeeps(dep, w, h);
    PassKeeps(dep, last.mode, last.luck, Passes(w, h));
    SuccessConverges(dep, last.mode, last.luck, Passes(w, h));
    ConvergedIsStable(dep, mode, luck, Pass(dep, last.mode, last.luck, Passes(w, h)).w);
  }
}
