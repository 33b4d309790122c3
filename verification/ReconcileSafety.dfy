/** What a reconcile pass may touch, and when it succeeds (internal/orch/orchestrator.go:364-487). */
module ReconcileSafety {
  import opened Common
  import opened Names
  import opened Reconcile
  import opened ReconcileLaws

  /** In abort mode a conflict stops the pass before anything is changed. */
  lemma AbortTouchesNothing(dep: Dep, luck: Luck, w: World)
    ensures Conflicts(dep, w) != {} <==> AfterConflicts(dep, Abort, luck, w) == Grown(w, false)
    ensures Conflicts(dep, w) != {} ==> Pass(dep, Abort, luck, w) == Grown(w, false)
  {
  }

  function Deleted(dep: Dep, mode: Mode, luck: Luck, w: World): set<nat> {
    if mode != Clean then {}
    else if luck.cleaned.Some? then luck.cleaned.value * Conflicts(dep, w)
    else Conflicts(dep, w)
  }

  // ---- What a pass removes and what it leaves alone ----

  /** `v` has every VM of `w`, and those of `keep` unchanged. */
  predicate Extends(w: World, v: World, keep: set<nat>) {
    w.vms.Keys <= v.vms.Keys && forall r :: r in w.vms && r in keep ==> v.vms[r] == w.vms[r]
  }

  function Foreign(dep: Dep, w: World): set<nat> {
    set r | r in w.vms && w.vms[r].name !in Targets(dep)
  }

  lemma CreateStepExtends(dep: Dep, s: Creating, e: Event)
    requires CreatingInv(dep, s)
    ensures Extends(s.w, Step(dep, s, e).w, Foreign(dep, s.w)) && Foreign(dep, s.w) <= Foreign(dep, Step(dep, s, e).w)
  {
    if e.Create? && e.i in s.tasks && s.tasks[e.i] == Waiting && e.outcome != Refuses {
      CreateKeeps(dep, s.w, e.i);
      assert NameOf(dep, e.i) in Targets(dep);
    }
  }

  lemma {:induction false} CreatesExtend(dep: Dep, s: Creating, es: seq<Event>)
    requires CreatingInv(dep, s)
    ensures var v := PlayCreates(dep, s, es).w; Extends(s.w, v, Foreign(dep, s.w)) && Foreign(dep, s.w) <= Foreign(dep, v)
  {
    if es != [] {
      CreatesExtend(dep, s, es[..|es| - 1]);
      CreatesKeep(dep, s, es[..|es| - 1]);
      CreateStepExtends(dep, PlayCreates(dep, s, es[..|es| - 1]), es[|es| - 1]);
    }
  }

  function Owned(w: World, n: nat): set<nat>
    requires n <= |w.recs|
  {
    set k | 0 <= k < n :: w.recs[k].ref
  }

  lemma {:induction false} GrowExtends(dep: Dep, w: World, n: nat, f: nat -> GrowFault)
    requires n <= |w.recs|
    ensures Extends(w, Grow(dep, w, n, f).w, w.vms.Keys - Owned(w, n))
  {
    GrowKeepsFleet(dep, w, n, f);
    if n > 0 {
      GrowExtends(dep, w, n - 1, f);
      var front := Grow(dep, w, n - 1, f);
      GrowKeepsFleet(dep, w, n - 1, f);
      assert w.recs[n - 1].ref in Owned(w, n);
      if front.ok {
        GrowOneFrame(dep, front.w, n - 1, f(n - 1));
      }
    }
  }

  lemma SameFront(w: World, v: World)
    requires |v.recs| >= |w.recs| && v.recs[..|w.recs|] == w.recs
    ensures Owned(v, |w.recs|) == Owned(w, |w.recs|)
  {
    assert forall k :: 0 <= k < |w.recs| ==> v.recs[k] == v.recs[..|w.recs|][k];
  }

  /** What happened to the VMs of `w`: the deleted ones are gone, no other is, and the bystanders are unchanged. */
  predicate Touched(w: World, v: World, deleted: set<nat>, bystanders: set<nat>) {
    w.vms.Keys - v.vms.Keys == deleted && forall r :: r in bystanders ==> r in v.vms && r in w.vms && v.vms[r] == w.vms[r]
  }

  lemma CreatesTouch(dep: Dep, mode: Mode, luck: Luck, w: World)
    requires Inv(dep, w)
    ensures var start := StartCreating(dep, AfterConflicts(dep, mode, luck, w).w);
      Touched(w, PlayCreates(dep, start, luck.events).w, Deleted(dep, mode, luck, w), Foreign(dep, w))
  {
    var clear := AfterConflicts(dep, mode, luck, w);
    ClearTouches(dep, mode, luck, w);
    ClearKeeps(dep, mode, luck, w);
    var start := StartCreating(dep, clear.w);
    StartIsFine(dep, clear.w);
    CreatesExtend(dep, start, luck.events);
    FreshRefs(dep, mode, luck, w);
  }

  lemma GrowthTouches(w: World, s: World, v: World, deleted: set<nat>, bystanders: set<nat>, owned: set<nat>)
    requires Touched(w, s, deleted, bystanders) && v.vms.Keys == s.vms.Keys && Extends(s, v, s.vms.Keys - owned)
    ensures Touched(w, v, deleted, bystanders - owned)
  {
  }

  lemma GrownTouch(dep: Dep, mode: Mode, luck: Luck, w: World)
    requires Inv(dep, w)
    ensures var s := PlayCreates(dep, StartCreating(dep, AfterConflicts(dep, mode, luck, w).w), luck.events);
      |w.recs| <= |s.w.recs| &&
      Touched(w, Grow(dep, s.w, |w.recs|, luck.grow).w, Deleted(dep, mode, luck, w), Foreign(dep, w) - Owned(w, |w.recs|))
  {
    ClearKeeps(dep, mode, luck, w);
    CreatesTouch(dep, mode, luck, w);
    var start := StartCreating(dep, AfterConflicts(dep, mode, luck, w).w);
    var s := PlayCreates(dep, start, luck.events);
    RecordsGrow(dep, start, luck.events);
    SameFront(w, s.w);
    GrowExtends(dep, s.w, |w.recs|, luck.grow);
    GrowKeepsFleet(dep, s.w, |w.recs|, luck.grow);
    GrowthTouches(w, s.w, Grow(dep, s.w, |w.recs|, luck.grow).w, Deleted(dep, mode, luck, w), Foreign(dep, w), Owned(w, |w.recs|));
  }

  lemma ClearIsTouched(dep: Dep, mode: Mode, luck: Luck, w: World)
    ensures Touched(w, AfterConflicts(dep, mode, luck, w).w, Deleted(dep, mode, luck, w), Foreign(dep, w))
  {
    ClearTouches(dep, mode, luck, w);
  }

  /** A pass deletes exactly the conflicts it was told to clean, and leaves as they are all other VMs that neither
      have a target name nor are recorded. */
  lemma PassTouches(dep: Dep, mode: Mode, luck: Luck, w: World)
    requires Inv(dep, w)
    ensures Touched(w, Pass(dep, mode, luck, w).w, Deleted(dep, mode, luck, w), Foreign(dep, w) - Owned(w, |w.recs|))
  {
    ClearIsTouched(dep, mode, luck, w);
    CreatesTouch(dep, mode, luck, w);
    GrownTouch(dep, mode, luck, w);
  }

  lemma ClearTouches(dep: Dep, mode: Mode, luck: Luck, w: World)
    ensures var v := AfterConflicts(dep, mode, luck, w).w;
      && v.vms.Keys == w.vms.Keys - Deleted(dep, mode, luck, w) && v.next == w.next
      && (forall r :: r in v.vms ==> v.vms[r] == w.vms[r])
      && Foreign(dep, w) <= Foreign(dep, v)
  {
  }

  /** References are never reused: what was deleted stays gone. */
  lemma FreshRefs(dep: Dep, mode: Mode, luck: Luck, w: World)
    requires Inv(dep, w)
    ensures var clear := AfterConflicts(dep, mode, luck, w);
      forall r :: r in w.vms && r !in clear.w.vms ==> r !in PlayCreates(dep, StartCreating(dep, clear.w), luck.events).w.vms
  {
    var clear := AfterConflicts(dep, mode, luck, w);
    ClearTouches(dep, mode, luck, w);
    forall r | r in w.vms && r !in clear.w.vms
      ensures r !in PlayCreates(dep, StartCreating(dep, clear.w), luck.events).w.vms
    {
      StaysGone(dep, StartCreating(dep, clear.w), luck.events, r);
    }
  }

  lemma {:induction false} StaysGone(dep: Dep, s: Creating, es: seq<Event>, r: nat)
    requires r !in s.w.vms && r <= s.w.next
    ensures var v := PlayCreates(dep, s, es).w; r !in v.vms && r <= v.next
  {
    if es != [] {
      StaysGone(dep, s, es[..|es| - 1], r);
    }
  }

  // ---- A pass without failures ----

  predicate AllGood(es: seq<Event>) {
    forall k :: 0 <= k < |es| ==> if es[k].Create? then es[k].outcome == Succeeds else es[k].recorded
  }

  predicate NoneRefused(s: Creating) {
    !s.failed && forall i :: i in s.tasks ==> s.tasks[i] != Refused
  }

  lemma {:induction false} GoodCreatesSucceed(dep: Dep, s: Creating, es: seq<Event>)
    requires AllGood(es) && NoneRefused(s)
    ensures NoneRefused(PlayCreates(dep, s, es))
  {
    if es != [] {
      GoodCreatesSucceed(dep, s, es[..|es| - 1]);
    }
  }

  lemma {:induction false} GoodGrowthSucceeds(dep: Dep, w: World, n: nat, f: nat -> GrowFault)
    requires LiveRecords(w) && n <= |w.recs| && forall k :: f(k) == NoGrowFault
    ensures Grow(dep, w, n, f).ok
  {
    if n > 0 {
      GoodGrowthSucceeds(dep, w, n - 1, f);
      GrowKeepsFleet(dep, w, n - 1, f);
    }
  }

  /** Without failures a pass whose creates all return succeeds, unless it is told to abort on a conflict and there is one. */
  lemma GoodPassSucceeds(dep: Dep, mode: Mode, luck: Luck, w: World)
    requires Inv(dep, w) && luck.cleaned.None? && AllGood(luck.events) && forall k :: luck.grow(k) == NoGrowFault
    requires Joined(PlayCreates(dep, StartCreating(dep, AfterConflicts(dep, mode, luck, w).w), luck.events))
    ensures Pass(dep, mode, luck, w).ok <==> !(mode == Abort && Conflicts(dep, w) != {})
  {
    var clear := AfterConflicts(dep, mode, luck, w);
    ClearKeeps(dep, mode, luck, w);
    var start := StartCreating(dep, clear.w);
    StartIsFine(dep, clear.w);
    CreatesKeep(dep, start, luck.events);
    RecordsGrow(dep, start, luck.events);
    GoodCreatesSucceed(dep, start, luck.events);
    GoodGrowthSucceeds(dep, PlayCreates(dep, start, luck.events).w, |w.recs|, luck.grow);
  }

  // ---- Abort mode ----

  /** A VM of a target name that is recorded is the recorded one. */
  lemma RecordedIsOwned(dep: Dep, w: World, r: nat)
    requires Inv(dep, w) && r in w.vms && w.vms[r].name in Targets(dep) && w.vms[r].name in Recorded(w)
    ensures r in Owned(w, |w.recs|)
  {
    var k :| 0 <= k < |w.recs| && w.recs[k].name == w.vms[r].name;
    assert IsTarget(dep, w.vms[r].name);
    assert w.recs[k].ref == r;
  }

  /** In abort mode a pass leaves every VM of another owner as it is, unless it is recorded: neither deleted, taken
      over nor grown, however the pass goes. With a conflict it changes nothing at all. */
  lemma AbortSparesOthers(dep: Dep, luck: Luck, w: World, r: nat)
    requires Inv(dep, w) && r in w.vms && w.vms[r].owner != dep.id && r !in Owned(w, |w.recs|)
    ensures var v := Pass(dep, Abort, luck, w).w;
      r in v.vms && v.vms[r] == w.vms[r] && (Conflicts(dep, w) != {} ==> v == w)
  {
    AbortTouchesNothing(dep, luck, w);
    if Conflicts(dep, w) == {} {
      assert r !in Conflicts(dep, w);
      if w.vms[r].name in Targets(dep) {
        RecordedIsOwned(dep, w, r);
        assert false;
      }
      PassTouches(dep, Abort, luck, w);
    }
  }
}
