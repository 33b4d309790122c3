/** Interrupting an incremental and redispatching it (cmd/agent/gen.go:44-54, :169-241, :364-466). */
module Redo {
  import opened Common
  import opened Listing
  import opened Seeds
  import opened ChangeSet
  import opened Disk
  import opened Churn
  import opened AgentRun

  /** `e` is `d` somewhere on the way to its rewritten state: same names and sizes, other content only in the
      files to be rewritten, and for the others a manifest that says what the finished run will say. */
  predicate OnTheWay(w: World, wo: WorkOrder, d: DiskState, e: DiskState)
    requires PlanOf(w, wo, d).Ok?
  {
    var p := PlanOf(w, wo, d).value;
    var hit := RewriteSet(p.rewrite, |p.rewrite|);
    && e.formatted == d.formatted && e.dirs == d.dirs && e.broken == d.broken
    && e.files.Keys == d.files.Keys
    && (forall r :: r in d.files ==> |e.files[r]| == |d.files[r]|)
    && (forall r :: r in d.files && r !in hit ==> e.files[r] == d.files[r])
    && (forall r :: r in d.files && r in Recorded(d) ==> r in Recorded(e))
    && (forall r :: r in d.files && r !in hit ==> NewEntry(w.sha, e, hit, r) == NewEntry(w.sha, d, hit, r))
  }

  lemma SamePlan(w: World, wo: WorkOrder, d: DiskState, e: DiskState)
    requires PlanOf(w, wo, d).Ok? && OnTheWay(w, wo, d, e)
    ensures PlanOf(w, wo, e) == PlanOf(w, wo, d)
  {
    assert NamesIn(e, LocalDir) == NamesIn(d, LocalDir);
    var names := Sorted(NamesIn(d, LocalDir));
    forall i | 0 <= i < |names| ensures SizeOf(e, names[i]) == SizeOf(d, names[i]) {
      assert Rel(LocalDir, names[i]) in e.files <==> Rel(LocalDir, names[i]) in d.files;
    }
    assert LocalFiles(e) == LocalFiles(d);
  }

  /** The content of a rewritten file does not depend on what it held. */
  lemma {:induction false} RewritesAgree(w: World, wo: WorkOrder, a: map<Rel, Content>, b: map<Rel, Content>, plan: seq<PlanFile>, k: nat)
    requires k <= |plan| && a.Keys == b.Keys
    requires forall r :: r in a && r !in RewriteSet(plan, k) ==> a[r] == b[r]
    ensures Rewritten(w, wo, a, plan, k) == Rewritten(w, wo, b, plan, k)
  {
    var hit := RewriteSet(plan, k);
    RewrittenFrame(w, wo, a, plan, k);
    RewrittenFrame(w, wo, b, plan, k);
    forall r | r in hit ensures Rewritten(w, wo, a, plan, k)[r] == Rewritten(w, wo, b, plan, k)[r] {
      HitAgrees(w, wo, a, b, plan, k, r);
    }
    var x, y := Rewritten(w, wo, a, plan, k), Rewritten(w, wo, b, plan, k);
    assert x.Keys == y.Keys;
    forall r | r in x ensures x[r] == y[r] {
    }
  }

  lemma {:induction false} HitAgrees(w: World, wo: WorkOrder, a: map<Rel, Content>, b: map<Rel, Content>, plan: seq<PlanFile>, k: nat, r: Rel)
    requires k <= |plan| && r in RewriteSet(plan, k)
    ensures r in Rewritten(w, wo, a, plan, k) && r in Rewritten(w, wo, b, plan, k)
    ensures Rewritten(w, wo, a, plan, k)[r] == Rewritten(w, wo, b, plan, k)[r]
  {
    if r != Rel(LocalDir, plan[k - 1].name) {
      HitAgrees(w, wo, a, b, plan, k - 1, r);
    }
  }

  lemma NewEntriesAgree(sha: Sha, d: DiskState, e: DiskState, changed: set<Rel>)
    requires e.files == d.files
    requires forall r :: r in d.files && r !in changed ==> NewEntry(sha, e, changed, r) == NewEntry(sha, d, changed, r)
    ensures NewEntries(sha, e, changed) == NewEntries(sha, d, changed)
  {
    assert NewEntries(sha, e, changed).Keys == NewEntries(sha, d, changed).Keys;
    forall r | r in d.files ensures NewEntry(sha, e, changed, r) == NewEntry(sha, d, changed, r) {
    }
  }

  lemma SameChurn(w: World, wo: WorkOrder, d: DiskState, e: DiskState)
    requires PlanOf(w, wo, d).Ok? && OnTheWay(w, wo, d, e)
    ensures var p := PlanOf(w, wo, d).value; Churned(w, wo, e, p).files == Churned(w, wo, d, p).files
  {
    var p := PlanOf(w, wo, d).value;
    RewritesAgree(w, wo, d.files, e.files, p.rewrite, |p.rewrite|);
  }

  /** Whatever was done so far, finishing gives the disk the uninterrupted step gives. */
  lemma FinishAgrees(w: World, wo: WorkOrder, d: DiskState, e: DiskState)
    requires Faithful(w) && PlanOf(w, wo, d).Ok? && OnTheWay(w, wo, d, e)
    requires DiskStep(w, wo, d, PlanOf(w, wo, d).value, NoFault).ok
    ensures var p := PlanOf(w, wo, d).value;
      DiskStep(w, wo, e, p, NoFault) == StepResult(DiskStep(w, wo, d, p, NoFault).disk.(marker := e.marker), true)
  {
    var p := PlanOf(w, wo, d).value;
    var dd, ee := Churned(w, wo, d, p), Churned(w, wo, e, p);
    SameChurn(w, wo, d, e);
    var changed := Changed(wo, p, dd);
    ChurnTouchesOnlyChanged(w, wo, d, p);
    ChurnTouchesOnlyChanged(w, wo, e, p);
    forall r | r in dd.files && r !in changed ensures NewEntry(w.sha, ee, changed, r) == NewEntry(w.sha, dd, changed, r) {
      EntryOutside(w, wo, d, e, r);
    }
    NewEntriesAgree(w.sha, dd, ee, changed);
    assert Hashed(ee, changed) <= Hashed(dd, changed);
  }

  /** A file outside both sets keeps the entry it had on its way. */
  lemma SameEntry(sha: Sha, d: DiskState, dd: DiskState, hit: set<Rel>, changed: set<Rel>, r: Rel)
    requires dd.manifest == d.manifest && r in d.files && r in dd.files && dd.files[r] == d.files[r]
    requires r !in hit && r !in changed
    ensures NewEntry(sha, dd, changed, r) == NewEntry(sha, d, hit, r)
  {
  }

  lemma EntryOutside(w: World, wo: WorkOrder, d: DiskState, e: DiskState, r: Rel)
    requires Faithful(w) && PlanOf(w, wo, d).Ok? && OnTheWay(w, wo, d, e)
    requires var p := PlanOf(w, wo, d).value;
      r in Churned(w, wo, d, p).files && r !in Changed(wo, p, Churned(w, wo, d, p))
    ensures var p := PlanOf(w, wo, d).value;
      var dd, ee := Churned(w, wo, d, p), Churned(w, wo, e, p);
      r in ee.files && NewEntry(w.sha, ee, Changed(wo, p, dd), r) == NewEntry(w.sha, dd, Changed(wo, p, dd), r)
  {
    var p := PlanOf(w, wo, d).value;
    var dd, ee := Churned(w, wo, d, p), Churned(w, wo, e, p);
    var hit, changed := RewriteSet(p.rewrite, |p.rewrite|), Changed(wo, p, dd);
    SameChurn(w, wo, d, e);
    ChurnTouchesOnlyChanged(w, wo, d, p);
    SameEntry(w.sha, d, dd, hit, changed, r);
    SameEntry(w.sha, e, ee, hit, changed, r);
  }

  // ---- Interruptions keep a disk on its way ----

  /** Growth has not begun: the job that failed was a rewrite, or there is nothing to grow. */
  predicate BeforeGrowth(p: Plan, f: Fault) {
    p.grow <= 0 || (f.RewriteFails? && Fails(p, f))
  }

  /** A rewrite that dies half-way leaves the file at its size. */
  predicate KeepsSize(p: Plan, f: Fault) {
    f.RewriteFails? && f.at < |p.rewrite| ==> |f.junk| == p.rewrite[f.at].size
  }

  lemma {:induction false} RewrittenSizes(w: World, wo: WorkOrder, d: DiskState, p: Plan, k: nat)
    requires Faithful(w) && k <= |p.rewrite|
    requires forall f :: f in p.rewrite ==> Rel(LocalDir, f.name) in d.files && |d.files[Rel(LocalDir, f.name)]| == f.size
    ensures var m := Rewritten(w, wo, d.files, p.rewrite, k);
      m.Keys == d.files.Keys && forall r :: r in d.files ==> |m[r]| == |d.files[r]|
  {
    if k > 0 {
      RewrittenSizes(w, wo, d, p, k - 1);
      assert p.rewrite[k - 1] in p.rewrite;
    }
  }

  /** Any state of the files that differs from `e` only inside the rewrite set, at the same sizes. */
  lemma PartlyRewritten(w: World, wo: WorkOrder, d: DiskState, e: DiskState, files: map<Rel, Content>)
    requires PlanOf(w, wo, d).Ok? && OnTheWay(w, wo, d, e) && files.Keys == e.files.Keys
    requires forall r :: r in files ==> |files[r]| == |e.files[r]|
    requires var p := PlanOf(w, wo, d).value;
      forall r :: r in files && r !in RewriteSet(p.rewrite, |p.rewrite|) ==> files[r] == e.files[r]
    ensures OnTheWay(w, wo, d, e.(files := files))
  {
    var p := PlanOf(w, wo, d).value;
    var hit := RewriteSet(p.rewrite, |p.rewrite|);
    var g := e.(files := files);
    forall r | r in d.files && r !in hit ensures NewEntry(w.sha, g, hit, r) == NewEntry(w.sha, d, hit, r) {
      assert NewEntry(w.sha, e, hit, r) == NewEntry(w.sha, d, hit, r);
    }
  }

  lemma PlannedFiles(w: World, wo: WorkOrder, d: DiskState, e: DiskState)
    requires PlanOf(w, wo, d).Ok? && OnTheWay(w, wo, d, e) && wo.change >= 0.0
    ensures forall f :: f in PlanOf(w, wo, d).value.rewrite ==>
      Rel(LocalDir, f.name) in e.files && |e.files[Rel(LocalDir, f.name)]| == f.size
  {
    PlanIsSound(w, wo, d);
  }

  lemma PrefixOfHits(plan: seq<PlanFile>, k: nat)
    requires k <= |plan|
    ensures RewriteSet(plan, k) <= RewriteSet(plan, |plan|)
  {
  }

  lemma RewriteFailureKeeps(w: World, wo: WorkOrder, d: DiskState, e: DiskState, f: Fault)
    requires Faithful(w) && PlanOf(w, wo, d).Ok? && OnTheWay(w, wo, d, e) && wo.change >= 0.0
    requires var p := PlanOf(w, wo, d).value; f.RewriteFails? && Fails(p, f) && KeepsSize(p, f)
    ensures OnTheWay(w, wo, d, ChurnResult(w, wo, e, PlanOf(w, wo, d).value, f))
  {
    var p := PlanOf(w, wo, d).value;
    PlannedFiles(w, wo, d, e);
    RewrittenSizes(w, wo, e, p, f.at);
    RewrittenFrame(w, wo, e.files, p.rewrite, f.at);
    PrefixOfHits(p.rewrite, f.at);
    var file := p.rewrite[f.at];
    assert file in p.rewrite;
    var files := Rewritten(w, wo, e.files, p.rewrite, f.at)[Rel(LocalDir, file.name) := f.junk];
    assert files.Keys == e.files.Keys;
    assert Rel(LocalDir, file.name) in RewriteSet(p.rewrite, |p.rewrite|);
    PartlyRewritten(w, wo, d, e, files);
  }

  lemma AllRewrittenKeeps(w: World, wo: WorkOrder, d: DiskState, e: DiskState)
    requires Faithful(w) && PlanOf(w, wo, d).Ok? && OnTheWay(w, wo, d, e) && wo.change >= 0.0
    requires PlanOf(w, wo, d).value.grow <= 0
    ensures OnTheWay(w, wo, d, Churned(w, wo, e, PlanOf(w, wo, d).value))
  {
    var p := PlanOf(w, wo, d).value;
    PlannedFiles(w, wo, d, e);
    RewrittenSizes(w, wo, e, p, |p.rewrite|);
    RewrittenFrame(w, wo, e.files, p.rewrite, |p.rewrite|);
    var files := Rewritten(w, wo, e.files, p.rewrite, |p.rewrite|);
    assert files + map[] == files;
    PartlyRewritten(w, wo, d, e, files);
  }

  lemma RecordedKeeps(w: World, wo: WorkOrder, d: DiskState, e: DiskState)
    requires PlanOf(w, wo, d).Ok? && OnTheWay(w, wo, d, e)
    ensures var p := PlanOf(w, wo, d).value;
      OnTheWay(w, wo, d, UpdateManifest(w.sha, e, wo.run, RewriteSet(p.rewrite, |p.rewrite|)))
  {
    var p := PlanOf(w, wo, d).value;
    var hit := RewriteSet(p.rewrite, |p.rewrite|);
    var g := UpdateManifest(w.sha, e, wo.run, hit);
    forall r | r in d.files && r !in hit ensures NewEntry(w.sha, g, hit, r) == NewEntry(w.sha, d, hit, r) {
      assert NewEntry(w.sha, e, hit, r) == NewEntry(w.sha, d, hit, r);
    }
  }

  lemma WholeStepKeeps(w: World, wo: WorkOrder, d: DiskState, e: DiskState, f: Fault)
    requires Faithful(w) && PlanOf(w, wo, d).Ok? && OnTheWay(w, wo, d, e) && wo.change >= 0.0
    requires var p := PlanOf(w, wo, d).value; p.grow <= 0 && !Fails(p, f)
    ensures OnTheWay(w, wo, d, DiskStep(w, wo, e, PlanOf(w, wo, d).value, f).disk)
  {
    var p := PlanOf(w, wo, d).value;
    var after := Churned(w, wo, e, p);
    AllRewrittenKeeps(w, wo, d, e);
    RecordedKeeps(w, wo, d, after);
    assert Changed(wo, p, after) == RewriteSet(p.rewrite, |p.rewrite|);
  }

  /** A step that fails, or succeeds, before growth leaves the disk on its way. */
  lemma StepKeeps(w: World, wo: WorkOrder, d: DiskState, e: DiskState, f: Fault)
    requires Faithful(w) && PlanOf(w, wo, d).Ok? && OnTheWay(w, wo, d, e) && wo.change >= 0.0
    requires var p := PlanOf(w, wo, d).value; BeforeGrowth(p, f) && KeepsSize(p, f)
    ensures OnTheWay(w, wo, d, DiskStep(w, wo, e, PlanOf(w, wo, d).value, f).disk)
  {
    var p := PlanOf(w, wo, d).value;
    if f.RewriteFails? && Fails(p, f) {
      RewriteFailureKeeps(w, wo, d, e, f);
    } else {
      WholeStepKeeps(w, wo, d, e, f);
    }
  }

  // ---- Whole runs ----

  predicate AllOnTheWay(w: World, wo: WorkOrder, ds: seq<DiskState>, es: seq<DiskState>) {
    |es| == |ds| && (ds == [] ||
      var n := |ds| - 1;
      AllOnTheWay(w, wo, ds[..n], es[..n]) && PlanOf(w, wo, ds[n]).Ok? && OnTheWay(w, wo, ds[n], es[n]))
  }

  lemma {:induction false} NoneStarted(w: World, wo: WorkOrder, ds: seq<DiskState>)
    requires Plans(w, wo, ds).Ok?
    ensures AllOnTheWay(w, wo, ds, ds)
  {
    if ds != [] {
      NoneStarted(w, wo, ds[..|ds| - 1]);
    }
  }

  lemma {:induction false} SamePlans(w: World, wo: WorkOrder, ds: seq<DiskState>, es: seq<DiskState>)
    requires AllOnTheWay(w, wo, ds, es)
    ensures Plans(w, wo, es) == Plans(w, wo, ds) && Plans(w, wo, ds).Ok?
  {
    if ds != [] {
      var n := |ds| - 1;
      SamePlans(w, wo, ds[..n], es[..n]);
      SamePlan(w, wo, ds[n], es[n]);
    }
  }

  function NoFaults(n: nat): (fs: seq<Fault>)
    ensures |fs| == n && forall i :: 0 <= i < n ==> fs[i] == NoFault
  {
    seq(n, _ => NoFault)
  }

  lemma MarkSnoc(ds: seq<DiskState>, d: DiskState, m: Marker)
    ensures Mark(ds + [d], m) == Mark(ds, m) + [d.(marker := Some(m))]
  {
  }

  lemma {:induction false} StepsAgree(w: World, wo: WorkOrder, ds: seq<DiskState>, es: seq<DiskState>, ps: seq<Plan>, m: Marker)
    requires Faithful(w) && AllOnTheWay(w, wo, ds, es) && Plans(w, wo, ds) == Ok(ps)
    requires Steps(w, wo, ds, ps, NoFaults(|ds|)).ok
    ensures var a, b := Steps(w, wo, ds, ps, NoFaults(|ds|)), Steps(w, wo, es, ps, NoFaults(|ds|));
      b.ok && Mark(b.disks, m) == Mark(a.disks, m)
  {
    if ds != [] {
      var n := |ds| - 1;
      var none := NoFaults(n);
      assert NoFaults(|ds|)[..n] == none;
      assert ps[..n] == Plans(w, wo, ds[..n]).value;
      StepsAgree(w, wo, ds[..n], es[..n], ps[..n], m);
      FinishAgrees(w, wo, ds[n], es[n]);
      MarkSnoc(Steps(w, wo, ds[..n], ps[..n], none).disks, DiskStep(w, wo, ds[n], ps[n], NoFault).disk, m);
      MarkSnoc(Steps(w, wo, es[..n], ps[..n], none).disks, DiskStep(w, wo, es[n], ps[n], NoFault).disk, m);
    }
  }

  /** Redoing an interrupted incremental gives the report, files, manifests and markers of an uninterrupted one. */
  lemma RedoIsEquivalent(w: World, wo: WorkOrder, ds: seq<DiskState>, es: seq<DiskState>)
    requires Faithful(w) && AllOnTheWay(w, wo, ds, es)
    requires RunIncremental(w, wo, ds, NoFaults(|ds|)).outcome.Done?
    ensures RunIncremental(w, wo, es, NoFaults(|ds|)) == RunIncremental(w, wo, ds, NoFaults(|ds|))
  {
    SamePlans(w, wo, ds, es);
    var ps := Plans(w, wo, ds).value;
    StepsAgree(w, wo, ds, es, ps, Marker(wo.run, TotalBytes(ps)));
  }

  // ---- Any number of interruptions ----

  /** No disk the run reaches begins to grow, and partial rewrites keep sizes. */
  predicate Mild(w: World, wo: WorkOrder, es: seq<DiskState>, ps: seq<Plan>, fs: seq<Fault>)
    requires |es| == |ps| == |fs|
  {
    es == [] ||
      var n := |es| - 1;
      && Mild(w, wo, es[..n], ps[..n], fs[..n])
      && (Steps(w, wo, es[..n], ps[..n], fs[..n]).ok ==> BeforeGrowth(ps[n], fs[n]) && KeepsSize(ps[n], fs[n]))
  }

  lemma {:induction false} StepsKeep(w: World, wo: WorkOrder, ds: seq<DiskState>, es: seq<DiskState>, ps: seq<Plan>, fs: seq<Fault>)
    requires Faithful(w) && wo.change >= 0.0 && AllOnTheWay(w, wo, ds, es) && |fs| == |ds|
    requires Plans(w, wo, ds) == Ok(ps) && Mild(w, wo, es, ps, fs)
    ensures AllOnTheWay(w, wo, ds, Steps(w, wo, es, ps, fs).disks)
  {
    if ds != [] {
      var n := |ds| - 1;
      assert ps[..n] == Plans(w, wo, ds[..n]).value;
      StepsKeep(w, wo, ds[..n], es[..n], ps[..n], fs[..n]);
      var after := Steps(w, wo, es, ps, fs).disks;
      assert after[..n] == Steps(w, wo, es[..n], ps[..n], fs[..n]).disks;
      if Steps(w, wo, es[..n], ps[..n], fs[..n]).ok {
        StepKeeps(w, wo, ds[n], es[n], fs[n]);
      }
    }
  }

  /** The disks when each attempt in turn was interrupted while writing: no attempt reaches its markers. */
  function AfterAttempts(w: World, wo: WorkOrder, ds: seq<DiskState>, attempts: seq<seq<Fault>>): (es: seq<DiskState>)
    requires forall i :: 0 <= i < |attempts| ==> |attempts[i]| == |ds|
    ensures |es| == |ds|
  {
    if attempts == [] then ds
    else
      var n := |attempts| - 1;
      var es := AfterAttempts(w, wo, ds, attempts[..n]);
      if Plans(w, wo, es).Err? then es else Steps(w, wo, es, Plans(w, wo, es).value, attempts[n]).disks
  }

  predicate AllMild(w: World, wo: WorkOrder, ds: seq<DiskState>, attempts: seq<seq<Fault>>)
    requires forall i :: 0 <= i < |attempts| ==> |attempts[i]| == |ds|
  {
    attempts == [] ||
      var n := |attempts| - 1;
      var es := AfterAttempts(w, wo, ds, attempts[..n]);
      && AllMild(w, wo, ds, attempts[..n])
      && (Plans(w, wo, es).Ok? ==> Mild(w, wo, es, Plans(w, wo, es).value, attempts[n]))
  }

  lemma {:induction false} AttemptsKeep(w: World, wo: WorkOrder, ds: seq<DiskState>, attempts: seq<seq<Fault>>)
    requires Faithful(w) && wo.change >= 0.0 && Plans(w, wo, ds).Ok?
    requires forall i :: 0 <= i < |attempts| ==> |attempts[i]| == |ds|
    requires AllMild(w, wo, ds, attempts)
    ensures AllOnTheWay(w, wo, ds, AfterAttempts(w, wo, ds, attempts))
  {
    if attempts == [] {
      NoneStarted(w, wo, ds);
    } else {
      var n := |attempts| - 1;
      AttemptsKeep(w, wo, ds, attempts[..n]);
      var es := AfterAttempts(w, wo, ds, attempts[..n]);
      SamePlans(w, wo, ds, es);
      StepsKeep(w, wo, ds, es, Plans(w, wo, ds).value, attempts[n]);
    }
  }

  /** However often an incremental is interrupted before growth begins, redispatching the same order ends exactly
      as if it had never been interrupted. */
  lemma CrashesDoNotShow(w: World, wo: WorkOrder, ds: seq<DiskState>, attempts: seq<seq<Fault>>)
    requires Faithful(w) && wo.change >= 0.0
    requires forall i :: 0 <= i < |attempts| ==> |attempts[i]| == |ds|
    requires AllMild(w, wo, ds, attempts)
    requires RunIncremental(w, wo, ds, NoFaults(|ds|)).outcome.Done?
    ensures RunIncremental(w, wo, AfterAttempts(w, wo, ds, attempts), NoFaults(|ds|))
      == RunIncremental(w, wo, ds, NoFaults(|ds|))
  {
    AttemptsKeep(w, wo, ds, attempts);
    RedoIsEquivalent(w, wo, ds, AfterAttempts(w, wo, ds, attempts));
  }

  // ---- An initial fill starts over ----

  lemma {:induction false} FillStepsForget(w: World, wo: WorkOrder, works: seq<DiskWork>, ds: seq<DiskState>, es: seq<DiskState>)
    requires |ds| == |es| == |works| && forall i :: 0 <= i < |ds| ==> es[i].broken == ds[i].broken
    requires FillSteps(w, wo, works, ds, NoFaults(|ds|)).ok
    ensures FillSteps(w, wo, works, es, NoFaults(|ds|)) == FillSteps(w, wo, works, ds, NoFaults(|ds|))
  {
    if ds != [] {
      var n := |ds| - 1;
      assert NoFaults(|ds|)[..n] == NoFaults(n);
      FillStepsForget(w, wo, works[..n], ds[..n], es[..n]);
      FillStepForgets(w, wo, works[n], ds[n], es[n]);
    }
  }

  lemma FillStepForgets(w: World, wo: WorkOrder, work: DiskWork, d: DiskState, e: DiskState)
    requires e.broken == d.broken
    ensures FillStep(w, wo, work, e, NoFault) == FillStep(w, wo, work, d, NoFault)
  {
    assert Formatted(e) == Formatted(d);
  }

  /** Whatever an interrupted initial fill left behind, redoing it gives the disks of an uninterrupted one. */
  lemma FillStartsOver(w: World, wo: WorkOrder, ds: seq<DiskState>, es: seq<DiskState>)
    requires |ds| == |es| == |wo.disks| && forall i :: 0 <= i < |ds| ==> es[i].broken == ds[i].broken
    requires RunInitialFill(w, wo, ds, NoFaults(|ds|)).outcome.Done?
    ensures RunInitialFill(w, wo, es, NoFaults(|ds|)) == RunInitialFill(w, wo, ds, NoFaults(|ds|))
  {
    FillStepsForget(w, wo, wo.disks, ds, es);
  }
}
