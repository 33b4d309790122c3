/** What the VMs of one run hold in common, and keep (cmd/agent/gen.go:117-241, :302-321, internal/datagen/datagen.go:195-225). */
module SharedData {
  import opened Common
  import opened Seeds
  import opened Listing
  import opened ChangeSet
  import opened Disk
  import opened Churn
  import opened AgentRun

  /** The files of one directory. */
  function RegionOf(d: DiskState, dir: Dir): map<Rel, Content> {
    map r | r in d.files && r.dir == dir :: d.files[r]
  }

  /** Each directory holds what its own job lays out: the global one with the global seed, the local one with the local. */
  predicate RegionsAre(w: World, wo: WorkOrder, work: DiskWork, d: DiskState) {
    && RegionOf(d, GlobalDir) == (if work.globalBytes <= 0 then map[] else
         Place(GlobalDir, w.layout(KnobsOf(wo), Ascii("gf_global"), work.globalSeed, work.globalBytes, FileCount(work.globalBytes))))
    && RegionOf(d, LocalDir) == (if work.localBytes <= 0 then map[] else
         Place(LocalDir, w.layout(KnobsOf(wo), Ascii("gf_local"), work.localSeed, work.localBytes, FileCount(work.localBytes))))
  }

  lemma PlacedRegion(dir: Dir, named: map<Name, Content>, d: DiskState, e: DiskState)
    requires e.files == d.files + Place(dir, named)
    ensures forall other :: other != dir ==> RegionOf(e, other) == RegionOf(d, other)
    ensures RegionOf(d, dir) == map[] ==> RegionOf(e, dir) == Place(dir, named)
  {
  }

  /** One region, written without a fault. */
  lemma RegionWritten(w: World, wo: WorkOrder, d: DiskState, dir: Dir, bytes: int, seed: nat)
    requires RegionOf(d, dir) == map[]
    ensures var e := WithRegion(d, dir, bytes, RegionFiles(w, wo, dir, bytes, seed));
      && RegionOf(e, dir) == RegionFiles(w, wo, dir, bytes, seed)
      && forall other :: other != dir ==> RegionOf(e, other) == RegionOf(d, other)
  {
    if bytes > 0 {
      var e := WithRegion(d, dir, bytes, RegionFiles(w, wo, dir, bytes, seed));
      PlacedRegion(dir, w.layout(KnobsOf(wo), RegionJob(dir), seed, bytes, FileCount(bytes)), d, e);
    }
  }

  lemma FormattedRegion(d: DiskState, dir: Dir)
    ensures RegionOf(Formatted(d), dir) == map[]
  {
  }

  /** Both regions, written without a fault on a new filesystem. */
  function Laid(w: World, wo: WorkOrder, work: DiskWork, d: DiskState): DiskState {
    var global := WithRegion(Formatted(d), GlobalDir, work.globalBytes, RegionFiles(w, wo, GlobalDir, work.globalBytes, work.globalSeed));
    WithRegion(global, LocalDir, work.localBytes, RegionFiles(w, wo, LocalDir, work.localBytes, work.localSeed))
  }

  lemma LaidRegion(w: World, wo: WorkOrder, work: DiskWork, d: DiskState)
    ensures RegionOf(Laid(w, wo, work, d), GlobalDir) == RegionFiles(w, wo, GlobalDir, work.globalBytes, work.globalSeed)
    ensures RegionOf(Laid(w, wo, work, d), LocalDir) == RegionFiles(w, wo, LocalDir, work.localBytes, work.localSeed)
  {
    FormattedRegion(d, GlobalDir);
    FormattedRegion(d, LocalDir);
    RegionWritten(w, wo, Formatted(d), GlobalDir, work.globalBytes, work.globalSeed);
    var global := WithRegion(Formatted(d), GlobalDir, work.globalBytes, RegionFiles(w, wo, GlobalDir, work.globalBytes, work.globalSeed));
    RegionWritten(w, wo, global, LocalDir, work.localBytes, work.localSeed);
  }

  lemma FilledIsLaid(w: World, wo: WorkOrder, work: DiskWork, d: DiskState, f: Fault)
    requires FillStep(w, wo, work, d, f).ok
    ensures FillStep(w, wo, work, d, f).disk.files == Laid(w, wo, work, d).files
  {
  }

  lemma RegionsFrom(w: World, wo: WorkOrder, work: DiskWork, d: DiskState)
    requires RegionOf(d, GlobalDir) == RegionFiles(w, wo, GlobalDir, work.globalBytes, work.globalSeed)
    requires RegionOf(d, LocalDir) == RegionFiles(w, wo, LocalDir, work.localBytes, work.localSeed)
    ensures RegionsAre(w, wo, work, d)
  {
  }

  lemma SameFilesSameRegion(d: DiskState, e: DiskState, dir: Dir)
    requires d.files == e.files
    ensures RegionOf(d, dir) == RegionOf(e, dir)
  {
  }

  lemma RegionsOfSame(w: World, wo: WorkOrder, work: DiskWork, d: DiskState, after: DiskState)
    requires after.files == Laid(w, wo, work, d).files
    ensures RegionsAre(w, wo, work, after)
  {
    var laid := Laid(w, wo, work, d);
    SameFilesSameRegion(after, laid, GlobalDir);
    SameFilesSameRegion(after, laid, LocalDir);
    LaidRegion(w, wo, work, d);
    RegionsFrom(w, wo, work, after);
  }

  lemma StepRegions(w: World, wo: WorkOrder, work: DiskWork, d: DiskState, f: Fault)
    requires FillStep(w, wo, work, d, f).ok
    ensures RegionsAre(w, wo, work, FillStep(w, wo, work, d, f).disk)
  {
    RegionsOfSame(w, wo, work, d, FillStep(w, wo, work, d, f).disk) by {
      FilledIsLaid(w, wo, work, d, f);
    }
  }

  lemma {:induction false} StepsRegions(w: World, wo: WorkOrder, works: seq<DiskWork>, ds: seq<DiskState>, fs: seq<Fault>, i: nat)
    requires |ds| == |works| == |fs| && i < |ds| && FillSteps(w, wo, works, ds, fs).ok
    ensures RegionsAre(w, wo, works[i], FillSteps(w, wo, works, ds, fs).disks[i])
  {
    var n := |ds| - 1;
    if i == n {
      StepRegions(w, wo, works[n], ds[n], fs[n]);
    } else {
      StepsRegions(w, wo, works[..n], ds[..n], fs[..n], i);
    }
  }

  /** After a successful initial fill, whatever was on the disks before. */
  lemma FilledRegions(w: World, wo: WorkOrder, ds: seq<DiskState>, fs: seq<Fault>, i: nat)
    requires |ds| == |wo.disks| == |fs| && i < |ds| && RunInitialFill(w, wo, ds, fs).outcome.Done?
    ensures RegionsAre(w, wo, wo.disks[i], RunInitialFill(w, wo, ds, fs).disks[i])
  {
    StepsRegions(w, wo, wo.disks, ds, fs, i);
  }

  // ---- Later runs ----

  /** Disk by disk the same global directory. */
  ghost predicate SameGlobal(a: seq<DiskState>, b: seq<DiskState>) {
    |a| == |b| && forall i :: 0 <= i < |a| ==> RegionOf(a[i], GlobalDir) == RegionOf(b[i], GlobalDir)
  }

  lemma {:induction false} RewritesStayLocal(w: World, wo: WorkOrder, d: DiskState, plan: seq<PlanFile>, k: nat)
    requires k <= |plan|
    ensures RegionOf(d.(files := Rewritten(w, wo, d.files, plan, k)), GlobalDir) == RegionOf(d, GlobalDir)
  {
    if k > 0 {
      RewritesStayLocal(w, wo, d, plan, k - 1);
    }
  }

  lemma LocalWriteStaysLocal(d: DiskState, e: DiskState, named: map<Name, Content>)
    requires e.files == d.files + Place(LocalDir, named)
    ensures RegionOf(e, GlobalDir) == RegionOf(d, GlobalDir)
  {
    PlacedRegion(LocalDir, named, d, e);
  }

  lemma ChurnedStaysLocal(w: World, wo: WorkOrder, d: DiskState, p: Plan)
    ensures RegionOf(Churned(w, wo, d, p), GlobalDir) == RegionOf(d, GlobalDir)
  {
    var mid := d.(files := Rewritten(w, wo, d.files, p.rewrite, |p.rewrite|));
    RewritesStayLocal(w, wo, d, p.rewrite, |p.rewrite|);
    if p.grow > 0 {
      LocalWriteStaysLocal(mid, Churned(w, wo, d, p), w.layout(KnobsOf(wo), GrowJob(wo), GrowSeed(wo), p.grow, FileCount(p.grow)));
    }
  }

  lemma ChurnStaysLocal(w: World, wo: WorkOrder, d: DiskState, p: Plan, f: Fault)
    ensures RegionOf(ChurnResult(w, wo, d, p, f), GlobalDir) == RegionOf(d, GlobalDir)
  {
    if !Fails(p, f) {
      ChurnedStaysLocal(w, wo, d, p);
    } else if f.RewriteFails? {
      RewritesStayLocal(w, wo, d, p.rewrite, f.at);
    } else {
      RewritesStayLocal(w, wo, d, p.rewrite, |p.rewrite|);
      LocalWriteStaysLocal(d.(files := Rewritten(w, wo, d.files, p.rewrite, |p.rewrite|)), ChurnResult(w, wo, d, p, f), f.left);
    }
  }

  lemma StepStaysLocal(w: World, wo: WorkOrder, d: DiskState, p: Plan, f: Fault)
    ensures RegionOf(DiskStep(w, wo, d, p, f).disk, GlobalDir) == RegionOf(d, GlobalDir)
  {
    ChurnStaysLocal(w, wo, d, p, f);
    SameFilesSameRegion(DiskStep(w, wo, d, p, f).disk, ChurnResult(w, wo, d, p, f), GlobalDir);
  }

  lemma OneMoreSame(a: seq<DiskState>, b: seq<DiskState>, d: DiskState, e: DiskState)
    requires SameGlobal(a, b) && RegionOf(d, GlobalDir) == RegionOf(e, GlobalDir)
    ensures SameGlobal(a + [d], b + [e])
  {
  }

  lemma {:induction false} StepsStayLocal(w: World, wo: WorkOrder, ds: seq<DiskState>, ps: seq<Plan>, fs: seq<Fault>)
    requires |ds| == |ps| == |fs|
    ensures SameGlobal(ds, Steps(w, wo, ds, ps, fs).disks)
  {
    if ds != [] {
      var n := |ds| - 1;
      var front := Steps(w, wo, ds[..n], ps[..n], fs[..n]);
      StepsStayLocal(w, wo, ds[..n], ps[..n], fs[..n]);
      assert ds == ds[..n] + [ds[n]];
      if front.ok {
        StepStaysLocal(w, wo, ds[n], ps[n], fs[n]);
        OneMoreSame(ds[..n], front.disks, ds[n], DiskStep(w, wo, ds[n], ps[n], fs[n]).disk);
      } else {
        OneMoreSame(ds[..n], front.disks, ds[n], ds[n]);
      }
    }
  }

  lemma LaterRunStaysLocal(w: World, wo: WorkOrder, ds: seq<DiskState>, fs: seq<Fault>)
    requires |ds| == |wo.disks| == |fs| && wo.runType != InitialFill
    ensures SameGlobal(ds, RunFill(w, wo, ds, fs).disks)
  {
    if wo.runType == Incremental && AlreadyComplete(wo, ds).None? && Plans(w, wo, ds).Ok? {
      StepsStayLocal(w, wo, ds, Plans(w, wo, ds).value, fs);
    }
  }

  /** An order an agent gets, and what goes wrong with it, disk by disk. */
  datatype Attempt = Attempt(wo: WorkOrder, fs: seq<Fault>)

  predicate LaterAttempt(n: nat, a: Attempt) {
    a.wo.runType != InitialFill && |a.wo.disks| == |a.fs| == n
  }

  ghost function Play(w: World, ds: seq<DiskState>, attempts: seq<Attempt>): (r: seq<DiskState>)
    requires forall a :: a in attempts ==> LaterAttempt(|ds|, a)
    ensures |r| == |ds|
  {
    if attempts == [] then ds
    else
      var n := |attempts| - 1;
      var before := Play(w, ds, attempts[..n]);
      assert LaterAttempt(|ds|, attempts[n]);
      LaterRunStaysLocal(w, attempts[n].wo, before, attempts[n].fs);
      RunFill(w, attempts[n].wo, before, attempts[n].fs).disks
  }

  lemma {:induction false} BaselineStays(w: World, ds: seq<DiskState>, attempts: seq<Attempt>)
    requires forall a :: a in attempts ==> LaterAttempt(|ds|, a)
    ensures SameGlobal(ds, Play(w, ds, attempts))
  {
    if attempts != [] {
      var n := |attempts| - 1;
      BaselineStays(w, ds, attempts[..n]);
      assert LaterAttempt(|ds|, attempts[n]);
      LaterRunStaysLocal(w, attempts[n].wo, Play(w, ds, attempts[..n]), attempts[n].fs);
    }
  }

  /** Two VMs filled by one run hold the same global files on every disk, whatever was on their disks before. */
  lemma FilledAlike(w: World, a: WorkOrder, b: WorkOrder, deployment: Part, run: Part, vmA: Part, vmB: Part, spec: Recipe,
                    dsA: seq<DiskState>, fsA: seq<Fault>, dsB: seq<DiskState>, fsB: seq<Fault>)
    requires OrderIsFor(a, deployment, run, vmA, spec) && OrderIsFor(b, deployment, run, vmB, spec)
    requires |dsA| == |fsA| == |a.disks| && |dsB| == |fsB| == |b.disks|
    requires RunInitialFill(w, a, dsA, fsA).outcome.Done? && RunInitialFill(w, b, dsB, fsB).outcome.Done?
    ensures SameGlobal(RunInitialFill(w, a, dsA, fsA).disks, RunInitialFill(w, b, dsB, fsB).disks)
  {
    GlobalDataIsShared(a, b, deployment, run, vmA, vmB, spec);
    forall i | 0 <= i < |dsA|
      ensures RegionOf(RunInitialFill(w, a, dsA, fsA).disks[i], GlobalDir) == RegionOf(RunInitialFill(w, b, dsB, fsB).disks[i], GlobalDir)
    {
      FilledRegions(w, a, dsA, fsA, i);
      FilledRegions(w, b, dsB, fsB, i);
    }
  }

  /** And they go on holding the same: any incrementals and verify runs later, each VM its own, failed or not, leave
      the global files of the two VMs equal. */
  lemma SharedDataStays(w: World, a: WorkOrder, b: WorkOrder, deployment: Part, run: Part, vmA: Part, vmB: Part, spec: Recipe,
                        dsA: seq<DiskState>, fsA: seq<Fault>, dsB: seq<DiskState>, fsB: seq<Fault>,
                        laterA: seq<Attempt>, laterB: seq<Attempt>)
    requires OrderIsFor(a, deployment, run, vmA, spec) && OrderIsFor(b, deployment, run, vmB, spec)
    requires |dsA| == |fsA| == |a.disks| && |dsB| == |fsB| == |b.disks|
    requires RunInitialFill(w, a, dsA, fsA).outcome.Done? && RunInitialFill(w, b, dsB, fsB).outcome.Done?
    requires forall x :: x in laterA ==> LaterAttempt(|RunInitialFill(w, a, dsA, fsA).disks|, x)
    requires forall x :: x in laterB ==> LaterAttempt(|RunInitialFill(w, b, dsB, fsB).disks|, x)
    ensures SameGlobal(Play(w, RunInitialFill(w, a, dsA, fsA).disks, laterA), Play(w, RunInitialFill(w, b, dsB, fsB).disks, laterB))
  {
    FilledAlike(w, a, b, deployment, run, vmA, vmB, spec, dsA, fsA, dsB, fsB);
    BaselineStays(w, RunInitialFill(w, a, dsA, fsA).disks, laterA);
    BaselineStays(w, RunInitialFill(w, b, dsB, fsB).disks, laterB);
  }
}
