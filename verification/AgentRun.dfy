/** A whole run over a VM's disks, as a function of their states (cmd/agent/gen.go:21-241). */
module AgentRun {
  import opened Common
  import opened Listing
  import opened Seeds
  import opened Disk
  import opened Churn
  import V = Verify

  datatype StepResult = StepResult(disk: DiskState, ok: bool)

  /** One disk's churn and manifest update. */
  function DiskStep(w: World, wo: WorkOrder, d: DiskState, p: Plan, f: Fault): StepResult {
    var after := ChurnResult(w, wo, d, p, f);
    var changed := Changed(wo, p, after);
    if Fails(p, f) || Hashed(after, changed) * after.broken != {} then StepResult(after, false)
    else StepResult(UpdateManifest(w.sha, after, wo.run, changed), true)
  }

  datatype RunResult = RunResult(disks: seq<DiskState>, ok: bool)

  /** The disks in order; the first that fails ends the run. */
  function Steps(w: World, wo: WorkOrder, ds: seq<DiskState>, ps: seq<Plan>, fs: seq<Fault>): (r: RunResult)
    requires |ds| == |ps| == |fs|
    ensures |r.disks| == |ds|
  {
    if ds == [] then RunResult([], true)
    else
      var n := |ds| - 1;
      var front := Steps(w, wo, ds[..n], ps[..n], fs[..n]);
      if !front.ok then RunResult(front.disks + [ds[n]], false)
      else
        var last := DiskStep(w, wo, ds[n], ps[n], fs[n]);
        RunResult(front.disks + [last.disk], last.ok)
  }

  function Plans(w: World, wo: WorkOrder, ds: seq<DiskState>): (r: Result<seq<Plan>, Failure>)
    ensures r.Ok? ==> |r.value| == |ds|
  {
    if ds == [] then Ok([])
    else
      var front := Plans(w, wo, ds[..|ds| - 1]);
      if front.Err? then front
      else
        var last := PlanOf(w, wo, ds[|ds| - 1]);
        if last.Err? then Err(last.error) else Ok(front.value + [last.value])
  }

  function TotalBytes(ps: seq<Plan>): int {
    if ps == [] then 0 else TotalBytes(ps[..|ps| - 1]) + PlanBytes(ps[|ps| - 1])
  }

  function Mark(ds: seq<DiskState>, m: Marker): (r: seq<DiskState>)
    ensures |r| == |ds| && forall i :: 0 <= i < |r| ==> r[i] == ds[i].(marker := Some(m))
  {
    seq(|ds|, i requires 0 <= i < |ds| => ds[i].(marker := Some(m)))
  }

  datatype Outcome = Done(bytes: int) | Failed

  datatype Report = Report(outcome: Outcome, disks: seq<DiskState>)

  /** Plan every disk, churn them in order, then mark every disk. */
  function RunIncremental(w: World, wo: WorkOrder, ds: seq<DiskState>, fs: seq<Fault>): Report
    requires |ds| == |fs|
  {
    var plans := Plans(w, wo, ds);
    if plans.Err? then Report(Failed, ds)
    else
      var r := Steps(w, wo, ds, plans.value, fs);
      if !r.ok then Report(Failed, r.disks)
      else
        var written := TotalBytes(plans.value);
        Report(Done(written), Mark(r.disks, Marker(wo.run, written)))
  }

  lemma IncrementalIs(w: World, wo: WorkOrder, ds: seq<DiskState>, fs: seq<Fault>, ps: seq<Plan>, r: RunResult)
    requires |ds| == |fs| && Plans(w, wo, ds) == Ok(ps) && Steps(w, wo, ds, ps, fs) == r
    ensures RunIncremental(w, wo, ds, fs) == if r.ok
      then Report(Done(TotalBytes(ps)), Mark(r.disks, Marker(wo.run, TotalBytes(ps))))
      else Report(Failed, r.disks)
  {
  }

  // ---- Initial fill ----

  function RegionJob(dir: Dir): Name {
    if dir == GlobalDir then Ascii("gf_global") else Ascii("gf_local")
  }

  function RegionFiles(w: World, wo: WorkOrder, dir: Dir, bytes: int, seed: nat): map<Rel, Content> {
    if bytes <= 0 then map[] else Place(dir, w.layout(KnobsOf(wo), RegionJob(dir), seed, bytes, FileCount(bytes)))
  }

  function WithRegion(d: DiskState, dir: Dir, bytes: int, files: map<Rel, Content>): DiskState {
    if bytes <= 0 then d else d.(dirs := d.dirs + {dir}, files := d.files + files)
  }

  /** A new filesystem: nothing of the old one is left. */
  function Formatted(d: DiskState): DiskState {
    DiskState(true, {}, map[], d.broken, None, None)
  }

  /** The regions as far as they were written. */
  function FillResult(w: World, wo: WorkOrder, work: DiskWork, d: DiskState, f: Fault): DiskState {
    var global := WithRegion(Formatted(d), GlobalDir, work.globalBytes,
      if f.RegionFails? && f.dir == GlobalDir then Place(GlobalDir, f.left)
      else RegionFiles(w, wo, GlobalDir, work.globalBytes, work.globalSeed));
    if FillFails(work, f) && f.dir == GlobalDir then global
    else WithRegion(global, LocalDir, work.localBytes,
      if f.RegionFails? && f.dir == LocalDir then Place(LocalDir, f.left)
      else RegionFiles(w, wo, LocalDir, work.localBytes, work.localSeed))
  }

  predicate FillFails(work: DiskWork, f: Fault) {
    f.RegionFails? && (if f.dir == GlobalDir then work.globalBytes else work.localBytes) > 0
  }

  function FillStep(w: World, wo: WorkOrder, work: DiskWork, d: DiskState, f: Fault): StepResult {
    var after := FillResult(w, wo, work, d, f);
    if FillFails(work, f) || Hashed(after, {}) * after.broken != {} then StepResult(after, false)
    else StepResult(UpdateManifest(w.sha, after, wo.run, {}), true)
  }

  function FillSteps(w: World, wo: WorkOrder, works: seq<DiskWork>, ds: seq<DiskState>, fs: seq<Fault>): (r: RunResult)
    requires |ds| == |works| == |fs|
    ensures |r.disks| == |ds|
  {
    if ds == [] then RunResult([], true)
    else
      var n := |ds| - 1;
      var front := FillSteps(w, wo, works[..n], ds[..n], fs[..n]);
      if !front.ok then RunResult(front.disks + [ds[n]], false)
      else
        var last := FillStep(w, wo, works[n], ds[n], fs[n]);
        RunResult(front.disks + [last.disk], last.ok)
  }

  function FillBytes(works: seq<DiskWork>): int {
    if works == [] then 0
    else FillBytes(works[..|works| - 1]) + works[|works| - 1].globalBytes + works[|works| - 1].localBytes
  }

  function RunInitialFill(w: World, wo: WorkOrder, ds: seq<DiskState>, fs: seq<Fault>): Report
    requires |ds| == |wo.disks| == |fs|
  {
    var r := FillSteps(w, wo, wo.disks, ds, fs);
    if !r.ok then Report(Failed, r.disks)
    else Report(Done(FillBytes(wo.disks)), Mark(r.disks, Marker(wo.run, FillBytes(wo.disks))))
  }

  // ---- Dispatch of a work order ----

  predicate Complete(wo: WorkOrder, d: DiskState) {
    d.formatted && d.marker.Some? && d.marker.value.run == wo.run
  }

  /** Every disk carries this run's marker; the total is the last disk's. */
  function AlreadyComplete(wo: WorkOrder, ds: seq<DiskState>): Option<int> {
    if exists i :: 0 <= i < |ds| && !Complete(wo, ds[i]) then None
    else if ds == [] then Some(0)
    else Some(ds[|ds| - 1].marker.value.total)
  }

  /** Verify reads only, and is neither marked nor skipped. */
  ghost function RunVerify(w: World, ds: seq<DiskState>): Report {
    Report(if forall i :: 0 <= i < |ds| ==> V.Intact(w.sha, ds[i]) then Done(V.AllRecordedBytes(ds)) else Failed, ds)
  }

  /** A work order on the disks it finds. */
  ghost function RunFill(w: World, wo: WorkOrder, ds: seq<DiskState>, fs: seq<Fault>): Report
    requires |ds| == |wo.disks| == |fs|
  {
    var complete := AlreadyComplete(wo, ds);
    if wo.runType == Verify then RunVerify(w, ds)
    else if complete.Some? then Report(Done(complete.value), ds)
    else if wo.runType == Incremental then RunIncremental(w, wo, ds, fs)
    else RunInitialFill(w, wo, ds, fs)
  }

  lemma {:induction false} StepsKeepFormat(w: World, wo: WorkOrder, ds: seq<DiskState>, ps: seq<Plan>, fs: seq<Fault>)
    requires |ds| == |ps| == |fs|
    ensures forall i :: 0 <= i < |ds| ==> Steps(w, wo, ds, ps, fs).disks[i].formatted == ds[i].formatted
  {
    if ds != [] {
      StepsKeepFormat(w, wo, ds[..|ds| - 1], ps[..|ds| - 1], fs[..|ds| - 1]);
    }
  }

  lemma {:induction false} PlannedAt(w: World, wo: WorkOrder, ds: seq<DiskState>, i: nat)
    requires Plans(w, wo, ds).Ok? && i < |ds|
    ensures PlanOf(w, wo, ds[i]) == Ok(Plans(w, wo, ds).value[i]) && ds[i].formatted
  {
    if i < |ds| - 1 {
      PlannedAt(w, wo, ds[..|ds| - 1], i);
    }
  }

  lemma PlannedIsFormatted(w: World, wo: WorkOrder, ds: seq<DiskState>)
    requires Plans(w, wo, ds).Ok?
    ensures forall i :: 0 <= i < |ds| ==> ds[i].formatted
  {
    forall i | 0 <= i < |ds| ensures ds[i].formatted {
      PlannedAt(w, wo, ds, i);
    }
  }

  lemma {:induction false} FilledIsFormatted(w: World, wo: WorkOrder, works: seq<DiskWork>, ds: seq<DiskState>, fs: seq<Fault>)
    requires |ds| == |works| == |fs| && FillSteps(w, wo, works, ds, fs).ok
    ensures forall i :: 0 <= i < |ds| ==> FillSteps(w, wo, works, ds, fs).disks[i].formatted
  {
    if ds != [] {
      FilledIsFormatted(w, wo, works[..|ds| - 1], ds[..|ds| - 1], fs[..|ds| - 1]);
    }
  }

  lemma MarkedIsComplete(wo: WorkOrder, ds: seq<DiskState>, total: int)
    requires forall i :: 0 <= i < |ds| ==> ds[i].formatted
    ensures AlreadyComplete(wo, Mark(ds, Marker(wo.run, total))) == Some(if ds == [] then 0 else total)
  {
  }

  /** A redispatch after success changes nothing and reports the same bytes. */
  lemma RedispatchReconfirms(w: World, wo: WorkOrder, ds: seq<DiskState>, fs: seq<Fault>, again: seq<Fault>)
    requires |ds| == |wo.disks| == |fs| == |again|
    requires RunFill(w, wo, ds, fs).outcome.Done?
    ensures RunFill(w, wo, RunFill(w, wo, ds, fs).disks, again) == RunFill(w, wo, ds, fs)
  {
    if wo.runType != Verify && AlreadyComplete(wo, ds).None? {
      if wo.runType == Incremental {
        var plans := Plans(w, wo, ds).value;
        PlannedIsFormatted(w, wo, ds);
        StepsKeepFormat(w, wo, ds, plans, fs);
        MarkedIsComplete(wo, Steps(w, wo, ds, plans, fs).disks, TotalBytes(plans));
      } else {
        FilledIsFormatted(w, wo, wo.disks, ds, fs);
        MarkedIsComplete(wo, FillSteps(w, wo, wo.disks, ds, fs).disks, FillBytes(wo.disks));
      }
    }
  }
}
