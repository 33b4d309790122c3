/** The initial fill and the dispatch of an order on mounted disks (cmd/agent/gen.go:37-167, :302-321). */
module AgentFill {
  import opened Common
  import opened Seeds
  import opened Disk
  import opened Churn
  import opened AgentRun
  import opened AgentSteps
  import opened Progress
  import V = Verify

  /** fillRegion: nothing for an empty region, otherwise a directory and one fio job. */
  method FillRegion(w: World, wo: WorkOrder, v: Volume, dir: Dir, bytes: int, seed: nat, f: Fault, status: seq<real>, prog: Progress)
    returns (ok: bool)
    modifies v`dirs, v`files, prog
    ensures ok == !(bytes > 0 && f.RegionFails? && f.dir == dir)
    ensures v.State() == WithRegion(old(v.State()), dir, bytes,
      if f.RegionFails? && f.dir == dir then Place(dir, f.left) else RegionFiles(w, wo, dir, bytes, seed))
  {
    if bytes <= 0 {
      return true;
    }
    v.dirs := v.dirs + {dir};
    var fails := f.RegionFails? && f.dir == dir;
    prog.RunFio(bytes, status, !fails);
    v.files := v.files + if fails then Place(dir, f.left) else RegionFiles(w, wo, dir, bytes, seed);
    return !fails;
  }

  method MakeFS(v: Volume)
    modifies v
    ensures v.State() == Formatted(old(v.State()))
  {
    v.formatted, v.dirs, v.files, v.manifest, v.marker := true, {}, map[], None, None;
  }

  method FillDisk(w: World, wo: WorkOrder, work: DiskWork, v: Volume, f: Fault, status: nat -> seq<real>, prog: Progress)
    returns (ok: bool)
    modifies v, prog
    ensures StepResult(v.State(), ok) == FillStep(w, wo, work, old(v.State()), f)
  {
    MakeFS(v);
    ok := FillRegion(w, wo, v, GlobalDir, work.globalBytes, work.globalSeed, f, status(0), prog);
    if !ok {
      return false;
    }
    ok := FillRegion(w, wo, v, LocalDir, work.localBytes, work.localSeed, f, status(1), prog);
    if !ok {
      return false;
    }
    ok := v.UpdateDiskManifest(w.sha, wo.run, {});
  }

  lemma FillOne(w: World, wo: WorkOrder, works: seq<DiskWork>, ds: seq<DiskState>, fs: seq<Fault>, i: nat)
    requires |ds| == |works| == |fs| && i < |ds|
    ensures var front, last := FillSteps(w, wo, works[..i], ds[..i], fs[..i]), FillStep(w, wo, works[i], ds[i], fs[i]);
      FillSteps(w, wo, works[..i + 1], ds[..i + 1], fs[..i + 1]) == if front.ok
        then RunResult(front.disks + [last.disk], last.ok)
        else RunResult(front.disks + [ds[i]], false)
  {
    assert ds[..i + 1][..i] == ds[..i] && works[..i + 1][..i] == works[..i] && fs[..i + 1][..i] == fs[..i];
  }

  lemma {:induction false} FillStop(w: World, wo: WorkOrder, works: seq<DiskWork>, ds: seq<DiskState>, fs: seq<Fault>, i: nat)
    requires |ds| == |works| == |fs| && i <= |ds|
    requires i < |ds| ==> !FillSteps(w, wo, works[..i], ds[..i], fs[..i]).ok
    ensures FillSteps(w, wo, works, ds, fs)
      == RunResult(FillSteps(w, wo, works[..i], ds[..i], fs[..i]).disks + ds[i..], FillSteps(w, wo, works[..i], ds[..i], fs[..i]).ok)
    decreases |ds| - i
  {
    if i < |ds| {
      FillOne(w, wo, works, ds, fs, i);
      FillStop(w, wo, works, ds, fs, i + 1);
      assert [ds[i]] + ds[i + 1..] == ds[i..];
    } else {
      assert ds[..i] == ds && works[..i] == works && fs[..i] == fs;
    }
  }

  method FillNext(w: World, wo: WorkOrder, vols: seq<Volume>, i: nat, f: Fault, status: nat -> seq<real>, prog: Progress,
                  ghost now: seq<DiskState>) returns (ok: bool)
    requires Separate(vols) && StatesAre(vols, now) && i < |vols| == |wo.disks|
    modifies vols[i], prog
    ensures ok == FillStep(w, wo, wo.disks[i], now[i], f).ok
    ensures StatesAre(vols, now[i := FillStep(w, wo, wo.disks[i], now[i], f).disk])
  {
    ok := FillDisk(w, wo, wo.disks[i], vols[i], f, status, prog);
  }

  method FillAll(w: World, wo: WorkOrder, vols: seq<Volume>, fs: seq<Fault>, status: nat -> seq<real>, prog: Progress,
                 ghost ds: seq<DiskState>) returns (ok: bool, ghost now: seq<DiskState>)
    requires Separate(vols) && StatesAre(vols, ds) && |ds| == |wo.disks| == |fs|
    modifies (set v | v in vols), prog
    ensures RunResult(now, ok) == FillSteps(w, wo, wo.disks, ds, fs) && StatesAre(vols, now)
  {
    now := ds;
    FilledNone(w, wo, ds, fs);
    for i := 0 to |vols|
      invariant FilledUpTo(w, wo, ds, fs, i, now) && StatesAre(vols, now)
    {
      FilledNext(w, wo, ds, fs, i, now);
      ok := FillNext(w, wo, vols, i, fs[i], status, prog, now);
      now := now[i := FillStep(w, wo, wo.disks[i], ds[i], fs[i]).disk];
      if !ok {
        return false, now;
      }
    }
    FilledAll(w, wo, ds, fs, now);
    return true, now;
  }

  /** `now` is the disks with the first `i` filled without failure. */
  ghost predicate FilledUpTo(w: World, wo: WorkOrder, ds: seq<DiskState>, fs: seq<Fault>, i: nat, now: seq<DiskState>)
    requires |ds| == |wo.disks| == |fs| && i <= |ds|
  {
    var r := FillSteps(w, wo, wo.disks[..i], ds[..i], fs[..i]);
    r.ok && now == r.disks + ds[i..]
  }

  lemma FilledNone(w: World, wo: WorkOrder, ds: seq<DiskState>, fs: seq<Fault>)
    requires |ds| == |wo.disks| == |fs|
    ensures FilledUpTo(w, wo, ds, fs, 0, ds)
  {
    assert ds[..0] == [] && [] + ds[0..] == ds;
  }

  lemma FilledNext(w: World, wo: WorkOrder, ds: seq<DiskState>, fs: seq<Fault>, i: nat, now: seq<DiskState>)
    requires |ds| == |wo.disks| == |fs| && i < |ds| && FilledUpTo(w, wo, ds, fs, i, now)
    ensures |now| == |ds| && now[i] == ds[i]
    ensures var last := FillStep(w, wo, wo.disks[i], ds[i], fs[i]);
      if last.ok then FilledUpTo(w, wo, ds, fs, i + 1, now[i := last.disk])
      else FillSteps(w, wo, wo.disks, ds, fs) == RunResult(now[i := last.disk], false)
  {
    var last := FillStep(w, wo, wo.disks[i], ds[i], fs[i]);
    FillOne(w, wo, wo.disks, ds, fs, i);
    ReplaceNext(FillSteps(w, wo, wo.disks[..i], ds[..i], fs[..i]).disks, ds, i, last.disk);
    if !last.ok {
      FillStop(w, wo, wo.disks, ds, fs, i + 1);
    }
  }

  lemma FilledAll(w: World, wo: WorkOrder, ds: seq<DiskState>, fs: seq<Fault>, now: seq<DiskState>)
    requires |ds| == |wo.disks| == |fs| && FilledUpTo(w, wo, ds, fs, |ds|, now)
    ensures FillSteps(w, wo, wo.disks, ds, fs) == RunResult(now, true)
  {
    assert ds[..|ds|] == ds && wo.disks[..|ds|] == wo.disks && fs[..|ds|] == fs;
    var done := FillSteps(w, wo, wo.disks, ds, fs).disks;
    assert done + [] == done;
  }

  method TotalFill(works: seq<DiskWork>) returns (total: int)
    ensures total == FillBytes(works)
  {
    total := 0;
    for i := 0 to |works|
      invariant total == FillBytes(works[..i])
    {
      assert works[..i + 1][..i] == works[..i];
      total := total + works[i].globalBytes + works[i].localBytes;
    }
    assert works[..|works|] == works;
  }

  method RunInitialFill(w: World, wo: WorkOrder, vols: seq<Volume>, fs: seq<Fault>, status: nat -> seq<real>, ghost ds: seq<DiskState>)
    returns (outcome: Outcome, ghost now: seq<DiskState>)
    requires Separate(vols) && StatesAre(vols, ds) && |ds| == |wo.disks| == |fs|
    modifies set v | v in vols
    ensures Report(outcome, now) == AgentRun.RunInitialFill(w, wo, ds, fs) && StatesAre(vols, now)
  {
    var total := TotalFill(wo.disks);
    var prog := new Progress();
    var ok;
    ok, now := FillAll(w, wo, vols, fs, status, prog, ds);
    if !ok {
      return Failed, now;
    }
    WriteRunMarkers(vols, Marker(wo.run, total), now);
    return Done(total), Mark(now, Marker(wo.run, total));
  }

  /** A work order: verify, re-confirm a finished run, or run it. Verify needs a disk to name the manifests' run. */
  method RunFill(w: World, wo: WorkOrder, vols: seq<Volume>, fs: seq<Fault>, status: nat -> seq<real>, ghost ds: seq<DiskState>)
    returns (outcome: Outcome, ghost now: seq<DiskState>)
    requires Separate(vols) && StatesAre(vols, ds) && |ds| == |wo.disks| == |fs| && wo.growth >= 0.0
    requires wo.runType == Verify ==> wo.disks != []
    modifies set v | v in vols
    ensures Report(outcome, now) == AgentRun.RunFill(w, wo, ds, fs) && StatesAre(vols, now)
  {
    StatesAreUnique(vols, ds);
    if wo.runType == Verify {
      var verdict := V.RunVerify(w.sha, vols);
      return if verdict.Verified? then Done(verdict.bytes) else Failed, ds;
    }
    var complete := RunAlreadyComplete(wo, vols);
    if complete.Some? {
      return Done(complete.value), ds;
    }
    if wo.runType == Incremental {
      outcome, now := AgentSteps.RunIncremental(w, wo, vols, fs, status, ds);
    } else {
      outcome, now := RunInitialFill(w, wo, vols, fs, status, ds);
    }
  }
}
