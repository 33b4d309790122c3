/** The agent's runs on the mounted disks, step by step (cmd/agent/gen.go:21-241). */
module AgentSteps {
  import opened Common
  import opened Seeds
  import opened Disk
  import opened Churn
  import opened ChurnSteps
  import opened AgentRun
  import opened Progress

  predicate Separate(vols: seq<Volume>) {
    forall i, j :: 0 <= i < j < |vols| ==> vols[i] != vols[j]
  }

  predicate StatesAre(vols: seq<Volume>, ds: seq<DiskState>)
    reads set v | v in vols
  {
    |vols| == |ds| && forall i :: 0 <= i < |ds| ==> vols[i].State() == ds[i]
  }

  method RunAlreadyComplete(wo: WorkOrder, vols: seq<Volume>) returns (r: Option<int>)
    ensures r == AlreadyComplete(wo, States(vols))
  {
    var total := 0;
    for i := 0 to |vols|
      invariant forall j :: 0 <= j < i ==> Complete(wo, vols[j].State())
      invariant total == if i == 0 then 0 else vols[i - 1].marker.value.total
    {
      var v := vols[i];
      if !v.formatted || v.marker.None? || v.marker.value.run != wo.run {
        assert !Complete(wo, States(vols)[i]);
        return None;
      }
      total := v.marker.value.total;
    }
    return Some(total);
  }

  method WriteRunMarkers(vols: seq<Volume>, m: Marker, ghost ds: seq<DiskState>)
    requires Separate(vols) && StatesAre(vols, ds)
    modifies set v | v in vols
    ensures StatesAre(vols, Mark(ds, m))
  {
    for i := 0 to |vols|
      invariant forall j :: 0 <= j < i ==> vols[j].State() == Mark(ds, m)[j]
      invariant forall j :: i <= j < |vols| ==> vols[j].State() == ds[j]
    {
      vols[i].marker := Some(m);
    }
  }

  /** Churn and manifest of one disk. */
  method ChurnDisk(w: World, wo: WorkOrder, v: Volume, p: Plan, f: Fault, status: nat -> seq<real>, prog: Progress) returns (ok: bool)
    modifies v`files, v`manifest, prog
    ensures StepResult(v.State(), ok) == DiskStep(w, wo, old(v.State()), p, f)
    ensures ok ==> prog.Planned() == old(prog.Planned()) + TotalSize(p.rewrite) + if p.grow > 0 then p.grow else 0
    ensures ok && old(prog.Settled()) ==> prog.Settled()
  {
    var changed := ApplyChurn(w, wo, v, p, f, status, prog);
    if changed.None? {
      return false;
    }
    ok := v.UpdateDiskManifest(w.sha, wo.run, changed.value);
  }

  lemma PlansOne(w: World, wo: WorkOrder, ds: seq<DiskState>, ps: seq<Plan>, i: nat)
    requires i < |ds| && Plans(w, wo, ds[..i]) == Ok(ps)
    ensures var p := PlanOf(w, wo, ds[i]);
      Plans(w, wo, ds[..i + 1]) == if p.Err? then Err(p.error) else Ok(ps + [p.value])
  {
    assert ds[..i + 1][..i] == ds[..i];
  }

  lemma BytesSnoc(ps: seq<Plan>, p: Plan)
    ensures TotalBytes(ps + [p]) == TotalBytes(ps) + PlanBytes(p)
  {
    assert (ps + [p])[..|ps|] == ps;
  }

  method PlanAll(w: World, wo: WorkOrder, vols: seq<Volume>, ghost ds: seq<DiskState>)
    returns (plans: Result<seq<Plan>, Failure>, total: int)
    requires StatesAre(vols, ds)
    ensures plans == Plans(w, wo, ds)
    ensures plans.Ok? ==> total == TotalBytes(plans.value)
  {
    var ps: seq<Plan> := [];
    total := 0;
    for i := 0 to |vols|
      invariant Plans(w, wo, ds[..i]) == Ok(ps) && total == TotalBytes(ps)
    {
      var p := PlanChurn(w, wo, vols[i]);
      PlansOne(w, wo, ds, ps, i);
      if p.Err? {
        PlansStopAtError(w, wo, ds, i + 1);
        return Err(p.error), total;
      }
      BytesSnoc(ps, p.value);
      ps := ps + [p.value];
      total := total + PlanBytes(p.value);
    }
    assert ds[..|vols|] == ds;
    return Ok(ps), total;
  }

  lemma {:induction false} PlansStopAtError(w: World, wo: WorkOrder, ds: seq<DiskState>, i: nat)
    requires i <= |ds| && Plans(w, wo, ds[..i]).Err?
    ensures Plans(w, wo, ds) == Plans(w, wo, ds[..i])
    decreases |ds|
  {
    if i < |ds| {
      assert ds[..|ds| - 1][..i] == ds[..i];
      PlansStopAtError(w, wo, ds[..|ds| - 1], i);
    } else {
      assert ds[..i] == ds;
    }
  }

  lemma {:induction false} StepsStop(w: World, wo: WorkOrder, ds: seq<DiskState>, ps: seq<Plan>, fs: seq<Fault>, i: nat)
    requires |ds| == |ps| == |fs| && i <= |ds| && !Steps(w, wo, ds[..i], ps[..i], fs[..i]).ok
    ensures Steps(w, wo, ds, ps, fs) == RunResult(Steps(w, wo, ds[..i], ps[..i], fs[..i]).disks + ds[i..], false)
    decreases |ds| - i
  {
    if i < |ds| {
      StepsStopOne(w, wo, ds, ps, fs, i);
      StepsStop(w, wo, ds, ps, fs, i + 1);
      assert [ds[i]] + ds[i + 1..] == ds[i..];
    } else {
      assert ds[..i] == ds && ps[..i] == ps && fs[..i] == fs;
    }
  }

  lemma StepsStopOne(w: World, wo: WorkOrder, ds: seq<DiskState>, ps: seq<Plan>, fs: seq<Fault>, i: nat)
    requires |ds| == |ps| == |fs| && i < |ds| && !Steps(w, wo, ds[..i], ps[..i], fs[..i]).ok
    ensures Steps(w, wo, ds[..i + 1], ps[..i + 1], fs[..i + 1])
      == RunResult(Steps(w, wo, ds[..i], ps[..i], fs[..i]).disks + [ds[i]], false)
  {
    assert ds[..i + 1][..i] == ds[..i] && ps[..i + 1][..i] == ps[..i] && fs[..i + 1][..i] == fs[..i];
  }

  lemma StepsOne(w: World, wo: WorkOrder, ds: seq<DiskState>, ps: seq<Plan>, fs: seq<Fault>, i: nat)
    requires |ds| == |ps| == |fs| && i < |ds| && Steps(w, wo, ds[..i], ps[..i], fs[..i]).ok
    ensures var last := DiskStep(w, wo, ds[i], ps[i], fs[i]);
      Steps(w, wo, ds[..i + 1], ps[..i + 1], fs[..i + 1])
        == RunResult(Steps(w, wo, ds[..i], ps[..i], fs[..i]).disks + [last.disk], last.ok)
  {
    assert ds[..i + 1][..i] == ds[..i] && ps[..i + 1][..i] == ps[..i] && fs[..i + 1][..i] == fs[..i];
  }

  /** The bytes of the plans that are written: a plan that shrinks grows nothing. */
  predicate Growing(ps: seq<Plan>) {
    forall i :: 0 <= i < |ps| ==> ps[i].grow >= 0
  }

  lemma BytesOne(ps: seq<Plan>, i: nat)
    requires i < |ps|
    ensures TotalBytes(ps[..i + 1]) == TotalBytes(ps[..i]) + PlanBytes(ps[i])
  {
    assert ps[..i + 1][..i] == ps[..i];
  }

  lemma ReplaceNext(front: seq<DiskState>, ds: seq<DiskState>, i: nat, d: DiskState)
    requires i < |ds| && |front| == i
    ensures (front + ds[i..])[i := d] == front + [d] + ds[i + 1..]
  {
  }

  /** `now` is the disks with the first `i` churned without failure. */
  ghost predicate ChurnedUpTo(w: World, wo: WorkOrder, ds: seq<DiskState>, ps: seq<Plan>, fs: seq<Fault>, i: nat, now: seq<DiskState>)
    requires |ds| == |ps| == |fs| && i <= |ds|
  {
    var r := Steps(w, wo, ds[..i], ps[..i], fs[..i]);
    r.ok && now == r.disks + ds[i..]
  }

  lemma ChurnedNone(w: World, wo: WorkOrder, ds: seq<DiskState>, ps: seq<Plan>, fs: seq<Fault>)
    requires |ds| == |ps| == |fs|
    ensures ChurnedUpTo(w, wo, ds, ps, fs, 0, ds)
  {
    assert ds[..0] == [] && [] + ds[0..] == ds;
  }

  lemma ChurnedNext(w: World, wo: WorkOrder, ds: seq<DiskState>, ps: seq<Plan>, fs: seq<Fault>, i: nat, now: seq<DiskState>)
    requires |ds| == |ps| == |fs| && i < |ds| && ChurnedUpTo(w, wo, ds, ps, fs, i, now)
    ensures |now| == |ds| && now[i] == ds[i]
    ensures var last := DiskStep(w, wo, ds[i], ps[i], fs[i]);
      if last.ok then ChurnedUpTo(w, wo, ds, ps, fs, i + 1, now[i := last.disk])
      else Steps(w, wo, ds, ps, fs) == RunResult(now[i := last.disk], false)
  {
    var last := DiskStep(w, wo, ds[i], ps[i], fs[i]);
    StepsOne(w, wo, ds, ps, fs, i);
    ReplaceNext(Steps(w, wo, ds[..i], ps[..i], fs[..i]).disks, ds, i, last.disk);
    if !last.ok {
      StepsStop(w, wo, ds, ps, fs, i + 1);
    }
  }

  lemma ChurnedAll(w: World, wo: WorkOrder, ds: seq<DiskState>, ps: seq<Plan>, fs: seq<Fault>, now: seq<DiskState>)
    requires |ds| == |ps| == |fs| && ChurnedUpTo(w, wo, ds, ps, fs, |ds|, now)
    ensures Steps(w, wo, ds, ps, fs) == RunResult(now, true) && ps[..|ds|] == ps
  {
    assert ds[..|ds|] == ds && ps[..|ds|] == ps && fs[..|ds|] == fs;
    var done := Steps(w, wo, ds, ps, fs).disks;
    assert done + [] == done;
  }

  method ChurnNext(w: World, wo: WorkOrder, vols: seq<Volume>, i: nat, p: Plan, f: Fault, status: nat -> seq<real>,
                   prog: Progress, ghost now: seq<DiskState>) returns (ok: bool)
    requires Separate(vols) && StatesAre(vols, now) && i < |vols|
    modifies vols[i], prog
    ensures ok == DiskStep(w, wo, now[i], p, f).ok
    ensures StatesAre(vols, now[i := DiskStep(w, wo, now[i], p, f).disk])
    ensures ok && p.grow >= 0 ==> prog.Planned() == old(prog.Planned()) + PlanBytes(p)
    ensures ok && old(prog.Settled()) ==> prog.Settled()
  {
    ok := ChurnDisk(w, wo, vols[i], p, f, status, prog);
  }

  method ChurnAll(w: World, wo: WorkOrder, vols: seq<Volume>, ps: seq<Plan>, fs: seq<Fault>, status: nat -> seq<real>,
                  prog: Progress, ghost ds: seq<DiskState>) returns (ok: bool, ghost now: seq<DiskState>)
    requires Separate(vols) && StatesAre(vols, ds) && |ps| == |fs| == |ds|
    modifies (set v | v in vols), prog
    ensures RunResult(now, ok) == Steps(w, wo, ds, ps, fs) && StatesAre(vols, now)
    ensures ok && Growing(ps) ==> prog.Planned() == old(prog.Planned()) + TotalBytes(ps)
    ensures ok && old(prog.Settled()) ==> prog.Settled()
  {
    now := ds;
    ChurnedNone(w, wo, ds, ps, fs);
    for i := 0 to |vols|
      invariant ChurnedUpTo(w, wo, ds, ps, fs, i, now) && StatesAre(vols, now)
      invariant Growing(ps) ==> prog.Planned() == old(prog.Planned()) + TotalBytes(ps[..i])
      invariant old(prog.Settled()) ==> prog.Settled()
    {
      ChurnedNext(w, wo, ds, ps, fs, i, now);
      BytesOne(ps, i);
      ok := ChurnNext(w, wo, vols, i, ps[i], fs[i], status, prog, now);
      now := now[i := DiskStep(w, wo, ds[i], ps[i], fs[i]).disk];
      if !ok {
        return false, now;
      }
    }
    ChurnedAll(w, wo, ds, ps, fs, now);
    return true, now;
  }

  lemma StatesAreUnique(vols: seq<Volume>, ds: seq<DiskState>)
    requires StatesAre(vols, ds)
    ensures States(vols) == ds
  {
  }

  method MarkDone(wo: WorkOrder, vols: seq<Volume>, prog: Progress, ghost now: seq<DiskState>) returns (written: int)
    requires Separate(vols) && StatesAre(vols, now) && prog.Settled()
    modifies set v | v in vols
    ensures written == old(prog.Planned()) && StatesAre(vols, Mark(now, Marker(wo.run, written)))
  {
    SettledBytes(prog);
    written := prog.Bytes();
    WriteRunMarkers(vols, Marker(wo.run, written), now);
  }

  method Execute(w: World, wo: WorkOrder, vols: seq<Volume>, ps: seq<Plan>, fs: seq<Fault>, status: nat -> seq<real>, ghost ds: seq<DiskState>)
    returns (outcome: Outcome, ghost now: seq<DiskState>)
    requires Separate(vols) && StatesAre(vols, ds) && |ds| == |fs| == |ps| && Growing(ps)
    modifies set v | v in vols
    ensures var r := Steps(w, wo, ds, ps, fs);
      if r.ok then outcome == Done(TotalBytes(ps)) && now == Mark(r.disks, Marker(wo.run, TotalBytes(ps)))
      else outcome == Failed && now == r.disks
    ensures StatesAre(vols, now)
  {
    var prog := new Progress();
    var ok;
    ok, now := ChurnAll(w, wo, vols, ps, fs, status, prog, ds);
    if !ok {
      return Failed, now;
    }
    var written := MarkDone(wo, vols, prog, now);
    return Done(written), Mark(now, Marker(wo.run, written));
  }

  /** The bytes reported on success are read off the progress of the fio jobs, and are the bytes planned. */
  method RunIncremental(w: World, wo: WorkOrder, vols: seq<Volume>, fs: seq<Fault>, status: nat -> seq<real>, ghost ds: seq<DiskState>)
    returns (outcome: Outcome, ghost now: seq<DiskState>)
    requires Separate(vols) && StatesAre(vols, ds) && |ds| == |fs| && wo.growth >= 0.0
    modifies set v | v in vols
    ensures Report(outcome, now) == AgentRun.RunIncremental(w, wo, ds, fs) && StatesAre(vols, now)
  {
    var plans, total := PlanAll(w, wo, vols, ds);
    if plans.Err? {
      return Failed, ds;
    }
    PlansGrow(w, wo, ds);
    outcome, now := Execute(w, wo, vols, plans.value, fs, status, ds);
    IncrementalIs(w, wo, ds, fs, plans.value, Steps(w, wo, ds, plans.value, fs));
  }

  lemma {:induction false} PlansGrow(w: World, wo: WorkOrder, ds: seq<DiskState>)
    requires Plans(w, wo, ds).Ok? && wo.growth >= 0.0
    ensures Growing(Plans(w, wo, ds).value)
  {
    if ds != [] {
      PlansGrow(w, wo, ds[..|ds| - 1]);
      GrowthIsNatural(TotalSize(LocalFiles(ds[|ds| - 1])), wo.growth);
    }
  }

  lemma GrowthIsNatural(total: nat, growth: real)
    requires growth >= 0.0
    ensures GrowBytes(growth, total) >= 0
  {
    assert total as real * growth >= 0.0;
  }
}
