/** The incremental's steps on a mounted disk (cmd/agent/gen.go:364-483). */
module ChurnSteps {
  import opened Common
  import opened Text
  import opened Listing
  import opened Seeds
  import opened ChangeSet
  import opened Disk
  import opened Churn
  import opened Progress

  method ReadLocal(v: Volume) returns (files: seq<PlanFile>, localBytes: nat)
    ensures files == LocalFiles(v.State()) && localBytes == TotalSize(files)
  {
    var names := Sorted(NamesIn(v.State(), LocalDir));
    ghost var all := LocalFiles(v.State());
    files, localBytes := [], 0;
    for i := 0 to |names|
      invariant files == all[..i] && localBytes == TotalSize(files)
    {
      var f := PlanFile(names[i], SizeOf(v.State(), names[i]));
      assert (files + [f])[..i] == files;
      files := files + [f];
      localBytes := localBytes + f.size;
    }
  }

  method CountChanges(change: real, n: nat) returns (nChange: int)
    ensures nChange == ChangeCount(change, n)
  {
    nChange := Trunc(n as real * change / 100.0 + 0.5);
    if change > 0.0 && nChange == 0 && n > 0 {
      nChange := 1;
    }
    if nChange > n {
      nChange := n;
    }
  }

  method PlanChurn(w: World, wo: WorkOrder, v: Volume) returns (r: Result<Plan, Failure>)
    ensures r == PlanOf(w, wo, v.State())
    ensures r.Ok? && 0.0 <= wo.change <= 100.0 && wo.growth >= 0.0 ==>
      && Proportional(|r.value.rewrite|, |NamesIn(v.State(), LocalDir)|, wo.change)
      && Whole(r.value.grow, Share(LocalBytes(v.State()), wo.growth))
  {
    if !v.formatted {
      return Err(NoFilesystem);
    }
    if LocalDir !in v.dirs {
      return Err(NeverFilled);
    }
    var files, localBytes := ReadLocal(v);
    var nChange := CountChanges(wo.change, |files|);
    var rewrite := Pick(w.draw, files, nChange, wo.runSeed);
    r := Ok(Plan(rewrite, GrowBytes(wo.growth, localBytes)));
    if 0.0 <= wo.change <= 100.0 && wo.growth >= 0.0 {
      PlanIsProportional(w, wo, v.State());
    }
  }

  method GrowthFileNames(wo: WorkOrder, v: Volume) returns (out: seq<Rel>)
    ensures forall r :: r in out <==> r in v.files && IsGrowth(wo, r)
  {
    var list := InDir(LocalDir, Sorted(NamesIn(v.State(), LocalDir)));
    DirLists(v.State(), LocalDir);
    out := [];
    for i := 0 to |list|
      invariant forall r :: r in out <==> IsGrowth(wo, r) && exists j :: 0 <= j < i && list[j] == r
    {
      if HasPrefix(list[i].name, GrowJob(wo) + Ascii(".")) {
        out := out + [list[i]];
      }
    }
    assert forall r :: r in list <==> exists j :: 0 <= j < |list| && list[j] == r;
  }

  /** The rewrites in order; false when one failed. */
  method RewriteFiles(w: World, wo: WorkOrder, v: Volume, p: Plan, f: Fault, status: nat -> seq<real>, prog: Progress)
    returns (ok: bool, touched: set<Rel>)
    modifies v`files, prog
    ensures ok == !(f.RewriteFails? && Fails(p, f))
    ensures v.files == if ok then Rewritten(w, wo, old(v.files), p.rewrite, |p.rewrite|) else ChurnResult(w, wo, old(v.State()), p, f).files
    ensures ok ==> touched == RewriteSet(p.rewrite, |p.rewrite|)
    ensures ok ==> prog.Planned() == old(prog.Planned()) + TotalSize(p.rewrite)
    ensures ok && old(prog.Settled()) ==> prog.Settled()
  {
    touched := {};
    for i := 0 to |p.rewrite|
      invariant v.files == Rewritten(w, wo, old(v.files), p.rewrite, i)
      invariant touched == RewriteSet(p.rewrite, i)
      invariant prog.Planned() == old(prog.Planned()) + TotalSize(p.rewrite[..i])
      invariant old(prog.Settled()) ==> prog.Settled()
      invariant f.RewriteFails? ==> i <= f.at
    {
      var file := p.rewrite[i];
      var fails := f.RewriteFails? && f.at == i;
      prog.RunFio(file.size, status(i), !fails);
      if fails {
        v.files := v.files[Rel(LocalDir, file.name) := f.junk];
        return false, touched;
      }
      assert p.rewrite[..i + 1][..i] == p.rewrite[..i];
      v.files := v.files[Rel(LocalDir, file.name) := w.rewrite(KnobsOf(wo), FileSeed(wo, i), file.size)];
      touched := touched + {Rel(LocalDir, file.name)};
    }
    assert p.rewrite[..|p.rewrite|] == p.rewrite;
    return true, touched;
  }

  /** The growth job, and the names it may have written. */
  method GrowFiles(w: World, wo: WorkOrder, v: Volume, grow: nat, f: Fault, status: seq<real>, prog: Progress)
    returns (ok: bool, grown: set<Rel>)
    requires grow > 0
    modifies v`files, prog
    ensures ok == !f.GrowFails?
    ensures v.files == old(v.files) + if ok then Growth(w, wo, grow) else Place(LocalDir, f.left)
    ensures ok ==> grown == set r | r in v.files && IsGrowth(wo, r)
    ensures prog.Planned() == old(prog.Planned()) + grow && (ok ==> prog.Settled())
  {
    prog.RunFio(grow, status, !f.GrowFails?);
    if f.GrowFails? {
      v.files := v.files + Place(LocalDir, f.left);
      return false, {};
    }
    v.files := v.files + Growth(w, wo, grow);
    var names := GrowthFileNames(wo, v);
    grown := set r | r in names;
    assert grown == set r | r in v.files && IsGrowth(wo, r);
    return true, grown;
  }

  /** None when a job failed; otherwise the files to re-hash. Progress accounts for every job that finished. */
  method ApplyChurn(w: World, wo: WorkOrder, v: Volume, p: Plan, f: Fault, status: nat -> seq<real>, prog: Progress)
    returns (changed: Option<set<Rel>>)
    modifies v`files, prog
    ensures v.State() == ChurnResult(w, wo, old(v.State()), p, f)
    ensures changed == if Fails(p, f) then None else Some(Changed(wo, p, v.State()))
    ensures changed.Some? ==>
      prog.Planned() == old(prog.Planned()) + TotalSize(p.rewrite) + if p.grow > 0 then p.grow else 0
    ensures changed.Some? && old(prog.Settled()) ==> prog.Settled()
  {
    var ok, touched := RewriteFiles(w, wo, v, p, f, status, prog);
    if !ok {
      return None;
    }
    assert v.files + map[] == v.files;
    if p.grow > 0 {
      var grew, grown := GrowFiles(w, wo, v, p.grow, f, status(|p.rewrite|), prog);
      if !grew {
        return None;
      }
      touched := touched + grown;
    }
    assert touched == Changed(wo, p, v.State());
    return Some(touched);
  }
}
