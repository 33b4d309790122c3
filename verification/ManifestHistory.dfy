/** What a disk's manifest is worth after any history of fills, incrementals, failures and tampering
    (cmd/agent/manifest.go:170-205, cmd/agent/gen.go:117-241). */
module ManifestHistory {
  import opened Common
  import opened Seeds
  import opened Disk
  import opened Churn
  import opened AgentRun
  import opened Verify

  datatype Event =
    | Filled(wo: WorkOrder, work: DiskWork, fault: Fault)
    | Churned(wo: WorkOrder, fault: Fault)
    | Altered(file: Rel, content: Content)
    | Removed(file: Rel)

  function After(w: World, d: DiskState, e: Event): DiskState {
    match e
    case Filled(wo, work, fault) => FillStep(w, wo, work, d, fault).disk
    case Churned(wo, fault) =>
      var p := PlanOf(w, wo, d);
      if p.Err? then d else DiskStep(w, wo, d, p.value, fault).disk
    case Altered(r, c) => d.(dirs := d.dirs + {r.dir}, files := d.files[r := c])
    case Removed(r) => d.(files := d.files - {r})
  }

  predicate Succeeds(w: World, d: DiskState, e: Event) {
    match e
    case Filled(wo, work, fault) => FillStep(w, wo, work, d, fault).ok
    case Churned(wo, fault) => var p := PlanOf(w, wo, d); p.Ok? && DiskStep(w, wo, d, p.value, fault).ok
    case _ => true
  }

  function Play(w: World, d: DiskState, h: seq<Event>): DiskState {
    if h == [] then d else After(w, Play(w, d, h[..|h| - 1]), h[|h| - 1])
  }

  /** The files one disk state holds and the other does not, or holds otherwise. */
  function Different(d: DiskState, e: DiskState): set<Rel> {
    set r | r in d.files.Keys + e.files.Keys && !(r in d.files && r in e.files && d.files[r] == e.files[r])
  }

  /** The files a successful incremental re-hashes. */
  function Refreshed(w: World, wo: WorkOrder, d: DiskState, f: Fault): set<Rel> {
    var p := PlanOf(w, wo, d);
    if p.Err? then {} else Changed(wo, p.value, ChurnResult(w, wo, d, p.value, f))
  }

  /** The files under suspicion: what failed runs and outsiders touched since a run last wrote it. */
  function Suspects(w: World, d: DiskState, h: seq<Event>): set<Rel> {
    if h == [] then {}
    else
      var n := |h| - 1;
      var before := Play(w, d, h[..n]);
      var earlier := Suspects(w, d, h[..n]);
      match h[n]
      case Filled(_, _, _) => if Succeeds(w, before, h[n]) then {} else Play(w, d, h).files.Keys
      case Churned(wo, fault) =>
        if Succeeds(w, before, h[n]) then earlier - Refreshed(w, wo, before, fault)
        else earlier + Different(before, Play(w, d, h))
      case Altered(r, _) => earlier + {r}
      case Removed(r) => earlier + {r}
  }

  /** A successful fill leaves a manifest that is a full rehash. */
  lemma FillIsFresh(w: World, wo: WorkOrder, work: DiskWork, d: DiskState, f: Fault)
    requires FillStep(w, wo, work, d, f).ok
    ensures Stale(w.sha, FillStep(w, wo, work, d, f).disk) == {}
  {
    var after := FillResult(w, wo, work, d, f);
    UpdateFreshens(w.sha, after, wo.run, {});
    assert Recorded(after) == map[];
  }

  /** Without a manifest update, only the files that differ can become stale. */
  lemma StaleWithoutUpdate(sha: Sha, d: DiskState, e: DiskState)
    requires e.manifest == d.manifest
    ensures Stale(sha, e) <= Stale(sha, d) + Different(d, e)
  {
  }

  lemma ChurnFailureKeepsManifest(w: World, wo: WorkOrder, d: DiskState, p: Plan, f: Fault)
    requires !DiskStep(w, wo, d, p, f).ok
    ensures DiskStep(w, wo, d, p, f).disk.manifest == d.manifest
  {
  }

  lemma FillHasNoManifest(w: World, wo: WorkOrder, work: DiskWork, d: DiskState, f: Fault)
    ensures FillResult(w, wo, work, d, f).manifest == None
  {
  }

  lemma FillFailureHasNoManifest(w: World, wo: WorkOrder, work: DiskWork, d: DiskState, f: Fault)
    requires !FillStep(w, wo, work, d, f).ok
    ensures Stale(w.sha, FillStep(w, wo, work, d, f).disk) == FillStep(w, wo, work, d, f).disk.files.Keys
  {
    var e := FillResult(w, wo, work, d, f);
    FillHasNoManifest(w, wo, work, d, f);
    assert Recorded(e) == map[];
  }

  lemma ChurnRefreshes(w: World, wo: WorkOrder, d: DiskState, f: Fault)
    requires Faithful(w) && PlanOf(w, wo, d).Ok? && DiskStep(w, wo, d, PlanOf(w, wo, d).value, f).ok
    ensures Stale(w.sha, DiskStep(w, wo, d, PlanOf(w, wo, d).value, f).disk) <= Stale(w.sha, d) - Refreshed(w, wo, d, f)
  {
    StaleLaw(w, wo, d, PlanOf(w, wo, d).value);
  }

  lemma StaleStep(w: World, d: DiskState, h: seq<Event>)
    requires Faithful(w) && h != []
    requires Stale(w.sha, Play(w, d, h[..|h| - 1])) <= Suspects(w, d, h[..|h| - 1])
    ensures Stale(w.sha, Play(w, d, h)) <= Suspects(w, d, h)
  {
    var n := |h| - 1;
    var before, after := Play(w, d, h[..n]), Play(w, d, h);
    match h[n] {
      case Filled(wo, work, f) =>
        if Succeeds(w, before, h[n]) {
          FillIsFresh(w, wo, work, before, f);
        } else {
          FillFailureHasNoManifest(w, wo, work, before, f);
        }
      case Churned(wo, f) =>
        if Succeeds(w, before, h[n]) {
          ChurnRefreshes(w, wo, before, f);
        } else {
          if PlanOf(w, wo, before).Ok? {
            ChurnFailureKeepsManifest(w, wo, before, PlanOf(w, wo, before).value, f);
          }
          StaleWithoutUpdate(w.sha, before, after);
        }
      case Altered(r, _) => StaleWithoutUpdate(w.sha, before, after);
      case Removed(r) => StaleWithoutUpdate(w.sha, before, after);
    }
  }

  /** Whatever happened, a file that is not under suspicion matches its manifest entry, and no entry is missing or left over. */
  lemma {:induction false} OnlySuspectsAreStale(w: World, d: DiskState, h: seq<Event>)
    requires Faithful(w) && Stale(w.sha, d) == {}
    ensures Stale(w.sha, Play(w, d, h)) <= Suspects(w, d, h)
  {
    if h != [] {
      OnlySuspectsAreStale(w, d, h[..|h| - 1]);
      StaleStep(w, d, h);
    }
  }

  /** Runs only, all of them successful. */
  predicate OnlyRuns(w: World, d: DiskState, h: seq<Event>) {
    h == [] ||
      var n := |h| - 1;
      (h[n].Filled? || h[n].Churned?) && Succeeds(w, Play(w, d, h[..n]), h[n]) && OnlyRuns(w, d, h[..n])
  }

  lemma {:induction false} RunsCastNoSuspicion(w: World, d: DiskState, h: seq<Event>)
    requires OnlyRuns(w, d, h)
    ensures Suspects(w, d, h) == {}
  {
    if h != [] {
      RunsCastNoSuspicion(w, d, h[..|h| - 1]);
    }
  }

  /** After successful runs, with any seeds and any run ids, the incrementally kept manifest is a full rehash of the disk. */
  lemma ManifestIsFullRehash(w: World, d: DiskState, h: seq<Event>)
    requires Faithful(w) && Stale(w.sha, d) == {} && OnlyRuns(w, d, h)
    ensures var after := Play(w, d, h);
      Recorded(after) == map r | r in after.files :: TrueEntry(w.sha, after.files[r])
  {
    RunsCastNoSuspicion(w, d, h);
    OnlySuspectsAreStale(w, d, h);
    FreshIsFullRehash(w.sha, Play(w, d, h));
  }

  lemma SuccessIsLoadable(w: World, d: DiskState, e: Event)
    requires (e.Filled? || e.Churned?) && Succeeds(w, d, e)
    ensures Loadable(After(w, d, e))
  {
  }

  /** After successful runs verify accepts the disk, as long as it can be read. */
  lemma RunsAreVerifiable(w: World, d: DiskState, h: seq<Event>)
    requires Faithful(w) && Stale(w.sha, d) == {} && OnlyRuns(w, d, h) && h != []
    requires Play(w, d, h).broken == {}
    ensures Intact(w.sha, Play(w, d, h))
  {
    RunsCastNoSuspicion(w, d, h);
    OnlySuspectsAreStale(w, d, h);
    SuccessIsLoadable(w, Play(w, d, h[..|h| - 1]), h[|h| - 1]);
  }

  /** A file altered after such runs is exactly what verify then finds, unless it has the recorded size and digest. */
  lemma TamperingIsFound(w: World, d: DiskState, h: seq<Event>, r: Rel, c: Content)
    requires Faithful(w) && Stale(w.sha, d) == {} && OnlyRuns(w, d, h) && r in Play(w, d, h).files
    ensures Stale(w.sha, Play(w, d, h + [Altered(r, c)]))
      == if TrueEntry(w.sha, c) == TrueEntry(w.sha, Play(w, d, h).files[r]) then {} else {r}
  {
    assert (h + [Altered(r, c)])[..|h|] == h;
    var before := Play(w, d, h);
    ManifestIsFullRehash(w, d, h);
    AlteredStale(w.sha, before, r, c);
  }

  lemma AlteredStale(sha: Sha, d: DiskState, r: Rel, c: Content)
    requires Recorded(d) == (map q | q in d.files :: TrueEntry(sha, d.files[q])) && r in d.files
    ensures Stale(sha, d.(dirs := d.dirs + {r.dir}, files := d.files[r := c]))
      == if TrueEntry(sha, c) == TrueEntry(sha, d.files[r]) then {} else {r}
  {
    var e := d.(dirs := d.dirs + {r.dir}, files := d.files[r := c]);
    forall q ensures q in Stale(sha, e) <==> q == r && TrueEntry(sha, c) != TrueEntry(sha, d.files[r]) {
    }
  }
}
