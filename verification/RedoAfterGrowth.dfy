/** Where redoing an incremental stops being harmless (cmd/agent/gen.go:364-483, cmd/agent/manifest.go:170-205). */
module RedoAfterGrowth {
  import opened Common
  import opened Text
  import opened Listing
  import opened Seeds
  import opened ChangeSet
  import opened Disk
  import opened Churn

  /** The files a failed attempt may have written: those it rewrote, the one it died in, and what a failed growth
      job left. */
  function Attempted(p: Plan, f: Fault): set<Rel>
    requires Fails(p, f)
  {
    match f
    case RewriteFails(at, _) => RewriteSet(p.rewrite, at + 1)
    case GrowFails(left) => RewriteSet(p.rewrite, |p.rewrite|) + Place(LocalDir, left).Keys
    case _ => {}
  }

  /** A failed attempt writes only those, keeps every file and the manifest, and can be planned anew. */
  lemma AttemptTouches(w: World, wo: WorkOrder, d: DiskState, p: Plan, f: Fault)
    requires Fails(p, f)
    ensures var e := ChurnResult(w, wo, d, p, f);
      && e.manifest == d.manifest && e.formatted == d.formatted && e.dirs == d.dirs && d.files.Keys <= e.files.Keys
      && forall r :: r in d.files && r !in Attempted(p, f) ==> e.files[r] == d.files[r]
  {
    match f {
      case RewriteFails(at, junk) =>
        RewrittenFrame(w, wo, d.files, p.rewrite, at);
        assert RewriteSet(p.rewrite, at + 1) == RewriteSet(p.rewrite, at) + {Rel(LocalDir, p.rewrite[at].name)};
      case GrowFails(left) => RewrittenFrame(w, wo, d.files, p.rewrite, |p.rewrite|);
      case _ =>
    }
  }

  /** What a redo must do again: the files the attempt wrote whose recorded entries it falsified. */
  function Falsified(w: World, d: DiskState, p: Plan, f: Fault, e: DiskState): set<Rel>
    requires Fails(p, f)
  {
    set r | r in Attempted(p, f) && r in d.files && r in e.files && TrueEntry(w.sha, e.files[r]) != TrueEntry(w.sha, d.files[r])
  }

  /** What the redo's own plan makes it do again. */
  predicate DoneAgain(wo: WorkOrder, q: Plan, r: Rel) {
    r in RewriteSet(q.rewrite, |q.rewrite|) || (q.grow > 0 && IsGrowth(wo, r))
  }

  /** A verified disk, a failed attempt, and the completed redo of the same order: the manifest is true in the end
      exactly when the plan computed from the torn disk does again every file the first plan's attempt falsified. */
  lemma RedoHeals(w: World, wo: WorkOrder, d: DiskState, f: Fault)
    requires Faithful(w) && Stale(w.sha, d) == {}
    requires PlanOf(w, wo, d).Ok? && Fails(PlanOf(w, wo, d).value, f)
    ensures var p := PlanOf(w, wo, d).value;
      var e := ChurnResult(w, wo, d, p, f);
      && PlanOf(w, wo, e).Ok?
      && var q := PlanOf(w, wo, e).value;
         (Stale(w.sha, Applied(w, wo, e, q)) == {} <==> forall r :: r in Falsified(w, d, p, f, e) ==> DoneAgain(wo, q, r))
  {
    var p := PlanOf(w, wo, d).value;
    var e := ChurnResult(w, wo, d, p, f);
    AttemptTouches(w, wo, d, p, f);
    var q := PlanOf(w, wo, e).value;
    HealsWhatChanged(w, wo, d, e, q);
    var after := Churned(w, wo, e, q);
    ChurnTouchesOnlyChanged(w, wo, e, q);
    forall r | r in d.files ensures r in Changed(wo, q, after) <==> DoneAgain(wo, q, r) {
    }
    forall r | r in d.files && TrueEntry(w.sha, e.files[r]) != TrueEntry(w.sha, d.files[r]) ensures r in Falsified(w, d, p, f, e) {
    }
  }

  /** From any later state of a verified disk with its manifest, a completed run leaves the manifest true exactly when
      it changes every file whose entry has become false. */
  lemma HealsWhatChanged(w: World, wo: WorkOrder, d: DiskState, e: DiskState, p: Plan)
    requires Faithful(w) && Stale(w.sha, d) == {}
    requires e.manifest == d.manifest && d.files.Keys <= e.files.Keys
    ensures Stale(w.sha, Applied(w, wo, e, p)) == {} <==>
      forall r :: r in d.files && TrueEntry(w.sha, e.files[r]) != TrueEntry(w.sha, d.files[r]) ==>
        r in Changed(wo, p, Churned(w, wo, e, p))
  {
    StaleLaw(w, wo, e, p);
    FreshIsFullRehash(w.sha, d);
    var changed := Changed(wo, p, Churned(w, wo, e, p));
    var left := set r | r in Stale(w.sha, e) && r in e.files && r in Recorded(e) && r !in changed;
    assert forall r :: r in Recorded(d) <==> r in d.files;
    assert forall r :: r in left <==> r in d.files && TrueEntry(w.sha, e.files[r]) != TrueEntry(w.sha, d.files[r]) && r !in changed;
  }

  // ---- An attempt that dies while growing, and a redo that leaves a false manifest ----

  const A: Name := [97]
  const B: Name := [98]
  const RUN: Part := [49]

  function Old(): Content { [0] }

  /** Old content has its own digest; two-file shuffles swap, longer ones leave everything in place. */
  function ToyWorld(): World {
    World((c: Content) => if c == [0] then "old" else "new",
          (seed: nat, n: nat, i: nat) => if n == 2 then 0 else i,
          (k: Knobs, seed: nat, size: nat) => seq(size, _ => 1),
          (k: Knobs, job: Name, seed: nat, size: nat, n: nat) => map[job + Ascii(".") + Ascii("0") := seq(size, _ => 1)])
  }

  function ToyOrder(): WorkOrder {
    WorkOrder(Incremental, RUN, [], 0, 0, 1.0, 100.0, 0, [])
  }

  function Grown(): Name {
    GrowJob(ToyOrder()) + Ascii(".") + Ascii("0")
  }

  function ToyDisk(): DiskState {
    var entry := Entry(1, "old");
    DiskState(true, {LocalDir}, map[Rel(LocalDir, A) := Old(), Rel(LocalDir, B) := Old()], {},
              Some(Manifest([48], map[Rel(LocalDir, A) := entry, Rel(LocalDir, B) := entry])), None)
  }

  function Torn(): DiskState {
    ToyDisk().(files := map[Rel(LocalDir, A) := Old(), Rel(LocalDir, B) := [1], Rel(LocalDir, Grown()) := [1]])
  }

  lemma ToyIsFaithful()
    ensures Faithful(ToyWorld())
  {
    forall job: Name ensures HasPrefix(job + Ascii(".") + Ascii("0"), job + Ascii(".")) {
    }
    forall name: Name, c: Content ensures TotalContent(map[name := c]) == |c| {
      OneFile(name, c);
    }
  }

  lemma OneFile(name: Name, c: Content)
    ensures TotalContent(map[name := c]) == |c|
  {
    var m := map[name := c];
    assert forall n :: n in m ==> n == name;
    assert m - {name} == map[];
  }

  lemma GrownStartsWithG()
    ensures Grown()[0] == 103
  {
  }

  lemma ToyNames()
    ensures Sorted(NamesIn(ToyDisk(), LocalDir)) == [A, B]
  {
    var d := ToyDisk();
    forall x ensures x in [A, B] <==> x in NamesIn(d, LocalDir) {
      if x in [A, B] {
        assert Rel(LocalDir, x) in d.files;
      }
    }
    assert Below(A, B);
    SortedIsUnique(NamesIn(d, LocalDir), [A, B]);
  }

  lemma ToyFiles()
    ensures LocalFiles(ToyDisk()) == [PlanFile(A, 1), PlanFile(B, 1)]
  {
    ToyNames();
    assert SizeOf(ToyDisk(), A) == SizeOf(ToyDisk(), B) == 1;
  }

  lemma TwoOnes(files: seq<PlanFile>)
    requires |files| == 2 && files[0].size == files[1].size == 1
    ensures TotalSize(files) == 2
  {
    assert files[..1][..0] == [];
    assert TotalSize(files[..1]) == 1;
  }

  lemma FirstPlan()
    ensures PlanOf(ToyWorld(), ToyOrder(), ToyDisk()) == Ok(Plan([PlanFile(B, 1)], 2))
  {
    ToyFiles();
    var files := LocalFiles(ToyDisk());
    PickSecond(files);
    TwoOnes(files);
    assert ChangeCount(1.0, 2) == 1 && GrowBytes(100.0, 2) == 2;
  }

  lemma PickSecond(files: seq<PlanFile>)
    requires |files| == 2
    ensures PickChangeSet(ToyWorld().draw, files, 1, 0) == [files[1]]
  {
    var draw := ToyWorld().draw;
    assert Swap(Indices(2), 1, 0) == [1, 0];
    assert Shuffled(draw, 0, Indices(2), 1) == [1, 0];
    assert Members([1]) == {1};
    assert [1, 0][..1] == [1];
    assert files[..1][..0] == [];
    assert Kept(files[..1], {1}) == [];
  }

  lemma PickFirst(files: seq<PlanFile>)
    requires |files| == 3
    ensures PickChangeSet(ToyWorld().draw, files, 1, 0) == [files[0]]
  {
    var draw := ToyWorld().draw;
    var s := Indices(3);
    assert Swap(s, 2, 2) == s && Swap(s, 1, 1) == s;
    assert Shuffled(draw, 0, s, 2) == s;
    assert s[..1] == [0];
    assert Members([0]) == {0};
    assert Kept(files[..2][..1][..0], {0}) == [];
    assert files[..2][..1] == [files[0]];
    assert Kept(files[..2][..1], {0}) == [files[0]];
    assert Kept(files[..2], {0}) == [files[0]];
  }

  lemma TornNames()
    ensures Sorted(NamesIn(Torn(), LocalDir)) == [A, B, Grown()]
  {
    var e := Torn();
    GrownStartsWithG();
    var names := [A, B, Grown()];
    forall x ensures x in names <==> x in NamesIn(e, LocalDir) {
      if x in names {
        assert Rel(LocalDir, x) in e.files;
      }
    }
    assert Ascending(names) by {
      assert Below(A, B) && Below(A, Grown()) && Below(B, Grown());
    }
    SortedIsUnique(NamesIn(e, LocalDir), names);
  }

  lemma TornFiles()
    ensures LocalFiles(Torn()) == [PlanFile(A, 1), PlanFile(B, 1), PlanFile(Grown(), 1)]
  {
    TornNames();
    GrownStartsWithG();
    assert SizeOf(Torn(), A) == SizeOf(Torn(), B) == SizeOf(Torn(), Grown()) == 1;
  }

  lemma ThreeOnes(files: seq<PlanFile>)
    requires |files| == 3 && files[0].size == files[1].size == files[2].size == 1
    ensures TotalSize(files) == 3
  {
    assert files[..2][..1][..0] == [];
    assert TotalSize(files[..2][..1]) == 1;
    assert TotalSize(files[..2]) == 2;
  }

  lemma SecondPlan()
    ensures PlanOf(ToyWorld(), ToyOrder(), Torn()) == Ok(Plan([PlanFile(A, 1)], 3))
  {
    TornFiles();
    var files := LocalFiles(Torn());
    PickFirst(files);
    ThreeOnes(files);
    assert ChangeCount(1.0, 3) == 1 && GrowBytes(100.0, 3) == 3;
  }

  lemma PlaceOne(n: Name, c: Content)
    ensures Place(LocalDir, map[n := c]) == map[Rel(LocalDir, n) := c]
  {
  }

  lemma RewriteOne(w: World, wo: WorkOrder, files: map<Rel, Content>, f: PlanFile)
    ensures Rewritten(w, wo, files, [f], 1)
      == files[Rel(LocalDir, f.name) := w.rewrite(KnobsOf(wo), FileSeed(wo, 0), f.size)]
  {
    assert Rewritten(w, wo, files, [f], 0) == files;
  }

  lemma TornFilesAre(files: map<Rel, Content>, g: Rel)
    requires files == map[Rel(LocalDir, A) := Old(), Rel(LocalDir, B) := Old()]
    ensures files[Rel(LocalDir, B) := [1]] + map[g := [1]] == map[Rel(LocalDir, A) := Old(), Rel(LocalDir, B) := [1], g := [1]]
  {
  }

  /** The attempt tears the disk as `Torn` says. */
  lemma FirstAttempt()
    ensures ChurnResult(ToyWorld(), ToyOrder(), ToyDisk(), Plan([PlanFile(B, 1)], 2), GrowFails(map[Grown() := [1]])) == Torn()
  {
    var d := ToyDisk();
    RewriteOne(ToyWorld(), ToyOrder(), d.files, PlanFile(B, 1));
    assert ToyWorld().rewrite(KnobsOf(ToyOrder()), FileSeed(ToyOrder(), 0), 1) == [1];
    PlaceOne(Grown(), [1]);
    TornFilesAre(d.files, Rel(LocalDir, Grown()));
  }

  /** A verified disk, an attempt that fails, and a completed redo: some file the runs wrote no longer matches. */
  predicate RedoFalsifies(w: World, wo: WorkOrder, d: DiskState, f: Fault) {
    && Stale(w.sha, d) == {}
    && PlanOf(w, wo, d).Ok?
    && Fails(PlanOf(w, wo, d).value, f)
    && var e := ChurnResult(w, wo, d, PlanOf(w, wo, d).value, f);
    && PlanOf(w, wo, e).Ok?
    && Stale(w.sha, Applied(w, wo, e, PlanOf(w, wo, e).value)) != {}
  }

  lemma ShowFalsified(w: World, wo: WorkOrder, d: DiskState, f: Fault, p: Plan, e: DiskState, q: Plan, r: Rel)
    requires Stale(w.sha, d) == {} && PlanOf(w, wo, d) == Ok(p) && Fails(p, f) && ChurnResult(w, wo, d, p, f) == e
    requires PlanOf(w, wo, e) == Ok(q) && Faithful(w)
    requires r in Stale(w.sha, e) && r in e.files && r in Recorded(e) && r !in Changed(wo, q, Churned(w, wo, e, q))
    ensures RedoFalsifies(w, wo, d, f)
  {
    StaleLaw(w, wo, e, q);
    assert r in Stale(w.sha, Applied(w, wo, e, q));
  }

  lemma ToyStale()
    ensures Stale(ToyWorld().sha, ToyDisk()) == {}
    ensures var r := Rel(LocalDir, B); r in Stale(ToyWorld().sha, Torn()) && r in Torn().files && r in Recorded(Torn())
  {
  }

  /** The redo of an attempt that died in its growth job can falsify the manifest. */
  lemma RedoCanFalsifyManifest()
    ensures exists w, wo, d, f: Fault :: Faithful(w) && f.GrowFails? && RedoFalsifies(w, wo, d, f)
  {
    var w, wo, d, f := ToyFalsifies();
    assert Faithful(w) && f.GrowFails? && RedoFalsifies(w, wo, d, f);
  }

  lemma ToyFalsifies() returns (w: World, wo: WorkOrder, d: DiskState, f: Fault)
    ensures Faithful(w) && f.GrowFails? && RedoFalsifies(w, wo, d, f)
  {
    w, wo, d, f := ToyWorld(), ToyOrder(), ToyDisk(), GrowFails(map[Grown() := [1]]);
    FirstPlan();
    SecondPlan();
    FirstAttempt();
    ToyIsFaithful();
    ToyStale();
    var q := Plan([PlanFile(A, 1)], 3);
    SecondFileUntouched(Churned(w, wo, Torn(), q));
    ShowFalsified(w, wo, d, f, Plan([PlanFile(B, 1)], 2), Torn(), q, Rel(LocalDir, B));
  }

  lemma SecondFileUntouched(after: DiskState)
    ensures Rel(LocalDir, B) !in Changed(ToyOrder(), Plan([PlanFile(A, 1)], 3), after)
  {
    var prefix := GrowJob(ToyOrder()) + Ascii(".");
    assert prefix[0] == 103;
    NotPrefixAt(B, prefix);
    var plan := [PlanFile(A, 1)];
    assert forall i :: 0 <= i < 1 ==> plan[i].name == A;
  }

  lemma NotPrefixAt(s: Name, p: Name)
    requires s != [] && p != [] && s[0] != p[0]
    ensures !HasPrefix(s, p)
  {
    if |p| <= |s| {
      assert s[..|p|][0] == s[0];
    }
  }
}
