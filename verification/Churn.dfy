/** One disk's incremental churn: plan, rewrite, grow, record (cmd/agent/gen.go:302-483). */
module Churn {
  import opened Common
  import opened Text
  import opened Listing
  import opened Seeds
  import opened ChangeSet
  import opened Disk

  datatype Knobs = Knobs(compress: int, dedupe: int)

  /** The outside world: the digest, the shuffle's random source, and fio's two kinds of job.
      `rewrite` writes one named file; `layout` writes several files into a directory. */
  datatype World = World(
    sha: Sha, draw: Draw,
    rewrite: (Knobs, nat, nat) -> Content,
    layout: (Knobs, Name, nat, nat, nat) -> map<Name, Content>)

  ghost function TotalContent(named: map<Name, Content>): nat {
    if named == map[] then 0
    else
      var n :| n in named;
      |named[n]| + TotalContent(named - {n})
  }

  /** fio writes the size it is told, and only files that start with the job's name and a dot. */
  ghost predicate Faithful(w: World) {
    && (forall k, seed, size :: |w.rewrite(k, seed, size)| == size)
    && (forall k, job: Name, seed, size, files, name: Name ::
      name in w.layout(k, job, seed, size, files) ==> HasPrefix(name, job + Ascii(".")))
    && (forall k, job: Name, seed, size, files: nat :: files > 0 ==> TotalContent(w.layout(k, job, seed, size, files)) == size)
  }

  function KnobsOf(wo: WorkOrder): Knobs {
    Knobs(wo.compress, wo.dedupe)
  }

  // ---- The plan ----

  datatype Plan = Plan(rewrite: seq<PlanFile>, grow: int)

  datatype Failure = NoFilesystem | NeverFilled | FioFailed | ManifestFailed

  function SizeOf(d: DiskState, n: Name): nat {
    if Rel(LocalDir, n) in d.files then |d.files[Rel(LocalDir, n)]| else 0
  }

  function PlanFiles(d: DiskState, names: seq<Name>): (r: seq<PlanFile>)
    ensures |r| == |names| && forall i :: 0 <= i < |r| ==> r[i] == PlanFile(names[i], SizeOf(d, names[i]))
  {
    seq(|names|, i requires 0 <= i < |names| => PlanFile(names[i], SizeOf(d, names[i])))
  }

  function LocalFiles(d: DiskState): seq<PlanFile> {
    PlanFiles(d, Sorted(NamesIn(d, LocalDir)))
  }

  function TotalSize(files: seq<PlanFile>): nat {
    if files == [] then 0 else TotalSize(files[..|files| - 1]) + files[|files| - 1].size
  }

  function ChangeCount(change: real, n: nat): int {
    var c := Trunc(n as real * change / 100.0 + 0.5);
    var c := if change > 0.0 && c == 0 && n > 0 then 1 else c;
    if c > n then n else c
  }

  function GrowBytes(growth: real, localBytes: nat): int {
    Trunc(localBytes as real * growth / 100.0)
  }

  function PlanOf(w: World, wo: WorkOrder, d: DiskState): Result<Plan, Failure> {
    if !d.formatted then Err(NoFilesystem)
    else if LocalDir !in d.dirs then Err(NeverFilled)
    else
      var files := LocalFiles(d);
      Ok(Plan(PickChangeSet(w.draw, files, ChangeCount(wo.change, |files|), wo.runSeed),
              GrowBytes(wo.growth, TotalSize(files))))
  }

  function PlanBytes(p: Plan): int {
    p.grow + TotalSize(p.rewrite)
  }

  lemma LocalFilesAscend(d: DiskState)
    ensures NamesAscend(LocalFiles(d))
    ensures forall f :: f in LocalFiles(d) ==> Rel(LocalDir, f.name) in d.files && f.size == |d.files[Rel(LocalDir, f.name)]|
    ensures |LocalFiles(d)| == |NamesIn(d, LocalDir)|
  {
    var names := NamesIn(d, LocalDir);
    SortedLists(names);
    forall f | f in LocalFiles(d) ensures f.name in names {
      var i :| 0 <= i < |Sorted(names)| && LocalFiles(d)[i] == f;
    }
  }

  lemma ChangeCountBounds(change: real, n: nat)
    requires change >= 0.0
    ensures 0 <= ChangeCount(change, n) <= n
    ensures change > 0.0 && n > 0 ==> ChangeCount(change, n) >= 1
    ensures change == 0.0 ==> ChangeCount(change, n) == 0
    ensures change >= 100.0 ==> ChangeCount(change, n) == n
  {
    assert n as real * change >= 0.0;
    if change >= 100.0 {
      assert n as real * change >= n as real * 100.0;
    }
  }

  /** The plan rewrites existing local files at their present size, in name order: between none and all of them,
      and one at least when any change is asked for and there is a file. */
  lemma PlanIsSound(w: World, wo: WorkOrder, d: DiskState)
    requires PlanOf(w, wo, d).Ok? && wo.change >= 0.0
    ensures var p := PlanOf(w, wo, d).value;
      && NamesAscend(p.rewrite)
      && (forall f :: f in p.rewrite ==> Rel(LocalDir, f.name) in d.files && f.size == |d.files[Rel(LocalDir, f.name)]|)
      && |p.rewrite| == ChangeCount(wo.change, |NamesIn(d, LocalDir)|) <= |NamesIn(d, LocalDir)|
      && (wo.change > 0.0 && NamesIn(d, LocalDir) != {} ==> p.rewrite != [])
  {
    LocalFilesAscend(d);
    var files := LocalFiles(d);
    ChangeCountBounds(wo.change, |files|);
    PickIsASelection(w.draw, files, ChangeCount(wo.change, |files|), wo.runSeed);
  }

  /** The bytes of the local files on the disk, whatever their names. */
  ghost function LocalBytes(d: DiskState): nat {
    SumOfSizes(NamesIn(d, LocalDir), d)
  }

  ghost function SumOfSizes(names: set<Name>, d: DiskState): nat {
    if names == {} then 0
    else
      var n :| n in names;
      SizeOf(d, n) + SumOfSizes(names - {n}, d)
  }

  lemma {:induction false} SumOfOneMore(names: set<Name>, d: DiskState, x: Name)
    requires x in names
    ensures SumOfSizes(names, d) == SizeOf(d, x) + SumOfSizes(names - {x}, d)
  {
    var n :| n in names && SumOfSizes(names, d) == SizeOf(d, n) + SumOfSizes(names - {n}, d);
    if n != x {
      SumOfOneMore(names - {n}, d, x);
      SumOfOneMore(names - {x}, d, n);
      assert names - {n} - {x} == names - {x} - {n};
    }
  }

  ghost predicate Lists(list: seq<Name>, names: set<Name>) {
    (forall x :: x in list <==> x in names) && forall i, j :: 0 <= i < j < |list| ==> list[i] != list[j]
  }

  lemma ListsFront(list: seq<Name>, names: set<Name>)
    requires list != [] && Lists(list, names)
    ensures list[|list| - 1] in names && Lists(list[..|list| - 1], names - {list[|list| - 1]})
  {
    var n := |list| - 1;
    forall x ensures x in list[..n] <==> x in names - {list[n]} {
      if x in names - {list[n]} {
        var i :| 0 <= i < |list| && list[i] == x;
        assert list[..n][i] == x;
      }
    }
  }

  /** A listing without repetitions adds up to the sum over the set of its names. */
  lemma {:induction false} ListedTotal(d: DiskState, list: seq<Name>, names: set<Name>)
    requires Lists(list, names)
    ensures TotalSize(PlanFiles(d, list)) == SumOfSizes(names, d)
  {
    if list == [] {
      assert names == {};
    } else {
      var n := |list| - 1;
      ListsFront(list, names);
      ListedTotal(d, list[..n], names - {list[n]});
      SumOfOneMore(names, d, list[n]);
      assert PlanFiles(d, list)[..n] == PlanFiles(d, list[..n]);
    }
  }

  lemma LocalTotal(d: DiskState)
    ensures TotalSize(LocalFiles(d)) == LocalBytes(d)
  {
    var names := NamesIn(d, LocalDir);
    SortedLists(names);
    AscendingNamesDiffer(Sorted(names));
    ListedTotal(d, Sorted(names), names);
  }

  /** `c` is the nearest whole number to `x`, halves up. */
  predicate Nearest(c: int, x: real) {
    c as real - 0.5 <= x < c as real + 0.5
  }

  /** `c` is `x` with its fraction dropped. */
  predicate Whole(c: int, x: real) {
    c as real <= x < c as real + 1.0
  }

  lemma TruncIsWhole(x: real)
    requires x >= 0.0
    ensures Whole(Trunc(x), x)
  {
  }

  function Share(n: nat, percent: real): real {
    n as real * percent / 100.0
  }

  /** `c` of `n` things are `percent` of them, to the nearest whole number, but one where that would round a positive
      share to none. */
  predicate Proportional(c: int, n: nat, percent: real) {
    if 0.0 < Share(n, percent) < 0.5 then c == 1 else Nearest(c, Share(n, percent))
  }

  lemma ShareBounds(n: nat, percent: real)
    requires 0.0 <= percent
    ensures Share(n, percent) >= 0.0
    ensures percent <= 100.0 ==> Share(n, percent) <= n as real
    ensures percent > 0.0 && n > 0 ==> Share(n, percent) > 0.0
    ensures percent == 0.0 ==> Share(n, percent) == 0.0
  {
    if percent <= 100.0 {
      assert n as real * percent <= n as real * 100.0;
    }
    if percent > 0.0 && n > 0 {
      assert n as real * percent > 0.0;
    }
  }

  lemma ChangeCountNearest(change: real, n: nat)
    requires 0.0 <= change <= 100.0
    ensures Proportional(ChangeCount(change, n), n, change)
  {
    ShareBounds(n, change);
    TruncIsWhole(Share(n, change) + 0.5);
  }

  lemma GrowBytesWhole(growth: real, n: nat)
    requires growth >= 0.0
    ensures Whole(GrowBytes(growth, n), Share(n, growth))
  {
    ShareBounds(n, growth);
    TruncIsWhole(Share(n, growth));
  }

  lemma RewriteIsProportional(w: World, wo: WorkOrder, d: DiskState)
    requires PlanOf(w, wo, d).Ok? && 0.0 <= wo.change <= 100.0
    ensures Proportional(|PlanOf(w, wo, d).value.rewrite|, |NamesIn(d, LocalDir)|, wo.change)
  {
    PlanIsSound(w, wo, d);
    ChangeCountNearest(wo.change, |NamesIn(d, LocalDir)|);
  }

  lemma GrowthIsProportional(w: World, wo: WorkOrder, d: DiskState)
    requires PlanOf(w, wo, d).Ok? && wo.growth >= 0.0
    ensures Whole(PlanOf(w, wo, d).value.grow, Share(LocalBytes(d), wo.growth))
  {
    LocalTotal(d);
    GrowBytesWhole(wo.growth, LocalBytes(d));
  }

  /** How much a plan does. Of n local files it rewrites change percent to the nearest, only one where that would round
      a positive share to none; it grows by growth percent of the bytes on the disk, fractions dropped. */
  lemma PlanIsProportional(w: World, wo: WorkOrder, d: DiskState)
    requires PlanOf(w, wo, d).Ok? && 0.0 <= wo.change <= 100.0 && wo.growth >= 0.0
    ensures var p := PlanOf(w, wo, d).value;
      && Proportional(|p.rewrite|, |NamesIn(d, LocalDir)|, wo.change)
      && Whole(p.grow, Share(LocalBytes(d), wo.growth))
  {
    RewriteIsProportional(w, wo, d);
    GrowthIsProportional(w, wo, d);
  }

  // ---- Applying it ----

  function FileSeed(wo: WorkOrder, i: nat): nat {
    (wo.runSeed + i) % TWO64
  }

  /** The files after the first `k` rewrites. */
  function Rewritten(w: World, wo: WorkOrder, files: map<Rel, Content>, plan: seq<PlanFile>, k: nat): map<Rel, Content>
    requires k <= |plan|
  {
    if k == 0 then files
    else
      var f := plan[k - 1];
      Rewritten(w, wo, files, plan, k - 1)[Rel(LocalDir, f.name) := w.rewrite(KnobsOf(wo), FileSeed(wo, k - 1), f.size)]
  }

  function ShortID(run: Part): Part {
    if |run| > 8 then run[..8] else run
  }

  function GrowJob(wo: WorkOrder): Name {
    Ascii("gf_grow_") + ShortID(wo.run)
  }

  predicate IsGrowth(wo: WorkOrder, r: Rel) {
    r.dir == LocalDir && HasPrefix(r.name, GrowJob(wo) + Ascii("."))
  }

  /** Runs of long ids share a growth file's name only if the first eight characters of the ids agree. */
  lemma GrowthIsOwn(a: WorkOrder, b: WorkOrder, r: Rel)
    requires |a.run| >= 8 && |b.run| >= 8 && IsGrowth(a, r) && IsGrowth(b, r)
    ensures a.run[..8] == b.run[..8]
  {
    var job := Ascii("gf_grow_");
    assert |job| == 8;
    forall i | 0 <= i < 8 ensures a.run[i] == b.run[i] {
      assert (GrowJob(a) + Ascii("."))[8 + i] == a.run[i] == r.name[8 + i];
      assert (GrowJob(b) + Ascii("."))[8 + i] == b.run[i] == r.name[8 + i];
    }
  }

  function GrowSeed(wo: WorkOrder): nat {
    wo.runSeed / 65536 * 65536 + Xor(wo.runSeed % 65536, 0x9e37, 16)
  }

  function Place(dir: Dir, named: map<Name, Content>): map<Rel, Content> {
    map n | n in named :: Rel(dir, n) := named[n]
  }

  /** As many files as it takes at the fixed file size. */
  function FileCount(bytes: nat): (n: nat)
    ensures bytes > 0 ==> (n - 1) * GIB < bytes <= n * GIB
  {
    (bytes + GIB - 1) / GIB
  }

  function Growth(w: World, wo: WorkOrder, grow: int): map<Rel, Content> {
    if grow > 0 then Place(LocalDir, w.layout(KnobsOf(wo), GrowJob(wo), GrowSeed(wo), grow, FileCount(grow))) else map[]
  }

  function RewriteSet(plan: seq<PlanFile>, k: nat): set<Rel>
    requires k <= |plan|
  {
    set i | 0 <= i < k :: Rel(LocalDir, plan[i].name)
  }

  function Churned(w: World, wo: WorkOrder, d: DiskState, p: Plan): DiskState {
    d.(files := Rewritten(w, wo, d.files, p.rewrite, |p.rewrite|) + Growth(w, wo, p.grow))
  }

  /** What applyChurn reports as changed: the rewritten files and, after growing, every file named for this run. */
  function Changed(wo: WorkOrder, p: Plan, after: DiskState): set<Rel> {
    RewriteSet(p.rewrite, |p.rewrite|) + if p.grow > 0 then set r | r in after.files && IsGrowth(wo, r) else {}
  }

  /** A disk after the run wrote it and brought its manifest up to date. */
  function Applied(w: World, wo: WorkOrder, d: DiskState, p: Plan): DiskState {
    var after := Churned(w, wo, d, p);
    UpdateManifest(w.sha, after, wo.run, Changed(wo, p, after))
  }

  // ---- What the churn leaves alone ----

  lemma {:induction false} RewrittenFrame(w: World, wo: WorkOrder, files: map<Rel, Content>, plan: seq<PlanFile>, k: nat)
    requires k <= |plan|
    ensures Rewritten(w, wo, files, plan, k).Keys == files.Keys + RewriteSet(plan, k)
    ensures forall r :: r in files && r !in RewriteSet(plan, k) ==> Rewritten(w, wo, files, plan, k)[r] == files[r]
  {
    if k > 0 {
      RewrittenFrame(w, wo, files, plan, k - 1);
      assert RewriteSet(plan, k) == RewriteSet(plan, k - 1) + {Rel(LocalDir, plan[k - 1].name)};
    }
  }

  lemma GrowthIsNamed(w: World, wo: WorkOrder, grow: int)
    requires Faithful(w)
    ensures forall r :: r in Growth(w, wo, grow) ==> grow > 0 && IsGrowth(wo, r)
  {
    forall r | r in Growth(w, wo, grow) ensures grow > 0 && IsGrowth(wo, r) {
      var named := w.layout(KnobsOf(wo), GrowJob(wo), GrowSeed(wo), grow, FileCount(grow));
      assert r.name in named;
    }
  }

  /** Every file outside the reported set is as it was, and none vanishes. */
  lemma ChurnTouchesOnlyChanged(w: World, wo: WorkOrder, d: DiskState, p: Plan)
    requires Faithful(w)
    ensures var after := Churned(w, wo, d, p);
      && d.files.Keys <= after.files.Keys <= d.files.Keys + Changed(wo, p, after)
      && forall r :: r in d.files && r !in Changed(wo, p, after) ==> after.files[r] == d.files[r]
  {
    RewrittenFrame(w, wo, d.files, p.rewrite, |p.rewrite|);
    GrowthIsNamed(w, wo, p.grow);
  }

  /** The law of the incremental manifest: a run makes fresh exactly the files it changed and the paths
      that were missing or unexpected; a file altered otherwise stays stale until a run rewrites it. */
  lemma StaleLaw(w: World, wo: WorkOrder, d: DiskState, p: Plan)
    requires Faithful(w)
    ensures Stale(w.sha, Applied(w, wo, d, p))
      == set r | r in Stale(w.sha, d) && r in d.files && r in Recorded(d) && r !in Changed(wo, p, Churned(w, wo, d, p))
  {
    var mid := Churned(w, wo, d, p);
    var changed := Changed(wo, p, mid);
    ChurnTouchesOnlyChanged(w, wo, d, p);
    UpdateFreshens(w.sha, mid, wo.run, changed);
    StaleUnderChurn(w.sha, d, mid, changed);
  }

  lemma StaleUnderChurn(sha: Sha, d: DiskState, mid: DiskState, changed: set<Rel>)
    requires mid.manifest == d.manifest && d.files.Keys <= mid.files.Keys <= d.files.Keys + changed
    requires forall r :: r in d.files && r !in changed ==> mid.files[r] == d.files[r]
    ensures (set r | r in Stale(sha, mid) && r in mid.files && r in Recorded(mid) && r !in changed)
      == set r | r in Stale(sha, d) && r in d.files && r in Recorded(d) && r !in changed
  {
  }

  // ---- What is written ----

  /** The bytes of the first `k` rewrites. */
  function RewrittenBytes(w: World, wo: WorkOrder, plan: seq<PlanFile>, k: nat): nat
    requires k <= |plan|
  {
    if k == 0 then 0
    else RewrittenBytes(w, wo, plan, k - 1) + |w.rewrite(KnobsOf(wo), FileSeed(wo, k - 1), plan[k - 1].size)|
  }

  lemma {:induction false} RewritesWriteTheirSizes(w: World, wo: WorkOrder, plan: seq<PlanFile>, k: nat)
    requires Faithful(w) && k <= |plan|
    ensures RewrittenBytes(w, wo, plan, k) == TotalSize(plan[..k])
  {
    if k > 0 {
      RewritesWriteTheirSizes(w, wo, plan, k - 1);
      assert plan[..k][..k - 1] == plan[..k - 1];
    }
  }

  /** The planned bytes are the bytes fio's jobs write: those of the rewrites and of the growth files. */
  lemma WrittenIsPlanned(w: World, wo: WorkOrder, p: Plan)
    requires Faithful(w) && p.grow >= 0
    ensures PlanBytes(p) == RewrittenBytes(w, wo, p.rewrite, |p.rewrite|)
      + if p.grow > 0 then TotalContent(w.layout(KnobsOf(wo), GrowJob(wo), GrowSeed(wo), p.grow, FileCount(p.grow))) else 0
  {
    RewritesWriteTheirSizes(w, wo, p.rewrite, |p.rewrite|);
    assert p.rewrite[..|p.rewrite|] == p.rewrite;
    if p.grow > 0 {
      assert FileCount(p.grow) > 0;
    }
  }

  // ---- Failures ----

  /** A fio job that fails leaves arbitrary content in the files it was writing. */
  datatype Fault =
    | NoFault
    | RewriteFails(at: nat, junk: Content)
    | GrowFails(left: map<Name, Content>)
    | RegionFails(dir: Dir, left: map<Name, Content>)

  predicate Fails(p: Plan, f: Fault) {
    match f
    case RewriteFails(at, _) => at < |p.rewrite|
    case GrowFails(_) => p.grow > 0
    case _ => false
  }

  /** The disk when applyChurn returns. */
  function ChurnResult(w: World, wo: WorkOrder, d: DiskState, p: Plan, f: Fault): DiskState {
    if !Fails(p, f) then Churned(w, wo, d, p)
    else match f
      case RewriteFails(at, junk) =>
        d.(files := Rewritten(w, wo, d.files, p.rewrite, at)[Rel(LocalDir, p.rewrite[at].name) := junk])
      case GrowFails(left) =>
        d.(files := Rewritten(w, wo, d.files, p.rewrite, |p.rewrite|) + Place(LocalDir, left))
      case _ => d
  }
}
