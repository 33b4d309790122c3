/** The verify run: every generated file against its disk's manifest (cmd/agent/verify.go:33-150). */
module Verify {
  import opened Common
  import opened Disk

  datatype Problem =
    | Unexpected(disk: nat, file: Rel)
    | WrongSize(disk: nat, file: Rel, got: nat, want: nat)
    | Mismatch(disk: nat, file: Rel)
    | Missing(disk: nat, file: Rel)

  /** What is wrong with one path, if anything. */
  function ProblemAt(sha: Sha, d: DiskState, i: nat, r: Rel): Option<Problem> {
    if r in d.files then
      if r !in Recorded(d) then Some(Unexpected(i, r))
      else if |d.files[r]| != Recorded(d)[r].size then Some(WrongSize(i, r, |d.files[r]|, Recorded(d)[r].size))
      else if sha(d.files[r]) != Recorded(d)[r].sum then Some(Mismatch(i, r))
      else None
    else if r in Recorded(d) then Some(Missing(i, r))
    else None
  }

  lemma ProblemIffStale(sha: Sha, d: DiskState, i: nat, r: Rel)
    ensures ProblemAt(sha, d, i, r).Some? <==> r in Stale(sha, d)
    ensures ProblemAt(sha, d, i, r).Some? ==> ProblemAt(sha, d, i, r).value.file == r && ProblemAt(sha, d, i, r).value.disk == i
  {
  }

  /** The list holds the problems of the paths seen, each once, and no other. */
  predicate ProblemsOf(sha: Sha, d: DiskState, i: nat, seen: set<Rel>, ps: seq<Problem>) {
    && (forall p :: p in ps ==> p.file in seen && ProblemAt(sha, d, i, p.file) == Some(p))
    && (forall r :: r in seen && ProblemAt(sha, d, i, r).Some? ==> ProblemAt(sha, d, i, r).value in ps)
    && NoneTwice(ps)
  }

  predicate NoneTwice(ps: seq<Problem>) {
    forall a, b :: 0 <= a < b < |ps| ==> ps[a] != ps[b]
  }

  lemma SeeOne(sha: Sha, d: DiskState, i: nat, seen: set<Rel>, ps: seq<Problem>, r: Rel)
    requires ProblemsOf(sha, d, i, seen, ps) && r !in seen
    ensures var p := ProblemAt(sha, d, i, r);
      ProblemsOf(sha, d, i, seen + {r}, if p.Some? then ps + [p.value] else ps)
  {
    var p := ProblemAt(sha, d, i, r);
    ProblemIffStale(sha, d, i, r);
    if p.Some? {
      assert p.value !in ps;
    }
  }

  // ---- Byte totals ----

  ghost function Sum(s: set<Rel>, f: map<Rel, nat>): nat
    requires s <= f.Keys
  {
    if s == {} then 0
    else
      var r :| r in s;
      f[r] + Sum(s - {r}, f)
  }

  lemma {:induction false} SumOfOneMore(s: set<Rel>, f: map<Rel, nat>, x: Rel)
    requires s <= f.Keys && x in s
    ensures Sum(s, f) == f[x] + Sum(s - {x}, f)
  {
    var r :| r in s && Sum(s, f) == f[r] + Sum(s - {r}, f);
    if r != x {
      SumOfOneMore(s - {r}, f, x);
      SumOfOneMore(s - {x}, f, r);
      assert s - {r} - {x} == s - {x} - {r};
    }
  }

  lemma SumAdds(s: set<Rel>, f: map<Rel, nat>, x: Rel)
    requires s <= f.Keys && x in f && x !in s
    ensures Sum(s + {x}, f) == Sum(s, f) + f[x]
  {
    SumOfOneMore(s + {x}, f, x);
    assert s + {x} - {x} == s;
  }

  function SizesOnDisk(d: DiskState): map<Rel, nat> {
    map r | r in d.files :: |d.files[r]|
  }

  function SizesRecorded(d: DiskState): map<Rel, nat> {
    map r | r in Recorded(d) :: Recorded(d)[r].size
  }

  ghost function RecordedBytes(d: DiskState): nat {
    Sum(Recorded(d).Keys, SizesRecorded(d))
  }

  /** The bytes verify hashes on a disk. */
  ghost function ReadBytes(d: DiskState): nat {
    Sum(d.files.Keys * Recorded(d).Keys, SizesOnDisk(d))
  }

  lemma {:induction false} SumDependsOnValues(s: set<Rel>, f: map<Rel, nat>, g: map<Rel, nat>)
    requires s <= f.Keys && s <= g.Keys && forall r :: r in s ==> f[r] == g[r]
    ensures Sum(s, f) == Sum(s, g)
  {
    if s != {} {
      var r :| r in s;
      SumOfOneMore(s, f, r);
      SumOfOneMore(s, g, r);
      SumDependsOnValues(s - {r}, f, g);
    }
  }

  lemma FreshBytes(sha: Sha, d: DiskState)
    requires Stale(sha, d) == {}
    ensures ReadBytes(d) == RecordedBytes(d)
  {
    assert forall r :: r in d.files.Keys + Recorded(d).Keys ==> r !in Stale(sha, d);
    assert d.files.Keys * Recorded(d).Keys == Recorded(d).Keys;
    SumDependsOnValues(Recorded(d).Keys, SizesOnDisk(d), SizesRecorded(d));
  }

  // ---- One disk ----

  predicate Unreadable(d: DiskState) {
    exists r :: r in d.files && r in Recorded(d) && r in d.broken
  }

  /** One file that is present; false when it cannot be read. */
  method CheckFile(sha: Sha, v: Volume, i: nat, r: Rel) returns (ok: bool, p: Option<Problem>, read: nat)
    requires r in v.files
    ensures ok == !(r in Recorded(v.State()) && r in v.broken)
    ensures ok ==> p == ProblemAt(sha, v.State(), i, r)
    ensures ok ==> read == if r in Recorded(v.State()) then |v.files[r]| else 0
  {
    var recorded := if v.manifest.Some? then v.manifest.value.files else map[];
    if r !in recorded {
      return true, Some(Unexpected(i, r)), 0;
    }
    var e := v.HashFile(sha, r);
    if e.None? {
      return false, None, 0;
    }
    read := e.value.size;
    if e.value.size != recorded[r].size {
      return true, Some(WrongSize(i, r, e.value.size, recorded[r].size)), read;
    } else if e.value.sum != recorded[r].sum {
      return true, Some(Mismatch(i, r)), read;
    }
    return true, None, read;
  }

  function Seen(list: seq<Rel>, k: nat): set<Rel>
    requires k <= |list|
  {
    set j | 0 <= j < k :: list[j]
  }

  /** The first `k` listed files are checked, and all of them could be read. */
  ghost predicate Checked(sha: Sha, d: DiskState, i: nat, list: seq<Rel>, k: nat, found: seq<Problem>, done: nat)
    requires k <= |list|
  {
    var seen := Seen(list, k);
    && seen <= d.files.Keys
    && ProblemsOf(sha, d, i, seen, found)
    && done == Sum(seen * Recorded(d).Keys, SizesOnDisk(d))
    && forall r :: r in seen && r in Recorded(d) ==> r !in d.broken
  }

  lemma SeenGrows(list: seq<Rel>, k: nat)
    requires k < |list| && !Repeats(list)
    ensures Seen(list, k + 1) == Seen(list, k) + {list[k]} && list[k] !in Seen(list, k)
  {
  }

  lemma BytesGrow(d: DiskState, seen: set<Rel>, r: Rel)
    requires seen <= d.files.Keys && r in d.files && r !in seen
    ensures Sum((seen + {r}) * Recorded(d).Keys, SizesOnDisk(d))
      == Sum(seen * Recorded(d).Keys, SizesOnDisk(d)) + if r in Recorded(d) then |d.files[r]| else 0
  {
    var was := seen * Recorded(d).Keys;
    if r in Recorded(d) {
      assert (seen + {r}) * Recorded(d).Keys == was + {r};
      SumAdds(was, SizesOnDisk(d), r);
    } else {
      assert (seen + {r}) * Recorded(d).Keys == was;
    }
  }

  lemma CheckedStep(sha: Sha, d: DiskState, i: nat, list: seq<Rel>, k: nat, found: seq<Problem>, done: nat)
    requires k < |list| && !Repeats(list) && list[k] in d.files && Checked(sha, d, i, list, k, found, done)
    requires !(list[k] in Recorded(d) && list[k] in d.broken)
    ensures var p := ProblemAt(sha, d, i, list[k]);
      Checked(sha, d, i, list, k + 1, if p.Some? then found + [p.value] else found,
              done + if list[k] in Recorded(d) then |d.files[list[k]]| else 0)
  {
    SeenGrows(list, k);
    SeeOne(sha, d, i, Seen(list, k), found, list[k]);
    BytesGrow(d, Seen(list, k), list[k]);
  }

  lemma AllSeen(d: DiskState, list: seq<Rel>)
    requires forall r :: r in list <==> r in d.files
    ensures Seen(list, |list|) == d.files.Keys
  {
    assert forall r :: r in list ==> r in Seen(list, |list|);
  }

  /** The files present, in listing order; None when one cannot be read. */
  method CheckPresent(sha: Sha, v: Volume, i: nat) returns (ps: Option<seq<Problem>>, done: nat)
    ensures ps.None? <==> Unreadable(v.State())
    ensures ps.Some? ==> ProblemsOf(sha, v.State(), i, v.files.Keys, ps.value) && done == ReadBytes(v.State())
  {
    var list := DataFiles(v.State());
    DataFilesListed(v.State());
    var found: seq<Problem> := [];
    done := 0;
    for k := 0 to |list|
      invariant Checked(sha, v.State(), i, list, k, found, done)
    {
      var ok, p, read := CheckFile(sha, v, i, list[k]);
      if !ok {
        return None, done;
      }
      CheckedStep(sha, v.State(), i, list, k, found, done);
      found := if p.Some? then found + [p.value] else found;
      done := done + read;
    }
    AllSeen(v.State(), list);
    ps := Some(found);
  }

  lemma MissingStep(sha: Sha, d: DiskState, i: nat, missing: set<Rel>, rest: set<Rel>, found: seq<Problem>, r: Rel)
    requires missing == Recorded(d).Keys - d.files.Keys && r in rest && rest <= missing
    requires ProblemsOf(sha, d, i, d.files.Keys + (missing - rest), found)
    ensures ProblemsOf(sha, d, i, d.files.Keys + (missing - (rest - {r})), found + [Missing(i, r)])
  {
    SeeOne(sha, d, i, d.files.Keys + (missing - rest), found, r);
    assert d.files.Keys + (missing - (rest - {r})) == d.files.Keys + (missing - rest) + {r};
  }

  lemma NothingMissingYet(d: DiskState, missing: set<Rel>)
    requires missing == Recorded(d).Keys - d.files.Keys
    ensures d.files.Keys + (missing - missing) == d.files.Keys
    ensures d.files.Keys + (missing - {}) == d.files.Keys + Recorded(d).Keys
  {
  }

  /** The recorded files that are not on the disk, in any order. */
  method CheckMissing(sha: Sha, d: DiskState, i: nat, present: seq<Problem>) returns (found: seq<Problem>)
    requires ProblemsOf(sha, d, i, d.files.Keys, present)
    ensures ProblemsOf(sha, d, i, d.files.Keys + Recorded(d).Keys, found)
  {
    found := present;
    var missing := Recorded(d).Keys - d.files.Keys;
    var rest := missing;
    NothingMissingYet(d, missing);
    while rest != {}
      invariant rest <= missing
      invariant ProblemsOf(sha, d, i, d.files.Keys + (missing - rest), found)
      decreases |rest|
    {
      var r :| r in rest;
      MissingStep(sha, d, i, missing, rest, found, r);
      found := found + [Missing(i, r)];
      rest := rest - {r};
    }
  }

  method CheckDisk(sha: Sha, v: Volume, i: nat) returns (ps: Option<seq<Problem>>, done: nat)
    ensures ps.None? <==> Unreadable(v.State())
    ensures ps.Some? ==> ProblemsOf(sha, v.State(), i, v.files.Keys + Recorded(v.State()).Keys, ps.value)
    ensures ps.Some? ==> done == ReadBytes(v.State())
  {
    ps, done := CheckPresent(sha, v, i);
    if ps.Some? {
      var all := CheckMissing(sha, v.State(), i, ps.value);
      ps := Some(all);
    }
  }

  // ---- The run ----

  datatype Verdict = CannotMount | NoManifest | ReadFailed | Rejected(problems: seq<Problem>) | Verified(bytes: nat)

  predicate Checkable(d: DiskState) {
    Loadable(d) && !Unreadable(d)
  }

  ghost function AllRecordedBytes(ds: seq<DiskState>): nat {
    if ds == [] then 0 else AllRecordedBytes(ds[..|ds| - 1]) + RecordedBytes(ds[|ds| - 1])
  }

  ghost function AllReadBytes(ds: seq<DiskState>): nat {
    if ds == [] then 0 else AllReadBytes(ds[..|ds| - 1]) + ReadBytes(ds[|ds| - 1])
  }

  /** Every stale path of every disk is reported once, correctly, and nothing else is. */
  predicate Reports(sha: Sha, ds: seq<DiskState>, ps: seq<Problem>) {
    && (forall p :: p in ps ==> p.disk < |ds| && ProblemAt(sha, ds[p.disk], p.disk, p.file) == Some(p))
    && (forall i, r :: 0 <= i < |ds| && r in Stale(sha, ds[i]) ==> ProblemAt(sha, ds[i], i, r).value in ps)
    && NoneTwice(ps)
  }

  lemma ReportsOneMore(sha: Sha, ds: seq<DiskState>, ps: seq<Problem>, d: DiskState, more: seq<Problem>)
    requires Reports(sha, ds, ps) && ProblemsOf(sha, d, |ds|, d.files.Keys + Recorded(d).Keys, more)
    ensures Reports(sha, ds + [d], ps + more)
  {
    forall p | p in more ensures p.disk == |ds| {
      ProblemIffStale(sha, d, |ds|, p.file);
    }
    forall i, r | 0 <= i < |ds| + 1 && r in Stale(sha, (ds + [d])[i])
      ensures ProblemAt(sha, (ds + [d])[i], i, r).value in ps + more
    {
      ProblemIffStale(sha, (ds + [d])[i], i, r);
    }
  }

  lemma ProblemsIffStale(sha: Sha, ds: seq<DiskState>, ps: seq<Problem>)
    requires Reports(sha, ds, ps)
    ensures ps != [] <==> exists i :: 0 <= i < |ds| && Stale(sha, ds[i]) != {}
  {
    if i :| 0 <= i < |ds| && Stale(sha, ds[i]) != {} {
      var r :| r in Stale(sha, ds[i]);
      assert ProblemAt(sha, ds[i], i, r).value in ps;
    }
    if ps != [] {
      var p := ps[0];
      ProblemIffStale(sha, ds[p.disk], p.disk, p.file);
      assert p.file in Stale(sha, ds[p.disk]);
    }
  }

  lemma {:induction false} AllFreshBytes(sha: Sha, ds: seq<DiskState>)
    requires forall i :: 0 <= i < |ds| ==> Stale(sha, ds[i]) == {}
    ensures AllReadBytes(ds) == AllRecordedBytes(ds)
  {
    if ds != [] {
      AllFreshBytes(sha, ds[..|ds| - 1]);
      FreshBytes(sha, ds[|ds| - 1]);
    }
  }

  predicate Loadable(d: DiskState) {
    d.formatted && d.manifest.Some?
  }

  method LoadAll(vols: seq<Volume>) returns (failure: Option<Verdict>)
    ensures failure.None? <==> forall i :: 0 <= i < |vols| ==> Loadable(vols[i].State())
    ensures failure.Some? ==> failure.value.CannotMount? || failure.value.NoManifest?
  {
    for i := 0 to |vols|
      invariant forall j :: 0 <= j < i ==> Loadable(vols[j].State())
    {
      if !vols[i].formatted {
        return Some(CannotMount);
      }
      if vols[i].manifest.None? {
        return Some(NoManifest);
      }
    }
    return None;
  }

  method CheckAll(sha: Sha, vols: seq<Volume>) returns (problems: Option<seq<Problem>>, done: nat)
    ensures problems.None? <==> exists i :: 0 <= i < |vols| && Unreadable(vols[i].State())
    ensures problems.Some? ==> Reports(sha, States(vols), problems.value) && done == AllReadBytes(States(vols))
  {
    ghost var ds := States(vols);
    var found: seq<Problem> := [];
    done := 0;
    for i := 0 to |vols|
      invariant Reports(sha, ds[..i], found) && done == AllReadBytes(ds[..i])
      invariant forall j :: 0 <= j < i ==> !Unreadable(ds[j])
    {
      var ps, bytes := CheckDisk(sha, vols[i], i);
      if ps.None? {
        return None, done;
      }
      OneMoreDisk(sha, ds, i, found, ps.value);
      found := found + ps.value;
      done := done + bytes;
    }
    assert ds[..|vols|] == ds;
    problems := Some(found);
  }

  lemma OneMoreDisk(sha: Sha, ds: seq<DiskState>, i: nat, found: seq<Problem>, more: seq<Problem>)
    requires i < |ds| && Reports(sha, ds[..i], found)
    requires ProblemsOf(sha, ds[i], i, ds[i].files.Keys + Recorded(ds[i]).Keys, more)
    ensures Reports(sha, ds[..i + 1], found + more)
    ensures AllReadBytes(ds[..i + 1]) == AllReadBytes(ds[..i]) + ReadBytes(ds[i])
  {
    assert ds[..i + 1] == ds[..i] + [ds[i]];
    ReportsOneMore(sha, ds[..i], found, ds[i], more);
    ReadOneMore(ds[..i], ds[i]);
  }

  predicate Intact(sha: Sha, d: DiskState) {
    Checkable(d) && Stale(sha, d) == {}
  }

  /** Sound and complete: verified exactly when every disk can be checked and nothing on any is stale; the bytes
      reported are then what the manifests record. Otherwise, one problem per stale path.
      The source needs at least one disk: it logs the first disk's manifest. */
  method RunVerify(sha: Sha, vols: seq<Volume>) returns (verdict: Verdict)
    requires vols != []
    ensures verdict.Verified? <==> forall i :: 0 <= i < |vols| ==> Intact(sha, vols[i].State())
    ensures verdict.Verified? ==> verdict.bytes == AllRecordedBytes(States(vols))
    ensures verdict.Rejected? <==>
      (forall i :: 0 <= i < |vols| ==> Checkable(vols[i].State())) && !(forall i :: 0 <= i < |vols| ==> Intact(sha, vols[i].State()))
    ensures verdict.Rejected? ==> Reports(sha, States(vols), verdict.problems)
    ensures verdict.ReadFailed? ==> forall i :: 0 <= i < |vols| ==> Loadable(vols[i].State())
  {
    var failure := LoadAll(vols);
    if failure.Some? {
      return failure.value;
    }
    var problems, done := CheckAll(sha, vols);
    if problems.None? {
      return ReadFailed;
    }
    ProblemsIffStale(sha, States(vols), problems.value);
    if problems.value != [] {
      return Rejected(problems.value);
    }
    AllFreshBytes(sha, States(vols));
    return Verified(done);
  }

  lemma ReadOneMore(ds: seq<DiskState>, d: DiskState)
    ensures AllReadBytes(ds + [d]) == AllReadBytes(ds) + ReadBytes(d)
  {
    assert (ds + [d])[..|ds|] == ds;
  }
}
