/** Choosing which files an incremental run rewrites (cmd/agent/gen.go:364-429). */
module ChangeSet {
  import opened Listing

  datatype PlanFile = PlanFile(name: Name, size: nat)

  /** The pseudo-random source: what the k-th step of a shuffle of n indices draws under a seed. */
  type Draw = (nat, nat, nat) -> nat

  function Swap(s: seq<nat>, i: nat, j: nat): (r: seq<nat>)
    requires i < |s| && j < |s|
    ensures |r| == |s|
  {
    s[i := s[j]][j := s[i]]
  }

  /** The shuffle's steps for positions i, i-1, ..., 1. */
  function Shuffled(draw: Draw, seed: nat, s: seq<nat>, i: nat): (r: seq<nat>)
    requires i < |s|
    ensures |r| == |s|
    decreases i
  {
    if i == 0 then s else Shuffled(draw, seed, Swap(s, i, draw(seed, |s|, i) % (i + 1)), i - 1)
  }

  function Indices(n: nat): (r: seq<nat>)
    ensures |r| == n && forall k :: 0 <= k < n ==> r[k] == k
  {
    seq(n, k => k)
  }

  predicate Distinct(s: seq<nat>) {
    forall i, j :: 0 <= i < j < |s| ==> s[i] != s[j]
  }

  /** The files whose position is chosen, in their own order. */
  function Kept(files: seq<PlanFile>, chosen: set<nat>): seq<PlanFile> {
    if files == [] then []
    else
      var n := |files| - 1;
      Kept(files[..n], chosen) + if n in chosen then [files[n]] else []
  }

  function Members(s: seq<nat>): set<nat> {
    set x | x in s
  }

  function PickChangeSet(draw: Draw, files: seq<PlanFile>, n: int, seed: nat): seq<PlanFile> {
    if n <= 0 then []
    else if n >= |files| then files
    else Kept(files, Members(Shuffled(draw, seed, Indices(|files|), |files| - 1)[..n]))
  }

  // ---- The shuffle permutes ----

  predicate Permutes(s: seq<nat>, n: nat) {
    |s| == n && Distinct(s) && forall i :: 0 <= i < n ==> s[i] < n
  }

  lemma {:induction false} ShuffledPermutes(draw: Draw, seed: nat, s: seq<nat>, i: nat)
    requires i < |s| && Permutes(s, |s|)
    ensures Permutes(Shuffled(draw, seed, s, i), |s|)
    decreases i
  {
    if i > 0 {
      ShuffledPermutes(draw, seed, Swap(s, i, draw(seed, |s|, i) % (i + 1)), i - 1);
    }
  }

  // ---- What is kept ----

  lemma {:induction false} KeptCount(files: seq<PlanFile>, chosen: set<nat>)
    requires forall c :: c in chosen ==> c < |files|
    ensures |Kept(files, chosen)| == |chosen|
  {
    if files == [] {
      assert chosen == {};
    } else {
      var n := |files| - 1;
      KeptCount(files[..n], chosen - {n});
      KeptIgnoresLater(files[..n], chosen, n);
    }
  }

  lemma {:induction false} KeptIgnoresLater(files: seq<PlanFile>, chosen: set<nat>, n: nat)
    requires |files| <= n
    ensures Kept(files, chosen) == Kept(files, chosen - {n})
  {
    if files != [] {
      KeptIgnoresLater(files[..|files| - 1], chosen, n);
    }
  }

  lemma {:induction false} MembersCount(s: seq<nat>)
    requires Distinct(s)
    ensures |Members(s)| == |s|
  {
    if s != [] {
      var n := |s| - 1;
      MembersCount(s[..n]);
      assert Members(s) == Members(s[..n]) + {s[n]};
    }
  }

  predicate NamesAscend(files: seq<PlanFile>) {
    forall i, j :: 0 <= i < j < |files| ==> Below(files[i].name, files[j].name)
  }

  lemma {:induction false} KeptIsOrdered(files: seq<PlanFile>, chosen: set<nat>)
    requires NamesAscend(files)
    ensures NamesAscend(Kept(files, chosen))
    ensures forall f :: f in Kept(files, chosen) ==> f in files
  {
    if files != [] {
      var n := |files| - 1;
      KeptIsOrdered(files[..n], chosen);
      forall f | f in Kept(files[..n], chosen) ensures Below(f.name, files[n].name) {
        var i :| 0 <= i < n && files[i] == f;
      }
    }
  }

  /** Exactly min(max(n, 0), all) distinct files, in name order, whatever the random source draws. */
  lemma PickIsASelection(draw: Draw, files: seq<PlanFile>, n: int, seed: nat)
    requires NamesAscend(files)
    ensures var r := PickChangeSet(draw, files, n, seed);
      && |r| == (if n <= 0 then 0 else if n <= |files| then n else |files|)
      && NamesAscend(r)
      && forall f :: f in r ==> f in files
  {
    if 0 < n < |files| {
      var s := Shuffled(draw, seed, Indices(|files|), |files| - 1);
      ShuffledPermutes(draw, seed, Indices(|files|), |files| - 1);
      MembersCount(s[..n]);
      KeptCount(files, Members(s[..n]));
      KeptIsOrdered(files, Members(s[..n]));
    }
  }

  // ---- No file is out of reach ----

  /** The random source that draws `ds[k]` at position k. */
  function Scripted(ds: seq<nat>): Draw {
    (seed: nat, n: nat, k: nat) => if k < |ds| then ds[k] else 0
  }

  lemma {:induction false} OnlyDrawsBelowMatter(a: seq<nat>, b: seq<nat>, seed: nat, s: seq<nat>, i: nat)
    requires i < |s| && |a| == |b| == |s| && forall k :: 0 <= k <= i ==> a[k] == b[k]
    ensures Shuffled(Scripted(a), seed, s, i) == Shuffled(Scripted(b), seed, s, i)
    decreases i
  {
    if i > 0 {
      OnlyDrawsBelowMatter(a, b, seed, Swap(s, i, a[i] % (i + 1)), i - 1);
    }
  }

  lemma SwapKeepsFront(s: seq<nat>, i: nat, j: nat, k: nat)
    requires i < k <= |s| && j < k
    ensures Members(Swap(s, i, j)[..k]) == Members(s[..k])
  {
    var t := Swap(s, i, j);
    forall x ensures x in t[..k] <==> x in s[..k] {
      if x in s[..k] {
        var p :| 0 <= p < k && s[p] == x;
        assert t[..k][if p == i then j else if p == j then i else p] == x;
      }
      if x in t[..k] {
        var p :| 0 <= p < k && t[p] == x;
        assert s[..k][if p == i then j else if p == j then i else p] == x;
      }
    }
  }

  /** The steps below position k only rearrange the first k elements. */
  lemma {:induction false} ShuffledKeepsFront(draw: Draw, seed: nat, s: seq<nat>, i: nat, k: nat)
    requires i < k <= |s|
    ensures Members(Shuffled(draw, seed, s, i)[..k]) == Members(s[..k])
    decreases i
  {
    if i > 0 {
      var j := draw(seed, |s|, i) % (i + 1);
      SwapKeepsFront(s, i, j, k);
      ShuffledKeepsFront(draw, seed, Swap(s, i, j), i - 1, k);
    }
  }

  lemma SubsetOfSameSize(c: set<nat>, d: set<nat>)
    requires c <= d && |c| == |d|
    ensures c == d
  {
    assert |d - c| == 0;
  }

  lemma Outsider(s: seq<nat>, k: nat, c: set<nat>) returns (j: nat)
    requires Distinct(s) && k <= |s| && |c| < k
    ensures j < k && s[j] !in c
  {
    MembersCount(s[..k]);
    if forall p :: 0 <= p < k ==> s[p] in c {
      j := 0;
      assert Members(s[..k]) <= c;
      SubsetIsSmaller(Members(s[..k]), c);
    } else {
      j :| 0 <= j < k && s[j] !in c;
    }
  }

  lemma SubsetIsSmaller(c: set<nat>, d: set<nat>)
    requires c <= d
    ensures |c| <= |d|
  {
    assert |d - c| == |d| - |c|;
  }

  /** The script's shuffle from position i on brings `c` to the front. */
  predicate Brings(ds: seq<nat>, seed: nat, s: seq<nat>, i: nat, n: nat, c: set<nat>)
    requires i < |s| && n <= |s|
  {
    |ds| == |s| && Members(Shuffled(Scripted(ds), seed, s, i)[..n]) == c
  }

  lemma FrontIsAll(ds: seq<nat>, seed: nat, s: seq<nat>, i: nat, c: set<nat>)
    requires i < |s| == |ds| && Distinct(s) && c <= Members(s[..i + 1]) && |c| == i + 1
    ensures Brings(ds, seed, s, i, i + 1, c)
  {
    MembersCount(s[..i + 1]);
    SubsetOfSameSize(c, Members(s[..i + 1]));
    ShuffledKeepsFront(Scripted(ds), seed, s, i, i + 1);
  }

  lemma NothingToBring(ds: seq<nat>, seed: nat, s: seq<nat>, c: set<nat>)
    requires 0 < |s| == |ds| && |c| == 0
    ensures Brings(ds, seed, s, 0, 0, c)
  {
  }

  /** Draws that bring the chosen elements to the front. */
  lemma {:induction false} Steer(seed: nat, s: seq<nat>, i: nat, n: nat, c: set<nat>) returns (ds: seq<nat>)
    requires i < |s| && Distinct(s) && n <= i + 1 && c <= Members(s[..i + 1]) && |c| == n
    ensures Brings(ds, seed, s, i, n, c)
    decreases i
  {
    if n == i + 1 {
      ds := s;
      FrontIsAll(ds, seed, s, i, c);
    } else if i == 0 {
      ds := s;
      NothingToBring(ds, seed, s, c);
    } else {
      var j := Outsider(s, i + 1, c);
      OutsiderLeaves(s, i, j, c);
      var rest := Steer(seed, Swap(s, i, j), i - 1, n, c);
      ds := rest[i := j];
      FirstStep(ds, rest, seed, s, i);
    }
  }

  lemma OutsiderLeaves(s: seq<nat>, i: nat, j: nat, c: set<nat>)
    requires j <= i < |s| && Distinct(s) && c <= Members(s[..i + 1]) && s[j] !in c
    ensures Distinct(Swap(s, i, j)) && c <= Members(Swap(s, i, j)[..i])
  {
    var t := Swap(s, i, j);
    SwapKeepsFront(s, i, j, i + 1);
    assert t[..i + 1] == t[..i] + [t[i]];
  }

  lemma SmallRemainder(x: nat, m: nat)
    requires x < m
    ensures x % m == x
  {
  }

  lemma FirstStep(ds: seq<nat>, rest: seq<nat>, seed: nat, s: seq<nat>, i: nat)
    requires 0 < i < |s| && |ds| == |rest| == |s| && ds[i] <= i && forall k :: 0 <= k < i ==> ds[k] == rest[k]
    ensures Shuffled(Scripted(ds), seed, s, i) == Shuffled(Scripted(rest), seed, Swap(s, i, ds[i]), i - 1)
  {
    SmallRemainder(ds[i], i + 1);
    assert Scripted(ds)(seed, |s|, i) == ds[i];
    OnlyDrawsBelowMatter(ds, rest, seed, Swap(s, i, ds[i]), i - 1);
  }

  lemma ScriptFor(files: seq<PlanFile>, n: nat, c: set<nat>, seed: nat) returns (draw: Draw)
    requires 0 < n < |files| && |c| == n && forall x :: x in c ==> x < |files|
    ensures PickChangeSet(draw, files, n, seed) == Kept(files, c)
  {
    var all := Indices(|files|);
    assert all[..|files|] == all;
    assert forall x :: x in c ==> all[x] == x;
    var ds := Steer(seed, all, |files| - 1, n, c);
    draw := Scripted(ds);
  }

  /** Every choice of n files is the pick of some random source: none is out of an incremental's reach. */
  lemma EveryChoiceIsPossible(files: seq<PlanFile>, n: nat, c: set<nat>, seed: nat)
    requires 0 < n < |files| && |c| == n && forall x :: x in c ==> x < |files|
    ensures exists draw :: PickChangeSet(draw, files, n, seed) == Kept(files, c)
  {
    var draw := ScriptFor(files, n, c, seed);
  }

  // ---- The algorithm of the source ----

  predicate SortedUp(s: seq<nat>) {
    forall i, j :: 0 <= i < j < |s| ==> s[i] <= s[j]
  }

  /** The library sort of integers, as a function: insertion into a sorted prefix. */
  function SortInts(s: seq<nat>): (r: seq<nat>)
    ensures |r| == |s| && Members(r) == Members(s)
  {
    if s == [] then []
    else
      MembersConcat(s[..|s| - 1], [s[|s| - 1]]);
      assert s == s[..|s| - 1] + [s[|s| - 1]];
      Insert(SortInts(s[..|s| - 1]), s[|s| - 1])
  }

  lemma MembersConcat(a: seq<nat>, b: seq<nat>)
    ensures Members(a + b) == Members(a) + Members(b)
  {
  }

  function Insert(s: seq<nat>, x: nat): (r: seq<nat>)
    ensures |r| == |s| + 1 && Members(r) == Members(s) + {x}
  {
    if s == [] || s[|s| - 1] <= x then
      MembersConcat(s, [x]);
      s + [x]
    else
      var last := [s[|s| - 1]];
      MembersConcat(s[..|s| - 1], last);
      assert s == s[..|s| - 1] + last;
      MembersConcat(Insert(s[..|s| - 1], x), last);
      Insert(s[..|s| - 1], x) + last
  }

  lemma {:induction false} InsertSorts(s: seq<nat>, x: nat)
    requires SortedUp(s)
    ensures SortedUp(Insert(s, x))
  {
    if s != [] && s[|s| - 1] > x {
      InsertSorts(s[..|s| - 1], x);
      var r := Insert(s[..|s| - 1], x);
      forall i | 0 <= i < |r| ensures r[i] <= s[|s| - 1] {
        assert r[i] in Members(r);
      }
    }
  }

  lemma {:induction false} SortIntsSorts(s: seq<nat>)
    ensures SortedUp(SortInts(s))
  {
    if s != [] {
      SortIntsSorts(s[..|s| - 1]);
      InsertSorts(SortInts(s[..|s| - 1]), s[|s| - 1]);
    }
  }

  predicate Increasing(s: seq<nat>) {
    forall i, j :: 0 <= i < j < |s| ==> s[i] < s[j]
  }

  lemma LastIsNew(s: seq<nat>)
    requires s != [] && |Members(s)| == |s|
    ensures var n := |s| - 1; s[n] !in Members(s[..n]) && |Members(s[..n])| == n
  {
    var n := |s| - 1;
    MembersAtMost(s[..n]);
    assert Members(s) == Members(s[..n]) + {s[n]};
  }

  /** Sorted with as many members as elements: strictly increasing. */
  lemma {:induction false} SortedSetIsStrict(s: seq<nat>)
    requires SortedUp(s) && |Members(s)| == |s|
    ensures Increasing(s)
  {
    if s != [] {
      var n := |s| - 1;
      LastIsNew(s);
      SortedSetIsStrict(s[..n]);
      forall i | 0 <= i < n ensures s[i] < s[n] {
        assert s[..n][i] in Members(s[..n]);
      }
    }
  }

  lemma {:induction false} MembersAtMost(s: seq<nat>)
    ensures |Members(s)| <= |s|
  {
    if s != [] {
      MembersAtMost(s[..|s| - 1]);
      assert Members(s) == Members(s[..|s| - 1]) + {s[|s| - 1]};
    }
  }

  function FilesAt(files: seq<PlanFile>, idx: seq<nat>): (r: seq<PlanFile>)
    requires forall k :: 0 <= k < |idx| ==> idx[k] < |files|
    ensures |r| == |idx| && forall k :: 0 <= k < |idx| ==> r[k] == files[idx[k]]
  {
    seq(|idx|, k requires 0 <= k < |idx| => files[idx[k]])
  }

  /** Reading files off at increasing positions is keeping the chosen ones. */
  lemma {:induction false} IncreasingIsKept(files: seq<PlanFile>, idx: seq<nat>)
    requires forall k :: 0 <= k < |idx| ==> idx[k] < |files|
    requires Increasing(idx)
    ensures FilesAt(files, idx) == Kept(files, Members(idx))
    decreases |files|
  {
    if files != [] {
      var n := |files| - 1;
      if idx != [] && idx[|idx| - 1] == n {
        var front := idx[..|idx| - 1];
        IncreasingIsKept(files[..n], front);
        assert Members(idx) - {n} == Members(front);
        KeptIgnoresLater(files[..n], Members(idx), n);
        KeptIgnoresLater(files[..n], Members(front), n);
        assert FilesAt(files, idx) == FilesAt(files[..n], front) + [files[n]];
      } else {
        assert forall k :: 0 <= k < |idx| ==> idx[k] <= idx[|idx| - 1];
        IncreasingIsKept(files[..n], idx);
        assert FilesAt(files, idx) == FilesAt(files[..n], idx);
      }
    }
  }

  method SwapAt(idx: array<nat>, i: nat, j: nat)
    requires i < idx.Length && j < idx.Length
    modifies idx
    ensures idx[..] == Swap(old(idx[..]), i, j)
  {
    idx[i], idx[j] := idx[j], idx[i];
  }

  method Shuffle(draw: Draw, seed: nat, idx: array<nat>)
    requires idx.Length > 0
    modifies idx
    ensures idx[..] == Shuffled(draw, seed, old(idx[..]), idx.Length - 1)
  {
    var i := idx.Length - 1;
    while i > 0
      invariant 0 <= i < idx.Length
      invariant Shuffled(draw, seed, idx[..], i) == Shuffled(draw, seed, old(idx[..]), idx.Length - 1)
    {
      var j := draw(seed, idx.Length, i) % (i + 1);
      SwapAt(idx, i, j);
      i := i - 1;
    }
  }

  lemma SortedChoice(s: seq<nat>, n: nat)
    requires Permutes(s, |s|) && n <= |s|
    ensures Increasing(SortInts(s[..n])) && Members(SortInts(s[..n])) == Members(s[..n])
    ensures forall k :: 0 <= k < n ==> SortInts(s[..n])[k] < |s|
  {
    var r := SortInts(s[..n]);
    MembersCount(s[..n]);
    SortIntsSorts(s[..n]);
    SortedSetIsStrict(r);
    forall k | 0 <= k < n ensures r[k] < |s| {
      assert r[k] in Members(s[..n]);
    }
  }

  method ReadOff(files: seq<PlanFile>, idx: seq<nat>) returns (out: seq<PlanFile>)
    requires forall k :: 0 <= k < |idx| ==> idx[k] < |files|
    ensures out == FilesAt(files, idx)
  {
    out := [];
    for k := 0 to |idx|
      invariant |out| == k && forall j :: 0 <= j < k ==> out[j] == files[idx[j]]
    {
      out := out + [files[idx[k]]];
    }
  }

  /** The first `n` of the shuffled indices, sorted. */
  method Choose(draw: Draw, n: nat, all: nat, seed: nat) returns (chosen: seq<nat>)
    requires n < all
    ensures Increasing(chosen) && Members(chosen) == Members(Shuffled(draw, seed, Indices(all), all - 1)[..n])
    ensures forall k :: 0 <= k < |chosen| ==> chosen[k] < all
  {
    var idx := new nat[all](i => i);
    assert idx[..] == Indices(all);
    Shuffle(draw, seed, idx);
    ShuffledPermutes(draw, seed, Indices(all), all - 1);
    SortedChoice(idx[..], n);
    chosen := SortInts(idx[..][..n]);
  }

  method Pick(draw: Draw, files: seq<PlanFile>, n: int, seed: nat) returns (out: seq<PlanFile>)
    ensures out == PickChangeSet(draw, files, n, seed)
  {
    if n <= 0 {
      return [];
    }
    if n >= |files| {
      return files;
    }
    var chosen := Choose(draw, n, |files|, seed);
    IncreasingIsKept(files, chosen);
    out := ReadOff(files, chosen);
  }
}
