/** A data disk, its checksum manifest, and what of the manifest is stale (cmd/agent/manifest.go). */
module Disk {
  import opened Common
  import opened Listing
  import opened Seeds

  type Content = seq<bv8>
  type Digest = string

  datatype Dir = GlobalDir | LocalDir

  /** A generated file's path relative to the disk root: "global/<name>" or "local/<name>". */
  datatype Rel = Rel(dir: Dir, name: Name)

  datatype Entry = Entry(size: nat, sum: Digest)
  datatype Manifest = Manifest(run: Part, files: map<Rel, Entry>)
  datatype Marker = Marker(run: Part, total: int)

  /** `broken` holds the files whose reads fail. */
  datatype DiskState = DiskState(
    formatted: bool, dirs: set<Dir>, files: map<Rel, Content>, broken: set<Rel>,
    manifest: Option<Manifest>, marker: Option<Marker>)

  /** What the manifest records; a missing or corrupt manifest records nothing. */
  function Recorded(d: DiskState): map<Rel, Entry> {
    if d.manifest.Some? then d.manifest.value.files else map[]
  }

  type Sha = Content -> Digest

  function TrueEntry(sha: Sha, c: Content): Entry {
    Entry(|c|, sha(c))
  }

  predicate Matches(sha: Sha, d: DiskState, r: Rel) {
    r in d.files && r in Recorded(d) && Recorded(d)[r] == TrueEntry(sha, d.files[r])
  }

  /** The paths on which the manifest and the disk disagree: missing, unexpected, or of another size or digest. */
  function Stale(sha: Sha, d: DiskState): set<Rel> {
    set r | r in d.files.Keys + Recorded(d).Keys && !Matches(sha, d, r)
  }

  /** Nothing is stale exactly when the manifest is what hashing the whole disk afresh would record. */
  lemma FreshIsFullRehash(sha: Sha, d: DiskState)
    ensures Stale(sha, d) == {} <==> Recorded(d) == map r | r in d.files :: TrueEntry(sha, d.files[r])
  {
    var full := map r | r in d.files :: TrueEntry(sha, d.files[r]);
    if Stale(sha, d) == {} {
      forall r ensures (r in Recorded(d) <==> r in full) && (r in full ==> Recorded(d)[r] == full[r]) {
        assert r !in Stale(sha, d);
      }
    }
  }

  // ---- Listing ----

  function NamesIn(d: DiskState, dir: Dir): set<Name> {
    set r | r in d.files && r.dir == dir :: r.name
  }

  function InDir(dir: Dir, names: seq<Name>): (r: seq<Rel>)
    ensures |r| == |names| && forall i :: 0 <= i < |r| ==> r[i] == Rel(dir, names[i])
  {
    seq(|names|, i requires 0 <= i < |names| => Rel(dir, names[i]))
  }

  /** Sorted paths: "global/..." comes before "local/...". */
  function DataFiles(d: DiskState): seq<Rel> {
    InDir(GlobalDir, Sorted(NamesIn(d, GlobalDir))) + InDir(LocalDir, Sorted(NamesIn(d, LocalDir)))
  }

  predicate Repeats(s: seq<Rel>) {
    exists i, j :: 0 <= i < j < |s| && s[i] == s[j]
  }

  lemma DirLists(d: DiskState, dir: Dir)
    ensures var s := InDir(dir, Sorted(NamesIn(d, dir)));
      !Repeats(s) && forall r :: r in s <==> r in d.files && r.dir == dir
  {
    var names := NamesIn(d, dir);
    SortedLists(names);
    AscendingNamesDiffer(Sorted(names));
    forall r ensures r in InDir(dir, Sorted(names)) <==> r in d.files && r.dir == dir {
      if r in d.files && r.dir == dir {
        assert r.name in Sorted(names);
        var i :| 0 <= i < |Sorted(names)| && Sorted(names)[i] == r.name;
        assert InDir(dir, Sorted(names))[i] == r;
      }
      if r in InDir(dir, Sorted(names)) {
        assert r.name in names;
      }
    }
  }

  lemma NoRepeatsAcross(a: seq<Rel>, b: seq<Rel>)
    requires !Repeats(a) && !Repeats(b) && forall i, j :: 0 <= i < |a| && 0 <= j < |b| ==> a[i] != b[j]
    ensures !Repeats(a + b)
  {
    var s := a + b;
    forall i, j | 0 <= i < j < |s| ensures s[i] != s[j] {
      assert s[i] == if i < |a| then a[i] else b[i - |a|];
      assert s[j] == if j < |a| then a[j] else b[j - |a|];
    }
  }

  /** The listing holds every data file once. */
  lemma DataFilesListed(d: DiskState)
    ensures !Repeats(DataFiles(d))
    ensures forall r :: r in DataFiles(d) <==> r in d.files
  {
    DirLists(d, GlobalDir);
    DirLists(d, LocalDir);
    NoRepeatsAcross(InDir(GlobalDir, Sorted(NamesIn(d, GlobalDir))), InDir(LocalDir, Sorted(NamesIn(d, LocalDir))));
  }

  // ---- Updating the manifest ----

  /** A recorded file outside `changed` keeps its entry; any other is hashed. */
  function NewEntry(sha: Sha, d: DiskState, changed: set<Rel>, r: Rel): Entry
    requires r in d.files
  {
    if r in Recorded(d) && r !in changed then Recorded(d)[r] else TrueEntry(sha, d.files[r])
  }

  function NewEntries(sha: Sha, d: DiskState, changed: set<Rel>): map<Rel, Entry> {
    map r | r in d.files :: NewEntry(sha, d, changed, r)
  }

  /** The files whose hashing the update needs. */
  function Hashed(d: DiskState, changed: set<Rel>): set<Rel> {
    set r | r in d.files && (r !in Recorded(d) || r in changed)
  }

  function UpdateManifest(sha: Sha, d: DiskState, run: Part, changed: set<Rel>): DiskState {
    d.(manifest := Some(Manifest(run, NewEntries(sha, d, changed))))
  }

  /** An update makes fresh what is new, changed or gone, and nothing else. */
  lemma UpdateFreshens(sha: Sha, d: DiskState, run: Part, changed: set<Rel>)
    ensures var after := UpdateManifest(sha, d, run, changed);
      Stale(sha, after) == set r | r in Stale(sha, d) && r in d.files && r in Recorded(d) && r !in changed
  {
    var after := UpdateManifest(sha, d, run, changed);
    var kept := set r | r in Stale(sha, d) && r in d.files && r in Recorded(d) && r !in changed;
    forall r ensures r in Stale(sha, after) <==> r in kept {
      assert r in Stale(sha, after) <==> r in d.files && NewEntry(sha, d, changed, r) != TrueEntry(sha, d.files[r]);
    }
  }

  // ---- A mounted disk ----

  const READ_BUFFER := 4194304

  /** A mounted data disk; every field is on the disk. */
  class Volume {
    var formatted: bool
    var dirs: set<Dir>
    var files: map<Rel, Content>
    var broken: set<Rel>
    var manifest: Option<Manifest>
    var marker: Option<Marker>

    constructor (d: DiskState)
      ensures State() == d
    {
      formatted, dirs, files, broken := d.formatted, d.dirs, d.files, d.broken;
      manifest, marker := d.manifest, d.marker;
    }

    function State(): DiskState
      reads this
    {
      DiskState(formatted, dirs, files, broken, manifest, marker)
    }

    /** Reads a file through a fixed buffer, feeding the digest; None when the read fails. */
    method HashFile(sha: Sha, r: Rel) returns (e: Option<Entry>)
      requires r in files
      ensures e == if r in broken then None else Some(TrueEntry(sha, files[r]))
    {
      if r in broken {
        return None;
      }
      var content := files[r];
      var digested: Content, total := [], 0;
      while total < |content|
        invariant 0 <= total <= |content| && digested == content[..total]
      {
        var n := if |content| - total < READ_BUFFER then |content| - total else READ_BUFFER;
        digested := digested + content[total..total + n];
        total := total + n;
      }
      assert content[..|content|] == content;
      return Some(Entry(total, sha(digested)));
    }

    /** The next manifest's entry for a file; None when it must be hashed and cannot be read. */
    method EntryFor(sha: Sha, changed: set<Rel>, r: Rel) returns (e: Option<Entry>)
      requires r in files
      ensures e == if r in Hashed(State(), changed) && r in broken then None else Some(NewEntry(sha, State(), changed, r))
    {
      var recorded := if manifest.Some? then manifest.value.files else map[];
      if r in recorded && r !in changed {
        return Some(recorded[r]);
      }
      e := HashFile(sha, r);
    }

    /** The entries of the next manifest; None when a file that must be hashed cannot be read. */
    method Rehash(sha: Sha, changed: set<Rel>) returns (entries: Option<map<Rel, Entry>>)
      ensures entries == if Hashed(State(), changed) * broken == {} then Some(NewEntries(sha, State(), changed)) else None
    {
      ghost var d := State();
      var list := DataFiles(State());
      DataFilesListed(d);
      var m: map<Rel, Entry> := map[];
      for i := 0 to |list|
        invariant EntriesOf(sha, d, changed, list, i, m) && Readable(d, changed, list, i)
      {
        var e := EntryFor(sha, changed, list[i]);
        if e.None? {
          assert list[i] in Hashed(d, changed) * broken;
          return None;
        }
        EntriesStep(sha, d, changed, list, i, m);
        m := m[list[i] := e.value];
      }
      AllEntries(sha, d, changed, list, m);
      NothingBroken(d, changed, list);
      return Some(m);
    }

    /** False, and no change, when a file that must be hashed cannot be read. */
    method UpdateDiskManifest(sha: Sha, run: Part, changed: set<Rel>) returns (ok: bool)
      modifies this`manifest
      ensures ok == (Hashed(old(State()), changed) * broken == {})
      ensures State() == if ok then UpdateManifest(sha, old(State()), run, changed) else old(State())
    {
      var entries := Rehash(sha, changed);
      if entries.Some? {
        manifest := Some(Manifest(run, entries.value));
      }
      return entries.Some?;
    }
  }

  function States(vols: seq<Volume>): (ds: seq<DiskState>)
    reads set v | v in vols
    ensures |ds| == |vols| && forall i :: 0 <= i < |ds| ==> ds[i] == vols[i].State()
  {
    if vols == [] then [] else States(vols[..|vols| - 1]) + [vols[|vols| - 1].State()]
  }

  /** The first `i` listed files have their new entries. */
  ghost predicate EntriesOf(sha: Sha, d: DiskState, changed: set<Rel>, list: seq<Rel>, i: nat, entries: map<Rel, Entry>) {
    && i <= |list|
    && (forall j :: 0 <= j < i ==>
      list[j] in entries && list[j] in d.files && entries[list[j]] == NewEntry(sha, d, changed, list[j]))
    && forall r :: r in entries ==> r in d.files && exists j :: 0 <= j < i && list[j] == r
  }

  lemma EntriesStep(sha: Sha, d: DiskState, changed: set<Rel>, list: seq<Rel>, i: nat, entries: map<Rel, Entry>)
    requires EntriesOf(sha, d, changed, list, i, entries) && i < |list| && list[i] in d.files
    ensures EntriesOf(sha, d, changed, list, i + 1, entries[list[i] := NewEntry(sha, d, changed, list[i])])
  {
    forall r | r in entries || r == list[i] ensures exists j :: 0 <= j < i + 1 && list[j] == r {
      if r in entries {
        var j :| 0 <= j < i && list[j] == r;
      }
    }
  }

  predicate Readable(d: DiskState, changed: set<Rel>, list: seq<Rel>, i: nat)
    requires i <= |list|
  {
    forall j :: 0 <= j < i ==> list[j] !in Hashed(d, changed) || list[j] !in d.broken
  }

  lemma AllEntries(sha: Sha, d: DiskState, changed: set<Rel>, list: seq<Rel>, entries: map<Rel, Entry>)
    requires EntriesOf(sha, d, changed, list, |list|, entries) && forall r :: r in list <==> r in d.files
    ensures entries == NewEntries(sha, d, changed)
  {
    assert entries.Keys == NewEntries(sha, d, changed).Keys;
    forall r | r in entries ensures entries[r] == NewEntries(sha, d, changed)[r] {
      assert r in list;
    }
  }

  lemma NothingBroken(d: DiskState, changed: set<Rel>, list: seq<Rel>)
    requires forall r :: r in list <==> r in d.files
    requires Readable(d, changed, list, |list|)
    ensures Hashed(d, changed) * d.broken == {}
  {
    forall r | r in Hashed(d, changed) ensures r !in d.broken {
      assert r in list;
    }
  }
}
