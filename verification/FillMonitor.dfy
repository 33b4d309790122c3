/**
 One pass of the monitor loop of a fill run (internal/orch/fill.go): tallying the rows, the
 boot watchdog, and the exits. `PassMonitor`, `PassRows` and `PassOutcome` specify a pass;
 the class `FillMonitor` performs it on the store with the loops of the source.
 */
module FillMonitor {
  import opened Common
  import opened FillRows

  /** The timing knobs of the package, in seconds. */
  datatype Knobs = Knobs(bootTimeout: int, maxBoots: nat, stallLimit: int, silenceLimit: int, runTimeout: int)

  const DEFAULTS := Knobs(300, 3, 600, 90, 43200)

  /** What a Go map lookup gives for an absent time: the zero time, in Unix seconds. */
  const ZERO_TIME := -62135596800

  datatype Monitor = Monitor(run: nat, fleet: nat, start: int, bootAt: map<nat, int>, tries: map<nat, nat>,
                             lastProgress: int, prevWritten: int)

  datatype Verdict = Leave | PowerCycle | GiveUp

  datatype Outcome = GoOn | Silent | Stalled | Complete | TimedOut

  function BootAt(m: Monitor, v: nat): int {
    if v in m.bootAt then m.bootAt[v] else ZERO_TIME
  }

  function Tries(m: Monitor, v: nat): nat {
    if v in m.tries then m.tries[v] else 0
  }

  /** The map giving `x` to every VM of a fleet of `n`. */
  function Uniform<T>(n: nat, x: T): (r: map<nat, T>)
    ensures forall v: nat :: v in r <==> v < n
    ensures forall v: nat :: v < n ==> r[v] == x
  {
    if n == 0 then map[] else Uniform(n - 1, x)[n - 1 := x]
  }

  /** `bootAt` after the VMs `vs` were power-cycled at `now`. */
  function Restamped(m: Monitor, vs: set<nat>, now: int): map<nat, int> {
    m.bootAt + map v | v in vs :: now
  }

  /** `bootTries` after the VMs `vs` were power-cycled. */
  function Retried(m: Monitor, vs: set<nat>): map<nat, nat> {
    m.tries + map v | v in vs :: Tries(m, v) + 1
  }

  /** The monitor of a run that has just booted its fleet: one boot attempt per VM. */
  function Fresh(run: nat, fleet: nat, start: int): Monitor {
    Monitor(run, fleet, start, Uniform(fleet, start), Uniform(fleet, 1), start, 0)
  }

  predicate SeenSinceBoot(m: Monitor, v: nat, r: Row) {
    r.seen.Some? && r.seen.value > BootAt(m, v)
  }

  /** The watchdog's decision about VM `v` of the snapshot `rows`. */
  function Judge(k: Knobs, m: Monitor, rows: seq<Row>, v: nat, now: int): Verdict {
    if v < |rows| && Is(rows[v], m.run, Pending) then JudgePending(k, m, rows[v], v, now) else Leave
  }

  function JudgePending(k: Knobs, m: Monitor, r: Row, v: nat, now: int): Verdict {
    if SeenSinceBoot(m, v, r) then Leave
    else if now - BootAt(m, v) < k.bootTimeout then Leave
    else if Tries(m, v) >= k.maxBoots then GiveUp
    else PowerCycle
  }

  function Cycled(k: Knobs, m: Monitor, rows: seq<Row>, now: int): set<nat> {
    set v: nat | 0 <= v < |rows| && Judge(k, m, rows, v, now) == PowerCycle
  }

  predicate Progressed(k: Knobs, m: Monitor, rows: seq<Row>, now: int) {
    Cycled(k, m, rows, now) != {} || Count(rows, m.run, Working) > 0 || Written(rows, m.run) > m.prevWritten
  }

  function PassMonitor(k: Knobs, m: Monitor, rows: seq<Row>, now: int): Monitor {
    m.(bootAt := Restamped(m, Cycled(k, m, rows, now), now),
       tries := Retried(m, Cycled(k, m, rows, now)),
       lastProgress := if Progressed(k, m, rows, now) then now else m.lastProgress,
       prevWritten := Written(rows, m.run))
  }

  function PassRows(k: Knobs, m: Monitor, rows: seq<Row>, now: int): seq<Row> {
    seq(|rows|, v requires 0 <= v < |rows| =>
      if Judge(k, m, rows, v, now) == GiveUp then rows[v].(status := Failed) else rows[v])
  }

  predicate QuietWorker(k: Knobs, run: nat, r: Row, now: int) {
    Is(r, run, Working) && r.seen.Some? && now - r.seen.value > k.silenceLimit
  }

  lemma RestampOne(m: Monitor, vs: set<nat>, v: nat, now: int)
    requires v !in vs
    ensures Restamped(m, vs, now)[v := now] == Restamped(m, vs + {v}, now)
  {
    var a, b := Restamped(m, vs, now)[v := now], Restamped(m, vs + {v}, now);
    assert a.Keys == b.Keys;
    assert forall u :: u in a.Keys ==> a[u] == b[u];
  }

  lemma RetryOne(m: Monitor, vs: set<nat>, v: nat)
    requires v !in vs
    ensures Retried(m, vs)[v := Tries(m, v) + 1] == Retried(m, vs + {v})
  {
    var a, b := Retried(m, vs)[v := Tries(m, v) + 1], Retried(m, vs + {v});
    assert a.Keys == b.Keys;
    assert forall u :: u in a.Keys ==> a[u] == b[u];
  }

  // ---- The watchdog loop, one VM at a time ----

  predicate InRange(vs: seq<nat>, n: nat) {
    forall i :: 0 <= i < |vs| ==> vs[i] < n
  }

  predicate PendingIn(cur: seq<Row>, run: nat, vs: seq<nat>) {
    InRange(vs, |cur|) && forall i :: 0 <= i < |vs| ==> Is(cur[vs[i]], run, Pending)
  }

  function WatchOne(k: Knobs, m: Monitor, r: Row, v: nat, now: int): Monitor {
    if JudgePending(k, m, r, v, now) == PowerCycle then
      m.(bootAt := m.bootAt[v := now], tries := m.tries[v := Tries(m, v) + 1], lastProgress := now)
    else m
  }

  function WatchAll(k: Knobs, m: Monitor, cur: seq<Row>, vs: seq<nat>, now: int): Monitor
    requires InRange(vs, |cur|)
  {
    if vs == [] then m
    else WatchOne(k, WatchAll(k, m, cur, vs[..|vs| - 1], now), cur[vs[|vs| - 1]], vs[|vs| - 1], now)
  }

  function WatchRows(k: Knobs, m: Monitor, cur: seq<Row>, vs: seq<nat>, now: int): (rows: seq<Row>)
    requires InRange(vs, |cur|)
    ensures |rows| == |cur|
  {
    if vs == [] then cur
    else
      var v := vs[|vs| - 1];
      var rows := WatchRows(k, m, cur, vs[..|vs| - 1], now);
      if JudgePending(k, WatchAll(k, m, cur, vs[..|vs| - 1], now), cur[v], v, now) == GiveUp then
        rows[v := rows[v].(status := Failed)]
      else rows
  }

  lemma WatchStep(k: Knobs, m: Monitor, cur: seq<Row>, vs: seq<nat>, i: nat, now: int)
    requires i < |vs| && InRange(vs, |cur|)
    ensures InRange(vs[..i], |cur|) && InRange(vs[..i + 1], |cur|)
    ensures WatchAll(k, m, cur, vs[..i + 1], now)
         == WatchOne(k, WatchAll(k, m, cur, vs[..i], now), cur[vs[i]], vs[i], now)
    ensures WatchRows(k, m, cur, vs[..i + 1], now)
         == var rows := WatchRows(k, m, cur, vs[..i], now);
            if JudgePending(k, WatchAll(k, m, cur, vs[..i], now), cur[vs[i]], vs[i], now) == GiveUp then
              rows[vs[i] := rows[vs[i]].(status := Failed)]
            else rows
  {
    var t := vs[..i + 1];
    assert t[..i] == vs[..i] && t[|t| - 1] == vs[i] && |t| - 1 == i;
  }

  predicate Ascending(vs: seq<nat>) {
    forall i, j :: 0 <= i < j < |vs| ==> vs[i] < vs[j]
  }

  function Elems(vs: seq<nat>): set<nat> {
    if vs == [] then {} else Elems(vs[..|vs| - 1]) + {vs[|vs| - 1]}
  }

  lemma {:induction false} ElemsAreElements(vs: seq<nat>)
    ensures forall v :: v in Elems(vs) <==> v in vs
  {
    if vs != [] {
      ElemsAreElements(vs[..|vs| - 1]);
      assert vs == vs[..|vs| - 1] + [vs[|vs| - 1]];
    }
  }

  lemma {:induction false} ElemsBelow(vs: seq<nat>, bound: nat)
    requires forall i :: 0 <= i < |vs| ==> vs[i] < bound
    ensures forall v :: v in Elems(vs) ==> v < bound
  {
    if vs != [] {
      ElemsBelow(vs[..|vs| - 1], bound);
    }
  }

  /** The power-cycled VMs among `vs`. */
  function CycledIn(k: Knobs, m: Monitor, cur: seq<Row>, vs: set<nat>, now: int): set<nat> {
    set v | v in vs && Judge(k, m, cur, v, now) == PowerCycle
  }

  lemma CycledInOneMore(k: Knobs, m: Monitor, cur: seq<Row>, vs: set<nat>, v: nat, now: int)
    ensures CycledIn(k, m, cur, vs + {v}, now)
         == CycledIn(k, m, cur, vs, now) + (if Judge(k, m, cur, v, now) == PowerCycle then {v} else {})
  {
  }

  function AfterCycling(m: Monitor, cycled: set<nat>, now: int): Monitor {
    m.(bootAt := Restamped(m, cycled, now), tries := Retried(m, cycled),
       lastProgress := if cycled != {} then now else m.lastProgress)
  }

  /** A VM outside `cycled` is judged as before. */
  lemma JudgedAsBefore(k: Knobs, m: Monitor, cycled: set<nat>, r: Row, v: nat, now: int)
    requires v !in cycled
    ensures JudgePending(k, AfterCycling(m, cycled, now), r, v, now) == JudgePending(k, m, r, v, now)
    ensures Tries(AfterCycling(m, cycled, now), v) == Tries(m, v)
  {
    assert v in Restamped(m, cycled, now) <==> v in m.bootAt;
    assert v in Retried(m, cycled) <==> v in m.tries;
  }

  lemma CycleOneMore(k: Knobs, m: Monitor, cycled: set<nat>, r: Row, v: nat, now: int)
    requires v !in cycled
    ensures WatchOne(k, AfterCycling(m, cycled, now), r, v, now)
         == AfterCycling(m, cycled + (if JudgePending(k, m, r, v, now) == PowerCycle then {v} else {}), now)
  {
    JudgedAsBefore(k, m, cycled, r, v, now);
    if JudgePending(k, m, r, v, now) == PowerCycle {
      RestampOne(m, cycled, v, now);
      RetryOne(m, cycled, v);
    } else {
      assert cycled + {} == cycled;
    }
  }

  lemma NoneCycled(m: Monitor, now: int)
    ensures AfterCycling(m, {}, now) == m
  {
    assert Restamped(m, {}, now) == m.bootAt;
    assert Retried(m, {}) == m.tries;
  }

  /** Deciding VM by VM while the maps change gives every VM the decision made on the maps before the loop. */
  lemma {:induction false} WatchAllPointwise(k: Knobs, m: Monitor, cur: seq<Row>, vs: seq<nat>, now: int)
    requires PendingIn(cur, m.run, vs) && Ascending(vs)
    ensures WatchAll(k, m, cur, vs, now) == AfterCycling(m, CycledIn(k, m, cur, Elems(vs), now), now)
  {
    if vs == [] {
      assert CycledIn(k, m, cur, {}, now) == {};
      NoneCycled(m, now);
    } else {
      var v, init := vs[|vs| - 1], vs[..|vs| - 1];
      ElemsBelow(init, v);
      WatchAllPointwise(k, m, cur, init, now);
      CycleOneMore(k, m, CycledIn(k, m, cur, Elems(init), now), cur[v], v, now);
      CycledInOneMore(k, m, cur, Elems(init), v, now);
    }
  }

  lemma {:induction false} WatchRowsPointwise(k: Knobs, m: Monitor, cur: seq<Row>, vs: seq<nat>, now: int)
    requires PendingIn(cur, m.run, vs) && Ascending(vs)
    ensures var rows := WatchRows(k, m, cur, vs, now);
            forall v: nat :: v < |cur| ==>
              (rows[v] == if v in Elems(vs) && Judge(k, m, cur, v, now) == GiveUp then cur[v].(status := Failed) else cur[v])
  {
    if vs != [] {
      var v, init := vs[|vs| - 1], vs[..|vs| - 1];
      ElemsBelow(init, v);
      WatchRowsPointwise(k, m, cur, init, now);
      WatchAllPointwise(k, m, cur, init, now);
      JudgedAsBefore(k, m, CycledIn(k, m, cur, Elems(init), now), cur[v], v, now);
    }
  }

  lemma WatchIsPass(k: Knobs, m: Monitor, cur: seq<Row>, pending: seq<nat>, now: int)
    requires PendingIn(cur, m.run, pending) && Ascending(pending)
    requires forall v: nat :: v < |cur| && Is(cur[v], m.run, Pending) ==> v in pending
    ensures WatchAll(k, m, cur, pending, now) == AfterCycling(m, Cycled(k, m, cur, now), now)
    ensures WatchRows(k, m, cur, pending, now) == PassRows(k, m, cur, now)
  {
    WatchAllPointwise(k, m, cur, pending, now);
    WatchRowsPointwise(k, m, cur, pending, now);
    ElemsAreElements(pending);
    assert CycledIn(k, m, cur, Elems(pending), now) == Cycled(k, m, cur, now);
  }

  /** How the pass ends; the tallies are those of the snapshot the pass began with. */
  function PassOutcome(k: Knobs, m: Monitor, rows: seq<Row>, now: int): Outcome {
    if (exists v :: 0 <= v < |rows| && QuietWorker(k, m.run, rows[v], now)) && now - m.start > k.silenceLimit then
      Silent
    else if now - PassMonitor(k, m, rows, now).lastProgress > k.stallLimit then Stalled
    else if Count(rows, m.run, Done) + Count(rows, m.run, Failed) >= m.fleet then Complete
    else if now > m.start + k.runTimeout then TimedOut
    else GoOn
  }

  /** The exits record the run as failed, except a complete fleet without failures. */
  function Terminal(m: Monitor, rows: seq<Row>, outcome: Outcome): RunStatus
    requires outcome != GoOn
  {
    if outcome == Complete && Count(rows, m.run, Failed) == 0 then Succeeded else RunFailed
  }

  /** A run that ends succeeded saw every VM of its fleet done. */
  lemma SucceededMeansAllDone(k: Knobs, m: Monitor, rows: seq<Row>, now: int)
    requires |rows| == m.fleet
    requires PassOutcome(k, m, rows, now) != GoOn
    ensures Terminal(m, rows, PassOutcome(k, m, rows, now)) == Succeeded ==>
              forall v :: 0 <= v < |rows| ==> Is(rows[v], m.run, Done)
  {
    CountExtremes(rows, m.run, Done);
  }

  predicate SomeQuiet(k: Knobs, run: nat, rows: seq<Row>, now: int) {
    rows != [] && (SomeQuiet(k, run, rows[..|rows| - 1], now) || QuietWorker(k, run, rows[|rows| - 1], now))
  }

  lemma {:induction false} SomeQuietMeans(k: Knobs, run: nat, rows: seq<Row>, now: int)
    ensures SomeQuiet(k, run, rows, now) <==> exists v :: 0 <= v < |rows| && QuietWorker(k, run, rows[v], now)
  {
    if rows != [] {
      SomeQuietMeans(k, run, rows[..|rows| - 1], now);
    }
  }

  lemma CountNext(cur: seq<Row>, run: nat, n: nat, st: FillStatus)
    requires n < |cur|
    ensures Count(cur[..n + 1], run, st) == Count(cur[..n], run, st) + (if Is(cur[n], run, st) then 1 else 0)
  {
    assert cur[..n + 1][..n] == cur[..n];
  }

  lemma WrittenNext(cur: seq<Row>, run: nat, n: nat)
    requires n < |cur|
    ensures Written(cur[..n + 1], run) == Written(cur[..n], run) + (if cur[n].run == Some(run) then cur[n].written else 0)
  {
    assert cur[..n + 1][..n] == cur[..n];
  }

  lemma QuietNext(k: Knobs, run: nat, cur: seq<Row>, n: nat, now: int)
    requires n < |cur|
    ensures SomeQuiet(k, run, cur[..n + 1], now) == (SomeQuiet(k, run, cur[..n], now) || QuietWorker(k, run, cur[n], now))
  {
    assert cur[..n + 1][..n] == cur[..n];
  }

  /** The pending VMs, in order. */
  function PendingOf(rows: seq<Row>, run: nat): seq<nat> {
    if rows == [] then []
    else PendingOf(rows[..|rows| - 1], run) + if Is(rows[|rows| - 1], run, Pending) then [|rows| - 1] else []
  }

  lemma PendingNext(cur: seq<Row>, run: nat, n: nat)
    requires n < |cur|
    ensures PendingOf(cur[..n + 1], run) == PendingOf(cur[..n], run) + if Is(cur[n], run, Pending) then [n] else []
  {
    assert cur[..n + 1][..n] == cur[..n];
  }

  lemma PendingOfMeans(rows: seq<Row>, run: nat)
    ensures PendingIn(rows, run, PendingOf(rows, run)) && Ascending(PendingOf(rows, run))
    ensures forall v: nat :: v < |rows| && Is(rows[v], run, Pending) ==> v in PendingOf(rows, run)
  {
    PendingOfIsPending(rows, run);
    forall v: nat | v < |rows| && Is(rows[v], run, Pending) ensures v in PendingOf(rows, run) {
      PendingIsInPendingOf(rows, run, v);
    }
  }

  lemma PendingSnoc(rows: seq<Row>, run: nat, vs: seq<nat>, r: Row)
    requires PendingIn(rows, run, vs) && Ascending(vs)
    ensures PendingIn(rows + [r], run, vs) && (Is(r, run, Pending) ==> PendingIn(rows + [r], run, vs + [|rows|]) && Ascending(vs + [|rows|]))
  {
    assert forall i :: 0 <= i < |vs| ==> (rows + [r])[vs[i]] == rows[vs[i]];
  }

  lemma {:induction false} PendingOfIsPending(rows: seq<Row>, run: nat)
    ensures PendingIn(rows, run, PendingOf(rows, run)) && Ascending(PendingOf(rows, run))
  {
    if rows != [] {
      var init, last := rows[..|rows| - 1], rows[|rows| - 1];
      PendingOfIsPending(init, run);
      PendingSnoc(init, run, PendingOf(init, run), last);
      assert init + [last] == rows;
    }
  }

  lemma {:induction false} PendingIsInPendingOf(rows: seq<Row>, run: nat, v: nat)
    requires v < |rows| && Is(rows[v], run, Pending)
    ensures v in PendingOf(rows, run)
  {
    if v < |rows| - 1 {
      PendingIsInPendingOf(rows[..|rows| - 1], run, v);
    }
  }

  /** The monitor's own variables, updated pass by pass against the shared store. */
  class FillMonitor {
    const k: Knobs
    const run: nat
    const fleet: nat
    const start: int
    var bootAt: map<nat, int>
    var bootTries: map<nat, nat>
    var lastProgress: int
    var prevWritten: int

    function State(): Monitor
      reads this
    {
      Monitor(run, fleet, start, bootAt, bootTries, lastProgress, prevWritten)
    }

    constructor (k: Knobs, run: nat, fleet: nat, now: int)
      ensures State() == Fresh(run, fleet, now) && this.k == k
    {
      this.k, this.run, this.fleet, this.start := k, run, fleet, now;
      lastProgress, prevWritten := now, 0;
      bootAt, bootTries := map[], map[];
      new;
      for v := 0 to fleet
        invariant lastProgress == now && prevWritten == 0
        invariant bootAt == Uniform(v, now) && bootTries == Uniform(v, 1)
      {
        bootAt, bootTries := bootAt[v := now], bootTries[v := 1];
      }
    }

    /** What one row adds to the tally. */
    method TallyRow(vm: Row, now: int) returns (done: nat, failed: nat, working: nat, written: int, quiet: bool, waits: bool)
      ensures done == (if Is(vm, run, Done) then 1 else 0) && failed == if Is(vm, run, Failed) then 1 else 0
      ensures working == (if Is(vm, run, Working) then 1 else 0) && quiet == QuietWorker(k, run, vm, now)
      ensures written == (if vm.run == Some(run) then vm.written else 0) && waits == Is(vm, run, Pending)
    {
      done, failed, working, written, quiet, waits := 0, 0, 0, 0, false, false;
      if vm.run != Some(run) {
        return;
      }
      written := vm.written;
      match vm.status {
        case Unassigned =>
        case Done => done := 1;
        case Failed => failed := 1;
        case Pending => waits := true;
        case Working =>
          working := 1;
          quiet := vm.seen.Some? && now - vm.seen.value > k.silenceLimit;
      }
    }

    /** The tallying loop over the freshly listed VMs. */
    method Tally(cur: seq<Row>, now: int)
      returns (done: nat, failed: nat, working: nat, written: int, silent: bool, pending: seq<nat>)
      ensures done == Count(cur, run, Done) && failed == Count(cur, run, Failed)
      ensures working == Count(cur, run, Working) && written == Written(cur, run)
      ensures silent <==> exists v :: 0 <= v < |cur| && QuietWorker(k, run, cur[v], now)
      ensures PendingIn(cur, run, pending) && Ascending(pending)
      ensures forall v: nat :: v < |cur| && Is(cur[v], run, Pending) ==> v in pending
    {
      done, failed, working, written, silent, pending := 0, 0, 0, 0, false, [];
      for v := 0 to |cur|
        invariant done == Count(cur[..v], run, Done) && failed == Count(cur[..v], run, Failed)
        invariant working == Count(cur[..v], run, Working) && written == Written(cur[..v], run)
        invariant silent == SomeQuiet(k, run, cur[..v], now)
        invariant pending == PendingOf(cur[..v], run)
      {
        CountNext(cur, run, v, Done);
        CountNext(cur, run, v, Failed);
        CountNext(cur, run, v, Working);
        WrittenNext(cur, run, v);
        QuietNext(k, run, cur, v, now);
        PendingNext(cur, run, v);
        var d, f, w, bytes, quiet, waits := TallyRow(cur[v], now);
        done, failed, working, written := done + d, failed + f, working + w, written + bytes;
        silent := silent || quiet;
        pending := if waits then pending + [v] else pending;
      }
      assert cur[..|cur|] == cur;
      SomeQuietMeans(k, run, cur, now);
      PendingOfMeans(cur, run);
    }

    /** The body of the watchdog loop for one pending VM. */
    method WatchVM(store: FillStore, vm: Row, v: nat, now: int)
      requires v < |store.rows|
      modifies `bootAt, `bootTries, `lastProgress, store`rows
      ensures State() == WatchOne(k, old(State()), vm, v, now)
      ensures store.rows == if JudgePending(k, old(State()), vm, v, now) == GiveUp
                            then old(store.rows)[v := old(store.rows)[v].(status := Failed)]
                            else old(store.rows)
    {
      var booted := if v in bootAt then bootAt[v] else ZERO_TIME;
      var attempts := if v in bootTries then bootTries[v] else 0;
      if vm.seen.Some? && vm.seen.value > booted {
        return; // its agent has registered: only a slot is missing
      }
      if now - booted < k.bootTimeout {
        return;
      }
      if attempts >= k.maxBoots {
        store.SetFillStatus(v, Failed);
        return;
      }
      bootAt, bootTries := bootAt[v := now], bootTries[v := attempts + 1];
      lastProgress := now;
    }

    /** The watchdog loop over the pending VMs of the snapshot `cur`. */
    method Watchdog(store: FillStore, cur: seq<Row>, pending: seq<nat>, now: int)
      requires store.rows == cur
      requires PendingIn(cur, run, pending) && Ascending(pending)
      requires forall v: nat :: v < |cur| && Is(cur[v], run, Pending) ==> v in pending
      modifies `bootAt, `bootTries, `lastProgress, store`rows
      ensures State() == AfterCycling(old(State()), Cycled(k, old(State()), cur, now), now)
      ensures store.rows == PassRows(k, old(State()), cur, now)
    {
      ghost var m := State();
      for i := 0 to |pending|
        invariant InRange(pending[..i], |cur|)
        invariant State() == WatchAll(k, m, cur, pending[..i], now)
        invariant store.rows == WatchRows(k, m, cur, pending[..i], now)
      {
        WatchStep(k, m, cur, pending, i, now);
        WatchVM(store, cur[pending[i]], pending[i], now);
      }
      assert pending[..|pending|] == pending;
      WatchIsPass(k, m, cur, pending, now);
    }

    /** One whole pass. On an exit other than a complete fleet the source returns early; the
        monitor's variables are not read again then, so `State` is only tied on GoOn. */
    method Pass(store: FillStore, now: int) returns (outcome: Outcome, verdict: RunStatus)
      modifies this, store`rows
      ensures store.rows == PassRows(k, old(State()), old(store.rows), now)
      ensures outcome == PassOutcome(k, old(State()), old(store.rows), now)
      ensures outcome == GoOn ==> State() == PassMonitor(k, old(State()), old(store.rows), now)
      ensures outcome != GoOn ==> verdict == Terminal(old(State()), old(store.rows), outcome)
    {
      var cur := store.rows;
      var done, failed, working, written, silent, pending := Tally(cur, now);
      Watchdog(store, cur, pending, now);
      verdict := RunFailed;
      if silent && now - start > k.silenceLimit {
        return Silent, RunFailed;
      }
      if working > 0 || written > prevWritten {
        lastProgress := now;
      }
      prevWritten := written;
      if now - lastProgress > k.stallLimit {
        return Stalled, RunFailed;
      }
      if done + failed >= fleet {
        return Complete, if failed > 0 then RunFailed else Succeeded;
      }
      if now > start + k.runTimeout {
        return TimedOut, RunFailed;
      }
      outcome := GoOn;
    }
  }
}
