/**
 The schedule table and the tick loop over it (internal/sched/sched.go,
 internal/store/schedules.go, internal/api/schedules.go:22-38).

 A tick treats every due schedule on its own, so a `Cell`, one row together with its busySince
 entry, carries the whole behaviour; `SchedulerTable` proves that the loop gives every row its own outcome.
 What the orchestrator answers to a fire attempt is an input.
 */
module Scheduler {
  import opened Common
  import opened Calendar

  /** How long a due schedule keeps retrying while its deployment is busy. */
  const BUSY_GRACE := 3600

  datatype FireResult = NeverFired | Fired | SkippedBusy | SkippedDeleted | ErrorMissing | ErrorStart

  datatype Schedule = Schedule(kind: Kind, enabled: bool, next: Option<int>,
                               lastFired: Option<int>, lastRun: Option<nat>, lastResult: FireResult)

  datatype Cell = Cell(sched: Schedule, busySince: Option<int>)

  /** The answer to a fire attempt: the deployment is missing or deleted, a job is running, the start
      was refused for another reason, or a run started. */
  datatype Reply = Missing | Deleted | Busy | Refused | Started(run: nat)

  predicate Due(s: Schedule, now: int) {
    s.enabled && s.next.Some? && s.next.value <= now
  }

  function Advanced(s: Schedule, now: int, result: FireResult, run: Option<nat>, recur: bool): Schedule {
    var next := if recur then NextAfter(s.kind, now) else None;
    s.(next := next, enabled := next.Some?, lastFired := Some(now), lastRun := run, lastResult := result)
  }

  /** The attempt leaves the schedule due: busy, and for the first time or within the grace. */
  predicate Held(c: Cell, now: int, r: Reply) {
    r == Busy && (c.busySince.Some? ==> now - c.busySince.value < BUSY_GRACE)
  }

  function FireCell(c: Cell, now: int, r: Reply): Cell {
    if Held(c, now, r) then c.(busySince := if c.busySince.None? then Some(now) else c.busySince)
    else
      match r
      case Missing => Cell(Advanced(c.sched, now, ErrorMissing, None, false), None)
      case Deleted => Cell(Advanced(c.sched, now, SkippedDeleted, None, false), None)
      case Busy => Cell(Advanced(c.sched, now, SkippedBusy, None, true), None)
      case Refused => Cell(Advanced(c.sched, now, ErrorStart, None, true), None)
      case Started(run) => Cell(Advanced(c.sched, now, Fired, Some(run), true), None)
  }

  function TickCell(c: Cell, now: int, r: Reply): Cell {
    if Due(c.sched, now) then FireCell(c, now, r) else c
  }

  /** The API's create and update: validation, and the next fire time of an enabled schedule. */
  function Define(kind: Kind, enabled: bool, now: int): Option<Schedule> {
    if !ValidKind(kind) || (enabled && NextAfter(kind, now) == None) then None
    else Some(Schedule(kind, enabled, if enabled then NextAfter(kind, now) else None, None, None, NeverFired))
  }

  /** An update replaces the definition and keeps the fire history; it does not touch busySince. */
  function EditCell(c: Cell, kind: Kind, enabled: bool, now: int): Cell {
    match Define(kind, enabled, now)
    case None => c
    case Some(d) => c.(sched := c.sched.(kind := d.kind, enabled := d.enabled, next := d.next))
  }

  /** What can happen to a schedule. A restart of the controller forgets busySince. A lost tick is one whose
      outcome is not stored: the write fails, which is only logged, or the controller dies after a start. */
  datatype Event =
    | Tick(now: int, reply: Reply)
    | Lost(now: int, reply: Reply)
    | Edit(kind: Kind, enabled: bool, at: int)
    | Restart

  /** The row stays as it was, still due, while the busy mark is gone. */
  function LostCell(c: Cell, now: int, r: Reply): Cell {
    if Due(c.sched, now) && !Held(c, now, r) then c.(busySince := None) else TickCell(c, now, r)
  }

  predicate Fires(e: Event) {
    e.Tick? || e.Lost?
  }

  function Apply(c: Cell, e: Event): Cell {
    match e
    case Tick(now, r) => TickCell(c, now, r)
    case Lost(now, r) => LostCell(c, now, r)
    case Edit(kind, enabled, at) => EditCell(c, kind, enabled, at)
    case Restart => c.(busySince := None)
  }

  function Play(c: Cell, es: seq<Event>): Cell {
    if es == [] then c else Apply(Play(c, es[..|es| - 1]), es[|es| - 1])
  }

  /** The tick started a run of the schedule, whether or not its outcome was stored. */
  predicate Starts(c: Cell, e: Event) {
    Fires(e) && Due(c.sched, e.now) && e.reply.Started?
  }

  /** The tick stored an outcome: the schedule moved on. */
  predicate Stores(c: Cell, e: Event) {
    e.Tick? && Due(c.sched, e.now) && !Held(c, e.now, e.reply)
  }

  datatype Start = Start(at: int, stored: bool)

  /** The runs the history started, in order, and whether each start was stored. */
  function StartsIn(c: Cell, es: seq<Event>): seq<Start> {
    if es == [] then []
    else
      var init, e := es[..|es| - 1], es[|es| - 1];
      StartsIn(c, init) + (if Starts(Play(c, init), e) then [Start(e.now, e.Tick?)] else [])
  }

  /** The clock never goes back. */
  predicate Monotone(from: int, es: seq<Event>) {
    es == [] ||
    var init, e := es[..|es| - 1], es[|es| - 1];
    Monotone(from, init) && (Fires(e) ==> e.now >= Clock(from, init)) && (e.Edit? ==> e.at >= Clock(from, init))
  }

  function Clock(from: int, es: seq<Event>): int {
    if es == [] then from
    else
      var e := es[|es| - 1];
      match e
      case Tick(now, _) => now
      case Lost(now, _) => now
      case Edit(_, _, at) => at
      case Restart => Clock(from, es[..|es| - 1])
  }

  predicate Unedited(es: seq<Event>) {
    es == [] || (Unedited(es[..|es| - 1]) && !es[|es| - 1].Edit?)
  }

  function Created(kind: Kind, now: int): Cell
    requires Define(kind, true, now).Some?
  {
    Cell(Define(kind, true, now).value, None)
  }

  // ---- Never twice for one occurrence ----

  /** A due schedule is either held by a busy deployment, its stored row unchanged, or advanced: not due any
      more at this very time, its busy mark cleared. */
  lemma HeldOrAdvanced(c: Cell, now: int, r: Reply)
    requires Due(c.sched, now)
    ensures var t := TickCell(c, now, r);
            if Held(c, now, r) then t.sched == c.sched && t.busySince.Some?
            else !Due(t.sched, now) && t.busySince == None && t.sched.lastFired == Some(now)
    ensures r != Busy ==> !Held(c, now, r)
  {
    NextIsFuture(c.sched.kind, now);
  }

  /** In every history, whatever the edits, a schedule is enabled exactly when it has a next fire time. */
  lemma {:induction false} EnabledIffNext(kind: Kind, enabled: bool, now: int, es: seq<Event>)
    requires Define(kind, enabled, now).Some?
    ensures var s := Play(Cell(Define(kind, enabled, now).value, None), es).sched;
            s.enabled <==> s.next.Some?
  {
    if es != [] {
      EnabledIffNext(kind, enabled, now, es[..|es| - 1]);
    }
  }

  /** `next` is no earlier than the occurrence that follows the start at `t`. */
  predicate Behind(s: Schedule, t: int) {
    s.next.Some? ==> NextAfter(s.kind, t).Some? && s.next.value >= NextAfter(s.kind, t).value
  }

  lemma BehindStep(c: Cell, e: Event, t: int)
    requires Behind(c.sched, t) && !e.Edit?
    ensures Behind(Apply(c, e).sched, t) && Apply(c, e).sched.kind == c.sched.kind
    ensures Fires(e) && Due(c.sched, e.now) ==>
              NextAfter(c.sched.kind, t).Some? && e.now >= NextAfter(c.sched.kind, t).value
  {
    if e.Tick? && Due(c.sched, e.now) {
      NextIsFuture(c.sched.kind, e.now);
    }
  }

  lemma StartBehind(c: Cell, e: Event)
    requires Starts(c, e) && e.Tick?
    ensures Behind(Apply(c, e).sched, e.now)
  {
  }

  /** Unless edited, a schedule is at its creation kind and behind its latest start, if that was stored. */
  lemma {:induction false} LatestStartBehind(c: Cell, es: seq<Event>)
    requires Unedited(es)
    ensures Play(c, es).sched.kind == c.sched.kind
    ensures var ss := StartsIn(c, es); ss != [] && ss[|ss| - 1].stored ==> Behind(Play(c, es).sched, ss[|ss| - 1].at)
  {
    if es != [] {
      var init, e := es[..|es| - 1], es[|es| - 1];
      LatestStartBehind(c, init);
      var d, ss := Play(c, init), StartsIn(c, init);
      if Starts(d, e) {
        if e.Tick? {
          StartBehind(d, e);
        }
      } else if ss != [] && ss[|ss| - 1].stored {
        BehindStep(d, e, ss[|ss| - 1].at);
      }
    }
  }

  /** Over every unedited history, downtime, crashes and failed writes included: a start that was stored is followed
      by the next one only once the occurrence after it has come, and by none if there is none. */
  lemma {:induction false} StartsAreSpaced(c: Cell, es: seq<Event>, i: nat)
    requires Unedited(es) && i + 1 < |StartsIn(c, es)| && StartsIn(c, es)[i].stored
    ensures var ss := StartsIn(c, es);
            var next := NextAfter(c.sched.kind, ss[i].at);
            next.Some? && ss[i].at < next.value <= ss[i + 1].at
  {
    var init, e := es[..|es| - 1], es[|es| - 1];
    var ss, before := StartsIn(c, es), StartsIn(c, init);
    if i + 1 < |before| {
      StartsAreSpaced(c, init, i);
      assert ss[i] == before[i] && ss[i + 1] == before[i + 1];
    } else {
      LatestStartBehind(c, init);
      BehindStep(Play(c, init), e, before[i].at);
      NextIsFuture(c.sched.kind, before[i].at);
      assert ss[i] == before[i] && ss[i + 1].at == e.now;
    }
  }

  /** Consecutive starts of an unedited `every d` schedule are at least d apart, unless the first was not stored. */
  lemma EveryIsSpaced(c: Cell, es: seq<Event>, i: nat)
    requires c.sched.kind.Every? && Unedited(es) && i + 1 < |StartsIn(c, es)|
    ensures StartsIn(c, es)[i + 1].at - StartsIn(c, es)[i].at < c.sched.kind.d ==> !StartsIn(c, es)[i].stored
  {
    if StartsIn(c, es)[i].stored {
      StartsAreSpaced(c, es, i);
    }
  }

  // ---- Exactly when an occurrence is started again ----

  /** The stored fire time never goes back, and an outcome stored moves it. */
  lemma NextMoves(c: Cell, e: Event)
    requires !e.Edit?
    ensures var s, t := c.sched, Apply(c, e).sched;
            && (Stores(c, e) ==> s.next.Some? && (t.next.Some? ==> t.next.value > s.next.value))
            && (!Stores(c, e) ==> t == s)
  {
    if Stores(c, e) {
      NextIsFuture(c.sched.kind, e.now);
    }
  }

  /** An outcome was stored from event a on. */
  predicate StoredSince(c: Cell, es: seq<Event>, a: nat)
    requires a <= |es|
  {
    a < |es| && (StoredSince(c, es[..|es| - 1], a) || Stores(Play(c, es[..|es| - 1]), es[|es| - 1]))
  }

  /** The schedule still waits for the very occurrence it waited for before event a exactly when nothing was stored since. */
  lemma {:induction false} SameOccurrenceExactly(c: Cell, es: seq<Event>, a: nat)
    requires Unedited(es) && a <= |es| && Play(c, es[..a]).sched.next.Some?
    ensures var s, t := Play(c, es[..a]).sched, Play(c, es).sched;
            && (t.next == s.next <==> !StoredSince(c, es, a))
            && (t.next.Some? ==> t.next.value >= s.next.value)
            && (!StoredSince(c, es, a) ==> t == s)
  {
    if a == |es| {
      assert es[..a] == es;
    } else {
      var init := es[..|es| - 1];
      assert init[..a] == es[..a];
      SameOccurrenceExactly(c, init, a);
      NextMoves(Play(c, init), es[|es| - 1]);
      NoneStays(Play(c, init), es[|es| - 1]);
    }
  }

  /** A schedule without a fire time gets none unless it is edited. */
  lemma NoneStays(c: Cell, e: Event)
    requires !e.Edit?
    ensures c.sched.next.None? ==> Apply(c, e).sched.next.None? && !Starts(c, e)
  {
  }

  /** Over all unedited histories: two starts, at events a and b, are of one occurrence if and only if no outcome was
      stored in between, the first start's own included. */
  lemma StartedAgainExactly(c: Cell, es: seq<Event>, a: nat, b: nat)
    requires Unedited(es) && a < b < |es|
    requires Starts(Play(c, es[..a]), es[a]) && Starts(Play(c, es[..b]), es[b])
    ensures Play(c, es[..b]).sched.next == Play(c, es[..a]).sched.next <==> !StoredSince(c, es[..b], a)
    ensures Play(c, es[..b]).sched.next == Play(c, es[..a]).sched.next ==> es[a].Lost?
  {
    UneditedPrefix(es, b);
    assert es[..b][..a] == es[..a];
    SameOccurrenceExactly(c, es[..b], a);
    if es[a].Tick? {
      StoredAtOnce(c, es[..b], a);
    }
  }

  lemma {:induction false} UneditedPrefix(es: seq<Event>, n: nat)
    requires Unedited(es) && n <= |es|
    ensures Unedited(es[..n])
  {
    if n == |es| {
      assert es[..n] == es;
    } else {
      UneditedPrefix(es[..|es| - 1], n);
      assert es[..|es| - 1][..n] == es[..n];
    }
  }

  lemma {:induction false} StoredAtOnce(c: Cell, es: seq<Event>, a: nat)
    requires a < |es| && Stores(Play(c, es[..a]), es[a])
    ensures StoredSince(c, es, a)
  {
    if a < |es| - 1 {
      assert es[..|es| - 1][..a] == es[..a];
      StoredAtOnce(c, es[..|es| - 1], a);
    }
  }

  // ---- One-shots ----

  /** Some start of the history was stored. */
  predicate SomeStored(ss: seq<Start>) {
    exists i :: 0 <= i < |ss| && ss[i].stored
  }

  lemma SomeStoredSnoc(ss: seq<Start>, s: Start)
    ensures SomeStored(ss + [s]) <==> SomeStored(ss) || s.stored
  {
    if SomeStored(ss) {
      var i :| 0 <= i < |ss| && ss[i].stored;
      assert (ss + [s])[i].stored;
    }
    assert (ss + [s])[|ss|] == s;
  }

  lemma {:induction false} OnceNext(at: int, now: int, es: seq<Event>)
    requires at > now && Unedited(es)
    ensures var s := Play(Created(Once(at), now), es).sched;
            && s.kind == Once(at) && (s.next.Some? ==> s.next.value == at)
            && (SomeStored(StartsIn(Created(Once(at), now), es)) ==> s.next == None)
  {
    if es != [] {
      var c, init, e := Created(Once(at), now), es[..|es| - 1], es[|es| - 1];
      OnceNext(at, now, init);
      NoneStays(Play(c, init), e);
      if Starts(Play(c, init), e) {
        SomeStoredSnoc(StartsIn(c, init), Start(e.now, e.Tick?));
      }
    }
  }

  /** No start is before `at`, and only the last can be stored. */
  predicate LostButLast(ss: seq<Start>, at: int) {
    (forall i :: 0 <= i < |ss| ==> ss[i].at >= at) && forall i :: 0 <= i < |ss| - 1 ==> !ss[i].stored
  }

  lemma LostButLastSnoc(ss: seq<Start>, at: int, s: Start)
    requires LostButLast(ss, at) && !SomeStored(ss) && s.at >= at
    ensures LostButLast(ss + [s], at)
  {
  }

  /** An unedited one-shot starts no run before its time, and more than one run only by starting it again after
      starts that were all not stored: every start but the last is lost. */
  lemma {:induction false} OnceStartsOnce(at: int, now: int, es: seq<Event>)
    requires at > now && Unedited(es)
    ensures LostButLast(StartsIn(Created(Once(at), now), es), at)
  {
    if es != [] {
      var c, init, e := Created(Once(at), now), es[..|es| - 1], es[|es| - 1];
      OnceStartsOnce(at, now, init);
      OnceNext(at, now, init);
      if Starts(Play(c, init), e) {
        LostButLastSnoc(StartsIn(c, init), at, Start(e.now, e.Tick?));
      } else {
        assert StartsIn(c, es) == StartsIn(c, init);
      }
    }
  }

  /** A tick that finds the one-shot due is answered with a start after a start that was not stored. */
  predicate StartAfterLoss(c: Cell, es: seq<Event>) {
    es != [] &&
    var init, e := es[..|es| - 1], es[|es| - 1];
    StartAfterLoss(c, init) || (Starts(Play(c, init), e) && exists i :: 0 <= i < |StartsIn(c, init)| && !StartsIn(c, init)[i].stored)
  }

  /** An unedited one-shot starts more than one run if and only if a tick is answered with a start after a lost one. */
  lemma {:induction false} OnceTwiceExactly(at: int, now: int, es: seq<Event>)
    requires at > now && Unedited(es)
    ensures var c := Created(Once(at), now); |StartsIn(c, es)| > 1 <==> StartAfterLoss(c, es)
  {
    if es != [] {
      var c, init := Created(Once(at), now), es[..|es| - 1];
      OnceTwiceExactly(at, now, init);
      OnceNext(at, now, init);
      NoneStays(Play(c, init), es[|es| - 1]);
      if StartsIn(c, init) != [] && Starts(Play(c, init), es[|es| - 1]) {
        assert !StartsIn(c, init)[0].stored;
      }
    }
  }

  /** The controller dies after starting a run and before storing it; restarted, it finds the schedule due and
      starts a second run of the same occurrence. */
  lemma LostStartRepeats(c: Cell, at: int, later: int, first: nat, second: nat)
    requires Due(c.sched, at) && at <= later
    ensures var es := [Lost(at, Started(first))] + [Restart] + [Tick(later, Started(second))];
            Unedited(es) && StartsIn(c, es) == [Start(at, false), Start(later, true)]
  {
    var e1, e2, e3 := Lost(at, Started(first)), Restart, Tick(later, Started(second));
    Snoc(c, [], e1);
    assert [] + [e1] == [e1];
    assert Play(c, [e1]).sched == c.sched && StartsIn(c, [e1]) == [Start(at, false)];
    Snoc(c, [e1], e2);
    assert Play(c, [e1] + [e2]).sched == c.sched && StartsIn(c, [e1] + [e2]) == [Start(at, false)];
    Snoc(c, [e1] + [e2], e3);
  }

  /** A one-shot that starts two runs. */
  lemma OnceCanStartTwice(at: int, now: int)
    requires now < at
    ensures exists es :: Unedited(es) && |StartsIn(Created(Once(at), now), es)| == 2
  {
    LostStartRepeats(Created(Once(at), now), at, at + 30, 0, 1);
  }

  /** An every-d schedule whose starts are half a minute apart. */
  lemma EveryCanStartEarly(d: int, now: int)
    requires d >= MIN_EVERY
    ensures exists es :: Unedited(es) && StartsIn(Created(Every(d), now), es) == [Start(now + d, false), Start(now + d + 30, true)]
  {
    LostStartRepeats(Created(Every(d), now), now + d, now + d + 30, 0, 1);
  }

  lemma Snoc(c: Cell, es: seq<Event>, e: Event)
    ensures Play(c, es + [e]) == Apply(Play(c, es), e)
    ensures StartsIn(c, es + [e]) == StartsIn(c, es) + (if Starts(Play(c, es), e) then [Start(e.now, e.Tick?)] else [])
    ensures Unedited(es + [e]) == (Unedited(es) && !e.Edit?)
  {
    assert (es + [e])[..|es|] == es;
  }

  // ---- The busy grace ----

  /** From event j on, every event is a tick that finds the schedule due, unchanged and its deployment busy. */
  ghost predicate BusyFrom(c: Cell, es: seq<Event>, j: nat) {
    forall i :: j <= i < |es| ==>
      && Fires(es[i]) && es[i].reply == Busy
      && Due(Play(c, es[..i]).sched, es[i].now)
      && Play(c, es[..i]).sched == Play(c, es[..j]).sched
  }

  /** The mark is still the one the history began with, and the schedule untouched since. */
  ghost predicate OldMark(c: Cell, es: seq<Event>) {
    c.busySince.Some? && Play(c, es) == c
  }

  /** A busy mark is the one the history began with, or the time of the first tick of the current busy stretch. */
  lemma {:induction false} BusyMark(c: Cell, es: seq<Event>, from: int) returns (j: nat)
    requires Unedited(es) && Monotone(from, es)
    ensures Play(c, es).busySince.Some? && !OldMark(c, es) ==>
              && j < |es| && BusyFrom(c, es, j)
              && es[j].now == Play(c, es).busySince.value <= Clock(from, es)
              && Play(c, es).sched == Play(c, es[..j]).sched
              && Due(Play(c, es).sched, Clock(from, es))
  {
    j := 0;
    if es != [] {
      var n := |es| - 1;
      var init, e := es[..n], es[n];
      var d := Play(c, init);
      if Play(c, es).busySince.Some? && !OldMark(c, es) {
        if d.busySince.None? {
          j := n;
          assert es[..j] == init;
        } else {
          j := BusyMark(c, init, from);
          assert init[..j] == es[..j];
          forall i | j <= i < |es|
            ensures Fires(es[i]) && es[i].reply == Busy && Due(Play(c, es[..i]).sched, es[i].now)
            ensures Play(c, es[..i]).sched == Play(c, es[..j]).sched
          {
            if i < n {
              assert es[i] == init[i] && es[..i] == init[..i];
            } else {
              assert es[..i] == init;
            }
          }
        }
      }
    }
  }

  /** Without an edit in between, an occurrence is skipped as busy only after a full grace: from a tick at
      least busyGrace earlier on, every tick found the schedule due, untouched and its deployment busy. */
  lemma SkipMeansBusyThroughout(c: Cell, es: seq<Event>, from: int, now: int) returns (j: nat)
    requires c.busySince == None && Unedited(es) && Monotone(from, es + [Tick(now, Busy)])
    requires Due(Play(c, es).sched, now) && !Held(Play(c, es), now, Busy)
    ensures j < |es| && BusyFrom(c, es, j) && now - es[j].now >= BUSY_GRACE
    ensures Play(c, es + [Tick(now, Busy)]).sched.lastResult == SkippedBusy
  {
    assert (es + [Tick(now, Busy)])[..|es|] == es;
    j := BusyMark(c, es, from);
  }

  /** An edit keeps an old busy mark: after it, the first busy tick of the new occurrence can skip it at
      once. The second edit's occurrence is met by a single tick, which records it as skipped. */
  lemma EditDefeatsGrace(now: int)
    ensures var c := Created(Once(now + 60), now);
            var es := [Tick(now + 60, Busy), Edit(Once(now + 9000), true, now + 120), Tick(now + 9000, Busy)];
            Play(c, es).sched.lastResult == SkippedBusy && Play(c, es).sched.next == None
  {
    var c := Created(Once(now + 60), now);
    var e1, e2, e3 := Tick(now + 60, Busy), Edit(Once(now + 9000), true, now + 120), Tick(now + 9000, Busy);
    assert [e1, e2, e3][..2] == [e1, e2] && [e1, e2][..1] == [e1] && [e1][..0] == [];
    assert Play(c, [e1]) == Apply(c, e1);
    assert Play(c, [e1, e2]) == Apply(Apply(c, e1), e2);
    assert Play(c, [e1, e2, e3]) == Apply(Apply(Apply(c, e1), e2), e3);
  }

  /** Whatever came before, a skip after the last edit is explained in one of two ways: the occurrence had its full
      grace, as above, or the mark is from before the edit and a grace old, and nothing has happened to the schedule since. */
  lemma SkipAfterEdit(c: Cell, es: seq<Event>, from: int, now: int) returns (j: nat)
    requires Unedited(es) && Monotone(from, es + [Tick(now, Busy)])
    requires Due(Play(c, es).sched, now) && !Held(Play(c, es), now, Busy)
    ensures (j < |es| && BusyFrom(c, es, j) && now - es[j].now >= BUSY_GRACE)
         || (OldMark(c, es) && now - c.busySince.value >= BUSY_GRACE)
  {
    assert (es + [Tick(now, Busy)])[..|es|] == es;
    j := BusyMark(c, es, from);
  }

  /** Exactly when the first busy tick of an edited schedule skips its occurrence: a mark from before the edit is
      a grace old by then. */
  lemma EditGraceExact(c: Cell, kind: Kind, at: int, now: int)
    requires Define(kind, true, at).Some? && Due(EditCell(c, kind, true, at).sched, now)
    ensures var d := EditCell(c, kind, true, at);
            TickCell(d, now, Busy).sched == d.sched <==> !(c.busySince.Some? && now - c.busySince.value >= BUSY_GRACE)
  {
    HeldOrAdvanced(EditCell(c, kind, true, at), now, Busy);
  }
}
