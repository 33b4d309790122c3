/** How long a schedule goes on, and what it fires next (internal/sched/sched.go:95-172, internal/model/model.go:449-512). */
module ScheduleLife {
  import opened Common
  import opened Calendar
  import opened Scheduler

  /** A daily kind as the API accepts it, in a coherent zone; any other kind, parsed or not. */
  ghost predicate Readable(k: Kind) {
    k.Daily? ==> ValidKind(k) && CoherentZone(k.zone)
  }

  /** `n` is the least instant after `now` at which the clock shows the time on an allowed weekday. */
  ghost predicate LeastInstant(k: Clock, days: Option<set<nat>>, now: int, n: int) {
    && n > now
    && (exists d :: Occurs(k, days, now, d) && n == k.instant(d))
    && forall d :: Occurs(k, days, now, d) ==> n <= k.instant(d)
  }

  /** `next` is the first fire time after `now`, None if there is none. */
  ghost predicate Earliest(k: Kind, now: int, next: Option<int>) {
    match k
    case Every(d) => next == if d >= MIN_EVERY then Some(now + d) else None
    case Daily(hour, minute, days, zone) => next.Some? && LeastInstant(zone(hour, minute), days, now, next.value)
    case Once(at) => next == if at > now then Some(at) else None
    case Malformed => next == None
  }

  lemma EarliestIs(k: Kind, now: int)
    requires Readable(k)
    ensures Earliest(k, now, NextAfter(k, now))
  {
    if k.Daily? {
      DailyIsExact(k.zone(k.hour, k.minute), k.days, now);
    }
  }

  lemma EarliestIsUnique(k: Kind, now: int, a: Option<int>, b: Option<int>)
    requires Earliest(k, now, a) && Earliest(k, now, b)
    ensures a == b
  {
  }

  /** The deployment is gone. */
  predicate Gone(r: Reply) {
    r == Missing || r == Deleted
  }

  /** The schedule can fire no more after `now`. */
  predicate Spent(k: Kind, now: int) {
    (k.Once? && k.at <= now) || (!k.Daily? && !ValidKind(k))
  }

  predicate ResultIs(result: FireResult, r: Reply) {
    && (result == Fired <==> r.Started?) && (result == SkippedBusy <==> r == Busy) && (result == ErrorStart <==> r == Refused)
    && (result == ErrorMissing <==> r == Missing) && (result == SkippedDeleted <==> r == Deleted)
  }

  /** A due schedule is put off by a busy answer alone, for an hour from the first; the row is untouched and the first
      busy time kept. */
  lemma PutOffExactly(c: Cell, now: int, r: Reply)
    requires Due(c.sched, now)
    ensures var t := TickCell(c, now, r);
      && (t.sched == c.sched <==> r == Busy && (c.busySince.Some? ==> now - c.busySince.value < 3600))
      && (t.sched == c.sched ==> t.busySince == if c.busySince.Some? then c.busySince else Some(now))
  {
    HeldOrAdvanced(c, now, r);
  }

  /** What an answer leaves in the row of a due schedule, unless it is put off: a start, a refusal and a busy skip
      alike go on to the first fire time after now; only a deployment that is gone, or a schedule that is spent,
      disables it, and those always do. */
  lemma AnswerIsRecorded(c: Cell, now: int, r: Reply)
    requires Due(c.sched, now) && Readable(c.sched.kind)
    requires r == Busy ==> c.busySince.Some? && now - c.busySince.value >= BUSY_GRACE
    ensures var t := TickCell(c, now, r).sched;
      && t.kind == c.sched.kind && t.lastFired == Some(now)
      && t.lastRun == (if r.Started? then Some(r.run) else None) && ResultIs(t.lastResult, r)
      && (if Gone(r) then t.next == None else Earliest(c.sched.kind, now, t.next))
      && (t.enabled <==> t.next.Some?)
      && (t.enabled <==> !Gone(r) && !Spent(c.sched.kind, now))
  {
    EarliestIs(c.sched.kind, now);
  }

  // ---- Over histories ----

  /** An enabled schedule whose next fire time is the first after `since`. */
  ghost predicate Waiting(s: Schedule, since: int) {
    Readable(s.kind) && s.enabled && s.next.Some? && Earliest(s.kind, since, s.next)
  }

  /** Creating or editing an enabled schedule leaves it waiting. */
  lemma DefinedWaits(c: Cell, kind: Kind, now: int)
    requires Readable(kind) && Define(kind, true, now).Some?
    ensures Waiting(EditCell(c, kind, true, now).sched, now) && Waiting(Created(kind, now).sched, now)
  {
    EarliestIs(kind, now);
  }

  /** The time of the last outcome stored, `since` when there is none. */
  function LastStored(c: Cell, es: seq<Event>, since: int): int {
    if es == [] then since
    else
      var init, e := es[..|es| - 1], es[|es| - 1];
      if Stores(Play(c, init), e) then e.now else LastStored(c, init, since)
  }

  /** A stored tick found the schedule due and its deployment gone. */
  predicate Parked(c: Cell, es: seq<Event>) {
    es != [] &&
    var init, e := es[..|es| - 1], es[|es| - 1];
    Parked(c, init) || (Stores(Play(c, init), e) && Gone(e.reply))
  }

  lemma StoredIs(c: Cell, e: Event)
    requires Stores(c, e) && Readable(c.sched.kind)
    ensures var t := Apply(c, e).sched;
      && t.kind == c.sched.kind
      && (if Gone(e.reply) then t.next == None else Earliest(c.sched.kind, e.now, t.next))
      && (t.enabled <==> t.next.Some?)
  {
    AnswerIsRecorded(c, e.now, e.reply);
  }

  /** Over every unedited history, lost outcomes and restarts included: a schedule goes on until a stored answer finds
      its deployment gone, and until then waits for the first fire time after the last stored outcome. */
  lemma {:induction false} GoesOn(c: Cell, es: seq<Event>, since: int)
    requires Waiting(c.sched, since) && Unedited(es)
    ensures var s := Play(c, es).sched;
      && s.kind == c.sched.kind && (s.enabled <==> s.next.Some?)
      && (if Parked(c, es) then s.next == None else Earliest(s.kind, LastStored(c, es, since), s.next))
  {
    if es != [] {
      var init, e := es[..|es| - 1], es[|es| - 1];
      GoesOn(c, init, since);
      var d := Play(c, init);
      if Stores(d, e) {
        StoredIs(d, e);
      } else {
        NextMoves(d, e);
      }
    }
  }

  /** An unedited recurring schedule is enabled exactly as long as no stored answer found its deployment gone. */
  lemma RecursUnlessGone(c: Cell, es: seq<Event>, since: int)
    requires Waiting(c.sched, since) && Unedited(es) && (c.sched.kind.Every? || c.sched.kind.Daily?)
    ensures Play(c, es).sched.enabled <==> !Parked(c, es)
  {
    GoesOn(c, es, since);
  }

  /** A tick whose start is accepted starts a run exactly when the first fire time after the last stored outcome has
      come, whatever happened to the schedule before: after downtime, a crash or a failed write it is still met. */
  lemma StartsExactly(c: Cell, es: seq<Event>, since: int, now: int, run: nat)
    requires Waiting(c.sched, since) && Unedited(es)
    ensures Starts(Play(c, es), Tick(now, Started(run))) <==>
      !Parked(c, es) && exists n :: Earliest(c.sched.kind, LastStored(c, es, since), Some(n)) && n <= now
  {
    GoesOn(c, es, since);
    var s := Play(c, es).sched;
    if !Parked(c, es) {
      if n :| Earliest(c.sched.kind, LastStored(c, es, since), Some(n)) && n <= now {
        EarliestIsUnique(c.sched.kind, LastStored(c, es, since), s.next, Some(n));
      }
    }
  }
}
