/**
 When a schedule fires next (internal/model/model.go:449-512). Instants are Unix seconds, days
 count from 1970-01-01, a Thursday.
 */
module Calendar {
  import opened Common

  /** A wall-clock time in some time zone: the local day of an instant, and the instant at which a
      given local day shows that time. */
  datatype Clock = Clock(dayOf: int -> int, instant: int -> int)

  /** What the walk needs of a zone: later days come later, and the time shown yesterday is over
      while tomorrow's is still ahead. */
  ghost predicate Coherent(k: Clock) {
    && (forall d, e :: d < e ==> k.instant(d) < k.instant(e))
    && (forall now :: k.instant(k.dayOf(now) - 1) <= now < k.instant(k.dayOf(now) + 1))
  }

  const DAY := 86400

  /** A time zone: the clock for each hour and minute. */
  type Zone = (nat, nat) -> Clock

  /** Hour and minute at a fixed offset from UTC. */
  function FixedClock(hour: nat, minute: nat, offset: int): Clock {
    Clock(now => (now + offset) / DAY, d => d * DAY + hour * 3600 + minute * 60 - offset)
  }

  function FixedZone(offset: int): Zone {
    (hour: nat, minute: nat) => FixedClock(hour, minute, offset)
  }

  ghost predicate CoherentZone(z: Zone) {
    forall hour: nat, minute: nat :: hour < 24 && minute < 60 ==> Coherent(z(hour, minute))
  }

  function Weekday(d: int): nat {
    (d + 4) % 7
  }

  /** Sunday is 0: 1970-01-01 was a Thursday, and every day is the weekday after the day before. */
  lemma WeekdaysFollow(d: int)
    ensures Weekday(0) == 4 && Weekday(d) < 7 && Weekday(d + 1) == if Weekday(d) == 6 then 0 else Weekday(d) + 1
  {
  }

  /** On the day d of a fixed clock, local midnight lies the hour and minute behind its instant; an instant's day is
      the one it falls in. */
  lemma FixedClockShows(hour: nat, minute: nat, offset: int, d: int, now: int)
    requires hour < 24 && minute < 60
    ensures var k, local := FixedClock(hour, minute, offset), now + offset;
      && (now == k.instant(d) <==> local / DAY == d && local % DAY / 3600 == hour && local % 3600 / 60 == minute && local % 60 == 0)
      && (k.dayOf(now) == d <==> d * DAY <= local < (d + 1) * DAY)
  {
    TimeShows(hour, minute, d, now + offset);
  }

  lemma TimeShows(hour: nat, minute: nat, d: int, local: int)
    requires hour < 24 && minute < 60
    ensures local == d * DAY + hour * 3600 + minute * 60 <==>
      local / DAY == d && local % DAY / 3600 == hour && local % 3600 / 60 == minute && local % 60 == 0
    ensures local / DAY == d <==> d * DAY <= local < (d + 1) * DAY
  {
    var day, t := local / DAY, local % DAY;
    assert local == day * DAY + t;
    var h, s := t / 3600, t % 3600;
    assert local == (day * 24 + h) * 3600 + s;
    assert local % 3600 == s;
    assert local == ((day * 24 + h) * 60 + s / 60) * 60 + s % 60;
    assert local % 60 == s % 60;
  }

  /** None allows every weekday; a filter names at least one. */
  predicate ValidDays(days: Option<set<nat>>) {
    days.Some? ==> days.value != {} && days.value <= {0, 1, 2, 3, 4, 5, 6}
  }

  predicate Allowed(days: Option<set<nat>>, d: int) {
    days.Some? ==> Weekday(d) in days.value
  }

  /** An instant after `now` at which the clock shows the time on an allowed weekday. */
  predicate Occurs(k: Clock, days: Option<set<nat>>, now: int, d: int) {
    k.instant(d) > now && Allowed(days, d)
  }

  /** The first of the days d, d + 1, ... before `end` that occurs. */
  function Walk(k: Clock, days: Option<set<nat>>, now: int, d: int, end: int): Option<int>
    decreases end - d
  {
    if d >= end then None
    else if Occurs(k, days, now, d) then Some(k.instant(d))
    else Walk(k, days, now, d + 1, end)
  }

  /** The daily search: today and the following days, `steps` in all. */
  function Search(k: Clock, days: Option<set<nat>>, now: int, steps: nat): Option<int> {
    Walk(k, days, now, k.dayOf(now), k.dayOf(now) + steps)
  }

  lemma {:induction false} WalkFindsFirst(k: Clock, days: Option<set<nat>>, now: int, d: int, end: int) returns (j: int)
    requires d <= end
    ensures d <= j <= end
    ensures forall e :: d <= e < j ==> !Occurs(k, days, now, e)
    ensures Walk(k, days, now, d, end)
         == if j < end then Some(k.instant(j)) else None
    ensures j < end ==> Occurs(k, days, now, j)
    decreases end - d
  {
    j := d;
    if d < end && !Occurs(k, days, now, d) {
      j := WalkFindsFirst(k, days, now, d + 1, end);
    }
  }

  /** Every weekday comes round within any seven days. */
  lemma SomeDayAllowed(days: Option<set<nat>>, from: int) returns (d: int)
    requires ValidDays(days)
    ensures from <= d < from + 7 && Allowed(days, d)
  {
    d := from;
    if days.Some? {
      var w :| w in days.value;
      d := from + (w - from - 4) % 7;
      assert 0 <= w < 7;
      SumMod(from, w);
    }
  }

  lemma SumMod(from: int, w: int)
    requires 0 <= w < 7
    ensures (from + (w - from - 4) % 7 + 4) % 7 == w
  {
    var x := w - from - 4;
    assert x % 7 == x - 7 * (x / 7);
    assert from + x % 7 + 4 == w - 7 * (x / 7);
  }

  lemma LaterDaysAreAhead(k: Clock, now: int, d: int)
    requires Coherent(k) && d != k.dayOf(now)
    ensures k.instant(d) > now <==> d > k.dayOf(now)
  {
    var today := k.dayOf(now);
    assert k.instant(today - 1) <= now < k.instant(today + 1);
    if d > today + 1 {
      assert k.instant(today + 1) < k.instant(d);
    } else if d < today - 1 {
      assert k.instant(d) < k.instant(today - 1);
    }
  }

  /** The eight-step daily search is exact: it always succeeds, and gives the least instant strictly
      after `now` at which the clock shows the time on an allowed weekday. */
  lemma DailyIsExact(k: Clock, days: Option<set<nat>>, now: int)
    requires Coherent(k) && ValidDays(days)
    ensures var r := Search(k, days, now, 8);
            && r.Some? && r.value > now
            && (exists d :: Occurs(k, days, now, d) && r.value == k.instant(d))
            && (forall d :: Occurs(k, days, now, d) ==> r.value <= k.instant(d))
  {
    var today := k.dayOf(now);
    var j := WalkFindsFirst(k, days, now, today, today + 8);
    var d := SomeDayAllowed(days, today + 1);
    LaterDaysAreAhead(k, now, d);
    assert Occurs(k, days, now, d);
    forall e | Occurs(k, days, now, e)
      ensures k.instant(j) <= k.instant(e)
    {
      if e != today {
        LaterDaysAreAhead(k, now, e);
      }
      assert e >= j;
    }
  }

  lemma OtherElement(s: set<nat>, x: nat) returns (w: nat)
    requires s != {}
    ensures s == {x} || (w in s && w != x)
  {
    var others := s - {x};
    if others == {} {
      assert s <= others + {x};
      w := x;
    } else {
      w :| w in others;
    }
  }

  /** Another weekday than that of `from` is allowed within the six days after it. */
  lemma OtherDayAllowed(days: Option<set<nat>>, from: int) returns (d: int)
    requires ValidDays(days) && days != Some({Weekday(from)})
    ensures from < d < from + 7 && Allowed(days, d)
  {
    if days.None? {
      d := from + 1;
    } else {
      var w := OtherElement(days.value, Weekday(from));
      d := SomeDayAllowed(Some({w}), from);
      assert Weekday(d) == w;
    }
  }

  lemma NoRepeatWithinAWeek(today: int, d: int)
    requires today < d < today + 7
    ensures Weekday(d) != Weekday(today)
  {
  }

  /** The only weekday allowed is today's and its time is over: the next seven days hold no occurrence. */
  lemma OnlyTodayIsOver(k: Clock, now: int, d: int)
    requires Coherent(k) && k.instant(k.dayOf(now)) <= now && k.dayOf(now) <= d < k.dayOf(now) + 7
    ensures !Occurs(k, Some({Weekday(k.dayOf(now))}), now, d)
  {
    if d > k.dayOf(now) {
      NoRepeatWithinAWeek(k.dayOf(now), d);
    }
  }

  /** Seven steps do not suffice exactly when today is the only weekday allowed and its time is over. */
  lemma SevenStepsFail(k: Clock, days: Option<set<nat>>, now: int)
    requires Coherent(k) && ValidDays(days)
    ensures Search(k, days, now, 7) == None <==>
              days == Some({Weekday(k.dayOf(now))}) && k.instant(k.dayOf(now)) <= now
  {
    var today := k.dayOf(now);
    var j := WalkFindsFirst(k, days, now, today, today + 7);
    if days == Some({Weekday(today)}) && k.instant(today) <= now {
      if j < today + 7 {
        OnlyTodayIsOver(k, now, j);
      }
    } else if days == Some({Weekday(today)}) {
      assert Occurs(k, days, now, today);
    } else {
      var d := OtherDayAllowed(days, today);
      LaterDaysAreAhead(k, now, d);
      assert Occurs(k, days, now, d);
    }
  }

  /** A fixed offset from UTC is coherent for every wall-clock time. */
  lemma FixedClockCoherent(hour: nat, minute: nat, offset: int)
    requires hour < 24 && minute < 60
    ensures Coherent(FixedClock(hour, minute, offset))
  {
    var k := FixedClock(hour, minute, offset);
    forall now
      ensures k.instant(k.dayOf(now) - 1) <= now < k.instant(k.dayOf(now) + 1)
    {
      var t := now + offset;
      assert t == DAY * (t / DAY) + t % DAY && 0 <= t % DAY < DAY;
    }
  }

  lemma FixedZoneCoherent(offset: int)
    ensures CoherentZone(FixedZone(offset))
  {
    forall hour: nat, minute: nat | hour < 24 && minute < 60 ensures Coherent(FixedZone(offset)(hour, minute)) {
      FixedClockCoherent(hour, minute, offset);
    }
  }

  // ---- A zone that changes its offset ----

  /** Local time is UTC plus `before` until `shift` seconds into the local day `change`, and UTC plus `after` from
      then on. A time of that day is read in the old offset up to the shift. */
  datatype Shift = Shift(before: int, after: int, change: int, shift: nat)

  /** The change is no larger than the shift into its day, and the day is not over before it. */
  predicate SmallShift(z: Shift) {
    && z.before - z.shift <= z.after <= z.before + z.shift
    && z.after - z.before <= DAY - z.shift && z.shift <= DAY
  }

  function DayOf(z: Shift, now: int): int {
    if now < z.change * DAY + z.shift - z.before then (now + z.before) / DAY else (now + z.after) / DAY
  }

  function InstantOf(z: Shift, time: nat, d: int): int {
    d * DAY + time - if d < z.change || (d == z.change && time < z.shift) then z.before else z.after
  }

  function ShiftingZone(z: Shift): Zone {
    (hour: nat, minute: nat) => Clock(now => DayOf(z, now), d => InstantOf(z, hour * 3600 + minute * 60, d))
  }

  lemma DayBounds(t: int)
    ensures t / DAY * DAY <= t < t / DAY * DAY + DAY
  {
  }

  lemma ShiftedDay(z: Shift, time: nat, now: int)
    requires SmallShift(z) && time < DAY
    ensures InstantOf(z, time, DayOf(z, now) - 1) <= now < InstantOf(z, time, DayOf(z, now) + 1)
  {
    DayBounds(now + z.before);
    DayBounds(now + z.after);
  }

  lemma LaterDaysShow(z: Shift, time: nat, d: int, e: int)
    requires SmallShift(z) && time < DAY && d < e
    ensures InstantOf(z, time, d) < InstantOf(z, time, e)
  {
  }

  lemma ShiftingClockCoherent(z: Shift, time: nat, k: Clock)
    requires SmallShift(z) && time < DAY
    requires forall now :: k.dayOf(now) == DayOf(z, now)
    requires forall d :: k.instant(d) == InstantOf(z, time, d)
    ensures Coherent(k)
  {
    forall now ensures k.instant(k.dayOf(now) - 1) <= now < k.instant(k.dayOf(now) + 1) {
      ShiftedDay(z, time, now);
    }
    forall d, e | d < e ensures k.instant(d) < k.instant(e) {
      LaterDaysShow(z, time, d, e);
    }
  }

  /** A zone that goes forward or back by no more than the shift into its day is coherent for every wall-clock time:
      summer time, put forward or back in the small hours. */
  lemma ShiftingZoneCoherent(z: Shift)
    requires SmallShift(z)
    ensures CoherentZone(ShiftingZone(z))
  {
    forall hour: nat, minute: nat | hour < 24 && minute < 60 ensures Coherent(ShiftingZone(z)(hour, minute)) {
      ShiftingClockCoherent(z, hour * 3600 + minute * 60, ShiftingZone(z)(hour, minute));
    }
  }

  // ---- The next occurrence of a schedule ----

  const MIN_EVERY := 60

  /** The parsed kind and spec of a schedule. `Malformed` stands for a spec that does not parse. */
  datatype Kind =
    | Every(d: int)
    | Daily(hour: nat, minute: nat, days: Option<set<nat>>, zone: Zone)
    | Once(at: int)
    | Malformed

  predicate ValidKind(k: Kind) {
    match k
    case Every(d) => d >= MIN_EVERY
    case Daily(h, m, days, _) => h < 24 && m < 60 && ValidDays(days)
    case Once(_) => true
    case Malformed => false
  }

  function NextAfter(k: Kind, now: int): Option<int> {
    match k
    case Every(d) => if d < MIN_EVERY then None else Some(now + d)
    case Daily(h, m, days, zone) => Search(zone(h, m), days, now, 8)
    case Once(at) => if at > now then Some(at) else None
    case Malformed => None
  }

  /** The next occurrence is strictly in the future in every zone; in a coherent zone only a past one-shot has none. */
  lemma NextIsFuture(k: Kind, now: int)
    ensures NextAfter(k, now).Some? ==> NextAfter(k, now).value > now
    ensures ValidKind(k) && (k.Daily? ==> CoherentZone(k.zone)) ==> (NextAfter(k, now) == None <==> k.Once? && k.at <= now)
  {
    if k.Daily? {
      var clock := k.zone(k.hour, k.minute);
      var j := WalkFindsFirst(clock, k.days, now, clock.dayOf(now), clock.dayOf(now) + 8);
      if ValidKind(k) && CoherentZone(k.zone) {
        DailyIsExact(clock, k.days, now);
      }
    }
  }

  /** The loop of the source. */
  method ComputeNext(k: Kind, now: int) returns (next: Option<int>)
    ensures next == NextAfter(k, now)
  {
    match k {
      case Every(d) =>
        return if d < MIN_EVERY then None else Some(now + d);
      case Daily(h, m, days, zone) =>
        var clock := zone(h, m);
        var today := clock.dayOf(now);
        var i: nat := 0;
        while i < 8
          invariant i <= 8
          invariant NextAfter(k, now) == Walk(clock, days, now, today + i, today + 8)
        {
          var cand := clock.instant(today + i);
          if cand > now && (days.None? || Weekday(today + i) in days.value) {
            return Some(cand);
          }
          i := i + 1;
        }
        return None;
      case Once(at) =>
        return if at > now then Some(at) else None;
      case Malformed =>
        return None;
    }
  }
}
