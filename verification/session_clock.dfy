/**
 Elapsed time as the exit ladder measures it: wall-clock seconds for intraday profiles, and
 observable regular-session seconds for profiles that hold overnight. Instants are whole seconds.
 */
module SessionClock {
  import opened Wrappers

  datatype Session = Session(opensAt: int, closesAt: int)

  /** An exchange calendar: the local date of an instant, and the session of a date, if it has one. */
  datatype Calendar = Calendar(dayOf: int -> int, sessionOn: int -> Option<Session>)

  /** Dates follow instants, and every session opens and closes on its own date. */
  ghost predicate Valid(cal: Calendar) {
    && (forall s: int, t: int {:trigger cal.dayOf(s), cal.dayOf(t)} :: s <= t ==> cal.dayOf(s) <= cal.dayOf(t))
    && (forall d: int {:trigger cal.sessionOn(d)} :: cal.sessionOn(d).Some? ==>
          var session := cal.sessionOn(d).value;
          session.opensAt <= session.closesAt && cal.dayOf(session.opensAt) == d && cal.dayOf(session.closesAt) == d)
  }

  // ------------------------------------------------------- reference: count the open seconds

  /** The second starting at `t` lies inside the session of its own date. */
  predicate Open(cal: Calendar, t: int) {
    var session := cal.sessionOn(cal.dayOf(t));
    session.Some? && session.value.opensAt <= t < session.value.closesAt
  }

  /** The measure of [since, until) intersected with the sessions, one second at a time. */
  function OpenSeconds(cal: Calendar, since: int, until: int): (total: int)
    ensures total >= 0
    ensures since <= until ==> total <= until - since
    decreases until - since
  {
    if until <= since then 0
    else OpenSeconds(cal, since, until - 1) + (if Open(cal, until - 1) then 1 else 0)
  }

  lemma {:induction false} OpenSecondsAdditive(cal: Calendar, since: int, split: int, until: int)
    requires since <= split <= until
    ensures OpenSeconds(cal, since, until) == OpenSeconds(cal, since, split) + OpenSeconds(cal, split, until)
    decreases until - split
  {
    if split < until {
      OpenSecondsAdditive(cal, since, split, until - 1);
    }
  }

  // ------------------------------------------------------- the day-by-day computation

  function Min(x: int, y: int): int { if x <= y then x else y }

  function Max(x: int, y: int): int { if x >= y then x else y }

  /** The overlap of one date's session with [since, until]. */
  function DayOverlap(cal: Calendar, day: int, since: int, until: int): int {
    match cal.sessionOn(day)
    case None => 0
    case Some(session) => Max(0, Min(until, session.closesAt) - Max(since, session.opensAt))
  }

  function DaySum(cal: Calendar, first: int, last: int, since: int, until: int): int
    decreases last - first
  {
    if last < first then 0
    else DaySum(cal, first, last - 1, since, until) + DayOverlap(cal, last, since, until)
  }

  /** Moving `until` by one second adds that second to its own date's overlap and to no other. */
  lemma DayOverlapStep(cal: Calendar, day: int, since: int, until: int)
    requires Valid(cal) && since <= until
    ensures DayOverlap(cal, day, since, until + 1) - DayOverlap(cal, day, since, until)
         == if day == cal.dayOf(until) && Open(cal, until) then 1 else 0
  {
    var session := cal.sessionOn(day);
    if session.Some? && session.value.opensAt <= until < session.value.closesAt {
      assert cal.dayOf(session.value.opensAt) <= cal.dayOf(until) <= cal.dayOf(session.value.closesAt);
    }
  }

  lemma {:induction false} DaySumStep(cal: Calendar, first: int, last: int, since: int, until: int)
    requires Valid(cal) && since <= until
    ensures DaySum(cal, first, last, since, until + 1) - DaySum(cal, first, last, since, until)
         == if first <= cal.dayOf(until) <= last && Open(cal, until) then 1 else 0
    decreases last - first
  {
    if first <= last {
      DaySumStep(cal, first, last - 1, since, until);
      DayOverlapStep(cal, last, since, until);
    }
  }

  /** Dates after `until` contribute nothing. */
  lemma {:induction false} DaySumBeyond(cal: Calendar, first: int, last: int, extra: int, since: int, until: int)
    requires Valid(cal) && first <= last <= extra && cal.dayOf(until) <= last
    ensures DaySum(cal, first, extra, since, until) == DaySum(cal, first, last, since, until)
    decreases extra - last
  {
    if last < extra {
      DaySumBeyond(cal, first, last, extra - 1, since, until);
      var session := cal.sessionOn(extra);
      if session.Some? {
        assert cal.dayOf(until) < cal.dayOf(session.value.opensAt);
      }
    }
  }

  lemma {:induction false} DaySumEmpty(cal: Calendar, first: int, last: int, at: int)
    requires Valid(cal)
    ensures DaySum(cal, first, last, at, at) == 0
    decreases last - first
  {
    if first <= last {
      DaySumEmpty(cal, first, last - 1, at);
    }
  }

  /** Summing session overlaps by date measures exactly the open seconds. */
  lemma {:induction false} DaySumMeasuresOpenSeconds(cal: Calendar, since: int, until: int)
    requires Valid(cal) && since <= until
    ensures DaySum(cal, cal.dayOf(since), cal.dayOf(until), since, until) == OpenSeconds(cal, since, until)
    decreases until - since
  {
    if since == until {
      DaySumEmpty(cal, cal.dayOf(since), cal.dayOf(until), since);
    } else {
      var first, before, last := cal.dayOf(since), cal.dayOf(until - 1), cal.dayOf(until);
      DaySumMeasuresOpenSeconds(cal, since, until - 1);
      DaySumBeyond(cal, first, before, last, since, until - 1);
      DaySumStep(cal, first, last, since, until - 1);
    }
  }

  /** Regular-session seconds between entry and now; nothing when the entry time is unknown. */
  method ElapsedRegularSessionSeconds(cal: Calendar, entryTime: Option<int>, now: int) returns (elapsed: Option<int>)
    requires Valid(cal)
    ensures elapsed == RegularSessionElapsed(cal, entryTime, now)
  {
    if entryTime.None? {
      return None;
    }
    var entry := entryTime.value;
    if now <= entry {
      return Some(0);
    }
    var first := cal.dayOf(entry);
    var day := first;
    var lastDay := cal.dayOf(now);
    var total := 0;
    while day <= lastDay
      invariant first <= day <= lastDay + 1
      invariant total == DaySum(cal, first, day - 1, entry, now)
    {
      var session := cal.sessionOn(day);
      if session.Some? {
        total := total + Max(0, Min(now, session.value.closesAt) - Max(entry, session.value.opensAt));
      }
      day := day + 1;
    }
    DaySumMeasuresOpenSeconds(cal, entry, now);
    return Some(total);
  }

  function RegularSessionElapsed(cal: Calendar, entryTime: Option<int>, now: int): Option<int> {
    match entryTime
    case None => None
    case Some(entry) => Some(OpenSeconds(cal, entry, now))
  }

  /** Wall-clock seconds since entry, never negative. */
  function WallElapsed(entryTime: Option<int>, now: int): (elapsed: Option<int>)
    ensures elapsed.Some? <==> entryTime.Some?
    ensures elapsed.Some? ==> elapsed.value >= 0
    ensures elapsed.Some? && entryTime.value <= now ==> entryTime.value + elapsed.value == now
  {
    match entryTime
    case None => None
    case Some(entry) => Some(Max(0, now - entry))
  }

  /** The session clock splits at any instant, only runs forward, and never outruns the wall clock. */
  lemma SessionClockLaws(cal: Calendar, entry: int, split: int, now: int)
    requires Valid(cal) && entry <= split <= now
    ensures var at := (t: int) => RegularSessionElapsed(cal, Some(entry), t).value;
            && at(now) == at(split) + RegularSessionElapsed(cal, Some(split), now).value
            && 0 <= at(split) <= at(now) <= WallElapsed(Some(entry), now).value
  {
    OpenSecondsAdditive(cal, entry, split, now);
  }
}
