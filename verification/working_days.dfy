/** Working days, and when an ask that waits on others is chased. */
module WorkingDays {
  import opened BatchQueue

  const CHASE_AFTER := 3

  /** A time in one zone: the day, numbered from some Monday, and the time of that day. */
  datatype Time = Time(day: int, clock: nat)

  predicate Working(day: int) {
    day % 7 < 5
  }

  /** How many days of a weekend come next after the day. */
  function WeekendAhead(day: int): nat {
    if day % 7 == 4 then 2 else if day % 7 == 5 then 1 else 0
  }

  /** The working days after `from`, up to and with `to`. */
  function WorkingBetween(from: int, to: int): nat
    decreases to - from
  {
    if to <= from then 0 else WorkingBetween(from, to - 1) + if Working(to) then 1 else 0
  }

  /** The day n working days on. */
  function DayAfter(day: int, n: nat): (then_: int)
    ensures then_ >= day && (n > 0 ==> then_ > day && Working(then_))
    decreases n, WeekendAhead(day)
  {
    if n == 0 then day else DayAfter(day + 1, if Working(day + 1) then n - 1 else n)
  }

  lemma OneDayOn(day: int, n: nat)
    ensures n == 0 ==> DayAfter(day, n) == day
    ensures n > 0 ==> DayAfter(day, n) == DayAfter(day + 1, if Working(day + 1) then n - 1 else n)
    ensures Working(day + 1) || WeekendAhead(day + 1) < WeekendAhead(day)
  {
  }

  method AddWorkingDays(t: Time, n: int) returns (then_: Time)
    ensures then_ == Time(DayAfter(t.day, if n > 0 then n else 0), t.clock)
  {
    hide *;
    then_ := t;
    var left := n;
    OneDayOn(t.day, 0);
    while left > 0
      invariant then_.clock == t.clock
      invariant DayAfter(then_.day, if left > 0 then left else 0) == DayAfter(t.day, if n > 0 then n else 0)
      decreases left, WeekendAhead(then_.day)
    {
      OneDayOn(then_.day, left);
      then_ := then_.(day := then_.day + 1);
      if Working(then_.day) {
        left := left - 1;
      }
    }
    OneDayOn(then_.day, 0);
  }

  lemma {:induction false} BetweenAdds(a: int, b: int, c: int)
    requires a <= b <= c
    ensures WorkingBetween(a, c) == WorkingBetween(a, b) + WorkingBetween(b, c)
    decreases c - b
  {
    if b < c {
      BetweenAdds(a, b, c - 1);
    }
  }

  lemma {:induction false} ExactlyN(day: int, n: nat)
    ensures WorkingBetween(day, DayAfter(day, n)) == n
    decreases n, WeekendAhead(day)
  {
    if n > 0 {
      var m := if Working(day + 1) then n - 1 else n;
      ExactlyN(day + 1, m);
      BetweenAdds(day, day + 1, DayAfter(day + 1, m));
    }
  }

  /** It is the least day with n working days behind it, and no other is. */
  lemma LeastDay(day: int, n: nat, d: int)
    ensures d >= DayAfter(day, n) <==> d >= day && WorkingBetween(day, d) >= n
  {
    var then_ := DayAfter(day, n);
    ExactlyN(day, n);
    if d >= then_ {
      BetweenAdds(day, then_, d);
    } else if d >= day {
      BetweenAdds(day, d, then_ - 1);
    }
  }

  /** Days added in two steps are the days added in one. */
  lemma AddsUp(day: int, a: nat, b: nat)
    ensures DayAfter(DayAfter(day, a), b) == DayAfter(day, a + b)
  {
    hide Working, DayAfter;
    var mid := DayAfter(day, a);
    var then_ := DayAfter(mid, b);
    ExactlyN(day, a);
    ExactlyN(mid, b);
    NoneIsSame(mid);
    BetweenAdds(day, mid, then_);
    LeastDay(day, a + b, then_);
    if b > 0 {
      BetweenAdds(day, then_ - 1, then_);
      LeastDay(day, a + b, then_ - 1);
    }
  }

  lemma NoneIsSame(day: int)
    ensures DayAfter(day, 0) == day
  {
  }

  /** A later start never ends sooner. */
  lemma {:induction false} LaterEndsLater(day: int, day': int, n: nat)
    requires day <= day'
    ensures DayAfter(day, n) <= DayAfter(day', n)
  {
    var then_ := DayAfter(day', n);
    ExactlyN(day', n);
    BetweenAdds(day, day', then_);
    LeastDay(day, n, then_);
  }

  lemma WeekShifts(day: int)
    ensures WorkingBetween(day, day + 7) == WorkingBetween(day + 1, day + 8)
  {
    BetweenAdds(day, day + 1, day + 8);
    BetweenAdds(day, day + 7, day + 8);
    assert WorkingBetween(day, day) == 0 == WorkingBetween(day + 7, day + 7);
    assert (day + 1) % 7 == (day + 8) % 7;
  }

  /** Any seven days in a row hold five working days. */
  lemma {:induction false} FiveInAWeek(day: int)
    ensures WorkingBetween(day, day + 7) == 5
    decreases if day < 0 then -day else day
  {
    if day > 0 {
      FiveInAWeek(day - 1);
      WeekShifts(day - 1);
    } else if day < 0 {
      FiveInAWeek(day + 1);
      WeekShifts(day);
    } else {
      assert WorkingBetween(0, 3) == 3;
      assert WorkingBetween(0, 6) == 4;
    }
  }

  /** Five working days from a working day are a week on, whatever the day. */
  lemma FiveAreAWeek(day: int)
    requires Working(day)
    ensures DayAfter(day, 5) == day + 7
  {
    FiveInAWeek(day);
    LeastDay(day, 5, day + 7);
    LeastDay(day, 5, day + 6);
    assert (day + 7) % 7 == day % 7;
  }

  lemma {:induction false} WeeksOfFive(day: int, k: nat)
    requires Working(day)
    ensures DayAfter(day, 5 * k) == day + 7 * k
  {
    if k > 0 {
      WeeksOfFive(day, k - 1);
      AddsUp(day, 5 * (k - 1), 5);
      WeeksOnWorks(day, k - 1);
      FiveAreAWeek(day + 7 * (k - 1));
    }
  }

  lemma WeeksOnWorks(day: int, k: nat)
    ensures Working(day + 7 * k) <==> Working(day)
  {
    assert (day + 7 * k) % 7 == day % 7;
  }

  // ----- The chase -----

  predicate NotAfter(a: Time, b: Time) {
    a.day < b.day || (a.day == b.day && a.clock <= b.clock)
  }

  /** When a bead waiting since `since`, last changed at `updated`, is due a chase: none when neither is known. */
  method AskChaseAt(since: Option<Time>, updated: Option<Time>) returns (at: Option<Time>)
    ensures at == ChaseAt(since, updated)
  {
    var last := since;
    if updated.Some? && (last.None? || !NotAfter(updated.value, last.value)) {
      last := updated;
    }
    if last.None? {
      return None;
    }
    var then_ := AddWorkingDays(last.value, CHASE_AFTER);
    return Some(then_);
  }

  /** The later of the two times, of those known. */
  function LastOf(since: Option<Time>, updated: Option<Time>): Option<Time> {
    if since.None? || (updated.Some? && NotAfter(since.value, updated.value)) then updated else since
  }

  function ChaseAt(since: Option<Time>, updated: Option<Time>): Option<Time> {
    var last := LastOf(since, updated);
    if last.None? then None else Some(Time(DayAfter(last.value.day, CHASE_AFTER), last.value.clock))
  }

  /** Later starts end on a later day exactly when a working day lies between them. */
  lemma LaterDay(day: int, day': int, n: nat)
    requires day <= day' && n > 0
    ensures DayAfter(day, n) < DayAfter(day', n) <==> WorkingBetween(day, day') > 0
  {
    var then_ := DayAfter(day', n);
    ExactlyN(day', n);
    BetweenAdds(day, day', then_);
    BetweenAdds(day, day', then_ - 1);
    LeastDay(day, n, then_);
    LeastDay(day, n, then_ - 1);
  }

  /** A bead that moves is chased no sooner for it, exactly when a working day has passed between the times its chase
      is counted from or the second is no earlier in its day: moved on a Friday evening and again on a Saturday
      morning, it is chased sooner. */
  lemma MovingPutsTheChaseOff(since: Option<Time>, updated: Time, updated': Time)
    requires NotAfter(updated, updated')
    ensures var last, last' := LastOf(since, Some(updated)).value, LastOf(since, Some(updated')).value;
            var before, after := ChaseAt(since, Some(updated)).value, ChaseAt(since, Some(updated')).value;
            && NotAfter(last, last')
            && (NotAfter(before, after) <==> WorkingBetween(last.day, last'.day) > 0 || last.clock <= last'.clock)
            && before.day <= after.day
  {
    var last, last' := LastOf(since, Some(updated)).value, LastOf(since, Some(updated')).value;
    LaterDay(last.day, last'.day, CHASE_AFTER);
    LaterEndsLater(last.day, last'.day, CHASE_AFTER);
  }

  lemma FridayThenSaturday()
    ensures var friday, saturday := Time(4, 18), Time(5, 9);
            && NotAfter(friday, saturday)
            && !NotAfter(ChaseAt(None, Some(friday)).value, ChaseAt(None, Some(saturday)).value)
  {
    MovingPutsTheChaseOff(None, Time(4, 18), Time(5, 9));
    assert WorkingBetween(4, 4) == 0;
  }

  /** A bead is never chased before three working days have gone by since both its wait began and it last changed. */
  lemma ChasedInItsTime(since: Option<Time>, updated: Option<Time>)
    requires since.Some? || updated.Some?
    ensures var at := ChaseAt(since, updated);
            && at.Some?
            && (since.Some? ==> WorkingBetween(since.value.day, at.value.day) >= CHASE_AFTER)
            && (updated.Some? ==> WorkingBetween(updated.value.day, at.value.day) >= CHASE_AFTER)
  {
    var last := LastOf(since, updated);
    if since.Some? {
      LaterEndsLater(since.value.day, last.value.day, CHASE_AFTER);
      LeastDay(since.value.day, CHASE_AFTER, DayAfter(last.value.day, CHASE_AFTER));
    }
    if updated.Some? {
      LaterEndsLater(updated.value.day, last.value.day, CHASE_AFTER);
      LeastDay(updated.value.day, CHASE_AFTER, DayAfter(last.value.day, CHASE_AFTER));
    }
  }
}
