/** Stage 3 of the generator: the dates of the inclusive window whose weekday the user
    selected. A date is a day number counted from 1970-01-01, so stepping to the next
    calendar day adds one and the weekday is a function of the day number. */
module Calendar {
  import opened Types

  /** The weekday of a day number; day 0, 1970-01-01, was a Thursday. */
  function WeekdayOf(day: int): Weekday
  {
    match (day + 3) % 7
    case 0 => Monday
    case 1 => Tuesday
    case 2 => Wednesday
    case 3 => Thursday
    case 4 => Friday
    case 5 => Saturday
    case _ => Sunday
  }

  /** The weekday after `w`, Sunday wrapping round to Monday. */
  function NextWeekday(w: Weekday): Weekday
  {
    match w
    case Monday => Tuesday
    case Tuesday => Wednesday
    case Wednesday => Thursday
    case Thursday => Friday
    case Friday => Saturday
    case Saturday => Sunday
    case Sunday => Monday
  }

  /** Stepping the date by one day steps the weekday by one, so the weekdays repeat
      every seven days. */
  lemma WeekdayOfNextDay(day: int)
    ensures WeekdayOf(day + 1) == NextWeekday(WeekdayOf(day))
    ensures WeekdayOf(day + 7) == WeekdayOf(day)
  {
    var k := (day + 3) % 7;
    assert (day + 1 + 3) % 7 == if k == 6 then 0 else k + 1;
    assert (day + 7 + 3) % 7 == k;
  }

  /** The days from `first` to `last` inclusive whose weekday is in `days`, in calendar order. */
  function EligibleDates(first: int, last: int, days: seq<Weekday>): (r: seq<int>)
    ensures forall i :: 0 <= i < |r| ==> first <= r[i] <= last && WeekdayOf(r[i]) in days
    decreases last - first
  {
    if first > last then []
    else (if WeekdayOf(first) in days then [first] else []) + EligibleDates(first + 1, last, days)
  }

  /** The dates are strictly ascending, so no date appears twice. */
  lemma {:induction false} EligibleDatesAscending(first: int, last: int, days: seq<Weekday>)
    ensures forall i, j :: 0 <= i < j < |EligibleDates(first, last, days)| ==>
              EligibleDates(first, last, days)[i] < EligibleDates(first, last, days)[j]
    decreases last - first
  {
    if first <= last {
      EligibleDatesAscending(first + 1, last, days);
    }
  }

  /** Every selected weekday of the window is enumerated, and nothing else is. */
  lemma {:induction false} EligibleDatesExactly(first: int, last: int, days: seq<Weekday>, d: int)
    ensures d in EligibleDates(first, last, days) <==> first <= d <= last && WeekdayOf(d) in days
    decreases last - first
  {
    var r := EligibleDates(first, last, days);
    if d in r {
      var i :| 0 <= i < |r| && r[i] == d;
    }
    if first <= d <= last && WeekdayOf(d) in days {
      if d == first {
        assert r[0] == d;
      } else {
        EligibleDatesExactly(first + 1, last, days, d);
        var rest := EligibleDates(first + 1, last, days);
        var i :| 0 <= i < |rest| && rest[i] == d;
        assert r[|r| - |rest| + i] == d;
      }
    }
  }

  /** An empty window or an empty weekday selection enumerates no date. */
  lemma {:induction false} NoEligibleDates(first: int, last: int, days: seq<Weekday>)
    requires first > last || days == []
    ensures EligibleDates(first, last, days) == []
    decreases last - first
  {
    if first <= last {
      NoEligibleDates(first + 1, last, days);
    }
  }

  /** With every weekday selected, every day of a non-empty window is enumerated. */
  lemma {:induction false} EveryDayEligible(first: int, last: int, days: seq<Weekday>)
    requires first <= last + 1
    requires forall w: Weekday :: w in days
    ensures |EligibleDates(first, last, days)| == last - first + 1
    decreases last - first
  {
    if first <= last {
      EveryDayEligible(first + 1, last, days);
    }
  }

  /** The generator's date loop: step one day at a time from the start date to the end
      date and keep each date whose weekday is selected. */
  method CollectDates(first: int, last: int, days: seq<Weekday>) returns (dates: seq<int>)
    ensures dates == EligibleDates(first, last, days)
  {
    dates := [];
    var current := first;
    while current <= last
      invariant first <= current && (first <= last ==> current <= last + 1)
      invariant dates + EligibleDates(current, last, days) == EligibleDates(first, last, days)
      decreases last - current
    {
      if WeekdayOf(current) in days {
        assert dates + EligibleDates(current, last, days)
            == (dates + [current]) + EligibleDates(current + 1, last, days);
        dates := dates + [current];
      }
      current := current + 1;
    }
    assert EligibleDates(current, last, days) == [];
  }
}
