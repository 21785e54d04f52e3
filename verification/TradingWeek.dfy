/**
 Trading-week boundaries from a weekly rhythm and an arbitrary holiday set.
 A day is its number since 1970-01-01, a Thursday.
 */
module TradingWeek {

  type Day = int

  /** 0 is Sunday, 6 is Saturday. */
  function DayOfWeek(d: Day): int
  {
    (d + 4) % 7
  }

  predicate IsTradingDay(holidays: set<Day>, d: Day)
  {
    DayOfWeek(d) != 0 && DayOfWeek(d) != 6 && d !in holidays
  }

  /** The Monday of the day's Monday-to-Sunday week. */
  function WeekKey(d: Day): Day
  {
    d - (DayOfWeek(d) + 6) % 7
  }

  /** The bounded scans: at most `steps` more days after the first candidate. */
  function ScanForward(holidays: set<Day>, cur: Day, steps: nat): Day
    decreases steps
  {
    if steps == 0 || IsTradingDay(holidays, cur) then cur else ScanForward(holidays, cur + 1, steps - 1)
  }

  function ScanBack(holidays: set<Day>, cur: Day, steps: nat): Day
    decreases steps
  {
    if steps == 0 || IsTradingDay(holidays, cur) then cur else ScanBack(holidays, cur - 1, steps - 1)
  }

  predicate IsWeekCloseSession(holidays: set<Day>, d: Day)
  {
    IsTradingDay(holidays, d) && WeekKey(ScanForward(holidays, d + 1, 10)) != WeekKey(d)
  }

  predicate IsWeekOpenSession(holidays: set<Day>, d: Day)
  {
    IsTradingDay(holidays, d) && WeekKey(ScanBack(holidays, d - 1, 10)) != WeekKey(d)
  }

  class TradingCalendar {
    const holidays: set<Day>

    constructor (holidays: set<Day>)
      ensures this.holidays == holidays
    {
      this.holidays := holidays;
    }

    method NextTradingDay(d: Day) returns (cur: Day)
      ensures cur == ScanForward(holidays, d + 1, 10)
    {
      cur := d + 1;
      var i := 0;
      while i < 10 && !IsTradingDay(holidays, cur)
        invariant 0 <= i <= 10
        invariant ScanForward(holidays, cur, 10 - i) == ScanForward(holidays, d + 1, 10)
      {
        cur := cur + 1;
        i := i + 1;
      }
    }

    method PrevTradingDay(d: Day) returns (cur: Day)
      ensures cur == ScanBack(holidays, d - 1, 10)
    {
      cur := d - 1;
      var i := 0;
      while i < 10 && !IsTradingDay(holidays, cur)
        invariant 0 <= i <= 10
        invariant ScanBack(holidays, cur, 10 - i) == ScanBack(holidays, d - 1, 10)
      {
        cur := cur - 1;
        i := i + 1;
      }
    }

    method IsWeekClose(d: Day) returns (b: bool)
      ensures b == IsWeekCloseSession(holidays, d)
      ensures b <==> IsTradingDay(holidays, d) && forall e :: InRestOfWeek(d, e) ==> !IsTradingDay(holidays, e)
    {
      LastOfWeek(holidays, d);
      if !IsTradingDay(holidays, d) {
        return false;
      }
      var next := NextTradingDay(d);
      b := WeekKey(next) != WeekKey(d);
    }

    method IsWeekOpen(d: Day) returns (b: bool)
      ensures b == IsWeekOpenSession(holidays, d)
      ensures b <==> IsTradingDay(holidays, d) && forall e :: InStartOfWeek(d, e) ==> !IsTradingDay(holidays, e)
    {
      FirstOfWeek(holidays, d);
      if !IsTradingDay(holidays, d) {
        return false;
      }
      var prev := PrevTradingDay(d);
      b := WeekKey(prev) != WeekKey(d);
    }
  }

  // ---- Weeks -----------------------------------------------------------------------

  predicate InRestOfWeek(d: Day, e: Day)
  {
    d < e && WeekKey(e) == WeekKey(d)
  }

  predicate InStartOfWeek(d: Day, e: Day)
  {
    e < d && WeekKey(e) == WeekKey(d)
  }

  /** A week is the seven days from its Monday. */
  lemma WeekSpan(d: Day, e: Day)
    ensures WeekKey(d) <= d < WeekKey(d) + 7 && DayOfWeek(WeekKey(d)) == 1
    ensures WeekKey(d) == WeekKey(e) <==> WeekKey(d) <= e < WeekKey(d) + 7
  {
  }

  /** The first trading day at or after `cur`, when the scan meets one. */
  lemma {:induction false} ScanForwardFirst(holidays: set<Day>, cur: Day, steps: nat)
    ensures var n := ScanForward(holidays, cur, steps);
      cur <= n <= cur + steps &&
      (forall e :: cur <= e < n ==> !IsTradingDay(holidays, e)) &&
      (IsTradingDay(holidays, n) || n == cur + steps)
    decreases steps
  {
    if steps != 0 && !IsTradingDay(holidays, cur) {
      ScanForwardFirst(holidays, cur + 1, steps - 1);
    }
  }

  lemma {:induction false} ScanBackFirst(holidays: set<Day>, cur: Day, steps: nat)
    ensures var n := ScanBack(holidays, cur, steps);
      cur - steps <= n <= cur &&
      (forall e :: n < e <= cur ==> !IsTradingDay(holidays, e)) &&
      (IsTradingDay(holidays, n) || n == cur - steps)
    decreases steps
  {
    if steps != 0 && !IsTradingDay(holidays, cur) {
      ScanBackFirst(holidays, cur - 1, steps - 1);
    }
  }

  /**
   A week-close session is exactly the last trading day of its week, whatever the
   holidays: a scan that gives up after ten steps has left the week anyway.
   */
  lemma LastOfWeek(holidays: set<Day>, d: Day)
    ensures IsWeekCloseSession(holidays, d)
      <==> IsTradingDay(holidays, d) && forall e :: InRestOfWeek(d, e) ==> !IsTradingDay(holidays, e)
  {
    var n := ScanForward(holidays, d + 1, 10);
    ScanForwardFirst(holidays, d + 1, 10);
    WeekSpan(d, n);
    forall e | InRestOfWeek(d, e) && IsTradingDay(holidays, e)
      ensures InRestOfWeek(d, n)
    {
      WeekSpan(d, e);
    }
  }

  lemma FirstOfWeek(holidays: set<Day>, d: Day)
    ensures IsWeekOpenSession(holidays, d)
      <==> IsTradingDay(holidays, d) && forall e :: InStartOfWeek(d, e) ==> !IsTradingDay(holidays, e)
  {
    var n := ScanBack(holidays, d - 1, 10);
    ScanBackFirst(holidays, d - 1, 10);
    WeekSpan(d, n);
    forall e | InStartOfWeek(d, e) && IsTradingDay(holidays, e)
      ensures InStartOfWeek(d, n)
    {
      WeekSpan(d, e);
    }
  }

  /** From any trading day one walks on to a week-close session of the same week. */
  lemma {:induction false} SomeClose(holidays: set<Day>, d: Day) returns (c: Day)
    requires IsTradingDay(holidays, d)
    ensures WeekKey(c) == WeekKey(d) && IsWeekCloseSession(holidays, c)
    decreases WeekKey(d) + 7 - d
  {
    LastOfWeek(holidays, d);
    WeekSpan(d, d);
    if IsWeekCloseSession(holidays, d) {
      c := d;
    } else {
      var e :| InRestOfWeek(d, e) && IsTradingDay(holidays, e);
      WeekSpan(d, e);
      c := SomeClose(holidays, e);
    }
  }

  lemma {:induction false} SomeOpen(holidays: set<Day>, d: Day) returns (o: Day)
    requires IsTradingDay(holidays, d)
    ensures WeekKey(o) == WeekKey(d) && IsWeekOpenSession(holidays, o)
    decreases d - WeekKey(d)
  {
    FirstOfWeek(holidays, d);
    WeekSpan(d, d);
    if IsWeekOpenSession(holidays, d) {
      o := d;
    } else {
      var e :| InStartOfWeek(d, e) && IsTradingDay(holidays, e);
      WeekSpan(d, e);
      o := SomeOpen(holidays, e);
    }
  }

  /** Every week with a trading day has exactly one week-close and one week-open session, in order. */
  lemma OneCloseOneOpen(holidays: set<Day>, d: Day) returns (o: Day, c: Day)
    requires IsTradingDay(holidays, d)
    ensures o <= d <= c && WeekKey(o) == WeekKey(d) == WeekKey(c)
    ensures forall e :: WeekKey(e) == WeekKey(d) ==> (IsWeekCloseSession(holidays, e) <==> e == c)
    ensures forall e :: WeekKey(e) == WeekKey(d) ==> (IsWeekOpenSession(holidays, e) <==> e == o)
  {
    c := SomeClose(holidays, d);
    o := SomeOpen(holidays, d);
    LastOfWeek(holidays, c);
    FirstOfWeek(holidays, o);
    assert !InRestOfWeek(c, d) && !InStartOfWeek(o, d);
    forall e | WeekKey(e) == WeekKey(d)
      ensures IsWeekCloseSession(holidays, e) <==> e == c
      ensures IsWeekOpenSession(holidays, e) <==> e == o
    {
      LastOfWeek(holidays, e);
      FirstOfWeek(holidays, e);
      assert !InRestOfWeek(c, e) || !IsTradingDay(holidays, e);
      assert e < c ==> InRestOfWeek(e, c);
      assert !InStartOfWeek(o, e) || !IsTradingDay(holidays, e);
      assert o < e ==> InStartOfWeek(e, o);
    }
  }

  // ---- The civil week --------------------------------------------------------------------------------

  /** Days of the week come round in order, and 1970-01-01 was a Thursday, 2000-01-01 a Saturday. */
  lemma CivilWeek(d: Day)
    ensures 0 <= DayOfWeek(d) < 7 && DayOfWeek(d + 1) == (if DayOfWeek(d) == 6 then 0 else DayOfWeek(d) + 1)
    ensures DayOfWeek(0) == 4 && DayOfWeek(10957) == 6
  {
  }

  /** A trading day is one of the five from its week's Monday, and no holiday. */
  lemma TradingDayExactly(holidays: set<Day>, d: Day)
    ensures IsTradingDay(holidays, d) <==> d - WeekKey(d) <= 4 && d !in holidays
  {
  }

  /** The next trading day is the first one after, if there is one within eleven days; and so before. */
  lemma NextAndPrevious(holidays: set<Day>, d: Day, e: Day)
    requires IsTradingDay(holidays, e)
    ensures d < e <= d + 11 ==>
      var n := ScanForward(holidays, d + 1, 10);
      d < n <= e && IsTradingDay(holidays, n) && forall f :: d < f < n ==> !IsTradingDay(holidays, f)
    ensures d - 11 <= e < d ==>
      var n := ScanBack(holidays, d - 1, 10);
      e <= n < d && IsTradingDay(holidays, n) && forall f :: n < f < d ==> !IsTradingDay(holidays, f)
  {
    ScanForwardFirst(holidays, d + 1, 10);
    ScanBackFirst(holidays, d - 1, 10);
  }
}
