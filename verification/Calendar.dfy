// Billing periods on the proleptic Gregorian calendar. Months are numbered
// consecutively (month 0 is January of year 0), days likewise, and instants
// are seconds from the start of day 0. All three may be negative.
module Calendar {

  const DAY := 86_400

  predicate Leap(year: int) {
    year % 4 == 0 && (year % 100 != 0 || year % 400 == 0)
  }

  function DaysIn(month: int): (days: int)
    ensures 28 <= days <= 31
  {
    var m := month % 12;
    if m == 1 then (if Leap(month / 12) then 29 else 28)
    else if m == 3 || m == 5 || m == 8 || m == 10 then 30
    else 31
  }

  // The day number of the first of a month.
  function FirstOf(month: int): int
    decreases if month >= 0 then month else -month
  {
    if month == 0 then 0
    else if month > 0 then FirstOf(month - 1) + DaysIn(month - 1)
    else FirstOf(month + 1) - DaysIn(month)
  }

  lemma NextMonth(month: int)
    ensures FirstOf(month + 1) == FirstOf(month) + DaysIn(month)
  {
  }

  lemma {:induction false} MonthsAscend(a: int, b: int)
    requires a < b
    ensures FirstOf(a) + DaysIn(a) <= FirstOf(b)
    decreases b - a
  {
    NextMonth(a);
    if a + 1 < b {
      MonthsAscend(a + 1, b);
    }
  }

  // The month that contains a day, searched from a month before or after it.
  function MonthFrom(day: int, month: int): (m: int)
    ensures FirstOf(m) <= day < FirstOf(m) + DaysIn(m)
    decreases if day < FirstOf(month) then FirstOf(month) - day else day - FirstOf(month)
  {
    NextMonth(month);
    NextMonth(month - 1);
    if day < FirstOf(month) then MonthBack(day, month - 1)
    else if day < FirstOf(month) + DaysIn(month) then month
    else MonthFrom(day, month + 1)
  }

  function MonthBack(day: int, month: int): (m: int)
    requires day < FirstOf(month) + DaysIn(month)
    ensures FirstOf(m) <= day < FirstOf(m) + DaysIn(m)
    decreases FirstOf(month) + DaysIn(month) - day
  {
    NextMonth(month - 1);
    if FirstOf(month) <= day then month else MonthBack(day, month - 1)
  }

  function MonthOf(day: int): (m: int)
    ensures FirstOf(m) <= day < FirstOf(m) + DaysIn(m)
  {
    MonthFrom(day, 0)
  }

  function NormalizeResetDay(day: int): int {
    if day < 1 then 1 else if day > 31 then 31 else day
  }

  // The reset date of a month: the reset day, or the first of the next month
  // when the month is too short for it.
  function ActualReset(month: int, resetDay: int): int {
    if resetDay <= DaysIn(month) then FirstOf(month) + resetDay - 1 else FirstOf(month + 1)
  }

  // The date on which the current billing period started.
  function LastReset(resetDay: int, now: int): int {
    var day := NormalizeResetDay(resetDay);
    var month := MonthOf(now / DAY);
    var thisMonth := ActualReset(month, day);
    if !(now < thisMonth * DAY) then thisMonth else ActualReset(month - 1, day)
  }

  // ------------------------------------------------------------- properties

  lemma ResetsIncrease(month: int, resetDay: int)
    requires 1 <= resetDay <= 31
    ensures ActualReset(month, resetDay) < ActualReset(month + 1, resetDay)
    ensures FirstOf(month) <= ActualReset(month, resetDay) <= FirstOf(month + 1)
  {
    NextMonth(month);
    NextMonth(month + 1);
  }

  lemma {:induction false} ResetsAscend(a: int, b: int, resetDay: int)
    requires 1 <= resetDay <= 31 && a < b
    ensures ActualReset(a, resetDay) < ActualReset(b, resetDay)
    decreases b - a
  {
    ResetsIncrease(a, resetDay);
    if a + 1 < b {
      ResetsAscend(a + 1, b, resetDay);
    }
  }

  lemma LaterResets(month: int, later: int, resetDay: int)
    requires 1 <= resetDay <= 31 && month < later
    ensures FirstOf(month + 1) <= ActualReset(later, resetDay)
  {
    ResetsIncrease(later, resetDay);
    if month + 1 < later {
      MonthsAscend(month + 1, later);
    }
  }

  ghost predicate IsReset(date: int, resetDay: int) {
    exists month :: date == ActualReset(month, NormalizeResetDay(resetDay))
  }

  // The period starts on the greatest reset date that is not after now.
  lemma LastResetIsGreatest(resetDay: int, now: int)
    ensures IsReset(LastReset(resetDay, now), resetDay)
    ensures LastReset(resetDay, now) * DAY <= now
    ensures forall date :: IsReset(date, resetDay) && date * DAY <= now ==> date <= LastReset(resetDay, now)
  {
    var day := NormalizeResetDay(resetDay);
    var today := now / DAY;
    var month := MonthOf(today);
    var last := LastReset(resetDay, now);
    ResetsIncrease(month - 1, day);
    ResetsIncrease(month, day);
    assert last == ActualReset(month, day) || last == ActualReset(month - 1, day);
    forall date | IsReset(date, resetDay) && date * DAY <= now
      ensures date <= last
    {
      var k :| date == ActualReset(k, day);
      var lastMonth := if now < ActualReset(month, day) * DAY then month - 1 else month;
      assert k <= month by {
        if k > month {
          LaterResets(month, k, day);
        }
      }
      if k < lastMonth {
        ResetsAscend(k, lastMonth, day);
      }
    }
  }

  // Two instants belong to the same period iff no reset date lies between them.
  lemma SamePeriodIffNoReset(resetDay: int, earlier: int, later: int)
    requires earlier <= later
    ensures LastReset(resetDay, earlier) == LastReset(resetDay, later)
       <==> !exists date :: IsReset(date, resetDay) && earlier < date * DAY <= later
  {
    LastResetIsGreatest(resetDay, earlier);
    LastResetIsGreatest(resetDay, later);
    var a, b := LastReset(resetDay, earlier), LastReset(resetDay, later);
    if a != b {
      assert IsReset(b, resetDay) && earlier < b * DAY <= later;
    }
  }
}
