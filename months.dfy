/*
 * The private `Month` enumeration of SimpleDate and the two computations
 * built on it: the number of days in one month, and the number of days in
 * all the months before a given one.
 */
module Months {

  datatype Option<T> = None | Some(value: T)

  /** The twelve months; the raw value of January is 1, of December 12. */
  datatype Month =
    | January | February | March | April | May | June
    | July | August | September | October | November | December

  /** The raw value of a month, 1 for January through 12 for December. */
  function RawValue(m: Month): (r: int)
    ensures 1 <= r <= 12
  {
    match m
    case January => 1
    case February => 2
    case March => 3
    case April => 4
    case May => 5
    case June => 6
    case July => 7
    case August => 8
    case September => 9
    case October => 10
    case November => 11
    case December => 12
  }

  /** The failable initialiser `Month(rawValue:)`: no month for a raw value outside 1...12. */
  function FromRawValue(raw: int): (r: Option<Month>)
    ensures r.Some? <==> 1 <= raw <= 12
    ensures r.Some? ==> RawValue(r.value) == raw
  {
    if raw == 1 then Some(January)
    else if raw == 2 then Some(February)
    else if raw == 3 then Some(March)
    else if raw == 4 then Some(April)
    else if raw == 5 then Some(May)
    else if raw == 6 then Some(June)
    else if raw == 7 then Some(July)
    else if raw == 8 then Some(August)
    else if raw == 9 then Some(September)
    else if raw == 10 then Some(October)
    else if raw == 11 then Some(November)
    else if raw == 12 then Some(December)
    else None
  }

  /**
   * The "knuckle rule", an independent description of the month lengths:
   * counting January to July and then August to December over the
   * knuckles of one hand, a month that lands on a knuckle has 31 days and
   * one that lands between two knuckles has 30 (February aside).
   */
  function KnuckleRule(raw: int): (days: int)
  {
    if raw <= 7 then (if raw % 2 == 1 then 31 else 30)
    else (if raw % 2 == 0 then 31 else 30)
  }

  /**
   * `Month.monthOffset(isLeapYear:)`: despite its name, the number of days
   * in the month.
   */
  function MonthOffset(m: Month, isLeapYear: bool): (r: int)
    ensures m == February ==> r == if isLeapYear then 29 else 28
    ensures m != February ==> r == KnuckleRule(RawValue(m))
    ensures 28 <= r <= 31
  {
    match m
    case January | March | May | July | August | October | December => 31
    case February => if isLeapYear then 29 else 28
    case _ => 30
  }

  /** The number of days of the month with raw value `monthIndex`. */
  function DaysInMonth(monthIndex: int, isLeapYear: bool): (days: int)
    requires 1 <= monthIndex <= 12
  {
    MonthOffset(FromRawValue(monthIndex).value, isLeapYear)
  }

  /**
   * The specification of `getMonthsOffset`: the sum of the lengths of
   * months 1 ..< monthIndex. The value for 13 is the length of the year.
   */
  function MonthsOffset(monthIndex: int, isLeapYear: bool): (r: int)
    requires 1 <= monthIndex <= 13
    ensures 28 * (monthIndex - 1) <= r <= 31 * (monthIndex - 1)
    decreases monthIndex
  {
    if monthIndex == 1 then 0
    else MonthsOffset(monthIndex - 1, isLeapYear) + DaysInMonth(monthIndex - 1, isLeapYear)
  }

  /**
   * `getMonthsOffset(monthIndex:isLeapYear:)`: accumulates the month
   * lengths over `1 ..< monthIndex`. Below 1 the range traps, and above 13
   * the force-unwrapped `Month(rawValue:)` does, so those are excluded.
   */
  method GetMonthsOffset(monthIndex: int, isLeapYear: bool) returns (offset: int)
    requires 1 <= monthIndex <= 13
    ensures offset == MonthsOffset(monthIndex, isLeapYear)
  {
    offset := 0;
    for index := 1 to monthIndex
      invariant offset == MonthsOffset(index, isLeapYear)
    {
      var month := FromRawValue(index);
      offset := offset + MonthOffset(month.value, isLeapYear);
    }
  }

  /** The offsets of January and December and the length of the year. */
  lemma MonthsOffsetLandmarks(isLeapYear: bool)
    ensures MonthsOffset(1, isLeapYear) == 0
    ensures MonthsOffset(2, isLeapYear) == 31
    ensures MonthsOffset(3, isLeapYear) == if isLeapYear then 60 else 59
    ensures MonthsOffset(12, isLeapYear) == if isLeapYear then 335 else 334
    ensures MonthsOffset(13, isLeapYear) == if isLeapYear then 366 else 365
  {
    var leap := if isLeapYear then 1 else 0;
    assert MonthsOffset(3, isLeapYear) == 59 + leap;
    assert MonthsOffset(4, isLeapYear) == 90 + leap;
    assert MonthsOffset(5, isLeapYear) == 120 + leap;
    assert MonthsOffset(6, isLeapYear) == 151 + leap;
    assert MonthsOffset(7, isLeapYear) == 181 + leap;
    assert MonthsOffset(8, isLeapYear) == 212 + leap;
    assert MonthsOffset(9, isLeapYear) == 243 + leap;
    assert MonthsOffset(10, isLeapYear) == 273 + leap;
    assert MonthsOffset(11, isLeapYear) == 304 + leap;
    assert MonthsOffset(12, isLeapYear) == 334 + leap;
  }

  /** The leap flag adds exactly one day to the offset of every month after February. */
  lemma {:induction false} LeapDayShiftsLaterMonths(monthIndex: int)
    requires 1 <= monthIndex <= 13
    ensures MonthsOffset(monthIndex, true)
         == MonthsOffset(monthIndex, false) + (if monthIndex >= 3 then 1 else 0)
  {
    if monthIndex > 1 {
      LeapDayShiftsLaterMonths(monthIndex - 1);
    }
  }

  /**
   * A month ends no later than any later month's offset: the last day of
   * month `early` comes before the first day of month `late`.
   */
  lemma {:induction false} MonthEndsBeforeLaterMonth(early: int, late: int, isLeapYear: bool)
    requires 1 <= early < late <= 13
    ensures MonthsOffset(early, isLeapYear) + DaysInMonth(early, isLeapYear)
         <= MonthsOffset(late, isLeapYear)
  {
    if late > early + 1 {
      MonthEndsBeforeLaterMonth(early, late - 1, isLeapYear);
    }
  }
}
