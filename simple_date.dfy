/*
 * SimpleDate: a calendar day with the year removed. It keeps the 1-based
 * ordinal of the day within its year (`dayNumber`), the month, the day of
 * the month and whether the year it came from had 366 days. Values never
 * change after construction, so the struct is a datatype here.
 */
module SimpleDates {
  import opened Months

  /**
   * The four stored fields. The source keeps month and day together in a
   * tuple `monthAndDay`; here they are two fields.
   */
  datatype SimpleDate = SimpleDate(dayNumber: int, month: int, day: int, isLeapYear: bool)

  /**
   * A half-open range `lowerBound..<upperBound`, the form in which the
   * platform calendar reports the range of one component's values.
   */
  datatype DayRange = DayRange(lowerBound: int, upperBound: int)

  /** The integers a half-open range holds, collected from the top down. */
  ghost function Values(range: DayRange): (values: set<int>)
    ensures forall i :: i in values <==> range.lowerBound <= i < range.upperBound
    decreases range.upperBound - range.lowerBound
  {
    if range.lowerBound >= range.upperBound then {}
    else Values(DayRange(range.lowerBound, range.upperBound - 1)) + {range.upperBound - 1}
  }

  /** A range `lowerBound..<upperBound` holds `upperBound - lowerBound` integers. */
  lemma {:induction false} ValuesSize(range: DayRange)
    requires range.lowerBound <= range.upperBound
    ensures |Values(range)| == range.upperBound - range.lowerBound
    decreases range.upperBound - range.lowerBound
  {
    if range.lowerBound < range.upperBound {
      var shorter := DayRange(range.lowerBound, range.upperBound - 1);
      ValuesSize(shorter);
      assert range.upperBound - 1 !in Values(shorter);
    }
  }

  /** `Range.count`: the number of values in the range. */
  function Count(range: DayRange): (n: int)
    requires range.lowerBound <= range.upperBound
    ensures n == |Values(range)|
  {
    ValuesSize(range);
    range.upperBound - range.lowerBound
  }

  /** The range of day-of-year values of a year with `length` days: `1..<length + 1`. */
  function DaysOfYear(length: nat): (range: DayRange)
    ensures range.lowerBound == 1 && range.lowerBound <= range.upperBound
    ensures Count(range) == length
  {
    DayRange(1, length + 1)
  }

  /**
   * What the platform calendar reports for a `Date`: its month, its day of
   * the month, and the range of day-of-year values of its year.
   */
  datatype DateParts = DateParts(month: int, day: int, daysOfYear: DayRange)

  /**
   * A value the initialisers build from a real day: month and day in range
   * and the ordinal equal to the day plus the lengths of the earlier months.
   * A decoded value need not be valid, since decoding trusts its fields.
   */
  predicate Valid(d: SimpleDate)
  {
    && 1 <= d.month <= 12
    && 1 <= d.day <= DaysInMonth(d.month, d.isLeapYear)
    && d.dayNumber == d.day + MonthsOffset(d.month, d.isLeapYear)
  }

  // ---------------------------------------------------------------------
  // Initialisers
  // ---------------------------------------------------------------------

  /**
   * The value `init(monthIndex:dayIndex:isLeapYear:)` builds: the month
   * clamped to 1...12, then the day clamped to the length of that month,
   * and the ordinal computed from the clamped pair. It never fails.
   */
  function FromMonthAndDay(monthIndex: int, dayIndex: int, isLeapYear: bool): (d: SimpleDate)
    ensures Valid(d) && d.isLeapYear == isLeapYear
    ensures 1 <= monthIndex <= 12 ==> d.month == monthIndex
    ensures monthIndex > 12 ==> d.month == 12
    ensures monthIndex < 1 ==> d.month == 1
    ensures 1 <= dayIndex <= DaysInMonth(d.month, isLeapYear) ==> d.day == dayIndex
    ensures dayIndex < 1 ==> d.day == 1
    ensures dayIndex > DaysInMonth(d.month, isLeapYear) ==> d.day == DaysInMonth(d.month, isLeapYear)
  {
    var month := if monthIndex > 12 then 12 else if monthIndex < 1 then 1 else monthIndex;
    var length := DaysInMonth(month, isLeapYear);
    var day := if dayIndex < 1 then 1 else if dayIndex > length then length else dayIndex;
    SimpleDate(day + MonthsOffset(month, isLeapYear), month, day, isLeapYear)
  }

  /**
   * `init(monthIndex:dayIndex:isLeapYear:)`: reassigns its copies of the
   * month and the day step by step, then sets the fields. The leap flag is
   * an explicit argument; its default (the current year) reads the clock.
   */
  method Init(monthIndex: int, dayIndex: int, isLeapYear: bool) returns (d: SimpleDate)
    ensures d == FromMonthAndDay(monthIndex, dayIndex, isLeapYear)
  {
    var month := monthIndex;
    var day := dayIndex;

    if month > 12 {
      month := 12;
    } else if month < 1 {
      month := 1;
    }

    if day < 1 {
      day := 1;
    } else {
      var numberOfDaysInMonth := MonthOffset(FromRawValue(month).value, isLeapYear);
      if day > numberOfDaysInMonth {
        day := numberOfDaysInMonth;
      }
    }

    var offset := GetMonthsOffset(month, isLeapYear);
    d := SimpleDate(day + offset, month, day, isLeapYear);
  }

  /**
   * The value `init(date:)` stores once the leap flag is decided: month and
   * day as the calendar gives them (no clamping) and the ordinal computed
   * from them. The calendar's month must lie in 1...13, where
   * `getMonthsOffset` does not trap; a Gregorian calendar gives 1...12.
   */
  function FromCalendarFacts(month: int, day: int, isLeapYear: bool): (d: SimpleDate)
    requires 1 <= month <= 13
    ensures d.month == month && d.day == day && d.isLeapYear == isLeapYear
    ensures month <= 12 && 1 <= day <= DaysInMonth(month, isLeapYear) ==>
              Valid(d) && d == FromMonthAndDay(month, day, isLeapYear)
    ensures month == 13 ==> d.dayNumber == day + (if isLeapYear then 366 else 365)
  {
    MonthsOffsetLandmarks(isLeapYear);
    SimpleDate(day + MonthsOffset(month, isLeapYear), month, day, isLeapYear)
  }

  /** The leap test of `init(date:)`: the upper bound of the year's day range is 366. */
  predicate LeapFlagAsWritten(daysOfYear: DayRange)
  {
    daysOfYear.upperBound == 366
  }

  /** The leap test of the default argument of the month-and-day initialiser: the year has 366 days. */
  predicate LeapFlag(daysOfYear: DayRange)
    requires daysOfYear.lowerBound <= daysOfYear.upperBound
  {
    Count(daysOfYear) == 366
  }

  /** The value `init(date:)` stores, with its leap test as written. */
  function FromDatePartsAsWritten(parts: DateParts): (d: SimpleDate)
    requires 1 <= parts.month <= 13
  {
    FromCalendarFacts(parts.month, parts.day, LeapFlagAsWritten(parts.daysOfYear))
  }

  /** The value `init(date:)` is meant to store: the leap flag set for a 366-day year. */
  function FromDateParts(parts: DateParts): (d: SimpleDate)
    requires 1 <= parts.month <= 13
    requires parts.daysOfYear.lowerBound <= parts.daysOfYear.upperBound
  {
    FromCalendarFacts(parts.month, parts.day, LeapFlag(parts.daysOfYear))
  }

  /**
   * `init(date:)` with the calendar lookups replaced by their results. The
   * `!` unwraps the optional components, it does not range-check them; only
   * `getMonthsOffset` needs the month in 1...13.
   */
  method InitFromDate(parts: DateParts) returns (d: SimpleDate)
    requires 1 <= parts.month <= 13
    ensures d == FromDatePartsAsWritten(parts)
  {
    var isLeapYear := parts.daysOfYear.upperBound == 366;
    var offset := GetMonthsOffset(parts.month, isLeapYear);
    d := SimpleDate(parts.day + offset, parts.month, parts.day, isLeapYear);
  }

  // ---------------------------------------------------------------------
  // Comparable, Equatable and the two custom operators
  // ---------------------------------------------------------------------

  /** `<`: compares the ordinals only. */
  predicate Less(lhs: SimpleDate, rhs: SimpleDate)
  {
    lhs.dayNumber < rhs.dayNumber
  }

  /** Comparable's default `<=`, derived from `<`. */
  predicate LessOrEqual(lhs: SimpleDate, rhs: SimpleDate)
  {
    !Less(rhs, lhs)
  }

  /** `==`: compares month and day only, ignoring the ordinal and the leap flag. */
  predicate Equal(lhs: SimpleDate, rhs: SimpleDate)
  {
    lhs.month == rhs.month && lhs.day == rhs.day
  }

  /** `+`: the sum of the two ordinals. */
  function Sum(lhs: SimpleDate, rhs: SimpleDate): (r: int)
  {
    lhs.dayNumber + rhs.dayNumber
  }

  /** `-`: the distance between the two ordinals. */
  function Difference(lhs: SimpleDate, rhs: SimpleDate): (r: int)
    ensures r >= 0
    ensures r == 0 <==> lhs.dayNumber == rhs.dayNumber
    ensures r == lhs.dayNumber - rhs.dayNumber || r == rhs.dayNumber - lhs.dayNumber
  {
    if lhs.dayNumber >= rhs.dayNumber then lhs.dayNumber - rhs.dayNumber
    else rhs.dayNumber - lhs.dayNumber
  }

  /** `lower...upper`, which traps unless `lower <= upper`. */
  datatype ClosedRange = ClosedRange(lower: SimpleDate, upper: SimpleDate)

  function Through(lower: SimpleDate, upper: SimpleDate): (range: ClosedRange)
    requires LessOrEqual(lower, upper)
  {
    ClosedRange(lower, upper)
  }

  /** `ClosedRange.contains`: both bounds inclusive, through the derived `<=`. */
  predicate Contains(range: ClosedRange, x: SimpleDate)
  {
    LessOrEqual(range.lower, x) && LessOrEqual(x, range.upper)
  }

  // ---------------------------------------------------------------------
  // Public functions
  // ---------------------------------------------------------------------

  /** The canonical February 29, built afresh by every `isInReach` call. */
  function LeapDay(): (d: SimpleDate)
    ensures d.month == 2 && d.day == 29 && d.isLeapYear
  {
    FromMonthAndDay(2, 29, true)
  }

  /**
   * `isInReach(with:by:)`: the distance of the ordinals is at most the
   * offset, plus one day of slack when the receiver is a leap-year value
   * and the canonical February 29 lies in the closed range between the two
   * values. The other value's leap flag is not consulted.
   */
  predicate IsInReach(self: SimpleDate, anotherDate: SimpleDate, offset: int)
  {
    var range := if LessOrEqual(self, anotherDate) then Through(self, anotherDate)
                 else Through(anotherDate, self);
    var removablePointFrom29thOfFebruary :=
      if self.isLeapYear && Contains(range, LeapDay()) then 1 else 0;
    Difference(self, anotherDate) <= offset + removablePointFrom29thOfFebruary
  }

  /** `isSameMonth(as:)`. */
  predicate IsSameMonth(self: SimpleDate, anotherDate: SimpleDate)
  {
    self.month == anotherDate.month
  }

  // ---------------------------------------------------------------------
  // Properties of the initialisers
  // ---------------------------------------------------------------------

  /** Every valid value has an ordinal in 1...365, or 1...366 in a leap year. */
  lemma DayNumberRange(d: SimpleDate)
    requires Valid(d)
    ensures 1 <= d.dayNumber <= if d.isLeapYear then 366 else 365
  {
    MonthEndsBeforeLaterMonth(d.month, 13, d.isLeapYear);
    MonthsOffsetLandmarks(d.isLeapYear);
  }

  /** January 1 is day 1 and December 31 is day 365, or 366 in a leap year. */
  lemma FirstAndLastDayOfYear(isLeapYear: bool)
    ensures FromMonthAndDay(1, 1, isLeapYear).dayNumber == 1
    ensures FromMonthAndDay(12, 31, isLeapYear).dayNumber == if isLeapYear then 366 else 365
  {
    MonthsOffsetLandmarks(isLeapYear);
  }

  /** The initialiser leaves a valid value's month and day unchanged. */
  lemma FromMonthAndDayKeepsValid(d: SimpleDate)
    requires Valid(d)
    ensures FromMonthAndDay(d.month, d.day, d.isLeapYear) == d
  {
  }

  /**
   * As written, `init(date:)` inverts the leap flag: the day range of a
   * 366-day year is `1..<367`, so its upper bound is 366 only for a 365-day
   * year. December 31 of a leap year then gets ordinal 365, December 31 of
   * a common year 366, and February 29 becomes a value that is not valid.
   */
  lemma LeapFlagInvertedAsWritten()
    ensures !LeapFlagAsWritten(DaysOfYear(366)) && LeapFlagAsWritten(DaysOfYear(365))
    ensures FromDatePartsAsWritten(DateParts(12, 31, DaysOfYear(366))).dayNumber == 365
    ensures FromDatePartsAsWritten(DateParts(12, 31, DaysOfYear(365))).dayNumber == 366
    ensures !Valid(FromDatePartsAsWritten(DateParts(2, 29, DaysOfYear(366))))
  {
    MonthsOffsetLandmarks(false);
    MonthsOffsetLandmarks(true);
  }

  /**
   * With the year-length test, a real day of a year of 365 or 366 days
   * gets the leap flag exactly for 366 days, is what the month-and-day
   * initialiser builds, and has an ordinal within the year's length.
   */
  lemma FromDatePartsOfRealDay(parts: DateParts, length: nat)
    requires length == 365 || length == 366
    requires parts.daysOfYear == DaysOfYear(length)
    requires 1 <= parts.month <= 12 && 1 <= parts.day <= DaysInMonth(parts.month, length == 366)
    ensures FromDateParts(parts).isLeapYear <==> length == 366
    ensures FromDateParts(parts) == FromMonthAndDay(parts.month, parts.day, length == 366)
    ensures 1 <= FromDateParts(parts).dayNumber <= length
  {
    DayNumberRange(FromDateParts(parts));
  }

  /**
   * With the year-length test, January 1 is day 1 and December 31 is day
   * 366 of a leap year and day 365 of a common year: the ordinals the
   * repository's tests expect from `init(date:)`.
   */
  lemma FromDatePartsFirstAndLastDay(length: nat)
    requires length == 365 || length == 366
    ensures FromDateParts(DateParts(1, 1, DaysOfYear(length))).dayNumber == 1
    ensures FromDateParts(DateParts(12, 31, DaysOfYear(length))).dayNumber == length
  {
    var leap := length == 366;
    MonthsOffsetLandmarks(leap);
    FromDatePartsOfRealDay(DateParts(1, 1, DaysOfYear(length)), length);
    FromDatePartsOfRealDay(DateParts(12, 31, DaysOfYear(length)), length);
    FirstAndLastDayOfYear(leap);
  }

  /** February 29 of a common year is clamped to February 28. */
  lemma FebruaryTwentyNinthOfCommonYear()
    ensures FromMonthAndDay(2, 29, false) == SimpleDate(59, 2, 28, false)
    ensures !Equal(FromMonthAndDay(2, 29, true), FromMonthAndDay(2, 29, false))
  {
    MonthsOffsetLandmarks(false);
  }

  /** The same month and day is one ordinal later in a leap year from March on. */
  lemma LeapFlagShiftsOrdinal(monthIndex: int, dayIndex: int)
    requires 1 <= monthIndex <= 12 && 1 <= dayIndex <= DaysInMonth(monthIndex, false)
    ensures FromMonthAndDay(monthIndex, dayIndex, true).dayNumber
         == FromMonthAndDay(monthIndex, dayIndex, false).dayNumber + (if monthIndex >= 3 then 1 else 0)
  {
    LeapDayShiftsLaterMonths(monthIndex);
  }

  // ---------------------------------------------------------------------
  // Properties of the comparisons and operators
  // ---------------------------------------------------------------------

  /**
   * Between valid values of the same kind of year, `<` is calendar order
   * of (month, day), and equal ordinals mean equal values.
   */
  lemma {:induction false} LessIsCalendarOrder(a: SimpleDate, b: SimpleDate)
    requires Valid(a) && Valid(b) && a.isLeapYear == b.isLeapYear
    ensures Less(a, b) <==> a.month < b.month || (a.month == b.month && a.day < b.day)
    ensures a.dayNumber == b.dayNumber <==> a == b
  {
    if a.month < b.month {
      MonthEndsBeforeLaterMonth(a.month, b.month, a.isLeapYear);
    } else if b.month < a.month {
      MonthEndsBeforeLaterMonth(b.month, a.month, a.isLeapYear);
    }
  }

  /**
   * Hence, for valid values of the same kind of year, `==` agrees with the
   * ordering: exactly one of a < b, a == b and b < a holds.
   */
  lemma EqualAgreesWithOrderWithinOneKindOfYear(a: SimpleDate, b: SimpleDate)
    requires Valid(a) && Valid(b) && a.isLeapYear == b.isLeapYear
    ensures Equal(a, b) <==> !Less(a, b) && !Less(b, a)
    ensures Equal(a, b) <==> Difference(a, b) == 0
  {
    LessIsCalendarOrder(a, b);
  }

  /**
   * Across kinds of year `==` and `<` disagree: March 1 of a leap year and
   * of a common year are equal, yet one is strictly less than the other.
   */
  lemma EqualIgnoresLeapFlag()
    ensures Equal(FromMonthAndDay(3, 1, true), FromMonthAndDay(3, 1, false))
    ensures Less(FromMonthAndDay(3, 1, false), FromMonthAndDay(3, 1, true))
  {
    MonthsOffsetLandmarks(true);
    MonthsOffsetLandmarks(false);
  }

  /** `-` is symmetric. */
  lemma DifferenceSymmetric(a: SimpleDate, b: SimpleDate)
    ensures Difference(a, b) == Difference(b, a)
  {
  }

  /** `+` is commutative, and on valid values lies in 2...732. */
  lemma SumProperties(a: SimpleDate, b: SimpleDate)
    ensures Sum(a, b) == Sum(b, a)
    ensures Valid(a) && Valid(b) ==> 2 <= Sum(a, b) <= 732
  {
    if Valid(a) && Valid(b) {
      DayNumberRange(a);
      DayNumberRange(b);
    }
  }

  /**
   * The ordinal distance of valid values is at most 365, and within one
   * month of one kind of year it is less than the month's length.
   */
  lemma DifferenceBounds(a: SimpleDate, b: SimpleDate)
    requires Valid(a) && Valid(b)
    ensures Difference(a, b) <= 365
    ensures IsSameMonth(a, b) && a.isLeapYear == b.isLeapYear ==>
              Difference(a, b) < DaysInMonth(a.month, a.isLeapYear)
  {
    DayNumberRange(a);
    DayNumberRange(b);
  }

  /** Equal values are in the same month; both relations are reflexive and symmetric. */
  lemma EqualAndSameMonth(a: SimpleDate, b: SimpleDate)
    ensures Equal(a, a) && IsSameMonth(a, a)
    ensures Equal(a, b) == Equal(b, a) && IsSameMonth(a, b) == IsSameMonth(b, a)
    ensures Equal(a, b) ==> IsSameMonth(a, b)
  {
  }

  // ---------------------------------------------------------------------
  // Properties of isInReach
  // ---------------------------------------------------------------------

  /** The canonical February 29 is valid and has ordinal 60. */
  lemma LeapDayOrdinal()
    ensures Valid(LeapDay()) && LeapDay().dayNumber == 60
  {
    MonthsOffsetLandmarks(true);
  }

  /**
   * The slack of `isInReach`, stated on ordinals: one day when the receiver
   * is a leap-year value and 60 lies between the two ordinals, inclusive.
   */
  function LeapSlack(self: SimpleDate, anotherDate: SimpleDate): (slack: int)
  {
    var low := if self.dayNumber <= anotherDate.dayNumber then self.dayNumber else anotherDate.dayNumber;
    var high := if self.dayNumber <= anotherDate.dayNumber then anotherDate.dayNumber else self.dayNumber;
    if self.isLeapYear && low <= 60 <= high then 1 else 0
  }

  /** `isInReach` holds exactly when the ordinal distance is at most the offset plus the slack. */
  lemma IsInReachCharacterization(self: SimpleDate, anotherDate: SimpleDate, offset: int)
    ensures IsInReach(self, anotherDate, offset)
        <==> Difference(self, anotherDate) <= offset + LeapSlack(self, anotherDate)
  {
    LeapDayOrdinal();
  }

  /**
   * A distance within the offset is always in reach, one beyond the offset
   * plus a day never is, and a common-year receiver gets no slack at all.
   */
  lemma IsInReachBounds(self: SimpleDate, anotherDate: SimpleDate, offset: int)
    ensures Difference(self, anotherDate) <= offset ==> IsInReach(self, anotherDate, offset)
    ensures Difference(self, anotherDate) > offset + 1 ==> !IsInReach(self, anotherDate, offset)
    ensures !self.isLeapYear ==>
              (IsInReach(self, anotherDate, offset) <==> Difference(self, anotherDate) <= offset)
  {
    IsInReachCharacterization(self, anotherDate, offset);
  }

  /** When both values have the same leap flag, `isInReach` is symmetric. */
  lemma IsInReachSymmetricForSameFlag(a: SimpleDate, b: SimpleDate, offset: int)
    requires a.isLeapYear == b.isLeapYear
    ensures IsInReach(a, b, offset) <==> IsInReach(b, a, offset)
  {
    IsInReachCharacterization(a, b, offset);
    IsInReachCharacterization(b, a, offset);
  }

  /**
   * Otherwise it is not: March 1 of a common year (ordinal 60) is in reach
   * from February 28 of a leap year (ordinal 59) at offset 0, but not the
   * other way round.
   */
  lemma IsInReachAsymmetric()
    ensures FromMonthAndDay(3, 1, false).dayNumber == 60
    ensures FromMonthAndDay(2, 28, true).dayNumber == 59
    ensures IsInReach(FromMonthAndDay(2, 28, true), FromMonthAndDay(3, 1, false), 0)
    ensures !IsInReach(FromMonthAndDay(3, 1, false), FromMonthAndDay(2, 28, true), 0)
  {
    MonthsOffsetLandmarks(false);
    MonthsOffsetLandmarks(true);
    IsInReachCharacterization(FromMonthAndDay(2, 28, true), FromMonthAndDay(3, 1, false), 0);
    IsInReachCharacterization(FromMonthAndDay(3, 1, false), FromMonthAndDay(2, 28, true), 0);
  }

  /**
   * February 27 and March 2 of a leap year are four ordinals apart, yet in
   * reach at offset 3 because the span holds February 29.
   */
  lemma IsInReachAcrossLeapDay()
    ensures Difference(FromMonthAndDay(2, 27, true), FromMonthAndDay(3, 2, true)) == 4
    ensures IsInReach(FromMonthAndDay(2, 27, true), FromMonthAndDay(3, 2, true), 3)
    ensures !IsInReach(FromMonthAndDay(2, 27, false), FromMonthAndDay(3, 2, false), 2)
  {
    MonthsOffsetLandmarks(false);
    MonthsOffsetLandmarks(true);
    IsInReachCharacterization(FromMonthAndDay(2, 27, true), FromMonthAndDay(3, 2, true), 3);
    IsInReachCharacterization(FromMonthAndDay(2, 27, false), FromMonthAndDay(3, 2, false), 2);
  }
}
