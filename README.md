# SimpleDate in Dafny

SimpleDate is a Swift value type for a calendar day with the year removed.
It stores four fields: `dayNumber`, the 1-based ordinal of the day within its
year; the month; the day of the month; and `isLeapYear`, whether the year had
366 days. It supports recurring-date checks such as "is this anniversary
within N days of that one". That check grants one extra day when the span
between the two days holds February 29 and the receiver comes from a leap
year.

The model has three modules:

- `Months` (`months.dfy`) holds the private `Month` enum and its failable
  raw-value initialiser. It also holds `monthOffset`, which despite its name
  gives the number of days in a month. `getMonthsOffset` is an imperative
  `for` loop (`GetMonthsOffset`). It is proved against the recursive sum
  `MonthsOffset`.
- `SimpleDates` (`simple_date.dfy`) models the struct as a datatype, since
  it never changes after construction. The clamping initialiser is an
  imperative method (`Init`) that reassigns its local month and day. It is
  proved equal to the function `FromMonthAndDay`, which the rest of the model
  uses. This module also holds the date initialiser, which takes the results
  of the calendar lookups as input (`InitFromDate`). The rest are `<`, the
  derived `<=`, `==`, `+`, `-`, `ClosedRange.contains`, `isInReach` and
  `isSameMonth`.
- `Coding` (`coding.dfy`) holds the `Codable` conformance over a keyed
  container, abstracted as a map from key to a primitive value.

Where one might expect otherwise, the model follows the code:

- `isInReach` (`Sources/SimpleDate/SimpleDate.swift:20`) checks only the
  receiver's leap flag when it decides on the extra day. The other value's
  flag plays no part. `IsInReachAsymmetric` shows a pair of values for
  which the result depends on the order of the arguments.
- `SimpleDate(2, 29, isLeapYear: false)` is clamped to February 28. So it is
  not `==` to `SimpleDate(2, 29, isLeapYear: true)`, even though `==` looks
  only at month and day (`FebruaryTwentyNinthOfCommonYear`).
- `==` compares month and day, and `<` compares ordinals. Within one kind of
  year the two agree (`EqualAgreesWithOrderWithinOneKindOfYear`). Across
  kinds of year they do not: March 1 of a leap year and March 1 of a common
  year are `==`, yet one is `<` the other (`EqualIgnoresLeapFlag`).

## Model

| member | source | states |
|---|---|---|
| `Months.RawValue` | Sources/SimpleDate/SimpleDate.swift:83-84 | the raw value of a month lies in 1...12 (January is 1) |
| `Months.DaysInMonth` | Sources/SimpleDate/SimpleDate.swift:68 | the length of the month with a given raw value, looked up through the force-unwrapped `Month(rawValue:)`. Its properties are those of `MonthOffset` |
| `Months.FromRawValue` | Sources/SimpleDate/SimpleDate.swift:83-84 | `Month(rawValue:)` gives a month exactly for raw values 1...12, and that month's raw value is the input |
| `Months.MonthOffset` | Sources/SimpleDate/SimpleDate.swift:86-95 | February has 29 days in a leap year and 28 otherwise. Every other month agrees with the knuckle rule: 31 for Jan/Mar/May/Jul/Aug/Oct/Dec and 30 for Apr/Jun/Sep/Nov. Every length is in 28...31 |
| `Months.MonthsOffset` | Sources/SimpleDate/SimpleDate.swift:31-38 | the sum of the lengths of months 1..<m lies between 28·(m−1) and 31·(m−1) |
| `Months.GetMonthsOffset` | Sources/SimpleDate/SimpleDate.swift:31-38 | the accumulating loop returns the sum of the lengths of months 1..<monthIndex. It is defined for 1...13, since outside that range the range or the force-unwrap traps |
| `Months.MonthsOffsetLandmarks` | Sources/SimpleDate/SimpleDate.swift:31-38 | the offset is 0 for January, 31 for February, 59/60 for March and 334/335 for December (common/leap). The full year is 365/366 |
| `Months.LeapDayShiftsLaterMonths` | Sources/SimpleDate/SimpleDate.swift:31-38 | a leap year's offset is the common year's plus 1 from March on, and equal for January and February |
| `Months.MonthEndsBeforeLaterMonth` | Sources/SimpleDate/SimpleDate.swift:31-38 | a month's offset plus its length is at most the offset of any later month |
| `SimpleDates.FromMonthAndDay` | Sources/SimpleDate/SimpleDate.swift:53-77 | never fails and keeps the leap flag. The month is clamped to the nearest of 1...12 and the day to the nearest of 1...length of the clamped month. In-range inputs are kept, and the ordinal is the day plus the offset of the month (`Valid`) |
| `SimpleDates.Init` | Sources/SimpleDate/SimpleDate.swift:53-77 | the step-by-step initialiser builds exactly `FromMonthAndDay` of its inputs |
| `SimpleDates.Values` | Sources/SimpleDate/SimpleDate.swift:53 | the set of integers a half-open range `lower..<upper` holds: exactly those with `lower <= i < upper` |
| `SimpleDates.ValuesSize` | Sources/SimpleDate/SimpleDate.swift:53 | a range `lower..<upper` holds `upper - lower` integers (by induction on the range's length) |
| `SimpleDates.Count` | Sources/SimpleDate/SimpleDate.swift:53 | `Range.count` is the number of integers the range holds |
| `SimpleDates.DaysOfYear` | Sources/SimpleDate/SimpleDate.swift:48 | the calendar's day-of-year range for a year of n days starts at 1 and has count n, so it is `1..<n+1` |
| `SimpleDates.FromCalendarFacts` | Sources/SimpleDate/SimpleDate.swift:49-50 | month and day are stored as the calendar gives them, without clamping. For a real day the value is valid and equals what the clamping initialiser builds. For month 13 (the loop does not trap there) the ordinal is the day plus the year's length |
| `SimpleDates.LeapFlagAsWritten` | Sources/SimpleDate/SimpleDate.swift:48 | the leap test of `init(date:)` as written: the day range's upper bound is 366 |
| `SimpleDates.LeapFlag` | Sources/SimpleDate/SimpleDate.swift:53 | the leap test of the default argument: the day range's count is 366 |
| `SimpleDates.FromDatePartsAsWritten` | Sources/SimpleDate/SimpleDate.swift:45-51 | the value `init(date:)` stores, with the upper-bound leap test of line 48 |
| `SimpleDates.FromDateParts` | Sources/SimpleDate/SimpleDate.swift:45-51 | the value `init(date:)` is meant to store, with the count test of line 53 |
| `SimpleDates.InitFromDate` | Sources/SimpleDate/SimpleDate.swift:45-51 | the straight-line initialiser, over the calendar's month, day and day-of-year range, builds exactly `FromDatePartsAsWritten`. It accepts months 1...13, the range where `getMonthsOffset` does not trap |
| `SimpleDates.LeapFlagInvertedAsWritten` | Sources/SimpleDate/SimpleDate.swift:48 | as written, the flag is false for a 366-day year and true for a 365-day year. December 31 gets 365 in a leap year and 366 in a common year, and February 29 of a leap year gives a value that is not valid |
| `SimpleDates.FromDatePartsOfRealDay` | Sources/SimpleDate/SimpleDate.swift:45-51 | with the count test, a real day of a 365- or 366-day year is flagged leap exactly for 366 days. It equals the clamping initialiser's value and has an ordinal in 1...length |
| `SimpleDates.FromDatePartsFirstAndLastDay` | Tests/SimpleDateTests/SimpleDateTests.swift:5-31 | with the count test, January 1 is day 1, and December 31 is day 366 or 365, the ordinals the tests expect from `init(date:)` |
| `SimpleDates.DayNumberRange` | Sources/SimpleDate/SimpleDate.swift:74 | every valid value has an ordinal in 1...365, or 1...366 for a leap-year value |
| `SimpleDates.FirstAndLastDayOfYear` | Sources/SimpleDate/SimpleDate.swift:74 | with the clamping initialiser, January 1 is day 1. December 31 is day 365, or 366 in a leap year |
| `SimpleDates.FromMonthAndDayKeepsValid` | Sources/SimpleDate/SimpleDate.swift:57-72 | clamping a valid value's month and day changes nothing |
| `SimpleDates.FebruaryTwentyNinthOfCommonYear` | Sources/SimpleDate/SimpleDate.swift:64-72 | (2, 29, common year) becomes February 28, day 59, so it is not `==` to the leap-year February 29 |
| `SimpleDates.LeapFlagShiftsOrdinal` | Sources/SimpleDate/SimpleDate.swift:74 | a month and day that exist in both kinds of year get an ordinal one higher in a leap year from March on. January and February get the same ordinal |
| `SimpleDates.LessIsCalendarOrder` | Sources/SimpleDate/SimpleDate.swift:100-103 | between valid values of one kind of year, `<` on ordinals is the lexicographic order of (month, day), and equal ordinals mean equal values |
| `SimpleDates.EqualAgreesWithOrderWithinOneKindOfYear` | Sources/SimpleDate/SimpleDate.swift:106-109 | within one kind of year, `==` holds iff neither value is `<` the other, iff the distance is 0 |
| `SimpleDates.EqualIgnoresLeapFlag` | Sources/SimpleDate/SimpleDate.swift:106-109 | March 1 of a leap year and of a common year are `==`, yet the common-year one is strictly `<` the other |
| `SimpleDates.Less` | Sources/SimpleDate/SimpleDate.swift:101-103 | `<` compares the ordinals only. `LessIsCalendarOrder` states what it means |
| `SimpleDates.LessOrEqual` | Sources/SimpleDate/SimpleDate.swift:100 | Comparable's default `<=` is "not the other way `<`", used by `isInReach` to order its two values |
| `SimpleDates.Equal` | Sources/SimpleDate/SimpleDate.swift:107-109 | `==` compares month and day only. `EqualAgreesWithOrderWithinOneKindOfYear` and `EqualIgnoresLeapFlag` state what it means |
| `SimpleDates.Sum` | Sources/SimpleDate/SimpleDate.swift:152-154 | `+` adds the two ordinals. `SumProperties` states what it means |
| `SimpleDates.Difference` | Sources/SimpleDate/SimpleDate.swift:156-158 | `-` is non-negative, is one of the two signed ordinal differences, and is 0 exactly when the ordinals are equal |
| `SimpleDates.DifferenceSymmetric` | Sources/SimpleDate/SimpleDate.swift:156-158 | `a - b == b - a` |
| `SimpleDates.DifferenceBounds` | Sources/SimpleDate/SimpleDate.swift:156-158 | for valid values `-` is at most 365. Within one month of one kind of year it is less than that month's length |
| `SimpleDates.SumProperties` | Sources/SimpleDate/SimpleDate.swift:152-154 | `+` is commutative, and for valid values it lies in 2...732 |
| `SimpleDates.EqualAndSameMonth` | Sources/SimpleDate/SimpleDate.swift:24-26 | `==` and `isSameMonth` are reflexive and symmetric, and `==` implies `isSameMonth` |
| `SimpleDates.IsSameMonth` | Sources/SimpleDate/SimpleDate.swift:24-26 | `isSameMonth` compares the months. `EqualAndSameMonth` and `DifferenceBounds` state what it means |
| `SimpleDates.Through` | Sources/SimpleDate/SimpleDate.swift:20 | `lower...upper` builds a closed range, which traps unless `lower <= upper`. `isInReach` always passes the smaller value first |
| `SimpleDates.Contains` | Sources/SimpleDate/SimpleDate.swift:20 | `ClosedRange.contains`: both bounds are inclusive, and the test goes through the derived `<=`, so it compares ordinals |
| `SimpleDates.IsInReach` | Sources/SimpleDate/SimpleDate.swift:19-21 | `isInReach` as written, through `<=`, `...`, `contains` and `-`. `IsInReachCharacterization` states what it means |
| `SimpleDates.LeapDay` | Sources/SimpleDate/SimpleDate.swift:20 | the canonical value built inside `isInReach` is February 29 of a leap year |
| `SimpleDates.LeapDayOrdinal` | Sources/SimpleDate/SimpleDate.swift:20 | that canonical February 29 is valid and has ordinal 60 |
| `SimpleDates.LeapSlack` | Sources/SimpleDate/SimpleDate.swift:20 | an independent statement of the slack on ordinals: 1 when the receiver is a leap-year value and 60 lies between the two ordinals, else 0 |
| `SimpleDates.IsInReachCharacterization` | Sources/SimpleDate/SimpleDate.swift:19-21 | for all values, decoded ones included, `isInReach(b, offset)` holds iff `a - b <= offset + slack`. The slack is 1 exactly when the receiver is a leap-year value and 60 lies between the two ordinals inclusive, else 0 |
| `SimpleDates.IsInReachBounds` | Sources/SimpleDate/SimpleDate.swift:19-21 | `a - b <= offset` implies in reach, and `a - b > offset + 1` implies not in reach. A common-year receiver is in reach iff `a - b <= offset` |
| `SimpleDates.IsInReachSymmetricForSameFlag` | Sources/SimpleDate/SimpleDate.swift:19-21 | when both values have the same leap flag, the result does not depend on the order of the arguments |
| `SimpleDates.IsInReachAsymmetric` | Sources/SimpleDate/SimpleDate.swift:20 | leap-year Feb 28 (59) reaches common-year Mar 1 (60) at offset 0, but not the other way round |
| `SimpleDates.IsInReachAcrossLeapDay` | Sources/SimpleDate/SimpleDate.swift:19-21 | leap-year Feb 27 and Mar 2 are 4 apart yet in reach at offset 3. The same days of a common year, 3 apart, are not in reach at offset 2 |
| `Coding.DecodeInt` | Sources/SimpleDate/SimpleDate.swift:120-122 | an integer field decodes iff its key is present and holds an integer. Otherwise it fails with key-not-found, value-not-found (null) or type-mismatch |
| `Coding.DecodeBool` | Sources/SimpleDate/SimpleDate.swift:124 | the same for the boolean `isLeapYear` field |
| `Coding.Decode` | Sources/SimpleDate/SimpleDate.swift:117-125 | decoding succeeds iff all four keys are readable. It copies the four fields as given, so the ordinal is not recomputed. On failure it reports the first unreadable key in read order, with that key's error |
| `Coding.Encode` | Sources/SimpleDate/SimpleDate.swift:127-134 | encoding writes exactly the four keys, each readable as its field's type |
| `Coding.DecodeEncode` | Sources/SimpleDate/SimpleDate.swift:117-134 | decoding an encoded value gives back the same value |
| `Coding.EncodeDecode` | Sources/SimpleDate/SimpleDate.swift:117-134 | encoding a value decoded from a container with exactly the four keys gives back that container |
| `Coding.DecodeTrustsDayNumber` | Sources/SimpleDate/SimpleDate.swift:120 | a container claiming that December 31 is day 1 decodes successfully, to a value that is not valid |

## Left out

- The leap-flag default of `init(monthIndex:dayIndex:isLeapYear:)` (line 53) reads the current date. The flag is an explicit argument of `Init` instead.
- The `Calendar.current` lookups of `init(date:)` (lines 46-48) are left out because they depend on the platform calendar, the time zone and the clock. Their results are the `DateParts` argument of `InitFromDate`: the month, the day of the month and the day-of-year range of the year. The leap flag is computed from that range as line 48 does.
- InitFromDate: which `Date` falls on which calendar day is not modelled, because it depends on the host time zone. So the model cannot say which inputs the repository's tests actually feed in.
- `Hashable` (lines 137-141) is left out because it feeds an opaque hasher. It hashes `dayNumber` only, which does not match `==` on (month, day).
- `debugDescription` (lines 143-147) is left out because it is string formatting only.
- The container machinery of `Codable` (`decoder.container`, `encoder.container`) is left out because it is Foundation library code. A container is a map from key to an integer, a boolean or null, and encoding cannot fail in the model.
- Difference, Sum, IsInReach: Swift's 64-bit `Int` traps on overflow in `+`, `-`, `abs` and `offset + 1`. The model uses unbounded integers, so it does not model those traps. They can only happen with decoded values whose ordinals are near the `Int` limits, or with an offset of `Int.max`.
- The repository's tests (`Tests/SimpleDateTests/SimpleDateTests.swift`) call `init(date:)` on real instants in the host time zone. Their expected ordinals 1, 365 and 366 are proved for the corrected date initialiser in `FromDatePartsFirstAndLastDay`. As written, the 366 and 365 expectations for December 31 are not met: `LeapFlagInvertedAsWritten` proves the swapped ordinals (see "## Findings").

## Findings

| source | as written | input that shows it | evidently intended | confidence | as-written member | corrected member |
|---|---|---|---|---|---|---|
| Sources/SimpleDate/SimpleDate.swift:48 | `init(date:)` sets `isLeapYear` to `range(of: .day, in: .year, for: date)!.upperBound == 366`. The day range of an n-day year is `1..<n+1`, so the test is true only for a 365-day year | December 31 of a 366-day year (day range `1..<367`): the flag is false and the ordinal is 31 + 334 = 365. December 31 of a 365-day year gets 366. February 29 of a 366-day year gets a value that is not valid | the flag is true exactly for a 366-day year (`.count == 366`, as the default argument at line 53 does). December 31 is then 366 or 365, as the tests at Tests/SimpleDateTests/SimpleDateTests.swift:19-31 expect | not executed; relies on Foundation returning the day-of-year range as `1..<n+1` | `SimpleDates.InitFromDate` with `SimpleDates.LeapFlagInvertedAsWritten` | `SimpleDates.FromDateParts` with `SimpleDates.FromDatePartsOfRealDay` and `SimpleDates.FromDatePartsFirstAndLastDay` |
