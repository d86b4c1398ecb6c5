/**
  Calendar dates, as Python's `datetime.date` holds them: a date is its
  proleptic Gregorian ordinal, so that day 1 is 0001-01-01 and adding a
  number of days is adding an integer. Only ordinals between `date.min` and
  `date.max` are dates; arithmetic that leaves that range raises
  `OverflowError` in Python.
*/
module Dates {

  /** The ordinal of `date.min`, 0001-01-01. */
  const MinOrdinal: int := 1

  /** The ordinal of `date.max`, 9999-12-31. */
  const MaxOrdinal: int := 3652059

  predicate IsOrdinal(d: int) {
    MinOrdinal <= d <= MaxOrdinal
  }

  type Date = d: int | IsOrdinal(d) witness MinOrdinal
}
