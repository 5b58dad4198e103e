/** The due-date round trip of the task form, in calendar days and instants.
    Filling an edit dialog turns the task's "yyyy-MM-dd" text into a `Date`
    with `new Date(text)`, and saving turns it back with
    `format(date, "yyyy-MM-dd")`. A day is numbered from 1970-01-01 (day 0),
    an instant is milliseconds since the epoch, and the browser's time zone
    is the offset, in milliseconds, of its local clock from UTC (UTC-3 is
    -10800000). */
module DueDates {

  const MsPerDay: int := 86400000

  /** `format(date, "yyyy-MM-dd")`: the local calendar day containing the instant. */
  function LocalDay(instant: int, offset: int): (day: int)
    ensures day * MsPerDay <= instant + offset < (day + 1) * MsPerDay
  {
    (instant + offset) / MsPerDay
  }

  /** `new Date(text)` on a date-only text: ECMAScript reads it as UTC midnight. */
  function UtcMidnight(day: int): (instant: int)
    ensures LocalDay(instant, 0) == day
    ensures instant == LocalMidnight(day, 0)
  {
    day * MsPerDay
  }

  /** Reading the text as local midnight instead, as date-fns `parseISO` does. */
  function LocalMidnight(day: int, offset: int): (instant: int)
    ensures instant + offset == day * MsPerDay
  {
    day * MsPerDay - offset
  }

  /** The floor of a division by the day length is unique. */
  lemma LocalDayUnique(instant: int, offset: int, day: int)
    requires day * MsPerDay <= instant + offset < (day + 1) * MsPerDay
    ensures LocalDay(instant, offset) == day
  {
  }

  /** The day a save sends back after a fill, as written. */
  function ResentDayAsWritten(day: int, offset: int): int {
    LocalDay(UtcMidnight(day), offset)
  }

  /** As written, the day comes back unchanged exactly at offsets of zero or
      more; west of UTC, one day earlier is sent. */
  lemma AsWrittenShiftsWest(day: int, offset: int)
    requires -MsPerDay < offset < MsPerDay
    ensures ResentDayAsWritten(day, offset) == (if offset < 0 then day - 1 else day)
  {
    if offset < 0 {
      LocalDayUnique(UtcMidnight(day), offset, day - 1);
    } else {
      LocalDayUnique(UtcMidnight(day), offset, day);
    }
  }

  /** 2024-05-10 is day 19853; at UTC-3 the save sends 2024-05-09. */
  lemma AsWrittenLosesADay()
    ensures ResentDayAsWritten(19853, -3 * 3600000) == 19852
  {
    AsWrittenShiftsWest(19853, -3 * 3600000);
  }

  /** The day a save sends back after a fill that reads the text as local midnight. */
  function ResentDay(day: int, offset: int): int {
    LocalDay(LocalMidnight(day, offset), offset)
  }

  /** With the corrected reading, every time zone gets the same day back:
      the identity that the task form's model of dates relies on. */
  lemma ResentDayRoundTrip(day: int, offset: int)
    ensures ResentDay(day, offset) == day
  {
    LocalDayUnique(LocalMidnight(day, offset), offset, day);
  }
}
