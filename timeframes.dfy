/**
 * The dashboard timeframe calculator (`buildTimeframe`).
 *
 * Wall-clock time is replaced by an integer day number `today`; a boundary is a
 * day tagged with the start or the end of that day, which is what
 * `startOf('day')` and `endOf('day')` make of a moment.
 */
module DashboardTimeframes {
  import opened Wrappers

  /** The dashboard timeframes, plus any other value that reaches the calculator. */
  datatype DashboardTimeframe =
    | Last7Days
    | Last14Days
    | Last30Days
    | Unrecognised(raw: string)

  /** The enumeration in declaration order: the order the refresh loop visits it in. */
  const Timeframes: seq<DashboardTimeframe> := [Last7Days, Last14Days, Last30Days]

  predicate Supported(tf: DashboardTimeframe) {
    !tf.Unrecognised?
  }

  /** The length in days of a supported timeframe. */
  function PeriodDays(tf: DashboardTimeframe): (n: nat)
    requires Supported(tf)
    ensures n in {7, 14, 30}
  {
    match tf
    case Last7Days => 7
    case Last14Days => 14
    case Last30Days => 30
  }

  /** A day boundary: the first or the last instant of a day. */
  datatype DayBound = StartOfDay(day: int) | EndOfDay(day: int)

  /** The current period and the period before it, as four inclusive boundaries. */
  datatype TimeframeWindow = TimeframeWindow(
    startDate: DayBound,
    endDate: DayBound,
    previousPeriodStartDate: DayBound,
    previousPeriodEndDate: DayBound)

  /** The message thrown for a value outside the enumeration. */
  function UnsupportedMessage(tf: DashboardTimeframe): string
    requires !Supported(tf)
  {
    "Unsupported timerange " + tf.raw + "!"
  }

  /**
   * The windows of `tf` seen from day `today`. Each supported branch spells out
   * its own day offsets; the contract states them all in terms of the period
   * length N: current = [today-(N-1), today], previous = [today-(2N-1), today-N].
   */
  function BuildTimeframe(tf: DashboardTimeframe, today: int): (r: Result<TimeframeWindow>)
    ensures r.Ok? <==> Supported(tf)
    ensures r.Err? ==> r.message == UnsupportedMessage(tf)
    ensures r.Ok? ==>
      var n := PeriodDays(tf);
      && r.value.startDate == StartOfDay(today - (n - 1))
      && r.value.endDate == EndOfDay(today)
      && r.value.previousPeriodStartDate == StartOfDay(today - (2 * n - 1))
      && r.value.previousPeriodEndDate == EndOfDay(today - n)
  {
    if tf == Last7Days then
      Ok(TimeframeWindow(StartOfDay(today - 6), EndOfDay(today),
                         StartOfDay(today - 13), EndOfDay(today - 7)))
    else if tf == Last14Days then
      Ok(TimeframeWindow(StartOfDay(today - 13), EndOfDay(today),
                         StartOfDay(today - 27), EndOfDay(today - 14)))
    else if tf == Last30Days then
      Ok(TimeframeWindow(StartOfDay(today - 29), EndOfDay(today),
                         StartOfDay(today - 59), EndOfDay(today - 30)))
    else
      Err(UnsupportedMessage(tf))
  }

  /** The days an inclusive window from a start-of-day to an end-of-day covers. */
  predicate Covers(from: DayBound, to: DayBound, d: int) {
    from.StartOfDay? && to.EndOfDay? && from.day <= d <= to.day
  }

  /** The number of whole days between a start-of-day and a later end-of-day. */
  function DaysSpanned(from: DayBound, to: DayBound): int {
    to.day - from.day + 1
  }

  /**
   * Both windows of a supported timeframe are exactly N days long, the current
   * one ends today, the previous one ends the day before the current one
   * starts, and together they cover the last 2N days with no day counted twice.
   */
  lemma WindowsAreAdjacent(tf: DashboardTimeframe, today: int)
    requires Supported(tf)
    ensures BuildTimeframe(tf, today).Ok?
    ensures
      var w := BuildTimeframe(tf, today).value;
      var n := PeriodDays(tf);
      && DaysSpanned(w.startDate, w.endDate) == n
      && DaysSpanned(w.previousPeriodStartDate, w.previousPeriodEndDate) == n
      && w.endDate.day == today
      && w.previousPeriodEndDate.day + 1 == w.startDate.day
      && (forall d :: (today - (2 * n - 1) <= d <= today) <==>
            (Covers(w.startDate, w.endDate, d) || Covers(w.previousPeriodStartDate, w.previousPeriodEndDate, d)))
      && forall d :: !(Covers(w.startDate, w.endDate, d) && Covers(w.previousPeriodStartDate, w.previousPeriodEndDate, d))
  {
  }
}
