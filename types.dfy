/** Records used by the summarizations: the time series point they read, a
    sentence with its validity, a titled group of sentences, and the (label,
    function) pair that names one option of a summary variable. */
module SummaryTypes {

  datatype Option<+T> = None | Some(value: T)

  /** `Date.getDay()`: 0 is Sunday, 1 Monday, ..., 6 Saturday. */
  type DayOfWeek = d: int | 0 <= d <= 6

  /** A point of a time series: its instant `x` (a time stamp), the day of the
      week that instant falls on, and its value. */
  datatype TimeSeriesPoint = TimeSeriesPoint(x: int, day: DayOfWeek, y: real)

  /** One generated sentence; `text` carries inline `<b>` emphasis markup. */
  datatype Summary = Summary(text: string, validity: real)

  /** The unit that crosses the output boundary. */
  datatype SummaryGroup = SummaryGroup(title: string, summaries: seq<Summary>)

  /** An option of a summary variable: its text and its membership function. */
  datatype VariableOption<+T> = VariableOption(name: string, membership: T)
}
