/**
 * `bookingDateRangeSchema`: a booking window with a required start, end and
 * all-day flag. Strings and numbers are first converted to dates; the
 * window is accepted only when its end is strictly after its start.
 */
module DateRangeSchema {
  import opened Wrappers
  import opened JsValues

  /** The largest magnitude of a valid ECMAScript time value (TimeClip). */
  const MaxTimeValue: int := 8_640_000_000_000_000

  const StartRequiredMessage: string := "Please select a start date"
  const EndRequiredMessage: string := "Please select an end date"
  const EmptyRangeMessage: string := "Please select a date range"
  const EndBeforeStartMessage: string := "End date must be after the start date"

  datatype DateField = From | To

  datatype DateRangeIssue =
    | DateRequired(field: DateField)      // the field is `undefined`
    | NotADate(field: DateField)          // after conversion, not a Date
    | InvalidDate(field: DateField)       // an Invalid Date
    | AllDayRequired
    | AllDayNotABoolean
    | EmptyRange                          // the `from || to` refinement
    | EndNotAfterStart                    // the `to > from` refinement

  /**
   * The text the schema attaches to an issue: its own messages for a
   * missing date and for the two refinements; zod's default text for the
   * other issues is not modelled.
   */
  function IssueMessage(issue: DateRangeIssue): (m: Option<string>)
    ensures issue == DateRequired(From) ==> m == Some("Please select a start date")
    ensures issue == DateRequired(To) ==> m == Some("Please select an end date")
    ensures issue == EmptyRange ==> m == Some("Please select a date range")
    ensures issue == EndNotAfterStart ==> m == Some("End date must be after the start date")
    ensures m.Some? <==> issue.DateRequired? || issue == EmptyRange || issue == EndNotAfterStart
  {
    match issue
    case DateRequired(From) => Some(StartRequiredMessage)
    case DateRequired(To) => Some(EndRequiredMessage)
    case EmptyRange => Some(EmptyRangeMessage)
    case EndNotAfterStart => Some(EndBeforeStartMessage)
    case _ => None
  }

  /** The accepted window. */
  datatype BookingDateRange = BookingDateRange(from: int, to: int, isAllDay: bool)

  /**
   * The preprocessing step: `new Date(arg)` for a string or a number, the
   * argument unchanged otherwise. String parsing is the parameter `parse`.
   */
  function ToDate(arg: JsValue, parse: string -> Option<int>): JsValue {
    match arg
    case Str(s) => Date(parse(s))
    case Num(n) => Date(if -MaxTimeValue <= n <= MaxTimeValue then Some(n) else None)
    case _ => arg
  }

  /** `z.date()` after preprocessing: the time value, or the issue raised. */
  function CheckDate(arg: JsValue, field: DateField, parse: string -> Option<int>): Result<int, DateRangeIssue> {
    match ToDate(arg, parse)
    case Undefined => Failure(DateRequired(field))
    case Date(t) => if t.Some? then Success(t.value) else Failure(InvalidDate(field))
    case _ => Failure(NotADate(field))
  }

  function CheckAllDay(v: JsValue): Result<bool, DateRangeIssue> {
    match v
    case Undefined => Failure(AllDayRequired)
    case Bool(b) => Success(b)
    case _ => Failure(AllDayNotABoolean)
  }

  function IssueOf<T>(r: Result<T, DateRangeIssue>): seq<DateRangeIssue> {
    if r.Failure? then [r.error] else []
  }

  /** The time value an input denotes once converted, if it is a valid date. */
  function DateValue(arg: JsValue, parse: string -> Option<int>): Option<int> {
    match arg
    case Str(s) => parse(s)
    case Num(n) => if -MaxTimeValue <= n <= MaxTimeValue then Some(n) else None
    case Date(t) => t
    case _ => None
  }

  /**
   * Parses a window. Field issues are all reported; the refinements run
   * only once every field is valid.
   */
  function ParseDateRange(from: JsValue, to: JsValue, isAllDay: JsValue, parse: string -> Option<int>)
    : (r: Result<BookingDateRange, seq<DateRangeIssue>>)
    ensures r.Success? <==>
      && DateValue(from, parse).Some? && DateValue(to, parse).Some? && isAllDay.Bool?
      && DateValue(to, parse).value > DateValue(from, parse).value
    ensures r.Success? ==>
      r.value == BookingDateRange(DateValue(from, parse).value, DateValue(to, parse).value, isAllDay.b)
    ensures r.Failure? ==> EmptyRange !in r.error
    ensures r.Failure? && DateValue(from, parse).Some? && DateValue(to, parse).Some? && isAllDay.Bool?
      ==> r.error == [EndNotAfterStart]
    ensures from.Undefined? ==> r.Failure? && DateRequired(From) in r.error
    ensures to.Undefined? ==> r.Failure? && DateRequired(To) in r.error
    ensures (from.Str? || from.Num? || from.Date?) && DateValue(from, parse).None? ==> r.Failure? && InvalidDate(From) in r.error
    ensures (to.Str? || to.Num? || to.Date?) && DateValue(to, parse).None? ==> r.Failure? && InvalidDate(To) in r.error
    ensures !(from.Undefined? || from.Str? || from.Num? || from.Date?) ==> r.Failure? && NotADate(From) in r.error
    ensures !(to.Undefined? || to.Str? || to.Num? || to.Date?) ==> r.Failure? && NotADate(To) in r.error
    ensures isAllDay.Undefined? ==> r.Failure? && AllDayRequired in r.error
    ensures !(isAllDay.Undefined? || isAllDay.Bool?) ==> r.Failure? && AllDayNotABoolean in r.error
  {
    var f := CheckDate(from, From, parse);
    var t := CheckDate(to, To, parse);
    var a := CheckAllDay(isAllDay);
    var fieldIssues := IssueOf(f) + IssueOf(t) + IssueOf(a);
    if fieldIssues != [] then
      Failure(fieldIssues)
    else
      var start, end := f.value, t.value;
      if !(Truthy(Date(Some(start))) || Truthy(Date(Some(end)))) then
        Failure([EmptyRange])
      else if !(end > start) then
        Failure([EndNotAfterStart])
      else
        Success(BookingDateRange(start, end, a.value))
  }

  /** Equal endpoints are refused: the window must have positive length. */
  lemma EqualEndpointsRejected(at: int, isAllDay: bool, parse: string -> Option<int>)
    requires -MaxTimeValue <= at <= MaxTimeValue
    ensures ParseDateRange(Num(at), Num(at), Bool(isAllDay), parse) == Failure([EndNotAfterStart])
  {
  }
}
