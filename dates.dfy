/** Day arithmetic on the date strings of the forms. Parsing a date
    (`new Date(s).getTime()`) is a parameter: a function from the string
    to milliseconds since the epoch. */
module Dates {
  import opened Wrappers
  import opened Types

  /** `new Date(s).getTime()` for the date strings the application
      passes to it. */
  type DateParser = string -> int

  /** `1000 * 60 * 60 * 24`. */
  const MsPerDay: int := 86400000

  /** `Math.ceil(ms / MsPerDay)`: the least whole number of days covering
      `ms` milliseconds; negative spans round towards zero. */
  function CeilDays(ms: int): (d: int)
    ensures (d - 1) * MsPerDay < ms <= d * MsPerDay
  {
    -((-ms) / MsPerDay)
  }

  /** The two bounds of `CeilDays` pin the day count down: it is the only
      whole number with them. */
  lemma CeilDaysUnique(ms: int, d: int)
    requires (d - 1) * MsPerDay < ms <= d * MsPerDay
    ensures CeilDays(ms) == d
  {
  }

  /** A span of exactly `n` days counts as `n` days. */
  lemma CeilDaysWhole(n: int)
    ensures CeilDays(n * MsPerDay) == n
  {
    CeilDaysUnique(n * MsPerDay, n);
  }

  /** `Math.ceil((new Date(departure) - new Date(arrival)) / day)`. */
  function DaysBetween(arrival: string, departure: string, parse: DateParser): (d: int)
    ensures (d - 1) * MsPerDay < parse(departure) - parse(arrival) <= d * MsPerDay
  {
    CeilDays(parse(departure) - parse(arrival))
  }

  /** The `getDays` of the itinerary forms: zero unless both dates are
      set, otherwise the day span rounded up. */
  function PlannedDays(arrival: Option<string>, departure: Option<string>, parse: DateParser): (d: int)
    ensures !(Truthy(arrival) && Truthy(departure)) ==> d == 0
    ensures Truthy(arrival) && Truthy(departure) ==>
      var span := parse(departure.value) - parse(arrival.value);
      (d - 1) * MsPerDay < span <= d * MsPerDay
  {
    if !Truthy(arrival) || !Truthy(departure) then 0
    else DaysBetween(arrival.value, departure.value, parse)
  }

  /** The day count is shown only for a departure strictly after the
      arrival: a positive count means a positive span, and a span of any
      positive length counts as at least one day. */
  lemma PlannedDaysPositive(arrival: Option<string>, departure: Option<string>, parse: DateParser)
    ensures PlannedDays(arrival, departure, parse) > 0 <==>
      Truthy(arrival) && Truthy(departure) && parse(departure.value) > parse(arrival.value)
  {
  }
}
