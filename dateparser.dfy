/**
 * The date phrases of src/tbw/core/dateParser.js. The current local date is
 * the parameter `today` (a day number) with its weekday `weekday`
 * (0 = Sunday … 6 = Saturday, as `Date.getDay` gives it).
 */
module DateParser {
  import opened Wrappers
  import opened Text

  /** A calendar day: a fixed ISO date text, or the local day with that day number. */
  datatype CalendarDay = IsoDate(text: string) | DayNumber(n: int)

  datatype DateRange = DateRange(from: CalendarDay, to: CalendarDay, caption: string)

  const NewYear: DateRange := DateRange(IsoDate("2025-12-31"), IsoDate("2026-01-02"), "Nova godina")

  /** Days from a weekday to the next Friday, 0 when it is Friday. */
  function DiffToFriday(weekday: int): int {
    (5 - weekday + 7) % 7
  }

  /** `parseHumanDates(text)`: New Year's phrases first, then "vikend", otherwise nothing. */
  function ParseHumanDates(text: string, today: int, weekday: int): (r: Option<DateRange>)
    requires 0 <= weekday <= 6
  {
    var t := Lower(text);
    if Contains(t, "nova godina") || Contains(t, "novu godinu") then Some(NewYear)
    else if Contains(t, "vikend") then
      var friday := today + DiffToFriday(weekday);
      Some(DateRange(DayNumber(friday), DayNumber(friday + 2), "Vikend"))
    else None
  }

  /** The weekend starts on the coming Friday (today when it is Friday) and ends two days later. */
  lemma WeekendIsFridayToSunday(text: string, today: int, weekday: int)
    requires 0 <= weekday <= 6
    requires ParseHumanDates(text, today, weekday).Some?
    requires ParseHumanDates(text, today, weekday).value.caption == "Vikend"
    ensures var r := ParseHumanDates(text, today, weekday).value;
      && r.from.DayNumber? && r.to.DayNumber?
      && 0 <= r.from.n - today <= 6
      && (weekday + (r.from.n - today)) % 7 == 5
      && r.to.n == r.from.n + 2
  {
  }

  /** A New Year's phrase wins over "vikend" and gives the fixed range. */
  lemma NewYearFirst(text: string, today: int, weekday: int)
    requires 0 <= weekday <= 6
    requires Contains(Lower(text), "nova godina") || Contains(Lower(text), "novu godinu")
    ensures ParseHumanDates(text, today, weekday) == Some(NewYear)
  {
  }

  /** Matching ignores case, and text without any phrase gives nothing. */
  lemma {:induction false} ParseIgnoresCase(text: string, today: int, weekday: int)
    requires 0 <= weekday <= 6
    ensures ParseHumanDates(Lower(text), today, weekday) == ParseHumanDates(text, today, weekday)
    ensures (!Contains(Lower(text), "nova godina") && !Contains(Lower(text), "novu godinu")
      && !Contains(Lower(text), "vikend")) ==> ParseHumanDates(text, today, weekday).None?
  {
    LowerIdempotent(text);
  }
}
