/**
 * The price entry details screen (Pages/PriceDetailsScreen.js): the long
 * date and the 12-hour time it shows for an entry's timestamp, and the
 * reason line. The timestamp comes in already broken into its local date
 * parts.
 */
module PriceDetails {
  import opened Common
  import Text

  const DayNames: seq<string> := ["Sunday", "Monday", "Tuesday", "Wednesday", "Thursday", "Friday", "Saturday"]
  const MonthNames: seq<string> := [
    "January", "February", "March", "April", "May", "June",
    "July", "August", "September", "October", "November", "December"
  ]
  const DefaultReason := "Manual price update"

  /** `hours % 12 || 12`. */
  function DisplayHours(hours: nat): nat
  {
    if hours % 12 == 0 then 12 else hours % 12
  }

  /** `hours >= 12 ? 'PM' : 'AM'`. */
  function Suffix(hours: nat): string
  {
    if hours >= 12 then "PM" else "AM"
  }

  /** Reading a 12-hour clock back: 12 is the start of its half of the day. */
  function FromTwelveHour(displayHours: nat, suffix: string): nat
  {
    displayHours % 12 + (if suffix == "PM" then 12 else 0)
  }

  /**
   * For every hour of the day the shown hour is between 1 and 12, midnight
   * and noon both show as 12, the suffix is AM exactly in the first half of
   * the day, and the shown hour with its suffix gives the hour back, so no
   * two hours look alike.
   */
  lemma ClockSpec(hours: nat)
    requires hours < 24
    ensures 1 <= DisplayHours(hours) <= 12
    ensures DisplayHours(hours) == 12 <==> hours == 0 || hours == 12
    ensures Suffix(hours) == "AM" <==> hours < 12
    ensures Suffix(hours) == "AM" || Suffix(hours) == "PM"
    ensures FromTwelveHour(DisplayHours(hours), Suffix(hours)) == hours
  {
  }

  /** What `formatDateDisplay` returns. */
  datatype DateInfo = DateInfo(fullDate: string, time: string)

  /** `formatDateDisplay(dateString)` for the date's local parts. */
  function FormatDateDisplay(d: DateParts): DateInfo
    requires ValidDate(d)
  {
    DateInfo(
      (DayNames[d.weekday] + ",") + " " + (Text.NatToString(d.day) + " " + (MonthNames[d.month] + " " + Text.NatToString(d.year))),
      Text.NatToString(DisplayHours(d.hours)) + ":" + Text.PadTwo(d.minutes) + " " + Suffix(d.hours))
  }

  lemma NamesHaveNoSpace(d: DateParts)
    requires ValidDate(d)
    ensures ' ' !in DayNames[d.weekday] + ","
    ensures ' ' !in MonthNames[d.month]
  {
  }

  /** Four space-free pieces laid out as the long date split back into those pieces. */
  lemma FullDatePieces(weekday: string, day: string, month: string, year: string)
    requires ' ' !in weekday && ' ' !in day && ' ' !in month && ' ' !in year
    ensures Text.Split(weekday + " " + (day + " " + (month + " " + year)), ' ') == [weekday, day, month, year]
  {
    Text.SplitJoin(weekday, ' ', day + " " + (month + " " + year));
    DatePieces(day, month, year);
  }

  lemma DatePieces(day: string, month: string, year: string)
    requires ' ' !in day && ' ' !in month && ' ' !in year
    ensures Text.Split(day + " " + (month + " " + year), ' ') == [day, month, year]
  {
    Text.SplitJoin(day, ' ', month + " " + year);
    Text.SplitJoin(month, ' ', year);
    assert Text.Split(year, ' ') == [year];
  }

  /**
   * The long date reads back: split at spaces it is the weekday's name with
   * a comma, the day of the month, the month's name, and the year.
   */
  lemma FullDateParses(d: DateParts)
    requires ValidDate(d)
    ensures
      var parts := Text.Split(FormatDateDisplay(d).fullDate, ' ');
      && |parts| == 4
      && parts[0] == DayNames[d.weekday] + "," && parts[2] == MonthNames[d.month]
      && Text.AllDigits(parts[1]) && Text.DigitsValue(parts[1]) == d.day
      && Text.AllDigits(parts[3]) && Text.DigitsValue(parts[3]) == d.year
  {
    var day, year := Text.NatToString(d.day), Text.NatToString(d.year);
    NamesHaveNoSpace(d);
    Text.NotInDigits(day, ' ');
    Text.NotInDigits(year, ' ');
    FullDatePieces(DayNames[d.weekday] + ",", day, MonthNames[d.month], year);
    Text.NatToStringRoundTrip(d.day);
    Text.NatToStringRoundTrip(d.year);
  }

  /** A clock and a suffix laid out as the time split back into the hour, the minutes and the suffix. */
  lemma TimePieces(h: string, m: string, suffix: string)
    requires ' ' !in h && ' ' !in m && ' ' !in suffix && ':' !in h && ':' !in m
    ensures Text.Split(h + ":" + m + " " + suffix, ' ') == [h + ":" + m, suffix]
    ensures Text.Split(h + ":" + m, ':') == [h, m]
  {
    assert Text.Split(m, ':') == [m];
    assert Text.Split(suffix, ' ') == [suffix];
    assert ' ' !in h + ":" + m;
    assert h + ":" + m + " " + suffix == (h + ":" + m) + [' '] + suffix;
    Text.SplitJoin(h + ":" + m, ' ', suffix);
    assert h + ":" + m == h + [':'] + m;
    Text.SplitJoin(h, ':', m);
  }

  /**
   * The time reads back: split at the space it is the clock and the suffix,
   * and the clock split at ':' is the shown hour and the minutes in exactly
   * two digits, which together give the hour and minute of the day back.
   */
  lemma TimeParses(d: DateParts)
    requires ValidDate(d)
    ensures
      var parts := Text.Split(FormatDateDisplay(d).time, ' ');
      && |parts| == 2 && parts[1] == Suffix(d.hours)
      && var clock := Text.Split(parts[0], ':');
      && |clock| == 2
      && Text.AllDigits(clock[0]) && Text.AllDigits(clock[1]) && |clock[1]| == 2
      && FromTwelveHour(Text.DigitsValue(clock[0]), parts[1]) == d.hours
      && Text.DigitsValue(clock[1]) == d.minutes
  {
    var h, m := Text.NatToString(DisplayHours(d.hours)), Text.PadTwo(d.minutes);
    Text.PadTwoRoundTrip(d.minutes);
    Text.NatToStringRoundTrip(DisplayHours(d.hours));
    ClockSpec(d.hours);
    Text.NotInDigits(h, ' ');
    Text.NotInDigits(m, ' ');
    Text.NotInDigits(h, ':');
    Text.NotInDigits(m, ':');
    assert ' ' !in Suffix(d.hours);
    TimePieces(h, m, Suffix(d.hours));
  }

  /** `priceItem.reason || 'Manual price update'`. */
  function ReasonShown(reason: Option<string>): string
  {
    OrElse(reason, DefaultReason)
  }

  /** The reason line is never blank: a recorded reason is shown as it is, and a missing or empty one gives the default. */
  lemma ReasonShownSpec(reason: Option<string>)
    ensures ReasonShown(reason) != ""
    ensures Truthy(reason) ==> ReasonShown(reason) == reason.value
    ensures !Truthy(reason) ==> ReasonShown(reason) == DefaultReason
  {
  }
}
