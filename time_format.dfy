/**
 * The relative timestamps the pages show. Elapsed time is an input in milliseconds (the clock
 * is not modelled); `Math.floor` of a division by a positive constant is Dafny's `/`.
 */
module TimeFormat {
  import opened Text

  const MinuteMs := 60000
  const HourMs := 3600000
  const DayMs := 86400000

  /** A timestamp: words, or the locale's date, which is not modelled. */
  datatype Stamp = Phrase(text: string) | LocaleDate

  /** "N unit ago", with an "s" from two on. */
  function Units(n: int, unit: string): string {
    IntToString(n) + " " + unit + (if n > 1 then "s" else "") + " ago"
  }

  /** "N units ago", always plural. */
  function PluralUnits(n: int, unit: string): string {
    IntToString(n) + " " + unit + "s ago"
  }

  /**
   * `formatDate` of the chapter reader, the series details page and the bookmark card (three
   * identical copies): minutes, hours and days, then the locale date from a week on.
   */
  function FormatDate(elapsedMs: int): Stamp {
    var mins := elapsedMs / MinuteMs;
    var hours := elapsedMs / HourMs;
    var days := elapsedMs / DayMs;
    if mins < 1 then Phrase("just now")
    else if mins < 60 then Phrase(Units(mins, "minute"))
    else if hours < 24 then Phrase(Units(hours, "hour"))
    else if days < 7 then Phrase(Units(days, "day"))
    else LocaleDate
  }

  lemma UnitsShape(n: int, unit: string)
    requires n >= 1 && unit != "" && unit[|unit| - 1] != 's'
    ensures Units(n, unit) != "just now"
    ensures EndsWith(Units(n, unit), "s ago") <==> n > 1
  {
    var d := NatToString(n);
    var u := Units(n, unit);
    assert IsDigit(u[0]);
    if n > 1 {
      assert u == (d + " " + unit + "s") + " ago";
    } else {
      var w := d + " " + unit;
      assert u == w + " ago";
      assert u[|u| - 5] == w[|w| - 1] == unit[|unit| - 1];
    }
  }

  /**
   * The bucket of an elapsed time, stated in milliseconds: under a minute is "just now"; then
   * the count of whole minutes (1 to 59), hours (1 to 23) or days (1 to 6); a week or more is
   * the locale date.
   */
  lemma FormatDateBuckets(ms: int)
    ensures ms < MinuteMs <==> FormatDate(ms) == Phrase("just now")
    ensures MinuteMs <= ms < HourMs ==>
      FormatDate(ms) == Phrase(Units(ms / MinuteMs, "minute")) && 1 <= ms / MinuteMs <= 59
    ensures HourMs <= ms < DayMs ==>
      FormatDate(ms) == Phrase(Units(ms / HourMs, "hour")) && 1 <= ms / HourMs <= 23
    ensures DayMs <= ms < 7 * DayMs ==>
      FormatDate(ms) == Phrase(Units(ms / DayMs, "day")) && 1 <= ms / DayMs <= 6
    ensures ms >= 7 * DayMs <==> FormatDate(ms).LocaleDate?
  {
    if ms >= MinuteMs {
      if ms < HourMs {
        UnitsShape(ms / MinuteMs, "minute");
      } else if ms < DayMs {
        UnitsShape(ms / HourMs, "hour");
      } else if ms < 7 * DayMs {
        UnitsShape(ms / DayMs, "day");
      }
    }
  }

  /** The unit is singular exactly when the count is one. */
  lemma FormatDateSingular(ms: int)
    requires MinuteMs <= ms < 7 * DayMs
    ensures FormatDate(ms).Phrase?
    ensures EndsWith(FormatDate(ms).text, "s ago") <==>
      (if ms < HourMs then ms / MinuteMs else if ms < DayMs then ms / HourMs else ms / DayMs) > 1
  {
    FormatDateBuckets(ms);
    if ms < HourMs {
      UnitsShape(ms / MinuteMs, "minute");
    } else if ms < DayMs {
      UnitsShape(ms / HourMs, "hour");
    } else {
      UnitsShape(ms / DayMs, "day");
    }
  }

  // ---------------------------------------------------------------------------------------
  // Comments
  // ---------------------------------------------------------------------------------------

  const MinuteS := 60
  const HourS := 3600
  const DayS := 86400
  const WeekS := 604800
  const MonthS := 2592000
  const YearS := 31536000

  /** `formatTimeAgo` of a comment: whole seconds bucketed up to years, units always plural. */
  function FormatTimeAgo(elapsedMs: int): string {
    var seconds := elapsedMs / 1000;
    if seconds < MinuteS then "just now"
    else if seconds < HourS then PluralUnits(seconds / MinuteS, "minute")
    else if seconds < DayS then PluralUnits(seconds / HourS, "hour")
    else if seconds < WeekS then PluralUnits(seconds / DayS, "day")
    else if seconds < MonthS then PluralUnits(seconds / WeekS, "week")
    else if seconds < YearS then PluralUnits(seconds / MonthS, "month")
    else PluralUnits(seconds / YearS, "year")
  }

  /**
   * Each bucket reports a count in a fixed range: minutes 1 to 59, hours 1 to 23, days 1 to
   * 6, weeks 1 to 4, months 1 to 12, and at least one year; "just now" under a minute only.
   */
  lemma TimeAgoCounts(ms: int)
    ensures var s := ms / 1000;
      && (s < MinuteS <==> FormatTimeAgo(ms) == "just now")
      && (MinuteS <= s < HourS ==> 1 <= s / MinuteS <= 59)
      && (HourS <= s < DayS ==> 1 <= s / HourS <= 23)
      && (DayS <= s < WeekS ==> 1 <= s / DayS <= 6)
      && (WeekS <= s < MonthS ==> 1 <= s / WeekS <= 4 && FormatTimeAgo(ms) == PluralUnits(s / WeekS, "week"))
      && (MonthS <= s < YearS ==> 1 <= s / MonthS <= 12 && FormatTimeAgo(ms) == PluralUnits(s / MonthS, "month"))
      && (YearS <= s ==> 1 <= s / YearS && FormatTimeAgo(ms) == PluralUnits(s / YearS, "year"))
  {
    var s := ms / 1000;
    if s >= MinuteS {
      var n := if s < HourS then s / MinuteS else if s < DayS then s / HourS else if s < WeekS then s / DayS
        else if s < MonthS then s / WeekS else if s < YearS then s / MonthS else s / YearS;
      assert n >= 1;
      assert IsDigit(NatToString(n)[0]);
      assert FormatTimeAgo(ms)[0] == NatToString(n)[0];
    }
  }

  lemma PluralUnitsEnds(n: int, unit: string)
    ensures EndsWith(PluralUnits(n, unit), "s ago")
  {
    var w := IntToString(n) + " " + unit;
    assert PluralUnits(n, unit) == w + "s ago";
  }

  /**
   * Every timestamp but "just now" ends in a plural unit, whatever the count: the whole second
   * minute reads "1 minutes ago", and so on for each unit.
   */
  lemma TimeAgoAlwaysPlural(ms: int)
    ensures FormatTimeAgo(ms) == "just now" || EndsWith(FormatTimeAgo(ms), "s ago")
    ensures MinuteMs <= ms < 2 * MinuteMs ==> FormatTimeAgo(ms) == "1 minutes ago"
  {
    var s := ms / 1000;
    if s >= MinuteS {
      var n := if s < HourS then s / MinuteS else if s < DayS then s / HourS else if s < WeekS then s / DayS
        else if s < MonthS then s / WeekS else if s < YearS then s / MonthS else s / YearS;
      var unit := if s < HourS then "minute" else if s < DayS then "hour" else if s < WeekS then "day"
        else if s < MonthS then "week" else if s < YearS then "month" else "year";
      assert FormatTimeAgo(ms) == PluralUnits(n, unit);
      PluralUnitsEnds(n, unit);
    }
    if MinuteMs <= ms < 2 * MinuteMs {
      assert s / MinuteS == 1;
      assert NatToString(1) == "1";
    }
  }

  // ---------------------------------------------------------------------------------------
  // Latest updates
  // ---------------------------------------------------------------------------------------

  function Abs(x: int): nat {
    if x < 0 then -x else x
  }

  /** "1 unit ago" or "N units ago". */
  function Counted(n: int, unit: string): string {
    if n == 1 then "1 " + unit + " ago" else IntToString(n) + " " + unit + "s ago"
  }

  /** `formatDaysAgo` of the latest-updates list: whole days of the absolute difference. */
  function FormatDaysAgo(elapsedMs: int): string {
    var days := Abs(elapsedMs) / DayMs;
    if days == 0 then "Today"
    else if days == 1 then "1 day ago"
    else if days < 7 then IntToString(days) + " days ago"
    else if days < 30 then Counted(days / 7, "week")
    else if days < 365 then Counted(days / 30, "month")
    else Counted(days / 365, "year")
  }

  /** The past and the future format alike. */
  lemma DaysAgoSymmetric(ms: int)
    ensures FormatDaysAgo(ms) == FormatDaysAgo(-ms)
  {
  }

  /** `Counted` is `Units`: singular exactly at one. */
  lemma CountedIsUnits(n: int, unit: string)
    requires n >= 1
    ensures Counted(n, unit) == Units(n, unit)
  {
    if n == 1 {
      assert NatToString(1) == "1";
    }
  }

  /**
   * The buckets in days: "Today" on the same day, days under a week, then weeks (1 to 4),
   * months (1 to 12) and years, each singular exactly at one.
   */
  lemma DaysAgoBuckets(ms: int)
    ensures var d := Abs(ms) / DayMs;
      && (d == 0 <==> FormatDaysAgo(ms) == "Today")
      && (1 <= d < 7 ==> FormatDaysAgo(ms) == Units(d, "day"))
      && (7 <= d < 30 ==> FormatDaysAgo(ms) == Units(d / 7, "week") && 1 <= d / 7 <= 4)
      && (30 <= d < 365 ==> FormatDaysAgo(ms) == Units(d / 30, "month") && 1 <= d / 30 <= 12)
      && (365 <= d ==> FormatDaysAgo(ms) == Units(d / 365, "year") && 1 <= d / 365)
  {
    var d := Abs(ms) / DayMs;
    if 1 <= d {
      if d == 1 {
        assert NatToString(1) == "1";
      } else if d < 7 {
        assert IsDigit(FormatDaysAgo(ms)[0]);
      } else if d < 30 {
        CountedIsUnits(d / 7, "week");
        UnitsShape(d / 7, "week");
      } else if d < 365 {
        CountedIsUnits(d / 30, "month");
        UnitsShape(d / 30, "month");
      } else {
        CountedIsUnits(d / 365, "year");
        UnitsShape(d / 365, "year");
      }
    }
  }
}
