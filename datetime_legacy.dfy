/**
 * The older date/time helpers of src/datetime.ts: empty-input handling of
 * the date-fns wrappers, and `parseHMS` without the NaN check that
 * src/core/datetime.ts later added.
 *
 * date-fns `parse` (which resolves a string against today's date) is a
 * parameter; `format` is `Calendar.FmtDate` for dates and `FmtClock` for
 * times of day.
 */
module LegacyDatetime {
  import opened Wrappers
  import JsNum
  import Calendar
  import CoreDatetime

  /** A JavaScript number as `parseHMS` can produce it: an integer or NaN. */
  datatype Number = Int(value: int) | NaN

  lemma FmtDateNonEmpty(d: Calendar.Date)
    ensures Calendar.FmtDate(d) != ""
  {
    var (y, m, day) := Calendar.CivilFromDays(d.dayNumber);
    assert |Calendar.Pad4(y)| >= 4;
  }

  /** `parseDate(d)`: `null` for the empty string, otherwise the parsed day. */
  function ParseDate(d: string, parse: string -> Calendar.Date): (r: Option<Calendar.Date>)
    ensures r.None? <==> d == ""
    ensures r.Some? ==> r.value == parse(d)
  {
    if d != "" then Some(parse(d)) else None
  }

  /** `fmtDate(d)`: `''` for `null`, otherwise the `yyyy-MM-dd` rendering. */
  function FmtDate(d: Option<Calendar.Date>): (r: string)
    ensures r == "" <==> d.None?
  {
    if d.None? then ""
    else
      FmtDateNonEmpty(d.value);
      Calendar.FmtDate(d.value)
  }

  /** `format(t, 'HH:mm:ss')` of a time of day. */
  function FmtClock(t: CoreDatetime.TimeOfDay): (r: string)
    ensures |r| >= 8
  {
    JsNum.Pad2(t.hours) + ":" + JsNum.Pad2(t.minutes) + ":" + JsNum.Pad2(t.seconds)
  }

  /** `parseTime(d)`: `null` for the empty string, otherwise the parsed time. */
  function ParseTime(d: string, parse: string -> CoreDatetime.TimeOfDay): (r: Option<CoreDatetime.TimeOfDay>)
    ensures r.None? <==> d == ""
    ensures r.Some? ==> r.value == parse(d)
  {
    if d != "" then Some(parse(d)) else None
  }

  /** `fmtTime(d)`: `''` for `null`, otherwise the `HH:mm:ss` rendering. */
  function FmtTime(t: Option<CoreDatetime.TimeOfDay>): (r: string)
    ensures r == "" <==> t.None?
  {
    if t.None? then "" else FmtClock(t.value)
  }

  /** Formatting then parsing keeps a missing date missing and a present one present. */
  lemma ParseFmtDate(d: Option<Calendar.Date>, parse: string -> Calendar.Date)
    ensures ParseDate(FmtDate(d), parse) == if d.None? then None else Some(parse(Calendar.FmtDate(d.value)))
  {
  }

  lemma ParseFmtTime(t: Option<CoreDatetime.TimeOfDay>, parse: string -> CoreDatetime.TimeOfDay)
    ensures ParseTime(FmtTime(t), parse) == if t.None? then None else Some(parse(FmtClock(t.value)))
  {
  }

  /**
   * `parseHMS(value)`: `-1` unless the string splits into exactly three
   * parts; otherwise `h * 3600 + m * 60 + s` of the `parseInt` of each
   * part, which is NaN as soon as one part is not a number.
   */
  function ParseHMS(value: Option<string>): (r: Number)
    ensures |CoreDatetime.Split(OrElse(value, ""), ':')| != 3 ==> r == Int(-1)
    ensures var a := CoreDatetime.Split(OrElse(value, ""), ':');
      |a| == 3 ==>
        (r.NaN? <==> JsNum.ParseInt(a[0]).None? || JsNum.ParseInt(a[1]).None? || JsNum.ParseInt(a[2]).None?)
  {
    var a := CoreDatetime.Split(OrElse(value, ""), ':');
    if |a| != 3 then Int(-1)
    else match (JsNum.ParseInt(a[0]), JsNum.ParseInt(a[1]), JsNum.ParseInt(a[2]))
      case (Some(h), Some(m), Some(s)) => Int(h * 3600 + m * 60 + s)
      case _ => NaN
  }

  /**
   * The legacy `parseHMS` agrees with the current one except where a part
   * is not a number: there the current one returns -1 and the legacy one NaN.
   */
  lemma ParseHMSAgainstCore(value: Option<string>)
    ensures ParseHMS(value).NaN? <==> ParseHMS(value) != Int(CoreDatetime.ParseHMS(value))
    ensures ParseHMS(value).NaN? ==> CoreDatetime.ParseHMS(value) == -1
  {
  }

  /** A well-formed `h:m:s` time parses to its number of seconds. */
  lemma ParseHMSOfFields(h: nat, m: nat, s: nat)
    ensures ParseHMS(Some(CoreDatetime.HMS(h, m, s))) == Int(h * 3600 + m * 60 + s)
  {
    CoreDatetime.ParseHMSOfFields(h, m, s);
  }
}
