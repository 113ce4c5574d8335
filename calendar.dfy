/**
 * The calendar days the TypeScript sources handle as `Date` values.
 *
 * A day is its number of days since 1970-01-01 in local time (a `Date` at
 * local midnight); `getDay()` is its weekday (0 = Sunday) and
 * `fmtDate` / `format(d, 'yyyy-MM-dd')` its ISO date string.
 */
module Calendar {
  import JsNum

  datatype Date = Date(dayNumber: int)

  /** `date.getDay()`: 1970-01-01 was a Thursday (4). */
  function Weekday(d: Date): (w: int)
    ensures 0 <= w < 7
  {
    (d.dayNumber + 4) % 7
  }

  /** `d.setDate(d.getDate() + 1)`. */
  function NextDay(d: Date): Date
  {
    Date(d.dayNumber + 1)
  }

  lemma WeekdayOfNextDay(d: Date)
    ensures Weekday(NextDay(d)) == (Weekday(d) + 1) % 7
  {
  }

  /** The lower-case day names indexed by `getDay()`. */
  const DayNames: seq<string> := ["sunday", "monday", "tuesday", "wednesday", "thursday", "friday", "saturday"]

  /** The capitalised day names indexed by `getDay()` (date-fns `EEEE`). */
  const CapitalisedDayNames: seq<string> := ["Sunday", "Monday", "Tuesday", "Wednesday", "Thursday", "Friday", "Saturday"]

  /** The proleptic Gregorian (year, month, day) of a day number. */
  function CivilFromDays(n: int): (int, int, int)
  {
    var z := n + 719468;
    var era := z / 146097;
    var doe := z - era * 146097;
    var yoe := (doe - doe / 1460 + doe / 36524 - doe / 146096) / 365;
    var doy := doe - (365 * yoe + yoe / 4 - yoe / 100);
    var mp := (5 * doy + 2) / 153;
    var day := doy - (153 * mp + 2) / 5 + 1;
    var month := if mp < 10 then mp + 3 else mp - 9;
    var year := yoe + era * 400 + (if month <= 2 then 1 else 0);
    (year, month, day)
  }

  function Pad4(i: int): string
  {
    var t := JsNum.IntToString(i);
    if |t| >= 4 then t else seq(4 - |t|, _ => '0') + t
  }

  /** `fmtDate(d)`: the `yyyy-MM-dd` rendering of a day. */
  function FmtDate(d: Date): string
  {
    var (y, m, day) := CivilFromDays(d.dayNumber);
    Pad4(y) + "-" + JsNum.Pad2(m) + "-" + JsNum.Pad2(day)
  }
}
