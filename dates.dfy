/** Calendar dates as `datetime.strptime(s, '%Y-%m-%d')` reads them and
    `strftime('%Y-%m-%d')` writes them, the date-range check shared by the MCP
    server and the simplified API, the default window of the last N days, and
    the monthly ranges of `generate_date_ranges` (GA4query3.py). */
module Dates {
  import opened Base
  import opened Strings

  datatype Date = Date(year: int, month: int, day: int)

  predicate LeapYear(y: int)
  {
    y % 4 == 0 && (y % 100 != 0 || y % 400 == 0)
  }

  function DaysInMonth(y: int, m: int): int
    requires 1 <= m <= 12
  {
    if m == 2 then (if LeapYear(y) then 29 else 28)
    else if m == 4 || m == 6 || m == 9 || m == 11 then 30
    else 31
  }

  /** A date `datetime` accepts: years 1 to 9999, a real day of the month. */
  predicate ValidDate(d: Date)
  {
    1 <= d.year <= 9999 && 1 <= d.month <= 12 && 1 <= d.day <= DaysInMonth(d.year, d.month)
  }

  /** Date order, as `datetime` compares two midnights. */
  predicate DateLessEq(a: Date, b: Date)
  {
    a.year < b.year || (a.year == b.year && (a.month < b.month || (a.month == b.month && a.day <= b.day)))
  }

  // ---------------------------------------------------------------------------
  // Parsing

  predicate IsDigit(c: char)
  {
    '0' <= c <= '9'
  }

  function DigitValue(c: char): int
  {
    c as int - '0' as int
  }

  /** `%Y`: exactly four digits. */
  function YearText(t: string): Option<int>
  {
    if |t| == 4 && IsDigit(t[0]) && IsDigit(t[1]) && IsDigit(t[2]) && IsDigit(t[3]) then
      Some(1000 * DigitValue(t[0]) + 100 * DigitValue(t[1]) + 10 * DigitValue(t[2]) + DigitValue(t[3]))
    else None
  }

  /** `%m`: one of `10`-`12`, `01`-`09` or a single digit `1`-`9`. */
  function MonthText(t: string): (m: Option<int>)
    ensures m.Some? ==> 1 <= m.value <= 12
  {
    if |t| == 1 && '1' <= t[0] <= '9' then Some(DigitValue(t[0]))
    else if |t| == 2 && t[0] == '0' && '1' <= t[1] <= '9' then Some(DigitValue(t[1]))
    else if |t| == 2 && t[0] == '1' && '0' <= t[1] <= '2' then Some(10 + DigitValue(t[1]))
    else None
  }

  /** `%d`: one of `30`, `31`, `10`-`29`, `01`-`09`, a single digit `1`-`9`,
      or a space followed by `1`-`9`. */
  function DayText(t: string): (d: Option<int>)
    ensures d.Some? ==> 1 <= d.value <= 31
  {
    if |t| == 1 && '1' <= t[0] <= '9' then Some(DigitValue(t[0]))
    else if |t| == 2 && (t[0] == '0' || t[0] == ' ') && '1' <= t[1] <= '9' then Some(DigitValue(t[1]))
    else if |t| == 2 && '1' <= t[0] <= '2' && IsDigit(t[1]) then Some(10 * DigitValue(t[0]) + DigitValue(t[1]))
    else if |t| == 2 && t[0] == '3' && '0' <= t[1] <= '1' then Some(30 + DigitValue(t[1]))
    else None
  }

  /** `datetime.strptime(s, '%Y-%m-%d')`: None where it raises ValueError. The
      three fields are the text around the two dashes (no field pattern
      admits a dash), and the date must exist. */
  function ParseDate(s: string): (r: Option<Date>)
    ensures r.Some? ==> ValidDate(r.value)
  {
    var parts := Split(s, '-');
    if |parts| != 3 then None
    else
      match (YearText(parts[0]), MonthText(parts[1]), DayText(parts[2]))
      case (Some(y), Some(m), Some(d)) => if ValidDate(Date(y, m, d)) then Some(Date(y, m, d)) else None
      case _ => None
  }

  /** `validate_date_range` (mcp_server.py and simplified_api.py): both dates
      parse and the start is not after the end. */
  function ValidateDateRange(startDate: string, endDate: string): (ok: bool)
    ensures ok ==> ParseDate(startDate).Some? && ParseDate(endDate).Some?
  {
    match (ParseDate(startDate), ParseDate(endDate))
    case (Some(s), Some(e)) => DateLessEq(s, e)
    case _ => false
  }

  // ---------------------------------------------------------------------------
  // Formatting

  function Pad2(n: int): (s: string)
    requires 0 <= n < 100
    ensures |s| == 2
  {
    [DigitChar(n / 10), DigitChar(n % 10)]
  }

  function Pad4(n: int): (s: string)
    requires 0 <= n < 10000
    ensures |s| == 4
  {
    Pad2(n / 100) + Pad2(n % 100)
  }

  /** `strftime('%Y-%m-%d')`. */
  function FormatDate(d: Date): (s: string)
    requires ValidDate(d)
    ensures |s| == 10
  {
    Pad4(d.year) + "-" + Pad2(d.month) + "-" + Pad2(d.day)
  }

  lemma FormatFields(d: Date)
    requires ValidDate(d)
    ensures Split(FormatDate(d), '-') == [Pad4(d.year), Pad2(d.month), Pad2(d.day)]
  {
    var parts := [Pad4(d.year), Pad2(d.month), Pad2(d.day)];
    assert Join(parts, '-') == FormatDate(d) by {
      assert Join(parts[2..], '-') == Pad2(d.day);
      assert Join(parts[1..], '-') == Pad2(d.month) + ['-'] + Pad2(d.day);
    }
    forall i | 0 <= i < 3 ensures '-' !in parts[i] {
      assert forall j :: 0 <= j < |parts[i]| ==> IsDigit(parts[i][j]);
    }
    SplitJoin(parts, '-');
  }

  lemma YearRoundTrip(y: int)
    requires 0 <= y < 10000
    ensures YearText(Pad4(y)) == Some(y)
  {
    var hi, lo := y / 100, y % 100;
    assert y == 100 * hi + lo;
    var t := Pad4(y);
    assert t == [DigitChar(hi / 10), DigitChar(hi % 10), DigitChar(lo / 10), DigitChar(lo % 10)];
    assert hi == 10 * (hi / 10) + hi % 10 && lo == 10 * (lo / 10) + lo % 10;
  }

  lemma MonthRoundTrip(m: int)
    requires 1 <= m <= 12
    ensures MonthText(Pad2(m)) == Some(m)
  {
  }

  lemma DayRoundTrip(d: int)
    requires 1 <= d <= 31
    ensures DayText(Pad2(d)) == Some(d)
  {
  }

  /** Reading back a formatted date gives the date. */
  lemma ParseFormat(d: Date)
    requires ValidDate(d)
    ensures ParseDate(FormatDate(d)) == Some(d)
  {
    FormatFields(d);
    YearRoundTrip(d.year);
    MonthRoundTrip(d.month);
    DayRoundTrip(d.day);
  }

  /** A range whose formatted start is not after its end always validates. */
  lemma FormattedRangeValidates(s: Date, e: Date)
    requires ValidDate(s) && ValidDate(e)
    ensures ValidateDateRange(FormatDate(s), FormatDate(e)) <==> DateLessEq(s, e)
  {
    ParseFormat(s);
    ParseFormat(e);
  }

  /** `strptime` takes one-digit months and days: "2024-1-1" is the first of
      January 2024. */
  lemma OneDigitFieldsAccepted()
    ensures ParseDate("2024-1-1") == Some(Date(2024, 1, 1))
  {
    OneDigitFields();
    assert YearText("2024") == Some(2024) && MonthText("1") == Some(1) && DayText("1") == Some(1);
    assert ValidDate(Date(2024, 1, 1));
  }

  lemma OneDigitFields()
    ensures Split("2024-1-1", '-') == ["2024", "1", "1"]
  {
    var parts := ["2024", "1", "1"];
    assert Join(parts[2..], '-') == "1";
    assert Join(parts[1..], '-') == "1-1";
    assert Join(parts, '-') == "2024-1-1";
    SplitJoin(parts, '-');
  }

  /** A day past the end of its month is rejected, leap days only in leap years. */
  lemma MonthEndsChecked()
    ensures !ValidDate(Date(2024, 2, 30)) && ValidDate(Date(2024, 2, 29)) && !ValidDate(Date(2023, 2, 29))
    ensures !ValidDate(Date(1900, 2, 29)) && ValidDate(Date(2000, 2, 29))
  {
  }

  // ---------------------------------------------------------------------------
  // Days back from today

  /** The day before `d` (for a date after 0001-01-01). */
  function PrevDay(d: Date): (p: Date)
    requires ValidDate(d) && !(d.year == 1 && d.month == 1 && d.day == 1)
    ensures ValidDate(p) && DateLessEq(p, d) && p != d
    ensures p.year >= d.year - 1
  {
    if d.day > 1 then Date(d.year, d.month, d.day - 1)
    else if d.month > 1 then Date(d.year, d.month - 1, DaysInMonth(d.year, d.month - 1))
    else Date(d.year - 1, 12, 31)
  }

  /** `d - timedelta(days=n)`; `n` must not reach before year `d.year - n`,
      which a year above `n` guarantees. */
  function DaysBack(d: Date, n: nat): (r: Date)
    requires ValidDate(d) && d.year > n
    ensures ValidDate(r) && DateLessEq(r, d)
    ensures r.year >= d.year - n
    decreases n
  {
    if n == 0 then d
    else
      var p := PrevDay(d);
      var r := DaysBack(p, n - 1);
      DateOrderTransitive(r, p, d);
      r
  }

  lemma DateOrderTransitive(a: Date, b: Date, c: Date)
    requires DateLessEq(a, b) && DateLessEq(b, c)
    ensures DateLessEq(a, c)
  {
  }

  /** `get_default_date_range(days)`: from `days` before today to today. */
  function DefaultDateRange(today: Date, days: nat): (r: (string, string))
    requires ValidDate(today) && today.year > days
    ensures ParseDate(r.1) == Some(today)
  {
    ParseFormat(today);
    (FormatDate(DaysBack(today, days)), FormatDate(today))
  }

  /** The default range always passes the date-range check. */
  lemma DefaultRangeValidates(today: Date, days: nat)
    requires ValidDate(today) && today.year > days
    ensures var r := DefaultDateRange(today, days); ValidateDateRange(r.0, r.1)
  {
    FormattedRangeValidates(DaysBack(today, days), today);
  }

  // ---------------------------------------------------------------------------
  // Monthly ranges (GA4query3.py)

  datatype DateRange = DateRange(startDate: string, endDate: string)

  /** Months counted from year 0: `12 * year + month - 1`. */
  function MonthIndex(d: Date): int
  {
    12 * d.year + d.month - 1
  }

  function MonthAt(index: int): (d: Date)
    requires 12 <= index < 120000
    ensures ValidDate(d) && d.day == 1 && MonthIndex(d) == index
  {
    Date(index / 12, index % 12 + 1, 1)
  }

  /** The range for one month: its 1st to its 28th. */
  function MonthRange(index: int): DateRange
    requires 12 <= index < 120000
  {
    var m := MonthAt(index);
    DateRange(FormatDate(m), FormatDate(Date(m.year, m.month, 28)))
  }

  /** The ranges of months `first` .. `last`, in ascending order. */
  function MonthRanges(first: int, last: int): (r: seq<DateRange>)
    requires 12 <= first && last < 120000
    ensures |r| == if last < first then 0 else last - first + 1
    ensures forall i :: 0 <= i < |r| ==> r[i] == MonthRange(first + i)
  {
    seq(if last < first then 0 else last - first + 1, i requires 0 <= i && first + i < 120000 => MonthRange(first + i))
  }

  /** A month's range runs from its 1st to its 28th, both valid dates. */
  lemma MonthRangeSpec(index: int)
    requires 12 <= index < 120000
    ensures ParseDate(MonthRange(index).startDate) == Some(MonthAt(index))
    ensures ParseDate(MonthRange(index).endDate) == Some(Date(MonthAt(index).year, MonthAt(index).month, 28))
  {
    var m := MonthAt(index);
    ParseFormat(m);
    ParseFormat(Date(m.year, m.month, 28));
  }

  /** Later month indices are later months. */
  lemma MonthOrder(x: int, y: int)
    requires 12 <= x < y < 120000
    ensures DateLessEq(MonthAt(x), MonthAt(y)) && MonthAt(x) != MonthAt(y)
  {
  }

  /** The ranges from month `first` to month `last`: stepping past December
      9999 raises. */
  function RangesBetween(first: int, last: int): (r: Result<seq<DateRange>>)
    requires 12 <= first < 120000 && 12 <= last < 120000
    ensures r.Err? <==> first <= last && last == 12 * 9999 + 11
  {
    if first <= last && last == 12 * 9999 + 11 then Err(YearOverflow) else Ok(MonthRanges(first, last))
  }

  /** What `generate_date_ranges` returns: both months are read as 'YYYY-MM'
      through strptime (a bad one raises), then the months between them. */
  function DateRanges(startMonth: string, endMonth: string): (r: Result<seq<DateRange>>)
    ensures ParseDate(startMonth + "-01").None? || ParseDate(endMonth + "-01").None? ==> r.Err?
  {
    match (ParseDate(startMonth + "-01"), ParseDate(endMonth + "-01"))
    case (Some(s), Some(e)) => RangesBetween(MonthIndex(s), MonthIndex(e))
    case _ => Err(BadMonth)
  }

  /** `generate_date_ranges`. */
  method GenerateDateRanges(startMonth: string, endMonth: string) returns (r: Result<seq<DateRange>>)
    ensures r == DateRanges(startMonth, endMonth)
  {
    var s := ParseDate(startMonth + "-01");
    var e := ParseDate(endMonth + "-01");
    if s.None? || e.None? {
      return Err(BadMonth);
    }
    r := AppendMonths(MonthIndex(s.value), MonthIndex(e.value));
  }

  /** The month loop: a range per month while the month is not after the end. */
  method AppendMonths(first: int, last: int) returns (r: Result<seq<DateRange>>)
    requires 12 <= first < 120000 && 12 <= last < 120000
    ensures r == RangesBetween(first, last)
  {
    var ranges: seq<DateRange> := [];
    var current := first;
    while current <= last
      invariant first <= current <= last + 1 || (current == first && last < first)
      invariant current < 120000
      invariant |ranges| == current - first
      invariant forall i :: 0 <= i < |ranges| ==> ranges[i] == MonthRange(first + i)
      decreases last - current
    {
      ranges := ranges + [MonthRange(current)];
      if current + 1 >= 120000 {
        return Err(YearOverflow);
      }
      current := current + 1;
    }
    assert ranges == MonthRanges(first, last);
    r := Ok(ranges);
  }

  const BadMonth: string := "time data does not match format '%Y-%m-%d'"
  const YearOverflow: string := "year 10000 is out of range"
}
