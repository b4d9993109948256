/**
 * The time helpers of the import planner in `cheesepie/importer.py`: the `HH:MM` reader
 * `_safe_time_str`, `_combine_date_time` (a `datetime.strptime` with `'%Y-%m-%d %H:%M'`)
 * and `_day_windows`, which cuts a date range into one recording window per day.
 *
 * Date-times are naive wall-clock values counted in minutes since 1970-01-01 00:00; a date is
 * its day number since 1970-01-01 (the proleptic Gregorian calendar of Python's `date`).
 */
module ImporterTime {
  import opened Wrappers
  import opened Text

  // ---------------------------------------------------------------------------
  // Calendar
  // ---------------------------------------------------------------------------

  predicate IsLeap(y: int) {
    y % 4 == 0 && (y % 100 != 0 || y % 400 == 0)
  }

  function DaysInYear(y: int): int {
    if IsLeap(y) then 366 else 365
  }

  function DaysInMonth(y: int, m: int): (r: int)
    requires 1 <= m <= 12
    ensures 28 <= r <= 31
  {
    if m == 2 then (if IsLeap(y) then 29 else 28)
    else if m == 4 || m == 6 || m == 9 || m == 11 then 30
    else 31
  }

  /** The dates `datetime` accepts: years 1 to 9999 and a day that exists in its month. */
  predicate ValidDate(y: int, m: int, d: int) {
    1 <= y <= 9999 && 1 <= m <= 12 && 1 <= d <= DaysInMonth(y, m)
  }

  function DaysBeforeMonth(y: int, m: int): int
    requires 1 <= m <= 12
  {
    if m == 1 then 0 else DaysBeforeMonth(y, m - 1) + DaysInMonth(y, m - 1)
  }

  function DaysBeforeYear(y: int): int
    requires y >= 1
  {
    var p := y - 1;
    p * 365 + p / 4 - p / 100 + p / 400
  }

  /** The ordinal of 1970-01-01 in Python's `date.toordinal()`, which counts 0001-01-01 as 1. */
  const EpochOrdinal: int := 719163

  /** `date(y, m, d).toordinal()` shifted so that 1970-01-01 is day 0. */
  function EpochDay(y: int, m: int, d: int): int
    requires ValidDate(y, m, d)
  {
    DaysBeforeYear(y) + DaysBeforeMonth(y, m) + d - EpochOrdinal
  }

  /** The calendar date after a valid date. */
  function NextDate(y: int, m: int, d: int): (int, int, int)
    requires ValidDate(y, m, d)
  {
    if d < DaysInMonth(y, m) then (y, m, d + 1)
    else if m < 12 then (y, m + 1, 1)
    else (y + 1, 1, 1)
  }

  lemma DaysBeforeDecember(y: int)
    ensures DaysBeforeMonth(y, 12) + 31 == DaysInYear(y)
  {
    assert DaysBeforeMonth(y, 2) == 31;
    assert DaysBeforeMonth(y, 3) == 31 + DaysInMonth(y, 2);
    assert DaysBeforeMonth(y, 4) == DaysBeforeMonth(y, 3) + 31;
    assert DaysBeforeMonth(y, 5) == DaysBeforeMonth(y, 4) + 30;
    assert DaysBeforeMonth(y, 6) == DaysBeforeMonth(y, 5) + 31;
    assert DaysBeforeMonth(y, 7) == DaysBeforeMonth(y, 6) + 30;
    assert DaysBeforeMonth(y, 8) == DaysBeforeMonth(y, 7) + 31;
    assert DaysBeforeMonth(y, 9) == DaysBeforeMonth(y, 8) + 31;
    assert DaysBeforeMonth(y, 10) == DaysBeforeMonth(y, 9) + 30;
    assert DaysBeforeMonth(y, 11) == DaysBeforeMonth(y, 10) + 31;
    assert DaysBeforeMonth(y, 12) == DaysBeforeMonth(y, 11) + 30;
  }

  lemma DaysBeforeNextYear(y: int)
    requires y >= 1
    ensures DaysBeforeYear(y + 1) == DaysBeforeYear(y) + DaysInYear(y)
  {
    var p := y - 1;
    assert (p + 1) / 4 == p / 4 + (if y % 4 == 0 then 1 else 0);
    assert (p + 1) / 100 == p / 100 + (if y % 100 == 0 then 1 else 0);
    assert (p + 1) / 400 == p / 400 + (if y % 400 == 0 then 1 else 0);
  }

  /** Day numbers count calendar days: the next date has the next day number. */
  lemma NextDateIsNextDay(y: int, m: int, d: int)
    requires ValidDate(y, m, d) && y < 9999
    ensures var (y', m', d') := NextDate(y, m, d);
      ValidDate(y', m', d') && EpochDay(y', m', d') == EpochDay(y, m, d) + 1
  {
    if d == DaysInMonth(y, m) && m == 12 {
      DaysBeforeDecember(y);
      DaysBeforeNextYear(y);
    }
  }

  lemma EpochDayOrigin()
    ensures EpochDay(1970, 1, 1) == 0
  {
  }

  // ---------------------------------------------------------------------------
  // _safe_time_str
  // ---------------------------------------------------------------------------

  /** The hour and minute `_safe_time_str` reads: `int()` of both sides of the first colon, in range. */
  function SafeTimeParts(s: string): (r: Option<(int, int)>)
    ensures r.Some? ==> 0 <= r.value.0 <= 23 && 0 <= r.value.1 <= 59
  {
    match SplitOnce(Strip(s), ':')
    case None => None
    case Some((hh, mm)) =>
      match (ParseInt(hh), ParseInt(mm))
      case (Some(h), Some(m)) => if 0 <= h <= 23 && 0 <= m <= 59 then Some((h, m)) else None
      case _ => None
  }

  /** `f"{h:02d}:{m:02d}"` */
  function FormatHHMM(h: int, m: int): string {
    PadInt(h, 2) + ":" + PadInt(m, 2)
  }

  /** `_safe_time_str` */
  function SafeTime(s: string): Option<string> {
    match SafeTimeParts(s)
    case Some((h, m)) => Some(FormatHHMM(h, m))
    case None => None
  }

  lemma TwoDigits(n: int)
    requires 0 <= n <= 99
    ensures |PadInt(n, 2)| == 2 && IsDigits(PadInt(n, 2)) && ParseInt(PadInt(n, 2)) == Some(n)
  {
    PadIntLength(n, 2);
    PadIntRoundTrip(n, 2);
    UnsignedRoundTrip(PadInt(n, 2));
  }

  lemma DigitsHaveNo(s: string, c: char)
    requires AllDigits(s) && !IsDigit(c)
    ensures c !in s
  {
    assert forall i :: 0 <= i < |s| ==> s[i] != c;
  }

  /** A formatted `HH:MM` is five characters and reads back as the same hour and minute. */
  lemma FormatHHMMParts(h: int, m: int)
    requires 0 <= h <= 23 && 0 <= m <= 59
    ensures |FormatHHMM(h, m)| == 5 && FormatHHMM(h, m)[2] == ':'
    ensures SafeTimeParts(FormatHHMM(h, m)) == Some((h, m))
  {
    var a, b := PadInt(h, 2), PadInt(m, 2);
    TwoDigits(h);
    TwoDigits(m);
    var t := FormatHHMM(h, m);
    assert t == a + [':'] + b;
    DigitNotSpace(a[0]);
    DigitNotSpace(b[1]);
    StripUnchanged(t);
    DigitsHaveNo(a, ':');
    SplitOnceConcat(a, ':', b);
  }

  /** `_safe_time_str` is idempotent, and its output reads back as the time it read. */
  lemma SafeTimeIdempotent(s: string)
    ensures SafeTime(s).Some? ==> SafeTimeParts(SafeTime(s).value) == SafeTimeParts(s)
    ensures SafeTime(s).Some? ==> SafeTime(SafeTime(s).value) == SafeTime(s)
    ensures SafeTime(s).Some? ==> |SafeTime(s).value| == 5
  {
    if SafeTimeParts(s).Some? {
      FormatHHMMParts(SafeTimeParts(s).value.0, SafeTimeParts(s).value.1);
    }
  }

  // ---------------------------------------------------------------------------
  // strptime('%Y-%m-%d')
  // ---------------------------------------------------------------------------

  /** The `%Y` field of `strptime`: exactly four digits. */
  function YearField(s: string): Option<int> {
    if |s| == 4 && AllDigits(s) then Some(DigitsValue(s)) else None
  }

  /** The `%m` field: one or two digits with a value from 1 to 12. */
  function MonthField(s: string): Option<int> {
    if 1 <= |s| <= 2 && AllDigits(s) && 1 <= DigitsValue(s) <= 12 then Some(DigitsValue(s)) else None
  }

  /** The `%d` field: one or two digits with a value from 1 to 31, or a space and a digit from 1 to 9. */
  function DayField(s: string): Option<int> {
    if 1 <= |s| <= 2 && AllDigits(s) && 1 <= DigitsValue(s) <= 31 then Some(DigitsValue(s))
    else if |s| == 2 && s[0] == ' ' && '1' <= s[1] <= '9' then Some(s[1] as int - '0' as int)
    else None
  }

  /** The date `strptime` reads from `YYYY-MM-DD`, or `None` when it raises. */
  function ParseDate(ds: string): (r: Option<(int, int, int)>)
    ensures r.Some? ==> ValidDate(r.value.0, r.value.1, r.value.2)
  {
    var parts := Split(ds, '-');
    if |parts| != 3 then None
    else
      match (YearField(parts[0]), MonthField(parts[1]), DayField(parts[2]))
      case (Some(y), Some(m), Some(d)) => if ValidDate(y, m, d) then Some((y, m, d)) else None
      case _ => None
  }

  /** `date.isoformat()` */
  function FormatDate(y: int, m: int, d: int): string {
    PadInt(y, 4) + "-" + PadInt(m, 2) + "-" + PadInt(d, 2)
  }

  lemma YearFieldPad(y: int)
    requires 1 <= y <= 9999
    ensures YearField(PadInt(y, 4)) == Some(y) && '-' !in PadInt(y, 4)
  {
    PadIntLength(y, 4);
    PadIntRoundTrip(y, 4);
    DigitsHaveNo(PadInt(y, 4), '-');
  }

  lemma TwoDigitField(n: int)
    requires 1 <= n <= 31
    ensures DayField(PadInt(n, 2)) == Some(n) && '-' !in PadInt(n, 2)
    ensures n <= 12 ==> MonthField(PadInt(n, 2)) == Some(n)
  {
    PadIntLength(n, 2);
    PadIntRoundTrip(n, 2);
    DigitsHaveNo(PadInt(n, 2), '-');
  }

  /** Three separator-free pieces joined by the separator split back into those pieces. */
  lemma SplitThree(a: string, b: string, c: string, sep: char)
    requires sep !in a && sep !in b && sep !in c
    ensures Split(a + [sep] + b + [sep] + c, sep) == [a, b, c]
  {
    var bc := b + [sep] + c;
    JoinThree(a, [sep], b, [sep], c);
    assert Split(bc, sep) == [b, c] by {
      SplitConcat(b, sep, c);
      assert SplitOnce(c, sep).None?;
    }
    SplitConcat(a, sep, bc);
  }

  lemma JoinThree<T>(a: seq<T>, x: seq<T>, b: seq<T>, y: seq<T>, c: seq<T>)
    ensures a + x + b + y + c == a + x + (b + y + c)
  {
  }

  /** Every valid date survives `isoformat` followed by `strptime`. */
  lemma ParseFormatDate(y: int, m: int, d: int)
    requires ValidDate(y, m, d)
    ensures ParseDate(FormatDate(y, m, d)) == Some((y, m, d))
  {
    YearFieldPad(y);
    TwoDigitField(m);
    TwoDigitField(d);
    SplitThree(PadInt(y, 4), PadInt(m, 2), PadInt(d, 2), '-');
  }

  // ---------------------------------------------------------------------------
  // _combine_date_time
  // ---------------------------------------------------------------------------

  /** The day number of `minutes`, a naive date-time. */
  function DayOf(minutes: int): int {
    minutes / 1440
  }

  /** The minute of the day of `minutes`. */
  function ClockOf(minutes: int): int {
    minutes % 1440
  }

  /**
   * `_combine_date_time`: the stripped date and the `_safe_time_str` time read together,
   * as minutes since 1970-01-01 00:00; `None` when either is blank or does not parse.
   */
  function CombineDateTime(dateStr: string, timeStr: string): (r: Option<int>)
    ensures r.Some? ==> SafeTimeParts(timeStr).Some? && ParseDate(Strip(dateStr)).Some?
  {
    var ds := Strip(dateStr);
    match SafeTimeParts(timeStr)
    case None => None
    case Some((h, m)) =>
      if ds == [] then None
      else
        match ParseDate(ds)
        case None => None
        case Some((y, mo, d)) => Some(EpochDay(y, mo, d) * 1440 + h * 60 + m)
  }

  /** A combined date-time falls on the parsed date, at the parsed clock time. */
  lemma CombineDateTimeParts(dateStr: string, timeStr: string)
    requires CombineDateTime(dateStr, timeStr).Some?
    ensures var (y, mo, d) := ParseDate(Strip(dateStr)).value;
      var (h, m) := SafeTimeParts(timeStr).value;
      && DayOf(CombineDateTime(dateStr, timeStr).value) == EpochDay(y, mo, d)
      && ClockOf(CombineDateTime(dateStr, timeStr).value) == h * 60 + m
  {
  }

  /** Both parts are required: a blank or malformed date or time gives `None`. */
  lemma CombineDateTimeNone(dateStr: string, timeStr: string)
    ensures CombineDateTime(dateStr, timeStr).None? <==>
      SafeTimeParts(timeStr).None? || ParseDate(Strip(dateStr)).None?
  {
    if Strip(dateStr) == [] {
      assert Split([], '-') == [[]];
    }
  }

  // ---------------------------------------------------------------------------
  // _day_windows
  // ---------------------------------------------------------------------------

  /** One recording window, as naive minutes. */
  datatype Window = Window(start: int, end: int)

  /** The window on day `day` from `sh:sm` to `eh:em`, moved to end a day later when the end is not after the start. */
  function WindowOn(day: int, sh: int, sm: int, eh: int, em: int): Window {
    var base := day * 1440 + sh * 60 + sm;
    var endBase := day * 1440 + eh * 60 + em;
    Window(base, if endBase <= base then endBase + 1440 else endBase)
  }

  /** The windows' clock times: the start time, and the end time or else the start time. */
  function StartClock(startTime: string): (int, int) {
    SafeTimeParts(startTime).GetOr((0, 0))
  }

  function EndClock(startTime: string, endTime: string): (int, int) {
    SafeTimeParts(endTime).GetOr(StartClock(startTime))
  }

  /** Both clock times are valid times of day. */
  lemma ClocksInRange(startTime: string, endTime: string)
    ensures 0 <= StartClock(startTime).0 <= 23 && 0 <= StartClock(startTime).1 <= 59
    ensures 0 <= EndClock(startTime, endTime).0 <= 23 && 0 <= EndClock(startTime, endTime).1 <= 59
  {
  }

  /** `days` in `_day_windows`: the number of calendar days from the start date to the end date, inclusive. */
  function DaySpan(startDt: int, endRef: int): int {
    DayOf(endRef) - DayOf(startDt) + 1
  }

  /** `n` windows on consecutive days from `day0`. */
  function WindowSeq(day0: int, n: nat, sc: (int, int), ec: (int, int)): (r: seq<Window>)
    ensures |r| == n && forall i :: 0 <= i < n ==> r[i] == WindowOn(day0 + i, sc.0, sc.1, ec.0, ec.1)
  {
    seq(n, i => WindowOn(day0 + i, sc.0, sc.1, ec.0, ec.1))
  }

  /** The windows from the parsed start and end reference date-times and the two clock times. */
  function WindowsFor(startDt: Option<int>, endRef: Option<int>, sc: (int, int), ec: (int, int)): seq<Window> {
    if startDt.Some? && endRef.Some? then
      var days := DaySpan(startDt.value, endRef.value);
      WindowSeq(DayOf(startDt.value), if days > 1 then days else 1, sc, ec)
    else []
  }

  /** `_day_windows` */
  function DayWindowsOf(startDate: string, endDate: string, startTime: string, endTime: string): seq<Window> {
    WindowsFor(CombineDateTime(startDate, startTime), CombineDateTime(endDate, startTime),
      StartClock(startTime), EndClock(startTime, endTime))
  }

  /** The loop of `_day_windows`, one window appended per day. */
  method DayWindows(startDate: string, endDate: string, startTime: string, endTime: string) returns (windows: seq<Window>)
    ensures windows == DayWindowsOf(startDate, endDate, startTime, endTime)
  {
    var startDt := CombineDateTime(startDate, startTime);
    var endRef := CombineDateTime(endDate, startTime);
    if startDt.None? || endRef.None? {
      return [];
    }
    var days := DaySpan(startDt.value, endRef.value);
    var sc := StartClock(startTime);
    var ec := EndClock(startTime, endTime);
    var n := if days > 1 then days else 1;
    var day0 := DayOf(startDt.value);
    windows := [];
    var i := 0;
    while i < n
      invariant 0 <= i <= n
      invariant |windows| == i && forall k :: 0 <= k < i ==> windows[k] == WindowOn(day0 + k, sc.0, sc.1, ec.0, ec.1)
    {
      windows := windows + [WindowOn(day0 + i, sc.0, sc.1, ec.0, ec.1)];
      i := i + 1;
    }
    assert windows == WindowSeq(day0, n, sc, ec);
  }

  /** No windows exactly when the start date, the end date or the start time does not parse. */
  lemma DayWindowsEmpty(startDate: string, endDate: string, startTime: string, endTime: string)
    ensures DayWindowsOf(startDate, endDate, startTime, endTime) == [] <==>
      CombineDateTime(startDate, startTime).None? || CombineDateTime(endDate, startTime).None?
  {
  }

  /** Otherwise there are `max(1, days)` windows, even when the end date is before the start date. */
  lemma DayWindowsCount(startDate: string, endDate: string, startTime: string, endTime: string)
    requires CombineDateTime(startDate, startTime).Some? && CombineDateTime(endDate, startTime).Some?
    ensures var days := DaySpan(CombineDateTime(startDate, startTime).value, CombineDateTime(endDate, startTime).value);
      |DayWindowsOf(startDate, endDate, startTime, endTime)| == if days > 1 then days else 1
  {
  }

  /** Consecutive windows start exactly one day apart. */
  lemma WindowSeqSpacing(day0: int, n: nat, sc: (int, int), ec: (int, int))
    ensures var w := WindowSeq(day0, n, sc, ec);
      forall i :: 0 <= i < |w| - 1 ==> w[i + 1].start == w[i].start + 1440
  {
  }

  /** The first window starts at the start date and time; each later one starts exactly one day after the previous. */
  lemma DayWindowsSpacing(startDate: string, endDate: string, startTime: string, endTime: string)
    requires CombineDateTime(startDate, startTime).Some? && CombineDateTime(endDate, startTime).Some?
    ensures DayWindowsOf(startDate, endDate, startTime, endTime)[0].start == CombineDateTime(startDate, startTime).value
    ensures var w := DayWindowsOf(startDate, endDate, startTime, endTime);
      forall i :: 0 <= i < |w| - 1 ==> w[i + 1].start == w[i].start + 1440
  {
    var s := CombineDateTime(startDate, startTime).value;
    CombineDateTimeParts(startDate, startTime);
    MinuteParts(DayOf(s), ClockOf(s));
    WindowSeqSpacing(DayOf(s), |DayWindowsOf(startDate, endDate, startTime, endTime)|, StartClock(startTime), EndClock(startTime, endTime));
  }

  /** In every window the clocks are the given ones, and the end is the same day or the next one. */
  lemma WindowSeqShape(day0: int, n: nat, sc: (int, int), ec: (int, int))
    requires 0 <= sc.0 * 60 + sc.1 < 1440 && 0 <= ec.0 * 60 + ec.1 < 1440
    ensures var w := WindowSeq(day0, n, sc, ec);
      forall i :: 0 <= i < |w| ==>
        && ClockOf(w[i].start) == sc.0 * 60 + sc.1
        && ClockOf(w[i].end) == ec.0 * 60 + ec.1
        && DayOf(w[i].end) == DayOf(w[i].start) + (if ClockOf(w[i].end) <= ClockOf(w[i].start) then 1 else 0)
        && 0 < w[i].end - w[i].start <= 1440
  {
    var w := WindowSeq(day0, n, sc, ec);
    forall i | 0 <= i < |w|
      ensures ClockOf(w[i].start) == sc.0 * 60 + sc.1 && ClockOf(w[i].end) == ec.0 * 60 + ec.1
      ensures DayOf(w[i].end) == DayOf(w[i].start) + (if ClockOf(w[i].end) <= ClockOf(w[i].start) then 1 else 0)
    {
      MinuteParts(day0 + i, sc.0 * 60 + sc.1);
      MinuteParts(day0 + i, ec.0 * 60 + ec.1);
      MinuteParts(day0 + i + 1, ec.0 * 60 + ec.1);
    }
  }

  /**
   * Every window ends at the end time (or the start time when the end time does not parse), on
   * its start's date, or on the next date exactly when that clock time is not after the start's;
   * so every window is longer than nothing and at most one day long.
   */
  lemma DayWindowsShape(startDate: string, endDate: string, startTime: string, endTime: string)
    ensures var w := DayWindowsOf(startDate, endDate, startTime, endTime);
      var (eh, em) := EndClock(startTime, endTime);
      forall i :: 0 <= i < |w| ==>
        && ClockOf(w[i].start) == StartClock(startTime).0 * 60 + StartClock(startTime).1
        && ClockOf(w[i].end) == eh * 60 + em
        && DayOf(w[i].end) == DayOf(w[i].start) + (if ClockOf(w[i].end) <= ClockOf(w[i].start) then 1 else 0)
        && 0 < w[i].end - w[i].start <= 1440
  {
    ClocksInRange(startTime, endTime);
    var s := CombineDateTime(startDate, startTime);
    var e := CombineDateTime(endDate, startTime);
    if s.Some? && e.Some? {
      var days := DaySpan(s.value, e.value);
      WindowSeqShape(DayOf(s.value), if days > 1 then days else 1, StartClock(startTime), EndClock(startTime, endTime));
    }
  }

  /** Windows whose end clock equals their start clock last exactly one day. */
  lemma WindowSeqWholeDays(day0: int, n: nat, sc: (int, int))
    ensures var w := WindowSeq(day0, n, sc, sc);
      forall i :: 0 <= i < |w| ==> w[i].end - w[i].start == 1440
  {
  }

  /** An end time that does not parse gives windows of exactly one day. */
  lemma DayWindowsWholeDays(startDate: string, endDate: string, startTime: string, endTime: string)
    requires SafeTimeParts(endTime).None?
    ensures var w := DayWindowsOf(startDate, endDate, startTime, endTime);
      forall i :: 0 <= i < |w| ==> w[i].end - w[i].start == 1440
  {
    var s := CombineDateTime(startDate, startTime);
    var e := CombineDateTime(endDate, startTime);
    if s.Some? && e.Some? {
      var days := DaySpan(s.value, e.value);
      WindowSeqWholeDays(DayOf(s.value), if days > 1 then days else 1, StartClock(startTime));
    }
  }

  lemma MinuteParts(day: int, clock: int)
    requires 0 <= clock < 1440
    ensures DayOf(day * 1440 + clock) == day && ClockOf(day * 1440 + clock) == clock
  {
  }
}
