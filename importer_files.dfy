/**
 * The filename and setting helpers of the import planner in `cheesepie/importer.py`:
 * `_parse_dur_to_seconds`, `_format_cam_glob`, `_overlaps`, `_parse_start_from_stem`,
 * the named-group reading of `_parse_time_from_path`, `Path.stem` and `_next_batch_number`.
 *
 * Instants are naive wall-clock milliseconds since 1970-01-01 00:00 (`datetime.timestamp()`
 * read as if the local zone were UTC).
 */
module ImporterFiles {
  import opened Wrappers
  import opened Text
  import opened JsonValues
  import opened ImporterTime

  function Max0(v: int): int {
    if v < 0 then 0 else v
  }

  // ---------------------------------------------------------------------------
  // _parse_dur_to_seconds
  // ---------------------------------------------------------------------------

  /** The fallback duration of four hours. */
  const DefaultDurationSeconds: int := 4 * 3600

  /** `int(h) * 3600 + int(m) * 60` for `"h:m"`, else `int(s)`, clamped at 0; `None` where `int()` raises. */
  function DurationText(s: string): Option<int> {
    match SplitOnce(s, ':')
    case Some((hh, mm)) =>
      (match (ParseInt(hh), ParseInt(mm))
       case (Some(h), Some(m)) => Some(Max0(h * 3600 + m * 60))
       case _ => None)
    case None =>
      (match ParseInt(s)
       case Some(n) => Some(Max0(n))
       case None => None)
  }

  /**
   * `_parse_dur_to_seconds`: a number (a `bool` counts as one) is truncated at 0; a blank value
   * or one that does not parse gives four hours.
   */
  function ParseDurToSeconds(val: Option<Json>): (r: int)
    ensures r >= 0
    ensures val.None? || val == Some(JNull) || val == Some(JStr("")) ==> r == DefaultDurationSeconds
    ensures val.Some? && val.value.JInt? ==> r == Max0(val.value.i)
  {
    match val
    case Some(JInt(i)) => Max0(i)
    case Some(JBool(b)) => if b then 1 else 0
    case _ =>
      var v := val.GetOr(JNull);
      var s := Strip(if Truthy(v) then PyStr(v) else "");
      if s == [] then DefaultDurationSeconds else DurationText(s).GetOr(DefaultDurationSeconds)
  }

  /** A non-blank stripped string goes to the text reading. */
  lemma DurationOfText(s: string)
    requires s != [] && Strip(s) == s
    ensures ParseDurToSeconds(Some(JStr(s))) == DurationText(s).GetOr(DefaultDurationSeconds)
  {
  }

  lemma DurationTextPair(s: string, a: string, b: string, h: int, m: int)
    requires SplitOnce(s, ':') == Some((a, b)) && ParseInt(a) == Some(h) && ParseInt(b) == Some(m)
    ensures DurationText(s) == Some(Max0(h * 3600 + m * 60))
  {
  }

  lemma DurationTextPlain(s: string, n: int)
    requires ':' !in s && ParseInt(s) == Some(n)
    ensures DurationText(s) == Some(Max0(n))
  {
  }

  /** `"H:MM"` reads as that many hours and minutes. */
  lemma DurationHoursMinutes(h: nat, m: nat)
    ensures ParseDurToSeconds(Some(JStr(IntToString(h) + ":" + PadInt(m, 2)))) == h * 3600 + m * 60
  {
    var a, b := PadInt(h, 0), PadInt(m, 2);
    var s := a + ":" + b;
    assert IntToString(h) == a;
    PadIntRoundTrip(h, 0);
    PadIntRoundTrip(m, 2);
    UnsignedRoundTrip(a);
    UnsignedRoundTrip(b);
    assert s == a + [':'] + b;
    DigitNotSpace(a[0]);
    DigitNotSpace(b[|b| - 1]);
    assert s[0] == a[0] && s[|s| - 1] == b[|b| - 1];
    StripUnchanged(s);
    DigitsHaveNo(a, ':');
    SplitOnceConcat(a, ':', b);
    DurationTextPair(s, a, b, h, m);
    DurationOfText(s);
  }

  /** A plain number of seconds reads as itself, clamped at 0. */
  lemma DurationSeconds(n: int)
    ensures ParseDurToSeconds(Some(JStr(IntToString(n)))) == Max0(n)
  {
    var s := IntToString(n);
    IntToStringRoundTrip(n);
    var d := Decimal(if n < 0 then -n else n);
    DigitsHaveNo(d, ':');
    DigitNotSpace(d[|d| - 1]);
    assert Zeros(0) == [];
    if n < 0 {
      assert s == "-" + d;
      NegativeStripped(d);
    } else {
      assert s == d;
      DigitNotSpace(d[0]);
      StripUnchanged(d);
    }
    DurationTextPlain(s, n);
    DurationOfText(s);
  }

  // ---------------------------------------------------------------------------
  // _format_cam_glob
  // ---------------------------------------------------------------------------

  /** `_format_cam_glob`: `{cam:02d}` becomes the zero-padded camera number, then `{cam}` the plain one. */
  function FormatCamGlob(pattern: string, cam: int): string {
    var p := if Contains(pattern, "{cam:02d}") then ReplaceAll(pattern, "{cam:02d}", PadInt(cam, 2)) else pattern;
    ReplaceAll(p, "{cam}", IntToString(cam))
  }

  lemma DigitsContainNoBrace(s: string, pat: string)
    requires AllDigits(s) && |pat| > 0 && pat[0] == '{'
    ensures !Contains(s, pat)
  {
    forall i | 0 <= i <= |s| - |pat| ensures !OccursAt(s, pat, i) {
      if i + |pat| <= |s| {
        assert s[i..i + |pat|][0] == s[i];
      }
    }
  }

  /** A pattern without placeholders is used as it is. */
  lemma FormatCamGlobPlain(pattern: string, cam: int)
    requires !Contains(pattern, "{cam:02d}") && !Contains(pattern, "{cam}")
    ensures FormatCamGlob(pattern, cam) == pattern
  {
    ReplaceAbsent(pattern, "{cam}", IntToString(cam));
  }

  /** The placeholders alone give the zero-padded and the plain camera number. */
  lemma FormatCamGlobPlaceholders(cam: nat)
    ensures FormatCamGlob("{cam:02d}", cam) == PadInt(cam, 2)
    ensures FormatCamGlob("{cam}", cam) == IntToString(cam)
  {
    ReplaceWhole("{cam:02d}", PadInt(cam, 2));
    assert OccursAt("{cam:02d}", "{cam:02d}", 0);
    PadIntRoundTrip(cam, 2);
    DigitsContainNoBrace(PadInt(cam, 2), "{cam}");
    ReplaceAbsent(PadInt(cam, 2), "{cam}", IntToString(cam));
    ReplaceWhole("{cam}", IntToString(cam));
    assert !OccursAt("{cam}", "{cam:02d}", 0);
  }

  // ---------------------------------------------------------------------------
  // _overlaps
  // ---------------------------------------------------------------------------

  /** `_overlaps`: the half-open intervals `[aStart, aEnd)` and `[bStart, bEnd)` share an instant. */
  predicate Overlaps(aStart: int, aEnd: int, bStart: int, bEnd: int) {
    aStart < bEnd && bStart < aEnd
  }

  predicate Within(t: int, start: int, end: int) {
    start <= t < end
  }

  /**
   * For non-empty intervals the strict test holds exactly when some instant lies in both, whichever
   * order they come in.
   */
  lemma OverlapsMeaning(aStart: int, aEnd: int, bStart: int, bEnd: int)
    requires aStart < aEnd && bStart < bEnd
    ensures Overlaps(aStart, aEnd, bStart, bEnd) <==> exists t :: Within(t, aStart, aEnd) && Within(t, bStart, bEnd)
    ensures Overlaps(aStart, aEnd, bStart, bEnd) == Overlaps(bStart, bEnd, aStart, aEnd)
  {
    if Overlaps(aStart, aEnd, bStart, bEnd) {
      var t := if aStart < bStart then bStart else aStart;
      assert Within(t, aStart, aEnd) && Within(t, bStart, bEnd);
    }
  }

  /** An empty interval strictly inside another still counts as overlapping it. */
  lemma OverlapsEmpty(t: int, bStart: int, bEnd: int)
    requires bStart < t < bEnd
    ensures Overlaps(t, t, bStart, bEnd) && !exists u :: Within(u, t, t)
  {
  }

  // ---------------------------------------------------------------------------
  // Date-times from file names
  // ---------------------------------------------------------------------------

  predicate ValidClock(h: int, mi: int, s: int) {
    0 <= h <= 23 && 0 <= mi <= 59 && 0 <= s <= 59
  }

  /** The instant of a naive date-time, in milliseconds. */
  function NaiveMs(y: int, mo: int, d: int, h: int, mi: int, s: int): int
    requires ValidDate(y, mo, d)
  {
    (EpochDay(y, mo, d) * 86400 + h * 3600 + mi * 60 + s) * 1000
  }

  /** `datetime(y, mo, d, h, mi, s).timestamp()` in milliseconds, or `None` when the constructor raises. */
  function MakeDateTime(y: int, mo: int, d: int, h: int, mi: int, s: int): Option<int> {
    if ValidDate(y, mo, d) && ValidClock(h, mi, s) then Some(NaiveMs(y, mo, d, h, mi, s)) else None
  }

  /** `int()` of every string, or `None` when one raises. */
  function AllInts(ss: seq<string>): (r: Option<seq<int>>)
    ensures r.Some? ==> |r.value| == |ss|
  {
    if ss == [] then Some([])
    else
      match (ParseInt(ss[0]), AllInts(ss[1..]))
      case (Some(n), Some(rest)) => Some([n] + rest)
      case _ => None
  }

  /** When every string reads as a number, the numbers come back in order; otherwise nothing does. */
  lemma {:induction false} AllIntsMeaning(ss: seq<string>)
    ensures AllInts(ss).Some? <==> forall k :: 0 <= k < |ss| ==> ParseInt(ss[k]).Some?
    ensures AllInts(ss).Some? ==> forall k :: 0 <= k < |ss| ==> ParseInt(ss[k]) == Some(AllInts(ss).value[k])
  {
    if ss != [] {
      AllIntsMeaning(ss[1..]);
      assert forall k :: 1 <= k < |ss| ==> ss[k] == ss[1..][k - 1];
    }
  }

  lemma {:induction false} AllIntsOf(ss: seq<string>, vs: seq<int>)
    requires |ss| == |vs| && forall k :: 0 <= k < |ss| ==> ParseInt(ss[k]) == Some(vs[k])
    ensures AllInts(ss) == Some(vs)
  {
    if ss != [] {
      AllIntsOf(ss[1..], vs[1..]);
      assert vs == [vs[0]] + vs[1..];
    }
  }

  /** The largest instant `datetime.fromtimestamp` accepts: 9999-12-31 23:59:59.999. */
  const MaxInstantMs: int := 253402300799999

  /** The second-resolution fallback of `_parse_start_from_stem`: `YYYYMMDD` and `HHMMSS` read field by field. */
  function StemFields(dateS: string, timeS: string): Option<int>
    requires |dateS| == 8 && |timeS| == 6
  {
    FieldsDateTime(AllInts(StemSlices(dateS, timeS)))
  }

  /** The year, month, day, hour, minute and second digits of a stem's date and time parts. */
  function StemSlices(dateS: string, timeS: string): seq<string>
    requires |dateS| == 8 && |timeS| == 6
  {
    [dateS[0..4], dateS[4..6], dateS[6..8], timeS[0..2], timeS[2..4], timeS[4..6]]
  }

  function FieldsDateTime(v: Option<seq<int>>): Option<int> {
    match v
    case Some(f) => if |f| == 6 then MakeDateTime(f[0], f[1], f[2], f[3], f[4], f[5]) else None
    case None => None
  }

  /** The epoch-milliseconds token of a stem, when its fourth part is all digits, at least 13 of them, and in range. */
  function EpochToken(parts: seq<string>): Option<int> {
    if |parts| < 4 then None
    else
      var ep := Strip(parts[3]);
      if IsDigits(ep) && |ep| >= 13 && DigitsValue(ep) <= MaxInstantMs then Some(DigitsValue(ep)) else None
  }

  /**
   * `_parse_start_from_stem` for `<camera>-<YYYYMMDD>-<HHMMSS>[-<epoch_ms>[-<seq>]]`: `None`
   * unless there are three `-`-separated parts with an 8-character date and a 6-character time.
   */
  function ParseStartFromStem(stem: string): (r: Option<int>)
    ensures r.Some? ==> |Split(stem, '-')| >= 3 && |Split(stem, '-')[1]| == 8 && |Split(stem, '-')[2]| == 6
    ensures EpochToken(Split(stem, '-')).Some? && |Split(stem, '-')[1]| == 8 && |Split(stem, '-')[2]| == 6
      ==> r == EpochToken(Split(stem, '-'))
  {
    var parts := Split(stem, '-');
    if |parts| < 3 || |parts[1]| != 8 || |parts[2]| != 6 then None
    else
      match EpochToken(parts)
      case Some(ms) => Some(ms)
      case None => StemFields(parts[1], parts[2])
  }

  /** `YYYYMMDD` for a date with a four-digit year. */
  function StemDate(y: int, mo: int, d: int): string {
    PadInt(y, 4) + PadInt(mo, 2) + PadInt(d, 2)
  }

  /** `HHMMSS` */
  function StemTime(h: int, mi: int, s: int): string {
    PadInt(h, 2) + PadInt(mi, 2) + PadInt(s, 2)
  }

  lemma StemDateFields(y: int, mo: int, d: int)
    requires ValidDate(y, mo, d)
    ensures var t := StemDate(y, mo, d);
      |t| == 8 && AllDigits(t)
      && ParseInt(t[0..4]) == Some(y) && ParseInt(t[4..6]) == Some(mo) && ParseInt(t[6..8]) == Some(d)
  {
    var a, b, c := PadInt(y, 4), PadInt(mo, 2), PadInt(d, 2);
    assert 0 <= d <= 31;
    FourDigits(y);
    TwoDigits(mo);
    TwoDigits(d);
    var t := a + b + c;
    ThreeParts(a, b, c);
    assert t[0..4] == a;
    assert t[4..6] == b;
    assert t[6..8] == c;
  }

  lemma StemTimeFields(h: int, mi: int, s: int)
    requires ValidClock(h, mi, s)
    ensures var t := StemTime(h, mi, s);
      |t| == 6 && AllDigits(t)
      && ParseInt(t[0..2]) == Some(h) && ParseInt(t[2..4]) == Some(mi) && ParseInt(t[4..6]) == Some(s)
  {
    var a, b, c := PadInt(h, 2), PadInt(mi, 2), PadInt(s, 2);
    TwoDigits(h);
    TwoDigits(mi);
    TwoDigits(s);
    var t := a + b + c;
    ThreeParts(a, b, c);
    assert t[0..2] == a;
    assert t[2..4] == b;
    assert t[4..6] == c;
  }

  lemma FourDigits(n: int)
    requires 0 <= n <= 9999
    ensures |PadInt(n, 4)| == 4 && IsDigits(PadInt(n, 4)) && ParseInt(PadInt(n, 4)) == Some(n)
  {
    PadIntLength(n, 4);
    PadIntRoundTrip(n, 4);
    UnsignedRoundTrip(PadInt(n, 4));
  }

  lemma ThreeParts(a: string, b: string, c: string)
    requires AllDigits(a) && AllDigits(b) && AllDigits(c)
    ensures AllDigits(a + b + c)
    ensures (a + b + c)[..|a|] == a && (a + b + c)[|a|..|a| + |b|] == b && (a + b + c)[|a| + |b|..] == c
  {
    var t := a + b + c;
    forall i | 0 <= i < |t| ensures IsDigit(t[i]) {
      if i < |a| { assert t[i] == a[i]; }
      else if i < |a| + |b| { assert t[i] == b[i - |a|]; }
      else { assert t[i] == c[i - |a| - |b|]; }
    }
  }

  /** Date and time parts whose fields read as numbers give the date-time of those numbers. */
  lemma StemFieldsOf(a: string, b: string, y: int, mo: int, d: int, h: int, mi: int, s: int)
    requires |a| == 8 && |b| == 6
    requires ParseInt(a[0..4]) == Some(y) && ParseInt(a[4..6]) == Some(mo) && ParseInt(a[6..8]) == Some(d)
    requires ParseInt(b[0..2]) == Some(h) && ParseInt(b[2..4]) == Some(mi) && ParseInt(b[4..6]) == Some(s)
    ensures StemFields(a, b) == MakeDateTime(y, mo, d, h, mi, s)
  {
    AllSixOf(a[0..4], a[4..6], a[6..8], b[0..2], b[2..4], b[4..6], [y, mo, d, h, mi, s]);
  }

  lemma AllSixOf(p0: string, p1: string, p2: string, p3: string, p4: string, p5: string, vs: seq<int>)
    requires |vs| == 6
    requires ParseInt(p0) == Some(vs[0]) && ParseInt(p1) == Some(vs[1]) && ParseInt(p2) == Some(vs[2])
    requires ParseInt(p3) == Some(vs[3]) && ParseInt(p4) == Some(vs[4]) && ParseInt(p5) == Some(vs[5])
    ensures AllInts([p0, p1, p2, p3, p4, p5]) == Some(vs)
  {
    var ps := [p0, p1, p2, p3, p4, p5];
    forall k | 0 <= k < 6 ensures ParseInt(ps[k]) == Some(vs[k]) {
      if k == 0 {
      } else if k == 1 {
      } else if k == 2 {
      } else if k == 3 {
      } else if k == 4 {
      }
    }
    AllIntsOf(ps, vs);
  }

  /** Three separator-free parts of the right lengths and no epoch part go to the field-by-field reading. */
  lemma StemOfParts(camera: string, a: string, b: string)
    requires '-' !in camera && '-' !in a && '-' !in b && |a| == 8 && |b| == 6
    ensures ParseStartFromStem(camera + "-" + a + "-" + b) == StemFields(a, b)
  {
    SplitThree(camera, a, b, '-');
    StemWithoutToken(camera + "-" + a + "-" + b);
  }

  /** A stem written as `<camera>-<YYYYMMDD>-<HHMMSS>` reads back as that date-time, to the second. */
  lemma StemRoundTrip(camera: string, y: int, mo: int, d: int, h: int, mi: int, s: int)
    requires '-' !in camera
    requires ValidDate(y, mo, d) && ValidClock(h, mi, s)
    ensures ParseStartFromStem(camera + "-" + StemDate(y, mo, d) + "-" + StemTime(h, mi, s))
      == Some(NaiveMs(y, mo, d, h, mi, s))
  {
    var a, b := StemDate(y, mo, d), StemTime(h, mi, s);
    StemDateFields(y, mo, d);
    StemTimeFields(h, mi, s);
    DigitsHaveNo(a, '-');
    DigitsHaveNo(b, '-');
    StemOfParts(camera, a, b);
    StemFieldsOf(a, b, y, mo, d, h, mi, s);
  }

  lemma StemWithoutToken(stem: string)
    requires var parts := Split(stem, '-'); |parts| >= 3 && |parts[1]| == 8 && |parts[2]| == 6
    requires EpochToken(Split(stem, '-')).None?
    ensures ParseStartFromStem(stem) == StemFields(Split(stem, '-')[1], Split(stem, '-')[2])
  {
  }

  lemma SplitFrontThree(camera: string, dateS: string, timeS: string, tail: string)
    requires '-' !in camera && '-' !in dateS && '-' !in timeS
    ensures Split(camera + ['-'] + (dateS + ['-'] + (timeS + ['-'] + tail)), '-') == [camera, dateS, timeS] + Split(tail, '-')
  {
    var t2 := timeS + ['-'] + tail;
    var t1 := dateS + ['-'] + t2;
    var rest := Split(tail, '-');
    SplitConcat(timeS, '-', tail);
    SplitConcat(dateS, '-', t2);
    SplitConcat(camera, '-', t1);
    ConsThree(camera, dateS, timeS, rest);
  }

  lemma Reassociate<T>(a: seq<T>, x: seq<T>, b: seq<T>, y: seq<T>, c: seq<T>, z: seq<T>, d: seq<T>, e: seq<T>)
    ensures a + x + b + y + c + z + d + e == a + x + (b + y + (c + z + (d + e)))
  {
  }

  lemma ConsThree<T>(a: T, b: T, c: T, rest: seq<T>)
    ensures [a] + ([b] + ([c] + rest)) == [a, b, c] + rest
  {
  }

  /** With a valid epoch-milliseconds part the stem reads as that instant, whatever the date and time parts say. */
  lemma StemEpochWins(camera: string, dateS: string, timeS: string, ep: string, rest: string)
    requires '-' !in camera && '-' !in dateS && '-' !in timeS && '-' !in ep
    requires |dateS| == 8 && |timeS| == 6
    requires IsDigits(ep) && |ep| >= 13 && DigitsValue(ep) <= MaxInstantMs
    requires rest == [] || rest[0] == '-'
    ensures ParseStartFromStem(camera + "-" + dateS + "-" + timeS + "-" + ep + rest) == Some(DigitsValue(ep))
  {
    var tail := ep + rest;
    var stem := camera + "-" + dateS + "-" + timeS + "-" + ep + rest;
    Reassociate(camera, "-", dateS, "-", timeS, "-", ep, rest);
    SplitFrontThree(camera, dateS, timeS, tail);
    var rp := Split(tail, '-');
    EpochPartPrefix(ep, rest);
    AfterThree(camera, dateS, timeS, rp);
    EpochTokenOf(Split(stem, '-'), ep);
  }

  lemma AfterThree<T>(a: T, b: T, c: T, rest: seq<T>)
    requires |rest| >= 1
    ensures var s := [a, b, c] + rest; |s| >= 4 && s[1] == b && s[2] == c && s[3] == rest[0]
  {
  }

  lemma EpochTokenOf(parts: seq<string>, ep: string)
    requires |parts| >= 4 && parts[3] == ep
    requires IsDigits(ep) && |ep| >= 13 && DigitsValue(ep) <= MaxInstantMs
    ensures EpochToken(parts) == Some(DigitsValue(ep))
  {
    DigitNotSpace(ep[0]);
    DigitNotSpace(ep[|ep| - 1]);
    StripUnchanged(ep);
  }

  /** An epoch token followed by `-...` or nothing is the first piece of the split. */
  lemma EpochPartPrefix(ep: string, rest: string)
    requires '-' !in ep
    requires rest == [] || rest[0] == '-'
    ensures Split(ep + rest, '-')[0] == ep
  {
    if rest == [] {
      assert ep + rest == ep;
    } else {
      assert ep + rest == ep + ['-'] + rest[1..];
      SplitConcat(ep, '-', rest[1..]);
    }
  }

  /** An absent, empty or malformed named group; or the value `int()` reads from it. */
  datatype Field = Absent | Value(n: int) | Malformed

  /** `int(gd.get(key)) if gd.get(key) else None` */
  function GroupField(gd: map<string, string>, key: string): Field {
    if key !in gd || gd[key] == "" then Absent
    else match ParseInt(gd[key])
      case Some(n) => Value(n)
      case None => Malformed
  }

  /** A field that must be present and non-zero (`if year and month and day`). */
  function Required(f: Field): Option<int> {
    if f.Value? && f.n != 0 then Some(f.n) else None
  }

  /**
   * The named-group defaulting of `_parse_time_from_path` over the groups of a regular-expression
   * match: year, month and day are required and non-zero, hour, minute and second default to 0,
   * and any malformed group or out-of-range value gives `None`.
   */
  function TimeFromGroups(gd: map<string, string>): Option<int> {
    TimeFromFields([GroupField(gd, "year"), GroupField(gd, "month"), GroupField(gd, "day"),
                    GroupField(gd, "hour"), GroupField(gd, "minute"), GroupField(gd, "second")])
  }

  /** The year, month, day, hour, minute and second fields read together. */
  function TimeFromFields(fs: seq<Field>): Option<int>
    requires |fs| == 6
  {
    if Malformed in fs then None
    else
      match (Required(fs[0]), Required(fs[1]), Required(fs[2]))
      case (Some(y), Some(mo), Some(d)) =>
        MakeDateTime(y, mo, d, if fs[3].Value? then fs[3].n else 0, if fs[4].Value? then fs[4].n else 0,
          if fs[5].Value? then fs[5].n else 0)
      case _ => None
  }

  lemma GroupFieldOf(gd: map<string, string>, key: string, n: int)
    requires key in gd && gd[key] == IntToString(n)
    ensures GroupField(gd, key) == Value(n)
  {
    IntToStringRoundTrip(n);
    assert ParseInt("") == None by {
      assert Strip("") == "";
    }
  }

  lemma DateFields(y: int, mo: int, d: int)
    requires ValidDate(y, mo, d)
    ensures TimeFromFields([Value(y), Value(mo), Value(d), Absent, Absent, Absent]) == Some(NaiveMs(y, mo, d, 0, 0, 0))
  {
    var fs := [Value(y), Value(mo), Value(d), Absent, Absent, Absent];
    assert Malformed !in fs;
  }

  /** Groups holding only a date give that date at midnight. */
  lemma TimeFromDateGroups(gd: map<string, string>, y: int, mo: int, d: int)
    requires ValidDate(y, mo, d)
    requires "year" in gd && gd["year"] == IntToString(y)
    requires "month" in gd && gd["month"] == IntToString(mo)
    requires "day" in gd && gd["day"] == IntToString(d)
    requires "hour" !in gd && "minute" !in gd && "second" !in gd
    ensures TimeFromGroups(gd) == Some(NaiveMs(y, mo, d, 0, 0, 0))
  {
    GroupFieldOf(gd, "year", y);
    GroupFieldOf(gd, "month", mo);
    GroupFieldOf(gd, "day", d);
    DateFields(y, mo, d);
  }

  /** A result needs a year, a month and a day group. */
  lemma TimeFromGroupsNeedsDate(gd: map<string, string>)
    requires TimeFromGroups(gd).Some?
    ensures "year" in gd && "month" in gd && "day" in gd
  {
  }

  // ---------------------------------------------------------------------------
  // Path.stem
  // ---------------------------------------------------------------------------

  /** The last component of a POSIX path, empty and `.` components skipped (`PurePosixPath.name`). */
  function PathName(path: string): string {
    LastComponent(Split(path, '/'))
  }

  function LastComponent(parts: seq<string>): string {
    if parts == [] then ""
    else if parts[|parts| - 1] == "" || parts[|parts| - 1] == "." then LastComponent(parts[..|parts| - 1])
    else parts[|parts| - 1]
  }

  /** The last index of `c` in `s`. */
  function LastIndexOf(s: string, c: char): (r: Option<nat>)
    ensures r.Some? ==> r.value < |s| && s[r.value] == c && forall j :: r.value < j < |s| ==> s[j] != c
    ensures r.None? ==> c !in s
  {
    if s == [] then None
    else if s[|s| - 1] == c then Some(|s| - 1)
    else LastIndexOf(s[..|s| - 1], c)
  }

  /** `PurePath.stem`: the name without its last suffix, unless the dot is first or last. */
  function Stem(path: string): (r: string)
    ensures |r| <= |PathName(path)|
  {
    var name := PathName(path);
    match LastIndexOf(name, '.')
    case Some(i) => if 0 < i < |name| - 1 then name[..i] else name
    case None => name
  }

  lemma StemOfFile(dir: string, base: string, ext: string)
    requires '/' !in base && '.' !in base && base != "" && base != "."
    requires '/' !in ext && '.' !in ext && ext != ""
    ensures Stem(dir + "/" + base + "." + ext) == base
  {
    var name := base + "." + ext;
    assert dir + "/" + base + "." + ext == dir + ['/'] + name;
    DirSplitLast(dir, name);
    assert name[|base|] == '.';
    assert forall j :: |base| < j < |name| ==> name[j] == ext[j - |base| - 1];
    assert name[..|base|] == base;
  }

  lemma DirSplitLast(dir: string, name: string)
    requires '/' !in name && name != "" && name != "."
    ensures PathName(dir + ['/'] + name) == name
  {
    SplitSnoc(dir, '/', name);
  }

  /** Appending a separator and a separator-free piece appends that piece to the split. */
  lemma {:induction false} SplitSnoc(s: string, c: char, last: string)
    requires c !in last
    ensures Split(s + [c] + last, c) == Split(s, c) + [last]
    decreases |s|
  {
    assert SplitOnce(last, c).None?;
    match SplitOnce(s, c)
    case None =>
      SplitConcat(s, c, last);
    case Some((a, b)) =>
      assert s + [c] + last == a + [c] + (b + [c] + last);
      SplitConcat(a, c, b + [c] + last);
      SplitConcat(a, c, b);
      SplitSnoc(b, c, last);
  }

  // ---------------------------------------------------------------------------
  // _next_batch_number
  // ---------------------------------------------------------------------------

  /** `\.exp(\d{4})` matches at `i` (case-insensitively). */
  predicate ExpTagAt(s: string, i: nat) {
    i + 8 <= |s| && s[i] == '.' && Lower(s[i + 1..i + 4]) == "exp" && AllDigits(s[i + 4..i + 8])
  }

  /** The leftmost match of `\.exp(\d{4})` at or after `i`. */
  function FirstExpTag(s: string, i: nat): (r: Option<nat>)
    ensures r.Some? ==> i <= r.value && ExpTagAt(s, r.value) && forall j :: i <= j < r.value ==> !ExpTagAt(s, j)
    ensures r.None? ==> forall j :: i <= j ==> !ExpTagAt(s, j)
    decreases |s| - i
  {
    if i + 8 > |s| then None
    else if ExpTagAt(s, i) then Some(i)
    else FirstExpTag(s, i + 1)
  }

  /** The batch number a directory entry's name carries: the four digits of its first `.expNNNN`. */
  function BatchOf(name: string): Option<int> {
    match FirstExpTag(name, 0)
    case Some(i) => Some(DigitsValue(name[i + 4..i + 8]))
    case None => None
  }

  /** The largest batch number among `names`, or 0. */
  function MaxBatch(names: seq<string>): (r: int)
    ensures r >= 0
  {
    if names == [] then 0
    else
      var m := MaxBatch(names[..|names| - 1]);
      match BatchOf(names[|names| - 1])
      case Some(v) => if v > m then v else m
      case None => m
  }

  /** The running maximum bounds every batch number and is one of them unless it is 0. */
  lemma {:induction false} MaxBatchIsMax(names: seq<string>)
    ensures forall k :: 0 <= k < |names| && BatchOf(names[k]).Some? ==> BatchOf(names[k]).value <= MaxBatch(names)
    ensures MaxBatch(names) > 0 ==> exists k :: 0 <= k < |names| && BatchOf(names[k]) == Some(MaxBatch(names))
  {
    if names != [] {
      var init := names[..|names| - 1];
      MaxBatchIsMax(init);
      assert forall k :: 0 <= k < |init| ==> init[k] == names[k];
    }
  }

  /**
   * `_next_batch_number` over the names in the experiment's working directory (no names when it
   * does not exist): one more than the largest batch found, or 1.
   */
  method NextBatchNumber(names: seq<string>) returns (n: int)
    ensures n == MaxBatch(names) + 1
  {
    var mx := 0;
    var i := 0;
    while i < |names|
      invariant 0 <= i <= |names|
      invariant mx == MaxBatch(names[..i])
    {
      assert names[..i + 1][..i] == names[..i];
      match BatchOf(names[i]) {
        case Some(v) =>
          if v > mx {
            mx := v;
          }
        case None =>
      }
      i := i + 1;
    }
    assert names[..i] == names;
    n := if mx > 0 then mx + 1 else 1;
  }

  /** The next batch number is above every batch found, and at most one above the largest. */
  lemma NextBatchIsFresh(names: seq<string>)
    ensures forall k :: 0 <= k < |names| && BatchOf(names[k]).Some? ==> BatchOf(names[k]).value < MaxBatch(names) + 1
    ensures MaxBatch(names) + 1 == 1 || exists k :: 0 <= k < |names| && BatchOf(names[k]) == Some(MaxBatch(names))
  {
    MaxBatchIsMax(names);
  }

  /** The batch number of a name written with a zero-padded `.expNNNN` tag. */
  lemma BatchOfTag(prefix: string, b: nat, rest: string)
    requires b <= 9999
    requires forall j :: 0 <= j < |prefix| ==> prefix[j] != '.'
    ensures BatchOf(prefix + ".exp" + PadInt(b, 4) + rest) == Some(b)
  {
    var s := prefix + ".exp" + PadInt(b, 4) + rest;
    PadIntLength(b, 4);
    PadIntRoundTrip(b, 4);
    var i := |prefix|;
    assert s[i + 1..i + 4] == "exp";
    assert s[i + 4..i + 8] == PadInt(b, 4);
    assert forall j :: 0 <= j < i ==> s[j] == prefix[j];
    assert ExpTagAt(s, i);
  }
}
