/**
 * The ffmpeg concat-demuxer lists of `cheesepie/importer.py`: `_format_hhmmss`, the shell-style
 * quoting of file names and `_write_concat_list`, each with an independent reader that undoes it.
 *
 * Offsets are whole milliseconds (the source works on float seconds).
 */
module ImporterManifest {
  import opened Wrappers
  import opened Text
  import opened ImporterTime

  // ---------------------------------------------------------------------------
  // _format_hhmmss
  // ---------------------------------------------------------------------------

  /** `_format_hhmmss`: `HH:MM:SS.mmm`, negative offsets as zero; the hours may run past two digits. */
  function FormatHHMMSS(ms: int): string {
    var t := if ms < 0 then 0 else ms;
    var sec := t / 1000;
    PadInt(sec / 3600, 2) + ":" + PadInt(sec / 60 % 60, 2) + ":" + PadInt(sec % 60, 2) + "." + PadInt(t % 1000, 3)
  }

  /** Reads `H:M:S.F` back, every field a digit string, as milliseconds. */
  function ParseHHMMSS(s: string): Option<int> {
    ClockParts(Split(s, ':'))
  }

  /** Hours, minutes, seconds and milliseconds as milliseconds. */
  function ClockMs(h: int, m: int, s: int, f: int): int {
    h * 3600000 + m * 60000 + s * 1000 + f
  }

  /** The hours, the minutes and `seconds.fraction` as they come out of the split at `:`. */
  function ClockParts(parts: seq<string>): Option<int> {
    if |parts| != 3 then None
    else
      match SplitOnce(parts[2], '.')
      case None => None
      case Some((secs, frac)) =>
        if IsDigits(parts[0]) && IsDigits(parts[1]) && IsDigits(secs) && IsDigits(frac) then
          Some(ClockMs(DigitsValue(parts[0]), DigitsValue(parts[1]), DigitsValue(secs), DigitsValue(frac)))
        else None
  }

  /** A digit string that is free of `:` and `.` and reads as `n`. */
  lemma PaddedField(n: nat, width: nat)
    ensures IsDigits(PadInt(n, width)) && DigitsValue(PadInt(n, width)) == n
    ensures ':' !in PadInt(n, width) && '.' !in PadInt(n, width)
  {
    PadIntRoundTrip(n, width);
    DigitsHaveNo(PadInt(n, width), ':');
    DigitsHaveNo(PadInt(n, width), '.');
  }

  /** Hours, minutes, seconds and milliseconds of a non-negative offset add back up to it. */
  lemma ClockDecomposition(t: nat)
    ensures var sec := t / 1000;
      t == ClockMs(sec / 3600, sec / 60 % 60, sec % 60, t % 1000)
  {
    var sec := t / 1000;
    var mins := sec / 60;
    assert sec == mins * 60 + sec % 60;
    assert mins == mins / 60 * 60 + mins % 60;
    assert sec / 3600 == mins / 60;
  }

  lemma ClockFields(a: string, b: string, c: string, d: string)
    requires ':' !in a && ':' !in b && ':' !in c && ':' !in d && '.' !in c
    ensures var s := a + ":" + b + ":" + c + "." + d;
      Split(s, ':') == [a, b, c + "." + d] && SplitOnce(c + "." + d, '.') == Some((c, d))
  {
    var tail := c + "." + d;
    assert ':' !in tail by {
      assert forall i :: 0 <= i < |tail| ==> tail[i] == (if i < |c| then c[i] else if i == |c| then '.' else d[i - |c| - 1]);
    }
    assert a + ":" + b + ":" + c + "." + d == a + [':'] + b + [':'] + tail;
    SplitThree(a, b, tail, ':');
    SplitOnceConcat(c, '.', d);
  }

  lemma ParseFields(a: string, b: string, c: string, d: string)
    requires IsDigits(a) && IsDigits(b) && IsDigits(c) && IsDigits(d)
    ensures ParseHHMMSS(a + ":" + b + ":" + c + "." + d)
      == Some(ClockMs(DigitsValue(a), DigitsValue(b), DigitsValue(c), DigitsValue(d)))
  {
    DigitsHaveNo(a, ':');
    DigitsHaveNo(b, ':');
    DigitsHaveNo(c, ':');
    DigitsHaveNo(d, ':');
    DigitsHaveNo(c, '.');
    ClockFields(a, b, c, d);
    ParseFromParts(a + ":" + b + ":" + c + "." + d, a, b, c, d);
  }

  lemma ParseFromParts(s: string, a: string, b: string, c: string, d: string)
    requires IsDigits(a) && IsDigits(b) && IsDigits(c) && IsDigits(d)
    requires Split(s, ':') == [a, b, c + "." + d] && SplitOnce(c + "." + d, '.') == Some((c, d))
    ensures ParseHHMMSS(s)
      == Some(ClockMs(DigitsValue(a), DigitsValue(b), DigitsValue(c), DigitsValue(d)))
  {
    ClockPartsOf(a, b, c + "." + d, c, d);
  }

  lemma ClockPartsOf(a: string, b: string, t: string, c: string, d: string)
    requires IsDigits(a) && IsDigits(b) && IsDigits(c) && IsDigits(d) && SplitOnce(t, '.') == Some((c, d))
    ensures ClockParts([a, b, t])
      == Some(ClockMs(DigitsValue(a), DigitsValue(b), DigitsValue(c), DigitsValue(d)))
  {
    var parts := [a, b, t];
    assert parts[0] == a && parts[1] == b && parts[2] == t;
  }

  /** Every formatted offset reads back as itself, a negative one as zero. */
  lemma FormatHHMMSSRoundTrip(ms: int)
    ensures ParseHHMMSS(FormatHHMMSS(ms)) == Some(if ms < 0 then 0 else ms)
  {
    var t: nat := if ms < 0 then 0 else ms;
    var sec := t / 1000;
    var a, b, c, d := PadInt(sec / 3600, 2), PadInt(sec / 60 % 60, 2), PadInt(sec % 60, 2), PadInt(t % 1000, 3);
    PadIntRoundTrip(sec / 3600, 2);
    PadIntRoundTrip(sec / 60 % 60, 2);
    PadIntRoundTrip(sec % 60, 2);
    PadIntRoundTrip(t % 1000, 3);
    assert FormatHHMMSS(ms) == a + ":" + b + ":" + c + "." + d;
    ParseFields(a, b, c, d);
    ClockDecomposition(t);
  }

  /** The fields are two digits (three for milliseconds) below a hundred hours. */
  lemma FormatHHMMSSLength(ms: int)
    requires 0 <= ms < 100 * 3600000
    ensures |FormatHHMMSS(ms)| == 12
  {
    var sec := ms / 1000;
    PadIntLength(sec / 3600, 2);
    PadIntLength(sec / 60 % 60, 2);
    PadIntLength(sec % 60, 2);
    PadIntLength(ms % 1000, 3);
  }

  // ---------------------------------------------------------------------------
  // Quoting
  // ---------------------------------------------------------------------------

  /** The four characters that stand for one quote inside a single-quoted word: close, escaped quote, reopen. */
  const QuoteEscape: string := "'\\''"

  /** `"'" + p.replace("'", "'\\''") + "'"` */
  function Quote(p: string): string {
    "'" + ReplaceAll(p, "'", QuoteEscape) + "'"
  }

  /** The escaping one character at a time. */
  function EscapeQuotes(p: string): string {
    if p == [] then []
    else (if p[0] == '\'' then QuoteEscape else [p[0]]) + EscapeQuotes(p[1..])
  }

  /** Replacing a one-character pattern is the character-by-character escaping. */
  lemma {:induction false} ReplaceQuoteIsEscape(p: string)
    ensures ReplaceAll(p, "'", QuoteEscape) == EscapeQuotes(p)
  {
    if p != [] {
      ReplaceQuoteIsEscape(p[1..]);
      assert p[..1] == [p[0]];
    }
  }

  /** Reads a quoted word from inside a single-quoted run: everything up to the closing quote is literal. */
  function UnquoteIn(s: string): Option<string>
    decreases |s|, 1
  {
    if s == [] then None
    else if s[0] == '\'' then UnquoteOut(s[1..])
    else
      match UnquoteIn(s[1..])
      case Some(r) => Some([s[0]] + r)
      case None => None
  }

  /** Reads between quoted runs: the end, an escaped quote `\'`, or the opening of a new run. */
  function UnquoteOut(s: string): Option<string>
    decreases |s|, 0
  {
    if s == [] then Some([])
    else if |s| >= 2 && s[0] == '\\' && s[1] == '\'' then
      match UnquoteOut(s[2..])
      case Some(r) => Some(['\''] + r)
      case None => None
    else if s[0] == '\'' then UnquoteIn(s[1..])
    else None
  }

  /** The word a shell reads from a string of single-quoted runs joined by `\'`. */
  function Unquote(s: string): Option<string> {
    if s != [] && s[0] == '\'' then UnquoteIn(s[1..]) else None
  }

  /** An escaped quote inside a run reads as one quote. */
  lemma UnquoteEscapeStep(rest: string)
    ensures UnquoteIn(QuoteEscape + rest) == PrependChar('\'', UnquoteIn(rest))
  {
    var s := QuoteEscape + rest;
    var t := "'" + rest;
    assert s[0] == '\'' && s[1..] == ['\\', '\''] + t;
    assert UnquoteIn(s) == UnquoteOut(s[1..]);
    assert s[1..][2..] == t;
    assert UnquoteOut(s[1..]) == PrependChar('\'', UnquoteOut(t));
    assert t[0] == '\'' && t[1..] == rest;
    assert UnquoteOut(t) == UnquoteIn(rest);
  }

  /** Any other character inside a run reads as itself. */
  lemma UnquoteCharStep(c: char, rest: string)
    requires c != '\''
    ensures UnquoteIn([c] + rest) == PrependChar(c, UnquoteIn(rest))
  {
    assert ([c] + rest)[1..] == rest;
  }

  function PrependChar(c: char, r: Option<string>): Option<string> {
    match r
    case Some(t) => Some([c] + t)
    case None => None
  }

  lemma {:induction false} UnquoteEscaped(p: string)
    ensures UnquoteIn(EscapeQuotes(p) + "'") == Some(p)
  {
    if p == [] {
      assert EscapeQuotes(p) + "'" == "'";
    } else {
      var rest := EscapeQuotes(p[1..]) + "'";
      UnquoteEscaped(p[1..]);
      assert p == [p[0]] + p[1..];
      if p[0] == '\'' {
        assert EscapeQuotes(p) + "'" == QuoteEscape + rest;
        UnquoteEscapeStep(rest);
      } else {
        assert EscapeQuotes(p) + "'" == [p[0]] + rest;
        UnquoteCharStep(p[0], rest);
      }
    }
  }

  /** Every file name survives quoting. */
  lemma QuoteRoundTrip(p: string)
    ensures Unquote(Quote(p)) == Some(p)
  {
    ReplaceQuoteIsEscape(p);
    UnquoteEscaped(p);
    assert Quote(p)[1..] == EscapeQuotes(p) + "'";
  }

  // ---------------------------------------------------------------------------
  // _write_concat_list
  // ---------------------------------------------------------------------------

  /** One entry of a concat list: a file and the optional offsets into it at which to start and stop. */
  datatype ListItem = ListItem(path: string, inpoint: Option<int>, outpoint: Option<int>)

  /** The directive lines for one item. */
  function ItemLines(it: ListItem): (r: seq<string>)
    ensures 1 <= |r| <= 3
  {
    ["file " + Quote(it.path)]
    + (if it.inpoint.Some? then ["inpoint " + FormatHHMMSS(it.inpoint.value)] else [])
    + (if it.outpoint.Some? then ["outpoint " + FormatHHMMSS(it.outpoint.value)] else [])
  }

  /** The lines of the list file for `items`, in order; each is written with a trailing newline. */
  function ConcatLines(items: seq<ListItem>): seq<string> {
    if items == [] then [] else ItemLines(items[0]) + ConcatLines(items[1..])
  }

  lemma {:induction false} ConcatLinesSnoc(items: seq<ListItem>, it: ListItem)
    ensures ConcatLines(items + [it]) == ConcatLines(items) + ItemLines(it)
  {
    if items == [] {
      assert [it][1..] == [];
    } else {
      assert (items + [it])[1..] == items[1..] + [it];
      ConcatLinesSnoc(items[1..], it);
    }
  }

  /** `_write_concat_list`: the lines written for `items`. */
  method WriteConcatList(items: seq<ListItem>) returns (lines: seq<string>)
    ensures lines == ConcatLines(items)
  {
    lines := [];
    var i := 0;
    while i < |items|
      invariant 0 <= i <= |items|
      invariant lines == ConcatLines(items[..i])
    {
      ConcatLinesSnoc(items[..i], items[i]);
      assert items[..i + 1] == items[..i] + [items[i]];
      lines := lines + ItemLines(items[i]);
      i := i + 1;
    }
    assert items[..i] == items;
  }

  predicate StartsWith(s: string, prefix: string) {
    |prefix| <= |s| && s[..|prefix|] == prefix
  }

  /** Reads an optional `<keyword> HH:MM:SS.mmm` line at the front of `lines`. */
  function OptionalOffset(lines: seq<string>, keyword: string): (r: Option<(Option<int>, seq<string>)>)
    ensures r.Some? ==> |r.value.1| <= |lines|
  {
    if lines != [] && StartsWith(lines[0], keyword) then
      match ParseHHMMSS(lines[0][|keyword|..])
      case Some(v) => Some((Some(v), lines[1..]))
      case None => None
    else Some((None, lines))
  }

  /** Reads a concat list back into its items: a `file` line, then optionally `inpoint` and `outpoint`. */
  function ParseConcatLines(lines: seq<string>): Option<seq<ListItem>>
    decreases |lines|
  {
    if lines == [] then Some([])
    else if !StartsWith(lines[0], "file ") then None
    else
      match Unquote(lines[0][5..])
      case None => None
      case Some(path) =>
        match OptionalOffset(lines[1..], "inpoint ")
        case None => None
        case Some((inp, rest1)) =>
          match OptionalOffset(rest1, "outpoint ")
          case None => None
          case Some((outp, rest2)) => PrependItem(ListItem(path, inp, outp), ParseConcatLines(rest2))
  }

  function PrependItem(it: ListItem, r: Option<seq<ListItem>>): Option<seq<ListItem>> {
    match r
    case Some(more) => Some([it] + more)
    case None => None
  }

  /** How the reader takes one item off the front. */
  lemma ParseStep(lines: seq<string>, path: string, inp: Option<int>, rest1: seq<string>, outp: Option<int>, rest2: seq<string>)
    requires lines != [] && StartsWith(lines[0], "file ") && Unquote(lines[0][5..]) == Some(path)
    requires OptionalOffset(lines[1..], "inpoint ") == Some((inp, rest1))
    requires OptionalOffset(rest1, "outpoint ") == Some((outp, rest2))
    ensures ParseConcatLines(lines) == PrependItem(ListItem(path, inp, outp), ParseConcatLines(rest2))
  {
  }

  /** Offsets already clamped the way the writer clamps them. */
  predicate NonNegative(it: ListItem) {
    (it.inpoint.Some? ==> it.inpoint.value >= 0) && (it.outpoint.Some? ==> it.outpoint.value >= 0)
  }

  /** The lines that may follow an item: none, or a new `file` line. */
  predicate NextIsFile(rest: seq<string>) {
    rest == [] || StartsWith(rest[0], "file ")
  }

  lemma KeywordsDiffer(s: string)
    requires StartsWith(s, "file ")
    ensures !StartsWith(s, "inpoint ") && !StartsWith(s, "outpoint ")
  {
    assert s[0] == 'f';
  }

  lemma OffsetLine(keyword: string, v: int, rest: seq<string>)
    requires v >= 0
    ensures OptionalOffset([keyword + FormatHHMMSS(v)] + rest, keyword) == Some((Some(v), rest))
  {
    var line := keyword + FormatHHMMSS(v);
    assert line[..|keyword|] == keyword;
    assert line[|keyword|..] == FormatHHMMSS(v);
    FormatHHMMSSRoundTrip(v);
    assert ([line] + rest)[1..] == rest;
  }

  lemma NoOffsetLine(keyword: string, rest: seq<string>)
    requires NextIsFile(rest) && (keyword == "inpoint " || keyword == "outpoint ")
    ensures OptionalOffset(rest, keyword) == Some((None, rest))
  {
    if rest != [] {
      KeywordsDiffer(rest[0]);
    }
  }

  lemma Regroup<T>(a: seq<T>, b: seq<T>, c: seq<T>, d: seq<T>)
    ensures a + b + c + d == a + (b + (c + d))
  {
  }

  lemma AfterFirst<T>(x: T, rest: seq<T>)
    ensures ([x] + rest)[0] == x && ([x] + rest)[1..] == rest
  {
  }

  function InLines(it: ListItem): seq<string> {
    if it.inpoint.Some? then ["inpoint " + FormatHHMMSS(it.inpoint.value)] else []
  }

  function OutLines(it: ListItem): seq<string> {
    if it.outpoint.Some? then ["outpoint " + FormatHHMMSS(it.outpoint.value)] else []
  }

  lemma OutPart(it: ListItem, rest: seq<string>)
    requires NonNegative(it) && NextIsFile(rest)
    ensures OptionalOffset(OutLines(it) + rest, "outpoint ") == Some((it.outpoint, rest))
  {
    if it.outpoint.Some? {
      OffsetLine("outpoint ", it.outpoint.value, rest);
    } else {
      assert OutLines(it) + rest == rest;
      NoOffsetLine("outpoint ", rest);
    }
  }

  lemma InPart(it: ListItem, rest: seq<string>)
    requires NonNegative(it) && NextIsFile(rest)
    ensures OptionalOffset(InLines(it) + (OutLines(it) + rest), "inpoint ") == Some((it.inpoint, OutLines(it) + rest))
  {
    var after := OutLines(it) + rest;
    if it.inpoint.Some? {
      OffsetLine("inpoint ", it.inpoint.value, after);
    } else {
      assert InLines(it) + after == after;
      if it.outpoint.Some? {
        var line := "outpoint " + FormatHHMMSS(it.outpoint.value);
        AfterFirst(line, rest);
        assert !StartsWith(line, "inpoint ") by {
          assert line[0] == 'o';
        }
      } else {
        assert after == rest;
        NoOffsetLine("inpoint ", rest);
      }
    }
  }

  /** One item's lines in front of the next item's read back as that item. */
  lemma ItemRoundTrip(it: ListItem, rest: seq<string>)
    requires NonNegative(it) && NextIsFile(rest)
    ensures ParseConcatLines(ItemLines(it) + rest) == PrependItem(it, ParseConcatLines(rest))
  {
    var fileLine := "file " + Quote(it.path);
    var lines := ItemLines(it) + rest;
    assert ItemLines(it) == [fileLine] + InLines(it) + OutLines(it);
    Regroup([fileLine], InLines(it), OutLines(it), rest);
    AfterFirst(fileLine, InLines(it) + (OutLines(it) + rest));
    assert fileLine[..5] == "file ";
    assert fileLine[5..] == Quote(it.path);
    QuoteRoundTrip(it.path);
    OutPart(it, rest);
    InPart(it, rest);
    ParseStep(lines, it.path, it.inpoint, OutLines(it) + rest, it.outpoint, rest);
  }

  /** Every list of items with clamped offsets survives writing and reading. */
  lemma {:induction false} ConcatListRoundTrip(items: seq<ListItem>)
    requires forall k :: 0 <= k < |items| ==> NonNegative(items[k])
    ensures ParseConcatLines(ConcatLines(items)) == Some(items)
  {
    if items != [] {
      ConcatListRoundTrip(items[1..]);
      var rest := ConcatLines(items[1..]);
      assert NextIsFile(rest) by {
        if items[1..] != [] {
          var line := "file " + Quote(items[1..][0].path);
          assert rest[0] == line;
          assert line[..5] == "file ";
        }
      }
      ItemRoundTrip(items[0], rest);
      assert items == [items[0]] + items[1..];
    }
  }

  /** Each item takes one to three lines. */
  lemma {:induction false} ConcatLinesLength(items: seq<ListItem>)
    ensures |items| <= |ConcatLines(items)| <= 3 * |items|
  {
    if items != [] {
      ConcatLinesLength(items[1..]);
    }
  }
}
