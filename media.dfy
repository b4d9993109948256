/**
 * Serving a media file with HTTP byte ranges: the `Range` header is parsed and clamped
 * to the file, a satisfiable range is streamed in chunks of at most 8192 bytes, and
 * anything the parser rejects is answered with 416. The reading of `bytes=-N` is the
 * handler's own: the first N+1 bytes, not a suffix range.
 */
module Media {
  import opened Wrappers
  import opened Text
  import opened Collections
  import opened Http

  newtype byte = x: int | 0 <= x < 256

  /** The largest chunk one read asks for. */
  const ChunkSize: nat := 8192

  /** What a `Range` header asks for: the whole file, nothing satisfiable, or bytes `start..end` inclusive. */
  datatype RangeOutcome = Whole | Unsatisfiable | Partial(start: int, end: int)

  function Min(a: int, b: int): int { if a <= b then a else b }
  function Max(a: int, b: int): int { if a >= b then a else b }

  /** A missing bound takes its default, a present one goes through `int()`. */
  function Bound(s: string, default: int): Option<int> {
    if s == "" then Some(default) else ParseInt(s)
  }

  /** Clamp the asked range into the file: start into `0..size-1`, end into `start..size-1`. */
  function Clamp(start: int, end: int, size: nat): RangeOutcome {
    var s := Max(0, Min(start, size - 1));
    Partial(s, Max(s, Min(end, size - 1)))
  }

  /** The bounds as given: both must convert, the start may not be negative nor after the end. */
  function Interpret(startStr: string, endStr: string, size: nat): RangeOutcome {
    var start := Bound(startStr, 0);
    var end := Bound(endStr, size - 1);
    if start.None? || end.None? then Unsatisfiable
    else if start.value < 0 || end.value < start.value then Unsatisfiable
    else Clamp(start.value, end.value, size)
  }

  /** `(rng.split('-', 1) + [''])[:2]`: a range without `-` is all start. */
  function Bounds(rng: string, size: nat): RangeOutcome {
    match SplitOnce(rng, '-')
    case Some((a, b)) => Interpret(a, b, size)
    case None => Interpret(rng, "", size)
  }

  /** The unit must be `bytes` once stripped, and only one range may be given. */
  function RangeSpec(units: string, rng: string, size: nat): RangeOutcome {
    if Strip(units) != "bytes" || ',' in rng then Unsatisfiable else Bounds(rng, size)
  }

  /**
   * A non-empty `Range` header: `units=range` split at the first `=`; a header without
   * one is unsatisfiable (the unpacking raises).
   */
  function ParseRange(header: string, size: nat): RangeOutcome {
    match SplitOnce(header, '=')
    case None => Unsatisfiable
    case Some((units, rng)) => RangeSpec(units, rng, size)
  }

  /** No header, or an empty one, serves the whole file. */
  function RangeOf(header: Option<string>, size: nat): RangeOutcome {
    match header
    case None => Whole
    case Some(h) => if h == "" then Whole else ParseRange(h, size)
  }

  /** The number of bytes a partial answer declares. */
  function Length(start: int, end: int): int {
    end - start + 1
  }

  /** The `Content-Range` header of a 206 or a 416 answer. */
  function ContentRange(r: RangeOutcome, size: nat): string {
    match r
    case Partial(s, e) => "bytes " + IntToString(s) + "-" + IntToString(e) + "/" + IntToString(size)
    case _ => "bytes */" + IntToString(size)
  }

  /**
   * `/media`: a non-blank `path` (400) naming an existing file (404); then the range
   * answer for the file's size.
   */
  function MediaRequest(path: string, isFile: bool, size: nat, header: Option<string>): Result<RangeOutcome, Failure> {
    if Strip(path) == "" then Err(Failure(400, "No path provided"))
    else if !isFile then Err(Failure(404, "File not found"))
    else Ok(RangeOf(header, size))
  }

  /** A blank path is a 400 and a missing file a 404; an existing file without a header is served whole. */
  lemma MediaRequestMeaning(path: string, isFile: bool, size: nat, header: Option<string>)
    ensures MediaRequest(path, isFile, size, header) == Err(Failure(400, "No path provided")) <==> Strip(path) == ""
    ensures MediaRequest(path, isFile, size, header) == Err(Failure(404, "File not found")) <==>
      Strip(path) != "" && !isFile
    ensures MediaRequest(path, isFile, size, header).Ok? <==> Strip(path) != "" && isFile
    ensures MediaRequest(path, isFile, size, header).Ok? && (header.None? || header == Some("")) ==>
      MediaRequest(path, isFile, size, header).value == Whole
    ensures MediaRequest(path, isFile, size, header).Ok? && header.Some? && header.value != "" ==>
      MediaRequest(path, isFile, size, header).value == ParseRange(header.value, size)
  {
  }

  /** A header whose unit is not `bytes`, that lists several ranges, or that has no `=` is unsatisfiable. */
  lemma RangeRejects(header: string, size: nat)
    ensures SplitOnce(header, '=').None? ==> ParseRange(header, size) == Unsatisfiable
    ensures SplitOnce(header, '=').Some? && Strip(SplitOnce(header, '=').value.0) != "bytes" ==>
      ParseRange(header, size) == Unsatisfiable
    ensures SplitOnce(header, '=').Some? && ',' in SplitOnce(header, '=').value.1 ==>
      ParseRange(header, size) == Unsatisfiable
  {
  }

  /** After clamping a partial range lies inside a non-empty file and declares a positive length. */
  lemma RangeBounds(header: string, size: nat)
    requires ParseRange(header, size).Partial?
    ensures var r := ParseRange(header, size);
      r.start <= r.end && Length(r.start, r.end) >= 1
      && (size >= 1 ==> 0 <= r.start <= r.end <= size - 1 && Length(r.start, r.end) <= size)
  {
  }

  /** Clamping keeps a range that already lies inside the file, and only shrinks one that does not. */
  lemma ClampMeaning(start: int, end: int, size: nat)
    requires 0 <= start <= end && size >= 1
    ensures end < size ==> Clamp(start, end, size) == Partial(start, end)
    ensures var r := Clamp(start, end, size);
      r.start == Min(start, size - 1) && r.end == Max(r.start, Min(end, size - 1))
      && (start < size ==> r.start == start && r.end <= end)
  {
  }

  /** The digits of a number hold no sign, comma or equals sign. */
  lemma DecimalPlain(n: nat)
    ensures '-' !in Decimal(n) && ',' !in Decimal(n) && '=' !in Decimal(n) && ParseInt(Decimal(n)) == Some(n)
  {
    UnsignedRoundTrip(Decimal(n));
  }

  /** A header `bytes=<rng>` is read by its range part. */
  lemma BytesHeader(rng: string, size: nat)
    ensures ParseRange("bytes" + "=" + rng, size) == if ',' in rng then Unsatisfiable else Bounds(rng, size)
  {
    SplitOnceConcat("bytes", '=', rng);
    StripUnchanged("bytes");
  }

  /** A range `<a>-<b>` whose start holds no dash is read as those two bounds. */
  lemma DashRange(a: string, b: string, size: nat)
    requires '-' !in a
    ensures Bounds(a + "-" + b, size) == Interpret(a, b, size)
  {
    SplitOnceConcat(a, '-', b);
  }

  /** `bytes=<s>-<e>` inside the file is served exactly. */
  lemma RangeRoundTrip(s: nat, e: nat, size: nat)
    requires s <= e < size
    ensures ParseRange("bytes" + "=" + (Decimal(s) + "-" + Decimal(e)), size) == Partial(s, e)
  {
    DecimalPlain(s);
    DecimalPlain(e);
    BytesHeader(Decimal(s) + "-" + Decimal(e), size);
    DashRange(Decimal(s), Decimal(e), size);
  }

  /** `bytes=-<e>` is read as the first `e + 1` bytes, not as the last `e`. */
  lemma RangeMissingStart(e: nat, size: nat)
    requires e < size
    ensures ParseRange("bytes" + "=" + ("" + "-" + Decimal(e)), size) == Partial(0, e)
  {
    DecimalPlain(e);
    BytesHeader("" + "-" + Decimal(e), size);
    DashRange("", Decimal(e), size);
  }

  /** `bytes=<s>-` and `bytes=<s>` run to the end of the file. */
  lemma RangeMissingEnd(s: nat, size: nat)
    requires s < size
    ensures ParseRange("bytes" + "=" + (Decimal(s) + "-" + ""), size) == Partial(s, size - 1)
    ensures ParseRange("bytes" + "=" + Decimal(s), size) == Partial(s, size - 1)
  {
    DecimalPlain(s);
    BytesHeader(Decimal(s) + "-" + "", size);
    DashRange(Decimal(s), "", size);
    BytesHeader(Decimal(s), size);
  }

  /** An end before the start is unsatisfiable rather than clamped. */
  lemma RangeBackwards(s: nat, e: nat, size: nat)
    requires e < s
    ensures ParseRange("bytes" + "=" + (Decimal(s) + "-" + Decimal(e)), size) == Unsatisfiable
  {
    DecimalPlain(s);
    DecimalPlain(e);
    BytesHeader(Decimal(s) + "-" + Decimal(e), size);
    DashRange(Decimal(s), Decimal(e), size);
  }

  // ---------------------------------------------------------------------------------
  // Streaming
  // ---------------------------------------------------------------------------------

  /** `f.read(n)` at offset `pos` of a regular file: at most `n` bytes, fewer at the end. */
  function Read(content: seq<byte>, pos: nat, n: nat): (data: seq<byte>)
    ensures |data| <= n
  {
    content[Min(pos, |content|)..Min(pos + n, |content|)]
  }

  /** The bytes `[start, start + length)` of the file, cut short at its end. */
  function Window(content: seq<byte>, start: nat, length: nat): seq<byte> {
    content[Min(start, |content|)..Min(start + length, |content|)]
  }

  /**
   * `generate()`: from `start`, read at most `ChunkSize` bytes at a time until `length`
   * bytes are sent or the file ends.
   */
  method Stream(content: seq<byte>, start: nat, length: nat) returns (chunks: seq<seq<byte>>)
    ensures forall i :: 0 <= i < |chunks| ==> 0 < |chunks[i]| <= ChunkSize
    ensures Concat(chunks) == Window(content, start, length)
  {
    chunks := [];
    var remaining := length;
    var pos := start;
    while remaining > 0
      invariant 0 <= remaining <= length && pos == start + (length - remaining)
      invariant forall i :: 0 <= i < |chunks| ==> 0 < |chunks[i]| <= ChunkSize
      invariant Concat(chunks) == content[Min(start, |content|)..Min(pos, |content|)]
      decreases remaining
    {
      var data := Read(content, pos, Min(ChunkSize, remaining));
      if data == [] {
        assert pos >= |content|;
        break;
      }
      ConcatSnoc(chunks, data);
      chunks := chunks + [data];
      remaining := remaining - |data|;
      pos := pos + |data|;
    }
  }

  /** A window inside the file has the declared length. */
  lemma WindowLength(content: seq<byte>, start: nat, length: nat)
    ensures |Window(content, start, length)| <= length
    ensures start + length <= |content| ==> Window(content, start, length) == content[start..start + length]
  {
  }

  /**
   * A partial answer of a non-empty file streams exactly the declared `Content-Length`
   * bytes, the ones between its start and end.
   */
  lemma PartialBodyExact(header: string, content: seq<byte>)
    requires ParseRange(header, |content|).Partial? && |content| >= 1
    ensures var r := ParseRange(header, |content|);
      Window(content, r.start, Length(r.start, r.end)) == content[r.start..r.end + 1]
  {
  }

  /**
   * An empty file: every satisfiable header becomes `bytes 0-0/0` with a declared length
   * of one byte, while the stream sends nothing.
   */
  lemma EmptyFileRange(header: string, content: seq<byte>)
    requires |content| == 0 && ParseRange(header, 0).Partial?
    ensures ParseRange(header, 0) == Partial(0, 0) && Length(0, 0) == 1
    ensures Window(content, 0, 1) == []
  {
  }
}
