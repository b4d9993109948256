/**
 * `_prepare_plan_from_manifest` of `cheesepie/importer.py`: the files of a scan manifest are
 * grouped by camera, given a start (from the file name, else from the facility's path-time
 * expression) and a nominal duration, sorted, clipped at the next file's start, and laid over
 * each day window so that every instant of the window is taken from at most one file.
 *
 * Instants are naive milliseconds since 1970-01-01 00:00, windows are those of `_day_windows`.
 */
module ImporterReconcile {
  import opened Wrappers
  import opened Text
  import opened JsonValues
  import opened Collections
  import opened ImporterTime
  import opened ImporterFiles
  import opened ImporterManifest

  // ---------------------------------------------------------------------------
  // Segments
  // ---------------------------------------------------------------------------

  /** A media file and the span of time it is taken to hold. */
  datatype Seg = Seg(path: string, start: int, end: int)

  function SegStart(s: Seg): int {
    s.start
  }

  /**
   * One manifest entry: its `camera` value, its path, and the named groups the facility's
   * `path_time_regex` captures from the path (`None` when the expression is empty or does not match).
   */
  datatype ManifestFile = ManifestFile(camera: Json, path: string, groups: Option<map<string, string>>)

  /** `_parse_start_from_stem(p.stem) or _parse_time_from_path(p, regex)` */
  function StartOf(f: ManifestFile): Option<int> {
    match ParseStartFromStem(Stem(f.path))
    case Some(ts) => Some(ts)
    case None =>
      match f.groups
      case Some(gd) => TimeFromGroups(gd)
      case None => None
  }

  /** The segment a file contributes to camera `cam`, when it belongs to that camera and its start is known. */
  function SegmentOf(f: ManifestFile, cam: int, durMs: int): (r: Option<Seg>)
    ensures r.Some? ==> (PyInt(f.camera) == Some(cam) && StartOf(f).Some?
      && r.value == Seg(f.path, StartOf(f).value, StartOf(f).value + durMs))
  {
    if PyInt(f.camera) != Some(cam) then None
    else
      match StartOf(f)
      case Some(ts) => Some(Seg(f.path, ts, ts + durMs))
      case None => None
  }

  /** `by_cam[cam]` after the pass over the manifest: the camera's segments in manifest order. */
  function CameraSegs(files: seq<ManifestFile>, cam: int, durMs: int): seq<Seg> {
    Somes(MapSeq(f => SegmentOf(f, cam, durMs), files))
  }

  /** Every segment of a camera comes from one of its files with a known start, and lasts `durMs`. */
  lemma CameraSegsFrom(files: seq<ManifestFile>, cam: int, durMs: int)
    ensures forall k :: 0 <= k < |CameraSegs(files, cam, durMs)| ==>
      var s := CameraSegs(files, cam, durMs)[k];
      s.end == s.start + durMs && exists f :: f in files && PyInt(f.camera) == Some(cam) && f.path == s.path
  {
    var xs := MapSeq(f => SegmentOf(f, cam, durMs), files);
    SomesFrom(xs);
    forall k | 0 <= k < |Somes(xs)|
      ensures var s := Somes(xs)[k];
        s.end == s.start + durMs && exists f :: f in files && PyInt(f.camera) == Some(cam) && f.path == s.path
    {
      var j :| 0 <= j < |xs| && xs[j] == Some(Somes(xs)[k]);
      assert files[j] in files;
    }
  }

  // ---------------------------------------------------------------------------
  // Clipping at the next start
  // ---------------------------------------------------------------------------

  /** Segment `i` after clipping: its end pulled back to the next segment's start when that starts later. */
  function ClipAt(s: seq<Seg>, i: nat): Seg
    requires i < |s|
  {
    if i + 1 < |s| && s[i + 1].start > s[i].start then
      s[i].(end := if s[i].end < s[i + 1].start then s[i].end else s[i + 1].start)
    else s[i]
  }

  function Clipped(s: seq<Seg>): (r: seq<Seg>)
    ensures |r| == |s|
  {
    seq(|s|, i requires 0 <= i < |s| => ClipAt(s, i))
  }

  /**
   * Clipping keeps every path and start, never lengthens a segment, ends each segment no later
   * than a later-starting successor, and keeps a sorted sequence sorted.
   */
  lemma ClippedProperties(s: seq<Seg>)
    ensures forall i :: 0 <= i < |s| ==> Clipped(s)[i].path == s[i].path && Clipped(s)[i].start == s[i].start
    ensures forall i :: 0 <= i < |s| ==> Clipped(s)[i].end <= s[i].end
    ensures forall i :: 0 <= i < |s| - 1 && s[i + 1].start > s[i].start ==> Clipped(s)[i].end <= s[i + 1].start
    ensures forall i :: 0 <= i < |s| && s[i].start < s[i].end ==> Clipped(s)[i].start < Clipped(s)[i].end
    ensures SortedBy(s, SegStart) ==> SortedBy(Clipped(s), SegStart)
  {
    var r := Clipped(s);
    forall i | 0 <= i < |s|
      ensures r[i].path == s[i].path && SegStart(r[i]) == SegStart(s[i]) && r[i].end <= s[i].end
    {
      assert r[i] == ClipAt(s, i);
    }
    if SortedBy(s, SegStart) {
      forall i, j | 0 <= i < j < |r| ensures SegStart(r[i]) <= SegStart(r[j]) {
        assert SegStart(s[i]) <= SegStart(s[j]);
      }
    }
  }

  /** Clipping twice is clipping once. */
  lemma ClippedIdempotent(s: seq<Seg>)
    ensures Clipped(Clipped(s)) == Clipped(s)
  {
    var r := Clipped(s);
    forall i | 0 <= i < |s| ensures ClipAt(r, i) == r[i] {
      assert r[i].start == s[i].start;
      if i + 1 < |s| {
        assert r[i + 1].start == s[i + 1].start;
      }
    }
  }

  /** The clipping loop of `_prepare_plan_from_manifest`, in place on the sorted segments. */
  method ClipToNext(a: array<Seg>)
    modifies a
    ensures a[..] == Clipped(old(a[..]))
  {
    ghost var s := a[..];
    var i := 0;
    while i < a.Length
      invariant 0 <= i <= a.Length
      invariant forall k :: 0 <= k < i ==> a[k] == ClipAt(s, k)
      invariant forall k :: i <= k < a.Length ==> a[k] == s[k]
    {
      if i + 1 < a.Length {
        var ns := a[i + 1].start;
        if ns > a[i].start {
          a[i] := a[i].(end := if a[i].end < ns then a[i].end else ns);
        }
      }
      i := i + 1;
    }
    assert a[..] == Clipped(s);
  }

  // ---------------------------------------------------------------------------
  // Laying segments over a window
  // ---------------------------------------------------------------------------

  /** The part `[from, to)` of a segment that goes into a day's list. */
  datatype Piece = Piece(seg: Seg, from: int, to: int)

  function Max3(a: int, b: int, c: int): int {
    var m := if a < b then b else a;
    if m < c then c else m
  }

  function Min(a: int, b: int): int {
    if a < b then a else b
  }

  /** A piece inside the window `[ws, we)` and inside its segment. */
  predicate PieceInside(p: Piece, ws: int, we: int) {
    ws <= p.from < p.to <= we && p.seg.start <= p.from && p.to <= p.seg.end
  }

  /**
   * The cover walk: each segment overlapping the window contributes the part of it from the
   * latest of its start, the window's start and the end of what is already covered, up to the
   * earlier of its end and the window's end; empty parts are skipped.
   */
  function CoverFrom(segs: seq<Seg>, ws: int, we: int, cover: int): (r: seq<Piece>)
    ensures forall k :: 0 <= k < |r| ==> PieceInside(r[k], ws, we) && cover <= r[k].from && r[k].seg in segs
    ensures forall k :: 0 <= k < |r| - 1 ==> r[k].to <= r[k + 1].from
  {
    if segs == [] then []
    else
      var s := segs[0];
      var rest := segs[1..];
      if !Overlaps(s.start, s.end, ws, we) then CoverFrom(rest, ws, we, cover)
      else
        var effStart := Max3(s.start, ws, cover);
        var effEnd := Min(s.end, we);
        if effStart >= effEnd then CoverFrom(rest, ws, we, cover)
        else
          var tail := CoverFrom(rest, ws, we, effEnd);
          [Piece(s, effStart, effEnd)] + tail
  }

  /** No instant of the window is taken twice: the pieces are in time order and do not overlap. */
  lemma CoverDisjoint(segs: seq<Seg>, ws: int, we: int, i: nat, j: nat)
    requires i < j < |CoverFrom(segs, ws, we, ws)|
    ensures CoverFrom(segs, ws, we, ws)[i].to <= CoverFrom(segs, ws, we, ws)[j].from
  {
    var r := CoverFrom(segs, ws, we, ws);
    var k := i;
    while k + 1 < j
      invariant i <= k < j
      invariant r[i].to <= r[k + 1].from
    {
      assert r[k + 1].from < r[k + 1].to <= r[k + 2].from;
      k := k + 1;
    }
  }

  /** The instants a piece contributes. */
  predicate InPiece(t: int, p: Piece) {
    p.from <= t < p.to
  }

  /** The instants of a segment that fall in the window. */
  predicate InRange(t: int, s: Seg, ws: int, we: int) {
    s.start <= t < s.end && ws <= t < we
  }

  /** Pieces found from the second segment on are pieces of the whole walk. */
  lemma CoverTail(segs: seq<Seg>, ws: int, we: int, cover: int)
    requires segs != []
    ensures var s := segs[0];
      var effStart := Max3(s.start, ws, cover);
      var effEnd := Min(s.end, we);
      if Overlaps(s.start, s.end, ws, we) && effStart < effEnd then
        CoverFrom(segs, ws, we, cover) == [Piece(s, effStart, effEnd)] + CoverFrom(segs[1..], ws, we, effEnd)
      else CoverFrom(segs, ws, we, cover) == CoverFrom(segs[1..], ws, we, cover)
  {
  }

  /**
   * Completeness: over start-sorted segments, every instant of the window at or after `cover`
   * that lies in some segment is taken from some piece.
   */
  lemma {:induction false} CoverComplete(segs: seq<Seg>, ws: int, we: int, cover: int, k: nat, t: int)
    requires SortedBy(segs, SegStart)
    requires k < |segs| && InRange(t, segs[k], ws, we) && cover <= t
    ensures exists j :: 0 <= j < |CoverFrom(segs, ws, we, cover)| && InPiece(t, CoverFrom(segs, ws, we, cover)[j])
  {
    var s := segs[0];
    var rest := segs[1..];
    var effStart := Max3(s.start, ws, cover);
    var effEnd := Min(s.end, we);
    CoverTail(segs, ws, we, cover);
    assert SegStart(s) <= SegStart(segs[k]);
    var made := Overlaps(s.start, s.end, ws, we) && effStart < effEnd;
    if k == 0 {
      assert Overlaps(s.start, s.end, ws, we) && effStart <= t < effEnd;
      assert InPiece(t, CoverFrom(segs, ws, we, cover)[0]);
    } else {
      assert rest[k - 1] == segs[k];
      assert SortedBy(rest, SegStart) by {
        assert forall a :: 0 <= a < |rest| ==> rest[a] == segs[a + 1];
      }
      if made && t < effEnd {
        assert effStart <= t;
        assert InPiece(t, CoverFrom(segs, ws, we, cover)[0]);
      } else {
        var c' := if made then effEnd else cover;
        CoverComplete(rest, ws, we, c', k - 1, t);
        var j :| 0 <= j < |CoverFrom(rest, ws, we, c')| && InPiece(t, CoverFrom(rest, ws, we, c')[j]);
        if made {
          assert CoverFrom(segs, ws, we, cover)[j + 1] == CoverFrom(rest, ws, we, c')[j];
        }
      }
    }
  }

  /** The `inpoint`/`outpoint` item of a piece, offsets in milliseconds into its file. */
  function PieceItem(p: Piece): ListItem {
    ListItem(ReplaceAll(p.seg.path, "\\", "/"), Some(Max0(p.from - p.seg.start)),
      if p.to < p.seg.end then Some(Max0(p.to - p.seg.start)) else None)
  }

  /** An item says exactly where its piece starts and, unless it runs to the file's end, where it stops. */
  lemma PieceItemMeaning(p: Piece, ws: int, we: int)
    requires PieceInside(p, ws, we)
    ensures PieceItem(p).inpoint == Some(p.from - p.seg.start)
    ensures PieceItem(p).outpoint.None? <==> p.to == p.seg.end
    ensures PieceItem(p).outpoint.Some? ==> p.seg.start + PieceItem(p).outpoint.value == p.to
    ensures PieceItem(p).outpoint.Some? ==> PieceItem(p).inpoint.value < PieceItem(p).outpoint.value
    ensures NonNegative(PieceItem(p))
  {
  }

  /** The items for the window `[ws, we)`. */
  function CoverItems(segs: seq<Seg>, ws: int, we: int): seq<ListItem> {
    MapSeq(PieceItem, CoverFrom(segs, ws, we, ws))
  }

  /** The cover loop for one window. */
  method CoverWindow(segs: seq<Seg>, ws: int, we: int) returns (items: seq<ListItem>)
    ensures items == CoverItems(segs, ws, we)
  {
    items := [];
    ghost var pieces: seq<Piece> := [];
    var cover := ws;
    var i := 0;
    while i < |segs|
      invariant 0 <= i <= |segs|
      invariant pieces + CoverFrom(segs[i..], ws, we, cover) == CoverFrom(segs, ws, we, ws)
      invariant items == MapSeq(PieceItem, pieces)
    {
      var s := segs[i];
      CoverTail(segs[i..], ws, we, cover);
      assert segs[i..][0] == s && segs[i..][1..] == segs[i + 1..];
      if Overlaps(s.start, s.end, ws, we) {
        var effStart := Max3(s.start, ws, cover);
        var effEnd := Min(s.end, we);
        if effStart < effEnd {
          var p := Piece(s, effStart, effEnd);
          items := items + [PieceItem(p)];
          pieces := pieces + [p];
          cover := effEnd;
        }
      }
      i := i + 1;
    }
  }

  // ---------------------------------------------------------------------------
  // The plan
  // ---------------------------------------------------------------------------

  datatype DayStatus = Pending | Missing

  /**
   * One day of one camera: its number from 1, whether it has anything to encode, how many
   * pieces, where its list goes, the lines of that list, and whether the list file is written.
   */
  datatype DayPlan = DayPlan(day: int, status: DayStatus, segments: int, listPath: string, lines: seq<string>, written: bool)

  datatype CameraPlan = CameraPlan(camera: int, days: seq<DayPlan>)

  /** What a list's name is made of. */
  datatype Naming = Naming(tmpDir: string, experiment: string, treatment: string, batch: int)

  /** `f"{experiment}-{treatment}.exp{batch:03d}{cam}.day{di:02d}.cam{cam:02d}"`, the name shared by a day's list and its video. */
  function DayStem(experiment: string, treatment: string, batch: int, cam: int, di: int): string {
    experiment + "-" + treatment + ".exp" + PadInt(batch, 3) + IntToString(cam)
    + ".day" + PadInt(di, 2) + ".cam" + PadInt(cam, 2)
  }

  /** The list of day `di` of camera `cam`: its stem with `.txt`, in the temporary directory. */
  function ListPath(n: Naming, cam: int, di: int): string {
    n.tmpDir + "/" + (DayStem(n.experiment, n.treatment, n.batch, cam, di) + ".txt")
  }

  /** A window's bounds in milliseconds. */
  function WindowMs(w: Window): (int, int) {
    (w.start * 60000, w.end * 60000)
  }

  /** The day entry for the items found in a window. */
  function DayPlanOf(n: Naming, cam: int, di: int, items: seq<ListItem>): DayPlan {
    if items != [] then DayPlan(di, Pending, |items|, ListPath(n, cam, di), ConcatLines(items), true)
    else DayPlan(di, Missing, 0, ListPath(n, cam, di), [], true)
  }

  /** The segments of a camera as the walk sees them: sorted by start, then clipped. */
  function Prepared(raw: seq<Seg>): seq<Seg> {
    Clipped(SortBy(raw, SegStart))
  }

  /** A camera's days: all missing, and no list written, when it has no segments at all. */
  function CameraPlanOf(n: Naming, cam: int, raw: seq<Seg>, wins: seq<Window>): CameraPlan {
    if raw == [] then CameraPlan(cam, MissingDays(n, cam, |wins|))
    else CameraPlan(cam, DaysOf(n, cam, Prepared(raw), wins))
  }

  function MissingDays(n: Naming, cam: int, count: nat): (r: seq<DayPlan>)
    ensures |r| == count
  {
    seq(count, k requires 0 <= k < count => DayPlan(k + 1, Missing, 0, ListPath(n, cam, k + 1), [], false))
  }

  /** The day entry for window `k` of the prepared segments. */
  function DayFor(n: Naming, cam: int, segs: seq<Seg>, wins: seq<Window>, k: nat): DayPlan
    requires k < |wins|
  {
    DayPlanOf(n, cam, k + 1, CoverItems(segs, WindowMs(wins[k]).0, WindowMs(wins[k]).1))
  }

  function DaysOf(n: Naming, cam: int, segs: seq<Seg>, wins: seq<Window>): (r: seq<DayPlan>)
    ensures |r| == |wins|
  {
    seq(|wins|, k requires 0 <= k < |wins| => DayFor(n, cam, segs, wins, k))
  }

  /** `_prepare_plan_from_manifest`'s plan: one entry per requested camera, in the order requested. */
  function PlanOf(n: Naming, durMs: int, cameras: seq<int>, files: seq<ManifestFile>, wins: seq<Window>): seq<CameraPlan> {
    MapSeq(cam => CameraPlanOf(n, cam, CameraSegs(files, cam, durMs), wins), cameras)
  }

  /** The day loop over the prepared segments. */
  method PlanDays(n: Naming, cam: int, segs: seq<Seg>, wins: seq<Window>) returns (days: seq<DayPlan>)
    ensures days == DaysOf(n, cam, segs, wins)
  {
    ghost var all := DaysOf(n, cam, segs, wins);
    days := [];
    var k := 0;
    while k < |wins|
      invariant 0 <= k <= |wins|
      invariant days == all[..k]
    {
      var day := PlanWindow(n, cam, segs, wins, k);
      TakeSnoc(all, k);
      days := days + [day];
      k := k + 1;
    }
    TakeAll(all, k);
  }

  /** One pass of the day loop: the cover of window `k`, then its list. */
  method PlanWindow(n: Naming, cam: int, segs: seq<Seg>, wins: seq<Window>, k: nat) returns (day: DayPlan)
    requires k < |wins|
    ensures day == DayFor(n, cam, segs, wins, k)
  {
    var (ws, we) := WindowMs(wins[k]);
    var items := CoverWindow(segs, ws, we);
    day := MakeDay(n, cam, k + 1, items);
  }

  /** One day's entry: the list written when there are items, an empty file otherwise. */
  method MakeDay(n: Naming, cam: int, di: int, items: seq<ListItem>) returns (day: DayPlan)
    ensures day == DayPlanOf(n, cam, di, items)
  {
    if items != [] {
      var lines := WriteConcatList(items);
      day := DayPlan(di, Pending, |items|, ListPath(n, cam, di), lines, true);
    } else {
      day := DayPlan(di, Missing, 0, ListPath(n, cam, di), [], true);
    }
  }

  /** The plan for one camera from its unsorted segments. */
  method PlanCamera(n: Naming, cam: int, raw: seq<Seg>, wins: seq<Window>) returns (cp: CameraPlan)
    ensures cp == CameraPlanOf(n, cam, raw, wins)
  {
    if raw == [] {
      cp := CameraPlan(cam, MissingDays(n, cam, |wins|));
      return;
    }
    var sorted := SortBy(raw, SegStart);
    var a := new Seg[|sorted|](i requires 0 <= i < |sorted| => sorted[i]);
    assert a[..] == sorted;
    ClipToNext(a);
    var days := PlanDays(n, cam, a[..], wins);
    cp := CameraPlan(cam, days);
  }

  /** The segments of the first `i` files for one camera, one more file at a time. */
  lemma CameraSegsSnoc(files: seq<ManifestFile>, cam: int, durMs: int, i: nat)
    requires i < |files|
    ensures CameraSegs(files[..i + 1], cam, durMs)
      == CameraSegs(files[..i], cam, durMs) + (match SegmentOf(files[i], cam, durMs) case Some(s) => [s] case None => [])
  {
    var f := (g: ManifestFile) => SegmentOf(g, cam, durMs);
    MapSnoc(f, files, i);
    var xs := MapSeq(f, files[..i + 1]);
    assert xs[..|xs| - 1] == MapSeq(f, files[..i]);
  }

  /** A file of camera `cam` with start `ts` gives its segment to that camera and to no other. */
  lemma SegmentOfKnown(f: ManifestFile, c: int, cam: int, ts: int, durMs: int)
    requires PyInt(f.camera) == Some(cam) && StartOf(f) == Some(ts)
    ensures SegmentOf(f, c, durMs) == if c == cam then Some(Seg(f.path, ts, ts + durMs)) else None
  {
  }

  /** No file read yet, no segment. */
  lemma CameraSegsEmpty(files: seq<ManifestFile>, cam: int, durMs: int)
    ensures CameraSegs(files[..0], cam, durMs) == []
  {
    assert MapSeq(f => SegmentOf(f, cam, durMs), files[..0]) == [];
  }

  /** Every camera's list in `byCam` is its segments of `files`. */
  predicate Grouped(byCam: map<int, seq<Seg>>, files: seq<ManifestFile>, durMs: int) {
    forall c :: c in byCam ==> byCam[c] == CameraSegs(files, c, durMs)
  }

  /** Adding a file's segment to its camera keeps `by_cam` equal to the camera segments of the files read so far. */
  lemma AddStep(byCam: map<int, seq<Seg>>, files: seq<ManifestFile>, durMs: int, i: nat, cam: int, ts: int)
    requires i < |files| && PyInt(files[i].camera) == Some(cam) && StartOf(files[i]) == Some(ts)
    requires cam in byCam
    requires Grouped(byCam, files[..i], durMs)
    ensures var next := byCam[cam := byCam[cam] + [Seg(files[i].path, ts, ts + durMs)]];
      next.Keys == byCam.Keys && Grouped(next, files[..i + 1], durMs)
  {
    var seg := Seg(files[i].path, ts, ts + durMs);
    var before := c => CameraSegs(files[..i], c, durMs);
    var after := c => CameraSegs(files[..i + 1], c, durMs);
    forall c | c in byCam ensures after(c) == before(c) + (if c == cam then [seg] else []) {
      CameraSegsSnoc(files, c, durMs, i);
      SegmentOfKnown(files[i], c, cam, ts, durMs);
    }
    AppendAt(byCam, cam, seg, before, after);
  }

  /** A file that adds nothing (unknown camera, camera not requested, or no start) leaves `by_cam` as it is. */
  lemma SkipStep(byCam: map<int, seq<Seg>>, files: seq<ManifestFile>, durMs: int, i: nat)
    requires i < |files|
    requires PyInt(files[i].camera).None? || PyInt(files[i].camera).value !in byCam || StartOf(files[i]).None?
    requires Grouped(byCam, files[..i], durMs)
    ensures Grouped(byCam, files[..i + 1], durMs)
  {
    forall c | c in byCam ensures byCam[c] == CameraSegs(files[..i + 1], c, durMs) {
      CameraSegsSnoc(files, c, durMs, i);
    }
  }

  /** One pass of the manifest loop: file `i` joins its camera's list when it has a camera that is requested and a start. */
  method GroupFile(byCam: map<int, seq<Seg>>, files: seq<ManifestFile>, durMs: int, i: nat) returns (next: map<int, seq<Seg>>)
    requires i < |files|
    requires Grouped(byCam, files[..i], durMs)
    ensures next.Keys == byCam.Keys
    ensures Grouped(next, files[..i + 1], durMs)
  {
    var cam := PyInt(files[i].camera);
    var ts := StartOf(files[i]);
    if cam.Some? && cam.value in byCam && ts.Some? {
      var c, t := cam.value, ts.value;
      AddStep(byCam, files, durMs, i, c, t);
      next := byCam[c := byCam[c] + [Seg(files[i].path, t, t + durMs)]];
    } else {
      SkipStep(byCam, files, durMs, i);
      next := byCam;
    }
  }

  /** The pass over the manifest: `by_cam` for the requested cameras. */
  method GroupByCamera(cameras: seq<int>, files: seq<ManifestFile>, durMs: int) returns (byCam: map<int, seq<Seg>>)
    ensures forall c :: c in byCam <==> c in cameras
    ensures forall c :: c in byCam ==> byCam[c] == CameraSegs(files, c, durMs)
  {
    byCam := map c | c in cameras :: [];
    var i := 0;
    forall c | c in byCam ensures byCam[c] == CameraSegs(files[..0], c, durMs) {
      CameraSegsEmpty(files, c, durMs);
    }
    while i < |files|
      invariant 0 <= i <= |files|
      invariant forall c :: c in byCam <==> c in cameras
      invariant Grouped(byCam, files[..i], durMs)
    {
      byCam := GroupFile(byCam, files, durMs, i);
      i := i + 1;
    }
    TakeAll(files, i);
  }

  /**
   * With the value the source reaches, `None`, every segment is nominally four hours long
   * before clipping.
   */
  lemma PlannedDuration(f: ManifestFile, cam: int)
    ensures ParseDurToSeconds(None) * 1000 == 14400000
    ensures var s := SegmentOf(f, cam, ParseDurToSeconds(None) * 1000);
      s.Some? ==> s.value.end - s.value.start == 14400000
  {
  }

  /**
   * `_prepare_plan_from_manifest` after the facility lookup: the day windows of the requested
   * dates, the nominal file duration read from `fac.get('max_file_duration')`, then one plan per
   * camera. The facilities `cfg_importer_facilities` builds carry no `max_file_duration` key, so
   * the source always passes `None` here; `maxFileDuration` is kept as a parameter and
   * `PlannedDuration` states what `None` gives.
   */
  method PrepareFromManifest(n: Naming, maxFileDuration: Option<Json>, cameras: seq<int>, files: seq<ManifestFile>,
                             startDate: string, endDate: string, startTime: string, endTime: string)
    returns (plan: seq<CameraPlan>)
    ensures plan == PlanOf(n, ParseDurToSeconds(maxFileDuration) * 1000, cameras, files,
      DayWindowsOf(startDate, endDate, startTime, endTime))
  {
    var wins := DayWindows(startDate, endDate, startTime, endTime);
    var durMs := ParseDurToSeconds(maxFileDuration) * 1000;
    var byCam := GroupByCamera(cameras, files, durMs);
    plan := [];
    var i := 0;
    while i < |cameras|
      invariant 0 <= i <= |cameras|
      invariant plan == PlanOf(n, durMs, cameras[..i], files, wins)
    {
      var cp := PlanCamera(n, cameras[i], byCam[cameras[i]], wins);
      MapSnoc(cam => CameraPlanOf(n, cam, CameraSegs(files, cam, durMs), wins), cameras, i);
      plan := plan + [cp];
      i := i + 1;
    }
    assert cameras[..i] == cameras;
  }

  // ---------------------------------------------------------------------------
  // What the plan promises
  // ---------------------------------------------------------------------------

  /** A day is pending exactly when it has pieces, and then it has lines. */
  lemma DayPlanShape(n: Naming, cam: int, di: int, items: seq<ListItem>)
    ensures var d := DayPlanOf(n, cam, di, items);
      d.day == di && d.listPath == ListPath(n, cam, di) && d.written && d.segments == |items|
      && (d.status == Pending <==> d.segments > 0)
      && (d.status == Pending <==> d.lines != [])
      && d.lines == ConcatLines(items)
  {
    ConcatLinesLength(items);
    assert ConcatLines([]) == [];
  }

  /** Every day of a camera is numbered from 1 and named for its camera and number; pending exactly when it has pieces. */
  lemma CameraPlanShape(n: Naming, cam: int, raw: seq<Seg>, wins: seq<Window>)
    ensures var cp := CameraPlanOf(n, cam, raw, wins);
      cp.camera == cam && |cp.days| == |wins|
      && forall k :: 0 <= k < |wins| ==>
        var d := cp.days[k];
        d.day == k + 1 && d.listPath == ListPath(n, cam, k + 1)
        && (d.status == Pending <==> d.segments > 0)
        && (d.status == Pending <==> d.lines != [])
  {
    if raw != [] {
      var segs := Prepared(raw);
      forall k | 0 <= k < |wins|
        ensures var d := DaysOf(n, cam, segs, wins)[k];
          d.day == k + 1 && d.listPath == ListPath(n, cam, k + 1)
          && (d.status == Pending <==> d.segments > 0)
          && (d.status == Pending <==> d.lines != [])
      {
        DayPlanShape(n, cam, k + 1, CoverItems(segs, WindowMs(wins[k]).0, WindowMs(wins[k]).1));
      }
    }
  }

  /** One entry per requested camera, in the order requested, each with one day per window. */
  lemma PlanShape(n: Naming, durMs: int, cameras: seq<int>, files: seq<ManifestFile>, wins: seq<Window>)
    ensures var plan := PlanOf(n, durMs, cameras, files, wins);
      |plan| == |cameras|
      && forall c :: 0 <= c < |plan| ==> plan[c] == CameraPlanOf(n, cameras[c], CameraSegs(files, cameras[c], durMs), wins)
  {
  }

  /** The list of a pending day reads back as the items of its window, its length the item count. */
  lemma DayListReadBack(n: Naming, cam: int, segs: seq<Seg>, wins: seq<Window>, k: nat)
    requires k < |wins|
    ensures var d := DaysOf(n, cam, segs, wins)[k];
      var items := CoverItems(segs, WindowMs(wins[k]).0, WindowMs(wins[k]).1);
      d.segments == |items| && ParseConcatLines(d.lines) == Some(items)
  {
    var (ws, we) := WindowMs(wins[k]);
    var pieces := CoverFrom(segs, ws, we, ws);
    var items := MapSeq(PieceItem, pieces);
    forall j | 0 <= j < |items| ensures NonNegative(items[j]) {
      PieceItemMeaning(pieces[j], ws, we);
    }
    ConcatListRoundTrip(items);
    DayPlanShape(n, cam, k + 1, items);
  }

  /** A camera none of whose files has a known start is missing on every day, and no list is written for it. */
  lemma CameraWithoutFiles(n: Naming, durMs: int, cam: int, files: seq<ManifestFile>, wins: seq<Window>)
    requires forall k :: 0 <= k < |files| ==> SegmentOf(files[k], cam, durMs).None?
    ensures forall k :: 0 <= k < |wins| ==>
      CameraPlanOf(n, cam, CameraSegs(files, cam, durMs), wins).days[k].status == Missing
      && !CameraPlanOf(n, cam, CameraSegs(files, cam, durMs), wins).days[k].written
  {
    SomesEmpty(MapSeq(f => SegmentOf(f, cam, durMs), files));
  }
}
