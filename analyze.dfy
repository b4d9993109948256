/**
 * Track analysis (the `/api/analyze` endpoints): a video's tracking result lives next to it in
 * `<video>.obj.mat`, which holds x and y position arrays of shape (mice, frames) under
 * one of several groups. Every usable x/y pair is oriented so that mice are rows, pairs
 * whose shapes disagree are dropped, the pair with the most frames wins, and the positions
 * endpoint answers a window of frames from it.
 *
 * Reading HDF5 is not modelled: a dataset is given as the 2-D array it holds, or `None`
 * when it is not two-dimensional.
 */
module Analyze {
  import opened Wrappers

  // ---------------------------------------------------------------------------------
  // Arrays
  // ---------------------------------------------------------------------------------

  /** A 2-D array: its shape and its rows. */
  datatype Grid<T> = Grid(rows: nat, cols: nat, data: seq<seq<T>>)

  /** The rows agree with the shape. */
  predicate Shaped<T>(a: Grid<T>) {
    |a.data| == a.rows && forall r :: 0 <= r < |a.data| ==> |a.data[r]| == a.cols
  }

  /** `a.T` */
  function Transpose<T>(a: Grid<T>): (t: Grid<T>)
    requires Shaped(a)
    ensures Shaped(t) && t.rows == a.cols && t.cols == a.rows
    ensures forall i, j :: 0 <= i < t.rows && 0 <= j < t.cols ==> t.data[i][j] == a.data[j][i]
  {
    Grid(a.cols, a.rows, seq(a.cols, j requires 0 <= j < a.cols =>
      seq(a.rows, i requires 0 <= i < a.rows => a.data[i][j])))
  }

  /** Transposing twice gives the array back. */
  lemma TransposeTwice<T>(a: Grid<T>)
    requires Shaped(a)
    ensures Transpose(Transpose(a)) == a
  {
    var b := Transpose(Transpose(a));
    assert forall r :: 0 <= r < a.rows ==> b.data[r] == a.data[r];
  }

  /** `orient`: mice become rows, so a taller than wide array is transposed. */
  function Orient<T>(a: Grid<T>): Grid<T>
    requires Shaped(a)
  {
    if a.rows <= a.cols then a else Transpose(a)
  }

  /** Orienting keeps a well-formed array, makes it no taller than wide, transposes exactly the tall ones, and settles. */
  lemma OrientMeaning<T>(a: Grid<T>)
    requires Shaped(a)
    ensures var o := Orient(a);
      Shaped(o) && o.rows <= o.cols &&
      (o == a <==> a.rows <= a.cols) &&
      (a.rows > a.cols ==> o == Transpose(a)) &&
      Orient(o) == o
  {
    if a.rows > a.cols {
      assert Transpose(a).rows != a.rows;
    }
  }

  // ---------------------------------------------------------------------------------
  // Candidates (`add_pair` and the choice of the best pair)
  // ---------------------------------------------------------------------------------

  /** An x array and a y array. */
  type Pair<T> = (Grid<T>, Grid<T>)

  /** A pair ready to be chosen: both well-formed, oriented, and of one shape. */
  predicate Matched<T>(p: Pair<T>) {
    Shaped(p.0) && Shaped(p.1) && p.0.rows <= p.0.cols &&
    p.0.rows == p.1.rows && p.0.cols == p.1.cols
  }

  /** Every candidate is ready to be chosen. */
  predicate AllMatched<T>(cands: seq<(string, Pair<T>)>) {
    forall i :: 0 <= i < |cands| ==> Matched(cands[i].1)
  }

  /** `candidates[base] = pair`: a known base keeps its place and takes the new pair, a new one goes last. */
  function Assign<T>(cands: seq<(string, Pair<T>)>, base: string, p: Pair<T>): (r: seq<(string, Pair<T>)>)
    ensures |r| == |cands| || |r| == |cands| + 1
    ensures forall i :: 0 <= i < |r| ==> r[i] == (base, p) || r[i] in cands
    ensures (base, p) in r
    ensures forall i :: 0 <= i < |cands| && cands[i].0 != base ==> cands[i] in r
  {
    if cands == [] then [(base, p)]
    else if cands[0].0 == base then [(base, p)] + cands[1..]
    else
      var rest := Assign(cands[1..], base, p);
      assert forall i :: 0 < i < |cands| ==> cands[i] == cands[1..][i - 1];
      [cands[0]] + rest
  }

  /** A base already recorded keeps its place in the dict's order and only its pair changes. */
  lemma {:induction false} AssignKnown<T>(cands: seq<(string, Pair<T>)>, base: string, p: Pair<T>, i: nat)
    requires i < |cands| && cands[i].0 == base
    requires forall j :: 0 <= j < i ==> cands[j].0 != base
    ensures Assign(cands, base, p) == cands[..i] + [(base, p)] + cands[i + 1..]
    decreases i
  {
    if i == 0 {
      assert cands[..0] == [] && cands[1..] == cands[0 + 1..];
    } else {
      var tail := cands[1..];
      assert Assign(cands, base, p) == [cands[0]] + Assign(tail, base, p);
      assert tail[i - 1] == cands[i];
      forall j | 0 <= j < i - 1 ensures tail[j].0 != base {
        assert tail[j] == cands[j + 1];
      }
      AssignKnown(tail, base, p, i - 1);
      ConsSplit(cands, i, (base, p));
    }
  }

  /** Replacing element `i` of `s` is keeping its head and replacing element `i - 1` of its tail. */
  lemma ConsSplit<T>(s: seq<T>, i: nat, x: T)
    requires 0 < i < |s|
    ensures [s[0]] + (s[1..][..i - 1] + [x] + s[1..][i..]) == s[..i] + [x] + s[i + 1..]
  {
    assert s[..i] == [s[0]] + s[1..][..i - 1];
    assert s[i + 1..] == s[1..][i..];
  }

  /** A new base goes after every recorded one. */
  lemma {:induction false} AssignNew<T>(cands: seq<(string, Pair<T>)>, base: string, p: Pair<T>)
    requires forall j :: 0 <= j < |cands| ==> cands[j].0 != base
    ensures Assign(cands, base, p) == cands + [(base, p)]
    decreases |cands|
  {
    if cands != [] {
      var tail := cands[1..];
      forall j | 0 <= j < |tail| ensures tail[j].0 != base {
        assert tail[j] == cands[j + 1];
      }
      AssignNew(tail, base, p);
      assert cands == [cands[0]] + tail;
    }
  }

  /**
   * `add_pair`: both datasets must be 2-D; each is oriented, and the pair is recorded under
   * `base` only when the oriented shapes agree.
   */
  function AddPair<T>(cands: seq<(string, Pair<T>)>, base: string, dx: Option<Grid<T>>, dy: Option<Grid<T>>): seq<(string, Pair<T>)>
    requires dx.Some? ==> Shaped(dx.value)
    requires dy.Some? ==> Shaped(dy.value)
  {
    if dx.None? || dy.None? then cands
    else
      var x2 := Orient(dx.value);
      var y2 := Orient(dy.value);
      if (x2.rows, x2.cols) != (y2.rows, y2.cols) then cands
      else Assign(cands, base, (x2, y2))
  }

  /** Adding a pair keeps every candidate matched, and records the pair exactly when its oriented shapes agree. */
  lemma AddPairMeaning<T>(cands: seq<(string, Pair<T>)>, base: string, dx: Option<Grid<T>>, dy: Option<Grid<T>>)
    requires dx.Some? ==> Shaped(dx.value)
    requires dy.Some? ==> Shaped(dy.value)
    requires AllMatched(cands)
    ensures AllMatched(AddPair(cands, base, dx, dy))
    ensures dx.Some? && dy.Some? ==>
      var x2 := Orient(dx.value);
      var y2 := Orient(dy.value);
      ((base, (x2, y2)) in AddPair(cands, base, dx, dy) <==>
        (x2.rows == y2.rows && x2.cols == y2.cols) || (base, (x2, y2)) in cands)
    ensures dx.None? || dy.None? ==> AddPair(cands, base, dx, dy) == cands
  {
    if dx.Some? && dy.Some? {
      OrientMeaning(dx.value);
      OrientMeaning(dy.value);
      var x2 := Orient(dx.value);
      var y2 := Orient(dy.value);
      var r := AddPair(cands, base, dx, dy);
      forall i | 0 <= i < |r| ensures Matched(r[i].1) {
        if r[i] != (base, (x2, y2)) {
          var j :| 0 <= j < |cands| && cands[j] == r[i];
        }
      }
    }
  }

  /** A pair's score: its number of frames, `x.shape[1]`. */
  function Score<T>(p: Pair<T>): nat {
    p.0.cols
  }

  /** `k` holds a pair with the most frames, and no earlier pair has as many. */
  predicate FirstBest<T>(cands: seq<(string, Pair<T>)>, k: int) {
    0 <= k < |cands| &&
    (forall j :: 0 <= j < |cands| ==> Score(cands[j].1) <= Score(cands[k].1)) &&
    (forall j :: 0 <= j < k ==> Score(cands[j].1) < Score(cands[k].1))
  }

  /** The loop over `candidates.items()` keeping the pair with the largest frame count; ties keep the earlier pair. */
  method PickBest<T>(cands: seq<(string, Pair<T>)>) returns (best: Option<Pair<T>>)
    ensures best.None? <==> cands == []
    ensures best.Some? ==> exists k :: FirstBest(cands, k) && best.value == cands[k].1
  {
    best := None;
    var bestScore: int := -1;
    ghost var k := 0;
    for i := 0 to |cands|
      invariant best.None? <==> i == 0
      invariant i == 0 ==> bestScore == -1
      invariant i > 0 ==>
        0 <= k < i && best == Some(cands[k].1) && bestScore == Score(cands[k].1) &&
        (forall j :: 0 <= j < i ==> Score(cands[j].1) <= bestScore) &&
        (forall j :: 0 <= j < k ==> Score(cands[j].1) < bestScore)
    {
      var score := cands[i].1.0.cols;
      if score > bestScore {
        best := Some(cands[i].1);
        bestScore := score;
        k := i;
      }
    }
    if best.Some? {
      assert FirstBest(cands, k);
    }
  }

  // ---------------------------------------------------------------------------------
  // Frame windows (`_slice_tracks`)
  // ---------------------------------------------------------------------------------

  /** The most frames one request returns. */
  const MaxCount := 2000

  /** `a[:, lo:hi]` with numpy's clamping of the bounds to the columns (for `lo, hi >= 0`). */
  function SliceCols<T>(a: Grid<T>, lo: nat, hi: nat): (s: Grid<T>)
    requires Shaped(a)
  {
    var l := if lo < a.cols then lo else a.cols;
    var h := if hi < l then l else if hi < a.cols then hi else a.cols;
    Grid(a.rows, h - l, seq(a.rows, r requires 0 <= r < a.rows => a.data[r][l..h]))
  }

  /** The window's first frame: negative starts count from 0. */
  function WindowStart(start: int): nat {
    if start < 0 then 0 else start
  }

  /** The window's length: at least 1 and at most `MaxCount`. */
  function WindowCount(count: int): nat {
    if count > MaxCount then MaxCount else if count < 1 then 1 else count
  }

  /** `_slice_tracks`: the same columns of x and y, a window of at most `MaxCount` frames from `start`. */
  function SliceTracks<T>(x: Grid<T>, y: Grid<T>, start: int, count: int): Pair<T>
    requires Shaped(x) && Shaped(y)
  {
    var s := WindowStart(start);
    var c := WindowCount(count);
    var end := if s + c < x.cols then s + c else x.cols;
    (SliceCols(x, s, end), SliceCols(y, s, end))
  }

  /** The window bounds clamp as the endpoint promises. */
  lemma WindowBounds(start: int, count: int)
    ensures WindowStart(start) >= 0 && (start >= 0 ==> WindowStart(start) == start)
    ensures 1 <= WindowCount(count) <= MaxCount
    ensures 1 <= count <= MaxCount ==> WindowCount(count) == count
  {
  }

  /**
   * Slicing keeps every row and returns, for a matched pair, the frames from the clamped start
   * up to the clamped end, the same ones of x and y; a start past the last frame gives none.
   */
  lemma SliceTracksMeaning<T>(x: Grid<T>, y: Grid<T>, start: int, count: int)
    requires Matched((x, y))
    ensures var (xs, ys) := SliceTracks(x, y, start, count);
      var s := WindowStart(start);
      var e := if s + WindowCount(count) < x.cols then s + WindowCount(count) else x.cols;
      Shaped(xs) && Shaped(ys) && xs.rows == x.rows && ys.rows == y.rows &&
      xs.cols == ys.cols &&
      (s < x.cols ==> xs.cols == e - s && 1 <= xs.cols <= MaxCount) &&
      (s >= x.cols ==> xs.cols == 0) &&
      (forall r, c :: 0 <= r < xs.rows && 0 <= c < xs.cols ==>
        xs.data[r][c] == x.data[r][s + c] && ys.data[r][c] == y.data[r][s + c])
  {
    var (xs, ys) := SliceTracks(x, y, start, count);
    var s := WindowStart(start);
    forall r, c | 0 <= r < xs.rows && 0 <= c < xs.cols
      ensures xs.data[r][c] == x.data[r][s + c] && ys.data[r][c] == y.data[r][s + c]
    {
      assert xs.data[r] == x.data[r][s..s + xs.cols];
    }
  }

  // ---------------------------------------------------------------------------------
  // Where the tracks live (`_track_path_for_video`)
  // ---------------------------------------------------------------------------------

  /** A pure path: its directory components and its final name. */
  datatype FilePath = FilePath(dirs: seq<string>, name: string)

  /** `video.with_name(video.name + '.obj.mat')`; `with_name` raises on a path with an empty name. */
  function TrackPath(video: FilePath): Option<FilePath> {
    if video.name == "" then None
    else Some(FilePath(video.dirs, video.name + ".obj.mat"))
  }

  /** The tracks sit in the video's directory under the whole video name plus `.obj.mat`, one file per video. */
  lemma TrackPathMeaning(video: FilePath, other: FilePath)
    ensures TrackPath(video).Some? <==> video.name != ""
    ensures TrackPath(video).Some? ==>
      var t := TrackPath(video).value;
      t.dirs == video.dirs && |t.name| == |video.name| + 8 &&
      t.name[..|video.name|] == video.name && t.name[|video.name|..] == ".obj.mat"
    ensures TrackPath(video).Some? && TrackPath(video) == TrackPath(other) ==> video == other
  {
    if TrackPath(video).Some? && TrackPath(video) == TrackPath(other) {
      var t := TrackPath(video).value.name;
      assert |video.name| == |t| - 8 == |other.name|;
      assert video.name == t[..|video.name|] == other.name;
    }
  }
}
