/**
 * The preprocessing blueprint: the video file-name grammar, grouping the recordings of
 * one camera across days, copying arena/region/colour settings between videos, the
 * validation of a multi-video save, and saving a named ROI setup into a facility.
 *
 * Files are opaque here: whether a path exists, what a side file decodes to and the
 * directory listing are parameters; what is written is returned.
 */
module Preproc {
  import opened Wrappers
  import opened Text
  import opened JsonValues
  import opened Collections
  import opened Http

  // ---------------------------------------------------------------------------------
  // Video names: `<group>.exp<4 digits>.day<2 digits>.cam<2 digits>.<mp4|avi>`
  // ---------------------------------------------------------------------------------

  /** The five captures of a matching file name. */
  datatype VideoName = VideoName(group: string, exp: string, day: string, cam: string, ext: string)

  /** `[A-Za-z0-9_]` */
  predicate IsWordChar(c: char) {
    'A' <= c <= 'Z' || 'a' <= c <= 'z' || '0' <= c <= '9' || c == '_'
  }

  /** `[A-Za-z0-9_]+` */
  predicate IsWord(s: string) {
    |s| > 0 && forall i :: 0 <= i < |s| ==> IsWordChar(s[i])
  }

  /** `[A-Za-z0-9_]+(?:-[A-Za-z0-9_]+)?`: one word, or two joined by a single hyphen. */
  predicate IsGroup(g: string) {
    IsWord(g) || match SplitOnce(g, '-') {
      case Some((a, b)) => IsWord(a) && IsWord(b)
      case None => false
    }
  }

  predicate IsDigitString(s: string, n: nat) {
    |s| == n && AllDigits(s)
  }

  /** The captures of a name the pattern accepts. */
  predicate ValidName(v: VideoName) {
    IsGroup(v.group) && IsDigitString(v.exp, 4) && IsDigitString(v.day, 2) && IsDigitString(v.cam, 2)
    && (v.ext == "mp4" || v.ext == "avi")
  }

  /** Everything after the group: always 24 characters for valid captures. */
  function NameTail(v: VideoName): string {
    ".exp" + v.exp + ".day" + v.day + ".cam" + v.cam + "." + v.ext
  }

  /** The file name the captures spell. */
  function FormatName(v: VideoName): string {
    v.group + NameTail(v)
  }

  /**
   * Full-string match: the group holds no `.`, so it ends 24 characters before the end
   * and every capture sits at a fixed offset from the end.
   */
  function MatchName(s: string): Option<VideoName> {
    if |s| < 25 then None
    else
      var n := |s|;
      var v := VideoName(s[..n - 24], s[n - 20..n - 16], s[n - 12..n - 10], s[n - 6..n - 4], s[n - 3..]);
      if ValidName(v) && FormatName(v) == s then Some(v) else None
  }

  /**
   * `_parse_video_name`: `re.match` with a trailing `$`, which also matches just before
   * one final newline.
   */
  function ParseVideoName(name: string): Option<VideoName> {
    match MatchName(name)
    case Some(v) => Some(v)
    case None =>
      if |name| > 0 && name[|name| - 1] == '\n' then MatchName(name[..|name| - 1]) else None
  }

  /** The tail of valid captures has its fixed length. */
  lemma NameTailLength(v: VideoName)
    requires ValidName(v)
    ensures |NameTail(v)| == 24
  {
  }

  /** A word has no `.` in it, and neither has a group. */
  lemma GroupHasNoDot(g: string)
    requires IsGroup(g)
    ensures '.' !in g && |g| > 0
  {
    if !IsWord(g) {
      var (a, b) := SplitOnce(g, '-').value;
      assert g == a + "-" + b;
      assert forall i :: 0 <= i < |g| ==> IsWordChar(g[i]) || g[i] == '-' by {
        forall i | 0 <= i < |g| ensures IsWordChar(g[i]) || g[i] == '-' {
          if i < |a| { assert g[i] == a[i]; }
          else if i > |a| { assert g[i] == b[i - |a| - 1]; }
        }
      }
    }
  }

  /** Reading the captures back out of a formatted name. */
  lemma MatchFormat(v: VideoName)
    requires ValidName(v)
    ensures MatchName(FormatName(v)) == Some(v)
  {
    var s := FormatName(v);
    var n := |s|;
    NameTailLength(v);
    GroupHasNoDot(v.group);
    assert s[..n - 24] == v.group;
    assert s[n - 20..n - 16] == v.exp;
    assert s[n - 12..n - 10] == v.day;
    assert s[n - 6..n - 4] == v.cam;
    assert s[n - 3..] == v.ext;
  }

  /** A match spells valid captures, so it ends in the extension's last letter, never a newline. */
  lemma MatchNameEnds(s: string)
    ensures MatchName(s).Some? ==>
      ValidName(MatchName(s).value) && FormatName(MatchName(s).value) == s && s[|s| - 1] != '\n'
  {
    if MatchName(s).Some? {
      var w := MatchName(s).value;
      assert s[|s| - 1] == w.ext[2];
    }
  }

  /**
   * The grammar exactly: a name parses to `v` only when `v` is valid and the name spells
   * it, optionally followed by one newline; and every valid `v` is recovered from both.
   */
  lemma ParseVideoNameExact(name: string, v: VideoName)
    ensures ParseVideoName(name) == Some(v) ==>
      ValidName(v) && (name == FormatName(v) || name == FormatName(v) + "\n")
    ensures ValidName(v) ==>
      ParseVideoName(FormatName(v)) == Some(v) && ParseVideoName(FormatName(v) + "\n") == Some(v)
  {
    if ValidName(v) {
      MatchFormat(v);
      var s := FormatName(v) + "\n";
      assert s[..|s| - 1] == FormatName(v);
      MatchNameEnds(s);
    }
  }

  // ---------------------------------------------------------------------------------
  // Grouping (`/preproc/group`)
  // ---------------------------------------------------------------------------------

  /** Two recordings of one group: everything but the day agrees. */
  predicate SameGroup(a: VideoName, b: VideoName) {
    a.group == b.group && a.exp == b.exp && a.cam == b.cam && a.ext == b.ext
  }

  /** The group key reported to the client. */
  function GroupKey(v: VideoName): string {
    v.group + ".exp" + v.exp + ".cam" + v.cam + "." + v.ext
  }

  /** Same group exactly when one name differs from the other at most in its day. */
  lemma SameGroupIgnoresDay(a: VideoName, b: VideoName)
    ensures SameGroup(a, b) <==> b == a.(day := b.day)
    ensures SameGroup(a, b) <==> SameGroup(b, a)
  {
  }

  /** The group key reads back its four parts at fixed offsets from the end. */
  lemma GroupKeyParts(v: VideoName)
    requires ValidName(v)
    ensures var k := GroupKey(v); var n := |k|;
      n >= 18 && k[..n - 18] == v.group && k[n - 14..n - 10] == v.exp && k[n - 6..n - 4] == v.cam
      && k[n - 3..] == v.ext
  {
    var k := GroupKey(v);
    var n := |k|;
    assert k[..n - 18] == v.group;
    assert k[n - 14..n - 10] == v.exp;
    assert k[n - 6..n - 4] == v.cam;
  }

  /** For valid names the group key identifies the group: equal keys iff same group. */
  lemma GroupKeyExact(a: VideoName, b: VideoName)
    requires ValidName(a) && ValidName(b)
    ensures GroupKey(a) == GroupKey(b) <==> SameGroup(a, b)
  {
    GroupKeyParts(a);
    GroupKeyParts(b);
  }

  /** One directory entry, with what the file system says about it and its side files. */
  datatype Entry = Entry(name: string, isFile: bool, hasArena: bool, hasPreproc: bool, hasBackground: bool)

  /** One listed recording of the group. */
  datatype GroupItem = GroupItem(day: string, name: string, hasArena: bool, hasPreproc: bool, hasBackground: bool)

  /** The item an entry contributes: a file whose name parses into the same group. */
  function ItemOf(parts: VideoName, e: Entry): Option<GroupItem> {
    if !e.isFile then None
    else match ParseVideoName(e.name)
      case None => None
      case Some(p) =>
        if SameGroup(p, parts) then Some(GroupItem(p.day, e.name, e.hasArena, e.hasPreproc, e.hasBackground))
        else None
  }

  /** `int(x['day'])`; it never fails on a listed item (`DayParses`). */
  function DayNumber(it: GroupItem): int {
    ParseInt(it.day).GetOr(0)
  }

  /** The matching entries in listing order. */
  function GroupEntries(parts: VideoName, entries: seq<Entry>): seq<GroupItem> {
    Somes(MapSeq(e => ItemOf(parts, e), entries))
  }

  /** The items of the group, ordered by day (stable, so listing order breaks ties). */
  function GroupListing(parts: VideoName, entries: seq<Entry>): seq<GroupItem> {
    SortBy(GroupEntries(parts, entries), DayNumber)
  }

  /** Every listed day is two digits, so `int(day)` succeeds and the string-sort fallback is never taken. */
  lemma DayParses(parts: VideoName, e: Entry)
    requires ItemOf(parts, e).Some?
    ensures IsDigitString(ItemOf(parts, e).value.day, 2)
    ensures ParseInt(ItemOf(parts, e).value.day).Some?
  {
    var p := ParseVideoName(e.name).value;
    ParseVideoNameExact(e.name, p);
    UnsignedRoundTrip(p.day);
  }

  /** One more entry extends the matching entries by its item, if any. */
  lemma GroupEntriesSnoc(parts: VideoName, entries: seq<Entry>, i: nat)
    requires i < |entries|
    ensures GroupEntries(parts, entries[..i + 1])
      == GroupEntries(parts, entries[..i]) + (match ItemOf(parts, entries[i]) case Some(x) => [x] case None => [])
  {
    var f := (e: Entry) => ItemOf(parts, e);
    MapSnoc(f, entries, i);
    var xs := MapSeq(f, entries[..i + 1]);
    assert xs[..|xs| - 1] == MapSeq(f, entries[..i]);
  }

  /**
   * The group listing: ordered by day; an item is listed iff some file entry parses into
   * the active name's group and gives that item; every listed name is in the group.
   */
  lemma GroupListingMeaning(parts: VideoName, entries: seq<Entry>)
    ensures SortedBy(GroupListing(parts, entries), DayNumber)
    ensures |GroupListing(parts, entries)| <= |entries|
    ensures forall it :: it in GroupListing(parts, entries) <==>
      exists j :: 0 <= j < |entries| && ItemOf(parts, entries[j]) == Some(it)
    ensures forall it :: it in GroupListing(parts, entries) ==>
      exists p :: ParseVideoName(it.name) == Some(p) && SameGroup(p, parts) && p.day == it.day
  {
    var found := GroupEntries(parts, entries);
    SomesFrom(MapSeq(e => ItemOf(parts, e), entries));
    SortByMembers(found, DayNumber);
    GroupEntriesMembers(parts, entries);
  }

  /** The matching entries are exactly the items the entries give. */
  lemma GroupEntriesMembers(parts: VideoName, entries: seq<Entry>)
    ensures forall it :: it in GroupEntries(parts, entries) <==>
      exists j :: 0 <= j < |entries| && ItemOf(parts, entries[j]) == Some(it)
  {
    var xs := MapSeq(e => ItemOf(parts, e), entries);
    var found := GroupEntries(parts, entries);
    SomesFrom(xs);
    forall j | 0 <= j < |entries| && ItemOf(parts, entries[j]).Some?
      ensures ItemOf(parts, entries[j]).value in found
    {
      SomesHas(xs, j);
    }
    forall it | it in found
      ensures exists j :: 0 <= j < |entries| && ItemOf(parts, entries[j]) == Some(it)
    {
      var k :| 0 <= k < |found| && found[k] == it;
      assert Some(it) in xs;
    }
  }

  /**
   * The listing loop of `/preproc/group`: visit the entries in order, keep the files of
   * the group, then sort by day.
   */
  method CollectGroup(parts: VideoName, entries: seq<Entry>) returns (items: seq<GroupItem>)
    ensures items == GroupListing(parts, entries)
  {
    var found: seq<GroupItem> := [];
    for i := 0 to |entries|
      invariant found == GroupEntries(parts, entries[..i])
    {
      GroupEntriesSnoc(parts, entries, i);
      var it := ItemOf(parts, entries[i]);
      if it.Some? {
        found := found + [it.value];
      }
    }
    assert entries[..|entries|] == entries;
    items := SortBy(found, DayNumber);
  }

  /**
   * `/preproc/group`: the stripped `video` argument must be non-empty (400), name an
   * existing file (404) whose name parses (400); then the group key and its items.
   * `fileName` is the path's final component, `entries` the sibling listing in path order.
   */
  function GroupRequest(video: string, isFile: bool, fileName: string, entries: seq<Entry>)
    : Result<(string, seq<GroupItem>), Failure>
  {
    if Strip(video) == "" then Err(Failure(400, "Missing video"))
    else if !isFile then Err(Failure(404, "Video not found"))
    else match ParseVideoName(fileName)
      case None => Err(Failure(400, "Filename does not match expected pattern"))
      case Some(parts) => Ok((GroupKey(parts), GroupListing(parts, entries)))
  }

  /** The group answer: its key is the active file's, and the active file itself is listed when it is in the listing. */
  lemma GroupRequestMeaning(video: string, isFile: bool, fileName: string, entries: seq<Entry>)
    ensures GroupRequest(video, isFile, fileName, entries).Ok? <==>
      Strip(video) != "" && isFile && ParseVideoName(fileName).Some?
    ensures match GroupRequest(video, isFile, fileName, entries)
      case Ok((key, items)) =>
        key == GroupKey(ParseVideoName(fileName).value)
        && forall j :: 0 <= j < |entries| && entries[j].isFile && entries[j].name == fileName ==>
             exists it :: it in items && it.name == fileName
      case Err(f) => f.code == 400 || f.code == 404
  {
    if GroupRequest(video, isFile, fileName, entries).Ok? {
      var parts := ParseVideoName(fileName).value;
      GroupListingMeaning(parts, entries);
      forall j | 0 <= j < |entries| && entries[j].isFile && entries[j].name == fileName
        ensures exists it :: it in GroupListing(parts, entries) && it.name == fileName
      {
        assert ItemOf(parts, entries[j]).Some?;
        assert ItemOf(parts, entries[j]).value.name == fileName;
      }
    }
  }

  // ---------------------------------------------------------------------------------
  // Request bodies
  // ---------------------------------------------------------------------------------

  /** `request.json or {}` */
  function Body(payload: Json): Json {
    Or(payload, JObj([]))
  }

  /** `d.get(key)` that treats a stored `null` like a missing key, as `is None` tests do. */
  function Given(fields: seq<(string, Json)>, key: string): Option<Json> {
    match Lookup(fields, key)
    case Some(JNull) => None
    case Some(v) => Some(v)
    case None => None
  }

  /** A whole decoded file where `null` counts as nothing. */
  function NonNull(v: Option<Json>): Option<Json> {
    if v == Some(JNull) then None else v
  }

  // ---------------------------------------------------------------------------------
  // Copying settings (`/preproc/apply_settings`)
  // ---------------------------------------------------------------------------------

  /** The three settings a video can pass on; `None` where the source has none. */
  datatype Settings = Settings(arena: Option<Json>, regions: Option<Json>, colors: Option<Json>)

  predicate NoSettings(s: Settings) {
    s.arena.None? && s.regions.None? && s.colors.None?
  }

  /**
   * The source video's settings: `state` is its decoded `.preproc.json` and `arenaFile`
   * its decoded `.arena.json` (`None` when missing or unreadable). The state file wins for
   * the arena; a state that is not a dict gives nothing (its `.get` raises and is ignored).
   */
  function SourceSettings(state: Option<Json>, arenaFile: Option<Json>): Settings {
    var fromState :=
      match state {
        case Some(JObj(f)) => Settings(Given(f, "arena"), Given(f, "regions"), Given(f, "colors"))
        case _ => Settings(None, None, None)
      };
    if fromState.arena.None? then fromState.(arena := NonNull(arenaFile)) else fromState
  }

  /** `d[key] = v` when `v` is given. */
  function Put(fields: seq<(string, Json)>, key: string, v: Option<Json>): seq<(string, Json)> {
    match v
    case Some(x) => SetField(fields, key, x)
    case None => fields
  }

  /**
   * The merge into a target's state: each given setting replaces its key. Assigning into
   * a state that is not a dict raises.
   */
  function Merge(dst: Json, s: Settings): Result<Json, string> {
    if NoSettings(s) then Ok(dst)
    else match dst
      case JObj(f) => Ok(JObj(Put(Put(Put(f, "arena", s.arena), "regions", s.regions), "colors", s.colors)))
      case _ => Err("state is not a dict")
  }

  /** What happens to one target: not a file, an error, or the state written and the arena file written when given. */
  datatype TargetOutcome = NotFound | Failed(error: string) | Saved(state: Json, arenaFile: Option<Json>)

  /** One target: `dst` is its decoded state file (`None` when missing or unreadable, read as `{}`). */
  function ApplyTarget(s: Settings, isFile: bool, dst: Option<Json>): TargetOutcome {
    if !isFile then NotFound
    else match Merge(dst.GetOr(JObj([])), s)
      case Err(e) => Failed(e)
      case Ok(st) => Saved(st, s.arena)
  }

  /** The value a key reads after the merge: the given setting, else what was there. */
  function After(fields: seq<(string, Json)>, key: string, v: Option<Json>): Option<Json> {
    if v.Some? then v else Lookup(fields, key)
  }

  /** Each `Put` sets its key and leaves every other key alone. */
  lemma PutLookup(fields: seq<(string, Json)>, key: string, v: Option<Json>, other: string)
    ensures Lookup(Put(fields, key, v), other) == if other == key then After(fields, key, v) else Lookup(fields, other)
  {
    if v.Some? {
      SetFieldLookup(fields, key, v.value, other);
    }
  }

  /**
   * One target of a copy: not found iff not a file; failed iff the existing state is not
   * a dict; otherwise each given setting replaces its key, every other key keeps its
   * value, and the arena file is written iff an arena was given.
   */
  lemma ApplyTargetMeaning(s: Settings, isFile: bool, dst: Option<Json>, key: string)
    requires !NoSettings(s)
    ensures ApplyTarget(s, isFile, dst).NotFound? <==> !isFile
    ensures ApplyTarget(s, isFile, dst).Failed? <==> isFile && dst.Some? && !dst.value.JObj?
    ensures ApplyTarget(s, isFile, dst).Saved? ==>
      var o := ApplyTarget(s, isFile, dst);
      var f := dst.GetOr(JObj([])).fields;
      o.arenaFile == s.arena && o.state.JObj?
      && Lookup(o.state.fields, key) ==
           if key == "arena" then After(f, key, s.arena)
           else if key == "regions" then After(f, key, s.regions)
           else if key == "colors" then After(f, key, s.colors)
           else Lookup(f, key)
  {
    if isFile && dst.GetOr(JObj([])).JObj? {
      var f := dst.GetOr(JObj([])).fields;
      var f1 := Put(f, "arena", s.arena);
      var f2 := Put(f1, "regions", s.regions);
      PutLookup(f, "arena", s.arena, key);
      PutLookup(f1, "regions", s.regions, key);
      PutLookup(f2, "colors", s.colors, key);
    }
  }

  /**
   * `/preproc/apply_settings` up to the per-target work: a non-empty `from` and a
   * non-empty `to` list (400), an existing source (404) with some setting (400).
   */
  function ApplyPlan(payload: Json, srcIsFile: bool, state: Option<Json>, arenaFile: Option<Json>)
    : Result<(Settings, seq<Json>), Failure>
  {
    var body := Body(payload);
    if !body.JObj? then Err(Crash)
    else
      var src := Strip(PyStr(GetOr(body, "from", JStr(""))));
      var to := GetOr(body, "to", JNull);
      if src == "" || !to.JList? || to.items == [] then Err(Failure(400, "Missing from/to"))
      else if !srcIsFile then Err(Failure(404, "Source video not found"))
      else
        var s := SourceSettings(state, arenaFile);
        if NoSettings(s) then Err(Failure(400, "No source arena/regions found"))
        else Ok((s, to.items))
  }

  /** An accepted copy has some setting to pass on and at least one target, and keeps the state file's arena over the arena file. */
  lemma ApplyPlanMeaning(payload: Json, srcIsFile: bool, state: Option<Json>, arenaFile: Option<Json>)
    ensures match ApplyPlan(payload, srcIsFile, state, arenaFile)
      case Ok((s, targets)) =>
        srcIsFile && !NoSettings(s) && targets != []
        && (state.Some? && state.value.JObj? && Given(state.value.fields, "arena").Some? ==>
              s.arena == Given(state.value.fields, "arena"))
        && (s.arena.None? ==> NonNull(arenaFile).None?)
      case Err(f) => f.code in {400, 404, 500}
  {
  }

  // ---------------------------------------------------------------------------------
  // Saving one marking to many videos (`/preproc/save_multi`)
  // ---------------------------------------------------------------------------------

  /** `int(m.get('mouse'))`: a mark that is not a dict, or has no usable number, gives nothing. */
  function MarkMouse(m: Json): Option<int> {
    match m
    case JObj(f) => (match Lookup(f, "mouse") case Some(x) => PyInt(x) case None => None)
    case _ => None
  }

  predicate MouseMarked(marks: seq<Json>, mouse: int) {
    exists j :: 0 <= j < |marks| && MarkMouse(marks[j]) == Some(mouse)
  }

  /** Every mouse numbered `1..n` has at least one mark. */
  predicate AllMiceMarked(marks: seq<Json>, n: nat) {
    forall mouse :: 1 <= mouse <= n ==> MouseMarked(marks, mouse)
  }

  /** The `have_per_mouse` loop: one flag per mouse, set by each mark that names it. */
  method MiceMarked(marks: seq<Json>, n: nat) returns (ok: bool)
    ensures ok == AllMiceMarked(marks, n)
  {
    var have: map<int, bool> := map[];
    for mouse := 1 to n + 1
      invariant forall x :: x in have <==> 1 <= x < mouse
      invariant forall x :: x in have ==> !have[x]
    {
      have := have[mouse := false];
    }
    for j := 0 to |marks|
      invariant forall mouse :: mouse in have <==> 1 <= mouse <= n
      invariant forall mouse :: mouse in have ==>
        (have[mouse] <==> exists i :: 0 <= i < j && MarkMouse(marks[i]) == Some(mouse))
    {
      var mm := MarkMouse(marks[j]);
      if mm.Some? && mm.value in have {
        have := have[mm.value := true];
      }
    }
    ok := forall mouse | mouse in have :: have[mouse];
    if ok {
      forall mouse | 1 <= mouse <= n ensures MouseMarked(marks, mouse) {
        assert have[mouse];
      }
    } else {
      var mouse :| mouse in have && !have[mouse];
      assert !MouseMarked(marks, mouse);
    }
  }

  /** A mark whose mouse number is outside `1..n` changes nothing. */
  lemma OutsideMarkIgnored(marks: seq<Json>, m: Json, n: nat)
    requires MarkMouse(m).None? || !(1 <= MarkMouse(m).value <= n)
    ensures AllMiceMarked(marks + [m], n) == AllMiceMarked(marks, n)
  {
    var all := marks + [m];
    forall mouse | 1 <= mouse <= n && MouseMarked(all, mouse) ensures MouseMarked(marks, mouse) {
      var j :| 0 <= j < |all| && MarkMouse(all[j]) == Some(mouse);
      assert all[j] == marks[j];
    }
    forall mouse | 1 <= mouse <= n && MouseMarked(marks, mouse) ensures MouseMarked(all, mouse) {
      var j :| 0 <= j < |marks| && MarkMouse(marks[j]) == Some(mouse);
      assert all[j] == marks[j];
    }
  }

  /** What a multi-video save writes to each target. */
  datatype Marking = Marking(targets: seq<Json>, arena: Json, regions: Json, colors: Json)

  /** Colours need a non-empty mark list and, when mice are listed, a mark for every mouse. */
  function CheckColors(colors: Json): Option<Failure> {
    if !colors.JObj? then Some(Failure(400, "Colors not marked"))
    else
      var marks := GetOr(colors, "marks", JNull);
      var mice := GetOr(colors, "mice", JNull);
      if !marks.JList? || marks.items == [] then Some(Failure(400, "Colors not marked"))
      else if mice.JList? && mice.items != [] && !AllMiceMarked(marks.items, |mice.items|) then
        Some(Failure(400, "Colors must include at least one mark per mouse"))
      else None
  }

  /** The arena needs `tl` and `br` dicts and the regions an item list; then the colours are checked. */
  function CheckMarking(preproc: Json): Option<Failure> {
    var arena := GetOr(preproc, "arena", JNull);
    var regions := GetOr(preproc, "regions", JNull);
    if !arena.JObj? || !GetOr(arena, "tl", JNull).JObj? || !GetOr(arena, "br", JNull).JObj? then
      Some(Failure(400, "Arena not marked"))
    else if !regions.JObj? || !GetOr(regions, "items", JNull).JList? then
      Some(Failure(400, "Regions not marked"))
    else CheckColors(GetOr(preproc, "colors", JNull))
  }

  /**
   * The checks of `/preproc/save_multi`, in order: a non-empty target list, then the
   * arena, regions and colours of the marking.
   */
  function SaveMultiCheck(payload: Json): Result<Marking, Failure>
  {
    var body := Body(payload);
    if !body.JObj? then Err(Crash)
    else
      var targets := GetOr(body, "targets", JNull);
      var preproc := Or(GetOr(body, "preproc", JNull), JObj([]));
      if !targets.JList? || targets.items == [] then Err(Failure(400, "Missing targets"))
      else if !preproc.JObj? then Err(Crash)
      else match CheckMarking(preproc)
        case Some(f) => Err(f)
        case None =>
          Ok(Marking(targets.items, GetOr(preproc, "arena", JNull), GetOr(preproc, "regions", JNull),
                     GetOr(preproc, "colors", JNull)))
  }

  /** The colour check passes exactly when marks are given and every listed mouse has one. */
  lemma CheckColorsMeaning(colors: Json)
    ensures CheckColors(colors).None? <==>
      colors.JObj? && GetOr(colors, "marks", JNull).JList? && GetOr(colors, "marks", JNull).items != []
      && (GetOr(colors, "mice", JNull).JList? ==>
            AllMiceMarked(GetOr(colors, "marks", JNull).items, |GetOr(colors, "mice", JNull).items|))
  {
  }

  /** An accepted save has targets and a marking that passed every check, and writes that marking. */
  lemma SaveMultiMeaning(payload: Json)
    ensures SaveMultiCheck(payload).Ok? ==>
      var m := SaveMultiCheck(payload).value;
      var preproc := Or(GetOr(Body(payload), "preproc", JNull), JObj([]));
      m.targets != [] && CheckMarking(preproc).None?
      && m == Marking(m.targets, GetOr(preproc, "arena", JNull), GetOr(preproc, "regions", JNull), GetOr(preproc, "colors", JNull))
      && m.arena.JObj? && GetOr(m.arena, "tl", JNull).JObj? && GetOr(m.arena, "br", JNull).JObj?
      && GetOr(m.regions, "items", JNull).JList? && CheckColors(m.colors).None?
    ensures SaveMultiCheck(payload).Err? ==> SaveMultiCheck(payload).error.code in {400, 500}
  {
  }

  /** One target of a multi-video save: the three settings replace the target's. */
  function SaveTarget(m: Marking, isFile: bool, state: Option<Json>): TargetOutcome {
    ApplyTarget(Settings(Some(m.arena), Some(m.regions), Some(m.colors)), isFile, state)
  }

  /**
   * One target of a multi-video save: not found iff not a file, failed iff its state is
   * not a dict; otherwise the three settings are the marking's, every other key keeps its
   * value, and the arena file is written with the marked arena.
   */
  lemma SaveTargetMeaning(m: Marking, isFile: bool, state: Option<Json>, key: string)
    ensures SaveTarget(m, isFile, state).NotFound? <==> !isFile
    ensures SaveTarget(m, isFile, state).Failed? <==> isFile && state.Some? && !state.value.JObj?
    ensures SaveTarget(m, isFile, state).Saved? ==>
      var o := SaveTarget(m, isFile, state);
      o.arenaFile == Some(m.arena) && o.state.JObj?
      && Lookup(o.state.fields, key) ==
           if key == "arena" then Some(m.arena)
           else if key == "regions" then Some(m.regions)
           else if key == "colors" then Some(m.colors)
           else Lookup(state.GetOr(JObj([])).fields, key)
  {
    ApplyTargetMeaning(Settings(Some(m.arena), Some(m.regions), Some(m.colors)), isFile, state, key);
  }

  // ---------------------------------------------------------------------------------
  // Saving an ROI setup into a facility (`/preproc/setup/save`)
  // ---------------------------------------------------------------------------------

  /** A grid cell `[row, col]`. */
  type Cell = (int, int)

  /** Both coordinates converted. */
  function CellFrom(r: Option<int>, c: Option<int>): Option<Cell> {
    if r.Some? && c.Some? then Some((r.value, c.value)) else None
  }

  /** `[r, c, ...]` or `{'r': r, 'c': c}` with both converting by `int()`; anything else is skipped. */
  function CellOf(c: Json): Option<Cell> {
    match c
    case JList(l) => if |l| >= 2 then CellFrom(PyInt(l[0]), PyInt(l[1])) else None
    case JObj(f) =>
      if Lookup(f, "r").Some? && Lookup(f, "c").Some? then
        CellFrom(PyInt(Lookup(f, "r").value), PyInt(Lookup(f, "c").value))
      else None
    case _ => None
  }

  /** The cells of an item: only a list is normalised, anything else gives none. */
  function CellsOf(raw: Json): seq<Cell> {
    if raw.JList? then Somes(MapSeq(CellOf, raw.items)) else []
  }

  /** How a cell is written back: `[r, c]`. */
  function RenderCell(c: Cell): Json {
    JList([JInt(c.0), JInt(c.1)])
  }

  lemma CellsSnoc(raw: seq<Json>, i: nat)
    requires i < |raw|
    ensures Somes(MapSeq(CellOf, raw[..i + 1]))
      == Somes(MapSeq(CellOf, raw[..i])) + (match CellOf(raw[i]) case Some(x) => [x] case None => [])
  {
    MapSnoc(CellOf, raw, i);
    var xs := MapSeq(CellOf, raw[..i + 1]);
    assert xs[..|xs| - 1] == MapSeq(CellOf, raw[..i]);
  }

  /** The cell normaliser: one pass over the raw cells, appending each one that converts. */
  method NormaliseCells(raw: Json) returns (cells: seq<Cell>)
    ensures cells == CellsOf(raw)
  {
    cells := [];
    if raw.JList? {
      var items := raw.items;
      for i := 0 to |items|
        invariant cells == Somes(MapSeq(CellOf, items[..i]))
      {
        CellsSnoc(items, i);
        var c := CellOf(items[i]);
        if c.Some? {
          cells := cells + [c.value];
        }
      }
      assert items[..|items|] == items;
    }
  }

  /**
   * What the normaliser keeps: at most one cell per entry, each from some entry, every
   * convertible entry kept, and nothing at all from a value that is not a list.
   */
  lemma CellsOfMeaning(raw: Json)
    ensures !raw.JList? ==> CellsOf(raw) == []
    ensures raw.JList? ==> |CellsOf(raw)| <= |raw.items|
    ensures raw.JList? ==> forall k :: 0 <= k < |CellsOf(raw)| ==>
      exists j :: 0 <= j < |raw.items| && CellOf(raw.items[j]) == Some(CellsOf(raw)[k])
    ensures raw.JList? ==> forall j :: 0 <= j < |raw.items| && CellOf(raw.items[j]).Some? ==>
      CellOf(raw.items[j]).value in CellsOf(raw)
  {
    if raw.JList? {
      var xs := MapSeq(CellOf, raw.items);
      SomesFrom(xs);
      forall j | 0 <= j < |raw.items| && CellOf(raw.items[j]).Some?
        ensures CellOf(raw.items[j]).value in CellsOf(raw)
      {
        SomesHas(xs, j);
      }
    }
  }

  /** Both accepted cell shapes give the cell they spell. */
  lemma CellShapes(r: int, k: int, rest: seq<Json>)
    ensures CellOf(JList([JInt(r), JInt(k)] + rest)) == Some((r, k))
    ensures CellOf(JObj([("r", JInt(r)), ("c", JInt(k))])) == Some((r, k))
  {
    var l := [JInt(r), JInt(k)] + rest;
    assert l[0] == JInt(r) && l[1] == JInt(k);
    var f := [("r", JInt(r)), ("c", JInt(k))];
    assert "r"[0] != "c"[0];
    assert f[1..] == [("c", JInt(k))];
    assert Lookup(f, "r") == Some(JInt(r));
    assert Lookup(f[1..], "c") == Some(JInt(k));
    assert Lookup(f, "c") == Some(JInt(k));
  }

  /** Normalising saved cells gives them back: the normaliser is idempotent on its own output. */
  lemma CellsRoundTrip(cells: seq<Cell>)
    ensures CellsOf(JList(MapSeq(RenderCell, cells))) == cells
  {
    forall c | c in cells ensures CellOf(RenderCell(c)) == Some(c) {
      CellShapes(c.0, c.1, []);
      assert [JInt(c.0), JInt(c.1)] + [] == [JInt(c.0), JInt(c.1)];
    }
    SomesInverse(CellOf, RenderCell, cells);
  }

  /** One named ROI of a setup. */
  datatype RoiItem = RoiItem(name: string, enabled: bool, sheltered: bool, cells: seq<Cell>)

  /** An item of the request: a dict with a non-blank name; flags by truthiness. */
  function RoiItemOf(it: Json): Option<RoiItem> {
    if !it.JObj? then None
    else
      var name := Strip(PyStr(GetOr(it, "name", JStr(""))));
      if name == "" then None
      else Some(RoiItem(name, Truthy(GetOr(it, "enabled", JBool(false))),
                        Truthy(GetOr(it, "sheltered", JBool(false))), CellsOf(GetOr(it, "cells", JNull))))
  }

  function RenderItem(i: RoiItem): Json {
    JObj([("name", JStr(i.name)), ("enabled", JBool(i.enabled)), ("sheltered", JBool(i.sheltered)),
          ("cells", JList(MapSeq(RenderCell, i.cells)))])
  }

  /** Each key of a saved item's field list finds its own value. */
  lemma ItemFieldsLookup(name: Json, enabled: Json, sheltered: Json, cells: Json)
    ensures var f := [("name", name), ("enabled", enabled), ("sheltered", sheltered), ("cells", cells)];
      Lookup(f, "name") == Some(name) && Lookup(f, "enabled") == Some(enabled) &&
      Lookup(f, "sheltered") == Some(sheltered) && Lookup(f, "cells") == Some(cells)
  {
    var f := [("name", name), ("enabled", enabled), ("sheltered", sheltered), ("cells", cells)];
    assert |"name"| == 4 && |"enabled"| == 7 && |"sheltered"| == 9 && |"cells"| == 5;
    LookupAt(f, 0, "name");
    LookupAt(f, 1, "enabled");
    LookupAt(f, 2, "sheltered");
    LookupAt(f, 3, "cells");
  }

  /** The fields of a saved item read back. */
  lemma RenderItemFields(i: RoiItem)
    ensures GetOr(RenderItem(i), "name", JStr("")) == JStr(i.name)
    ensures GetOr(RenderItem(i), "enabled", JBool(false)) == JBool(i.enabled)
    ensures GetOr(RenderItem(i), "sheltered", JBool(false)) == JBool(i.sheltered)
    ensures GetOr(RenderItem(i), "cells", JNull) == JList(MapSeq(RenderCell, i.cells))
  {
    ItemFieldsLookup(JStr(i.name), JBool(i.enabled), JBool(i.sheltered), JList(MapSeq(RenderCell, i.cells)));
  }

  /** A saved item reads back as itself. */
  lemma RoiItemRoundTrip(it: Json)
    requires RoiItemOf(it).Some?
    ensures RoiItemOf(RenderItem(RoiItemOf(it).value)) == RoiItemOf(it)
  {
    var i := RoiItemOf(it).value;
    StripIdempotent(PyStr(GetOr(it, "name", JStr(""))));
    RenderItemFields(i);
    CellsRoundTrip(i.cells);
  }

  function RoiItems(items: seq<Json>): seq<RoiItem> {
    Somes(MapSeq(RoiItemOf, items))
  }

  lemma RoiItemsSnoc(items: seq<Json>, i: nat)
    requires i < |items|
    ensures RoiItems(items[..i + 1])
      == RoiItems(items[..i]) + (match RoiItemOf(items[i]) case Some(x) => [x] case None => [])
  {
    MapSnoc(RoiItemOf, items, i);
    var xs := MapSeq(RoiItemOf, items[..i + 1]);
    assert xs[..|xs| - 1] == MapSeq(RoiItemOf, items[..i]);
  }

  /** The item loop: skip non-dicts and blank names, normalise the cells of the rest. */
  method CollectRoiItems(items: seq<Json>) returns (out: seq<RoiItem>)
    ensures out == RoiItems(items)
  {
    out := [];
    for i := 0 to |items|
      invariant out == RoiItems(items[..i])
    {
      RoiItemsSnoc(items, i);
      var it := items[i];
      if it.JObj? {
        var name := Strip(PyStr(GetOr(it, "name", JStr(""))));
        if name != "" {
          var cells := NormaliseCells(GetOr(it, "cells", JNull));
          out := out + [RoiItem(name, Truthy(GetOr(it, "enabled", JBool(false))),
                                Truthy(GetOr(it, "sheltered", JBool(false))), cells)];
        }
      }
    }
    assert items[..|items|] == items;
  }

  /**
   * `payload.get('items') or []` as iterated: a list gives its entries; a dict or a
   * string yields keys or characters, none of them a dict; other truthy values raise.
   */
  function ItemsOf(v: Json): Result<seq<Json>, Failure> {
    match Or(v, JList([]))
    case JList(l) => Ok(l)
    case JObj(_) => Ok([])
    case JStr(_) => Ok([])
    case _ => Err(Crash)
  }

  /** The arena and grid numbers; `None` where `int()` fails or the key is missing. */
  datatype Dims = Dims(arenaWidthCm: Option<int>, arenaHeightCm: Option<int>, gridCols: Option<int>,
                       gridRows: Option<int>, bgFrames: Option<int>, bgQuantile: Option<int>)

  function DimsOf(preproc: Json): Dims {
    Dims(PyInt(GetOr(preproc, "arena_width_cm", JNull)), PyInt(GetOr(preproc, "arena_height_cm", JNull)),
         PyInt(GetOr(preproc, "grid_cols", JNull)), PyInt(GetOr(preproc, "grid_rows", JNull)),
         PyInt(GetOr(preproc, "bg_frames", JNull)), PyInt(GetOr(preproc, "bg_quantile", JNull)))
  }

  function RenderInt(o: Option<int>): Json {
    match o
    case Some(i) => JInt(i)
    case None => JNull
  }

  /** The saved setup object. */
  function RenderSetup(name: string, d: Dims, items: seq<RoiItem>): Json {
    JObj([("name", JStr(name)),
          ("preproc", JObj([("arena_width_cm", RenderInt(d.arenaWidthCm)), ("arena_height_cm", RenderInt(d.arenaHeightCm)),
                            ("grid_cols", RenderInt(d.gridCols)), ("grid_rows", RenderInt(d.gridRows)),
                            ("bg_frames", RenderInt(d.bgFrames)), ("bg_quantile", RenderInt(d.bgQuantile))])),
          ("items", JList(MapSeq(RenderItem, items)))])
  }

  /** An entry of `roi_sets` is the setup `name` when it is a dict whose stripped name matches. */
  predicate NamedAs(s: Json, name: string) {
    s.JObj? && Strip(PyStr(GetOr(s, "name", JStr("")))) == name
  }

  /** The first entry named `name`. */
  function FirstNamed(sets: seq<Json>, name: string): (r: Option<nat>)
    ensures r.Some? ==> r.value < |sets| && NamedAs(sets[r.value], name)
    ensures r.Some? ==> forall j :: 0 <= j < r.value ==> !NamedAs(sets[j], name)
    ensures r.None? <==> forall j :: 0 <= j < |sets| ==> !NamedAs(sets[j], name)
  {
    FirstWhere(sets, (s: Json) => NamedAs(s, name))
  }

  /** Replace the first set of that name, else append. */
  function Upserted(sets: seq<Json>, name: string, obj: Json): seq<Json> {
    match FirstNamed(sets, name)
    case Some(i) => sets[i := obj]
    case None => sets + [obj]
  }

  /** The `roi_sets` loop: scan with `enumerate`, replace in place and stop at the first match, else append. */
  method UpsertRoiSet(sets: seq<Json>, name: string, obj: Json) returns (out: seq<Json>, replaced: bool)
    ensures out == Upserted(sets, name, obj)
    ensures replaced <==> exists j :: 0 <= j < |sets| && NamedAs(sets[j], name)
  {
    out := sets;
    replaced := false;
    var i := 0;
    while i < |out|
      invariant 0 <= i <= |sets| && out == sets && !replaced
      invariant forall j :: 0 <= j < i ==> !NamedAs(sets[j], name)
    {
      if NamedAs(out[i], name) {
        out := out[i := obj];
        replaced := true;
        assert FirstNamed(sets, name) == Some(i);
        break;
      }
      i := i + 1;
    }
    if !replaced {
      out := out + [obj];
    }
  }

  /**
   * The upsert: a replacement keeps the length, an append adds one, and only the first
   * set of that name changes.
   */
  lemma UpsertedMeaning(sets: seq<Json>, name: string, obj: Json)
    ensures var out := Upserted(sets, name, obj);
      |out| == (if FirstNamed(sets, name).Some? then |sets| else |sets| + 1)
      && (forall j :: 0 <= j < |sets| && Some(j) != FirstNamed(sets, name) ==> out[j] == sets[j])
  {
  }

  /**
   * When the new object carries the name it is what a later lookup finds, so saving the
   * same setup again changes nothing.
   */
  lemma UpsertedFound(sets: seq<Json>, name: string, obj: Json)
    requires NamedAs(obj, name)
    ensures var out := Upserted(sets, name, obj);
      FirstNamed(out, name).Some? && out[FirstNamed(out, name).value] == obj
      && Upserted(out, name, obj) == out
  {
    var out := Upserted(sets, name, obj);
    var k := match FirstNamed(sets, name) { case Some(i) => i case None => |sets| };
    assert k < |out| && out[k] == obj;
    assert forall j :: 0 <= j < k ==> out[j] == sets[j] && !NamedAs(out[j], name);
    var r := FirstNamed(out, name);
    assert r.Some?;
    assert r.value <= k;
    assert r.value == k;
  }

  /** The saved setup carries its own name: `setup_name` is already stripped. */
  lemma SetupNamed(name: string, d: Dims, items: seq<RoiItem>)
    requires Strip(name) == name
    ensures NamedAs(RenderSetup(name, d, items), name)
  {
  }

  /**
   * Where the facilities live: `config['facilities']` when it is a dict, else
   * `config['importer']['facilities']` (an absent importer section reads as empty; one
   * that is not a dict raises). `true` marks the top-level place.
   */
  function FacilitiesOf(config: seq<(string, Json)>): Result<(seq<(string, Json)>, bool), Failure> {
    match Lookup(config, "facilities")
    case Some(JObj(f)) => Ok((f, true))
    case _ =>
      match Lookup(config, "importer")
      case None => Ok(([], false))
      case Some(JObj(imp)) =>
        (match Lookup(imp, "facilities")
         case Some(JObj(f)) => Ok((f, false))
         case _ => Ok(([], false)))
      case Some(_) => Err(Crash)
  }

  /** Write changed facilities back where they were read. */
  function PutFacilities(config: seq<(string, Json)>, facs: seq<(string, Json)>, top: bool): seq<(string, Json)> {
    if top then SetField(config, "facilities", JObj(facs))
    else
      var imp := match Lookup(config, "importer") { case Some(JObj(f)) => f case _ => [] };
      SetField(config, "importer", JObj(SetField(imp, "facilities", JObj(facs))))
  }

  /** `setdefault('roi_sets', [])`, then iterated and appended to: anything but a list raises. */
  function RoiSetsOf(fac: seq<(string, Json)>): Result<seq<Json>, Failure> {
    match Lookup(fac, "roi_sets")
    case None => Ok([])
    case Some(JList(l)) => Ok(l)
    case Some(_) => Err(Crash)
  }

  /** The stripped `facility` of a setup save. */
  function SaveFacility(payload: Json): string {
    Strip(PyStr(GetOr(Body(payload), "facility", JStr(""))))
  }

  /** The stripped `setup_name` of a setup save. */
  function SaveName(payload: Json): string {
    Strip(PyStr(GetOr(Body(payload), "setup_name", JStr(""))))
  }

  /** `payload.get('preproc') or {}` */
  function SavePreproc(payload: Json): Json {
    Or(GetOr(Body(payload), "preproc", JNull), JObj([]))
  }

  /** The setup object a save builds from its name, numbers and items. */
  function SavedSetup(payload: Json): Json {
    var items := match ItemsOf(GetOr(Body(payload), "items", JNull)) { case Ok(l) => l case Err(_) => [] };
    RenderSetup(SaveName(payload), DimsOf(SavePreproc(payload)), RoiItems(items))
  }

  /** The upsert into one known facility of the configuration. */
  function SaveInto(config: seq<(string, Json)>, facs: seq<(string, Json)>, top: bool, facility: string,
                    name: string, setup: Json): Result<seq<(string, Json)>, Failure>
  {
    match Lookup(facs, facility)
    case Some(JObj(fac)) =>
      (match RoiSetsOf(fac)
       case Err(f) => Err(f)
       case Ok(sets) =>
         var fac' := SetField(fac, "roi_sets", JList(Upserted(sets, name, setup)));
         Ok(PutFacilities(config, SetField(facs, facility, JObj(fac')), top)))
    case _ => Err(Crash)
  }

  /**
   * `/preproc/setup/save` on the configuration: facility and setup name non-blank (400),
   * a known facility (404), then the setup replaces the set of that name in the
   * facility's `roi_sets` or is appended. The result is the new configuration.
   */
  function SetupSave(payload: Json, config: seq<(string, Json)>): Result<seq<(string, Json)>, Failure> {
    var facility := SaveFacility(payload);
    var name := SaveName(payload);
    if !Body(payload).JObj? then Err(Crash)
    else if facility == "" || name == "" then Err(Failure(400, "Missing facility or setup_name"))
    else match FacilitiesOf(config)
      case Err(f) => Err(f)
      case Ok((facs, top)) =>
        if Lookup(facs, facility).None? then Err(Failure(404, "Unknown facility"))
        else if !SavePreproc(payload).JObj? then Err(Crash)
        else if ItemsOf(GetOr(Body(payload), "items", JNull)).Err? then Err(Crash)
        else SaveInto(config, facs, top, facility, name, SavedSetup(payload))
  }

  /** A save that gets past its checks is the upsert into the named facility. */
  lemma SetupSaveInto(payload: Json, config: seq<(string, Json)>)
    requires SetupSave(payload, config).Ok?
    ensures FacilitiesOf(config).Ok?
    ensures SetupSave(payload, config) == SaveInto(config, FacilitiesOf(config).value.0, FacilitiesOf(config).value.1,
                                                   SaveFacility(payload), SaveName(payload), SavedSetup(payload))
  {
  }

  /**
   * A successful upsert changes one facility and nothing else of the facilities: every
   * other facility reads as before, the saved facility keeps its other keys, and its
   * `roi_sets` is the old list with the setup upserted by name.
   */
  lemma SaveIntoMeaning(config: seq<(string, Json)>, facs: seq<(string, Json)>, top: bool, facility: string,
                        name: string, setup: Json, otherFacility: string, otherKey: string)
    requires FacilitiesOf(config) == Ok((facs, top))
    requires SaveInto(config, facs, top, facility, name, setup).Ok?
    ensures var fac := Lookup(facs, facility);
      fac.Some? && fac.value.JObj? && RoiSetsOf(fac.value.fields).Ok?
    ensures var cfg' := SaveInto(config, facs, top, facility, name, setup).value;
      FacilitiesOf(cfg').Ok? && FacilitiesOf(cfg').value.1 == top
    ensures var cfg' := SaveInto(config, facs, top, facility, name, setup).value;
      var facs' := FacilitiesOf(cfg').value.0;
      otherFacility != facility ==> Lookup(facs', otherFacility) == Lookup(facs, otherFacility)
    ensures var cfg' := SaveInto(config, facs, top, facility, name, setup).value;
      var fac := Lookup(facs, facility).value.fields;
      var fac' := Lookup(FacilitiesOf(cfg').value.0, facility);
      fac'.Some? && fac'.value.JObj?
      && (otherKey != "roi_sets" ==> Lookup(fac'.value.fields, otherKey) == Lookup(fac, otherKey))
      && RoiSetsOf(fac'.value.fields) == Ok(Upserted(RoiSetsOf(fac).value, name, setup))
  {
    var fac := Lookup(facs, facility).value.fields;
    var sets := RoiSetsOf(fac).value;
    var one := JList(Upserted(sets, name, setup));
    var fac' := SetField(fac, "roi_sets", one);
    var facs' := SetField(facs, facility, JObj(fac'));
    PutFacilitiesRead(config, facs', top);
    SetFieldLookup(facs, facility, JObj(fac'), otherFacility);
    SetFieldLookup(fac, "roi_sets", one, otherKey);
  }

  /** After a save the setup is the first set of its name, and saving it again changes nothing. */
  lemma SetupSaveFound(payload: Json, sets: seq<Json>)
    ensures var out := Upserted(sets, SaveName(payload), SavedSetup(payload));
      FirstNamed(out, SaveName(payload)).Some?
      && out[FirstNamed(out, SaveName(payload)).value] == SavedSetup(payload)
      && Upserted(out, SaveName(payload), SavedSetup(payload)) == out
  {
    var name := SaveName(payload);
    StripIdempotent(PyStr(GetOr(Body(payload), "setup_name", JStr(""))));
    var items := match ItemsOf(GetOr(Body(payload), "items", JNull)) { case Ok(l) => l case Err(_) => [] };
    SetupNamed(name, DimsOf(SavePreproc(payload)), RoiItems(items));
    UpsertedFound(sets, name, SavedSetup(payload));
  }

  /** Reading the facilities back after writing them gives what was written. */
  lemma PutFacilitiesRead(config: seq<(string, Json)>, facs: seq<(string, Json)>, top: bool)
    requires FacilitiesOf(config).Ok? && FacilitiesOf(config).value.1 == top
    ensures FacilitiesOf(PutFacilities(config, facs, top)) == Ok((facs, top))
  {
    if top {
      SetFieldLookup(config, "facilities", JObj(facs), "facilities");
    } else {
      var imp := match Lookup(config, "importer") { case Some(JObj(f)) => f case _ => [] };
      SetFieldLookup(config, "importer", JObj(SetField(imp, "facilities", JObj(facs))), "facilities");
      SetFieldLookup(config, "importer", JObj(SetField(imp, "facilities", JObj(facs))), "importer");
      SetFieldLookup(imp, "facilities", JObj(facs), "facilities");
    }
  }
}
