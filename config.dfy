/**
 * The configuration normalisers of `cheesepie/config.py`. Each takes the raw value found
 * in `config.json` (`None` when the key is absent) and returns the cleaned-up setting.
 */
module Config {
  import opened Wrappers
  import opened Text
  import opened JsonValues
  import opened Collections

  // ---------------------------------------------------------------------------
  // Integer settings
  // ---------------------------------------------------------------------------

  /** `max(lo, min(hi, v))` */
  function Clamp(v: int, lo: int, hi: int): int {
    if v < lo then lo else if v > hi then hi else v
  }

  /** `cfg_default_fps`: `int()` of the setting, clamped to [1, 300]; 30 when absent or not a number. */
  function DefaultFps(raw: Option<Json>): (r: int)
    ensures 1 <= r <= 300
    ensures PyInt(raw.GetOr(JInt(30))).None? ==> r == 30
    ensures PyInt(raw.GetOr(JInt(30))).Some? && 1 <= PyInt(raw.GetOr(JInt(30))).value <= 300
      ==> r == PyInt(raw.GetOr(JInt(30))).value
    ensures PyInt(raw.GetOr(JInt(30))).Some? && PyInt(raw.GetOr(JInt(30))).value > 300 ==> r == 300
    ensures PyInt(raw.GetOr(JInt(30))).Some? && PyInt(raw.GetOr(JInt(30))).value < 1 ==> r == 1
    ensures raw.None? ==> r == 30
  {
    match PyInt(raw.GetOr(JInt(30)))
    case Some(v) => Clamp(v, 1, 300)
    case None => 30
  }

  /** `cfg_preview_thumbnails`: clamped to [0, 24]; 8 when absent or not a number. */
  function PreviewThumbnails(raw: Option<Json>): (r: int)
    ensures 0 <= r <= 24
    ensures PyInt(raw.GetOr(JInt(8))).None? ==> r == 8
    ensures PyInt(raw.GetOr(JInt(8))).Some? && 0 <= PyInt(raw.GetOr(JInt(8))).value <= 24
      ==> r == PyInt(raw.GetOr(JInt(8))).value
    ensures PyInt(raw.GetOr(JInt(8))).Some? && PyInt(raw.GetOr(JInt(8))).value > 24 ==> r == 24
    ensures PyInt(raw.GetOr(JInt(8))).Some? && PyInt(raw.GetOr(JInt(8))).value < 0 ==> r == 0
    ensures raw.None? ==> r == 8
  {
    match PyInt(raw.GetOr(JInt(8)))
    case Some(v) => Clamp(v, 0, 24)
    case None => 8
  }

  // ---------------------------------------------------------------------------
  // Animals
  // ---------------------------------------------------------------------------

  const DefaultAnimalNames: seq<string> := ["R", "G", "B", "Y"]

  /** A name that is non-empty and has no surrounding white space. */
  predicate IsCleanName(s: string) {
    s != [] && Strip(s) == s
  }

  /** `str(v).strip()` */
  function StrippedStr(v: Json): string {
    Strip(PyStr(v))
  }

  /** The non-empty strings of `strs`, in order. */
  function NonBlank(strs: seq<string>): seq<string> {
    if strs == [] then []
    else NonBlank(strs[..|strs| - 1]) + (if strs[|strs| - 1] != [] then [strs[|strs| - 1]] else [])
  }

  /** Everything kept comes from the input and is non-empty. */
  lemma {:induction false} NonBlankFrom(strs: seq<string>)
    ensures forall k :: 0 <= k < |NonBlank(strs)| ==> NonBlank(strs)[k] != [] && NonBlank(strs)[k] in strs
  {
    if strs != [] {
      NonBlankFrom(strs[..|strs| - 1]);
    }
  }

  /** Nothing is kept exactly when every string is empty. */
  lemma {:induction false} NonBlankEmpty(strs: seq<string>)
    ensures NonBlank(strs) == [] <==> forall k :: 0 <= k < |strs| ==> strs[k] == []
  {
    if strs != [] {
      var init := strs[..|strs| - 1];
      NonBlankEmpty(init);
      assert forall k :: 0 <= k < |init| ==> init[k] == strs[k];
    }
  }

  /** The stripped, non-blank `str(v)` of each value, in order. */
  function AnimalsOf(vals: seq<Json>): seq<string> {
    NonBlank(MapSeq(StrippedStr, vals))
  }

  /** Every kept animal name is clean, and none is kept exactly when every value is blank. */
  lemma AnimalsClean(vals: seq<Json>)
    ensures forall k :: 0 <= k < |AnimalsOf(vals)| ==> IsCleanName(AnimalsOf(vals)[k])
    ensures AnimalsOf(vals) == [] <==> forall k :: 0 <= k < |vals| ==> StrippedStr(vals[k]) == []
  {
    var strs := MapSeq(StrippedStr, vals);
    NonBlankFrom(strs);
    NonBlankEmpty(strs);
    forall k | 0 <= k < |strs| ensures Strip(strs[k]) == strs[k] {
      StripIdempotent(PyStr(vals[k]));
    }
  }

  lemma DefaultAnimalNamesClean()
    ensures forall k :: 0 <= k < |DefaultAnimalNames| ==> IsCleanName(DefaultAnimalNames[k])
  {
    StripUnchanged("R");
    StripUnchanged("G");
    StripUnchanged("B");
    StripUnchanged("Y");
  }

  /** The loop of `cfg_default_animals` over a list setting. */
  method CollectAnimals(vals: seq<Json>) returns (out: seq<string>)
    ensures out == AnimalsOf(vals)
  {
    ghost var strs: seq<string> := [];
    out := [];
    var i := 0;
    while i < |vals|
      invariant 0 <= i <= |vals|
      invariant strs == MapSeq(StrippedStr, vals[..i])
      invariant out == NonBlank(strs)
    {
      var s := StrippedStr(vals[i]);
      MapSnoc(StrippedStr, vals, i);
      assert (strs + [s])[..|strs|] == strs;
      strs := strs + [s];
      if s != [] {
        out := out + [s];
      }
      i := i + 1;
    }
    assert vals[..i] == vals;
  }

  /** `cfg_default_animals`; an absent setting reads as the built-in default list. */
  method DefaultAnimals(raw: Option<Json>) returns (out: seq<string>)
    ensures out != [] && forall k :: 0 <= k < |out| ==> IsCleanName(out[k])
    ensures raw.Some? && raw.value.JList? && AnimalsOf(raw.value.items) != [] ==> out == AnimalsOf(raw.value.items)
    ensures raw.Some? && raw.value.JList? && AnimalsOf(raw.value.items) == [] ==> out == DefaultAnimalNames
    ensures raw.None? || !raw.value.JList? ==> out == DefaultAnimalNames
  {
    DefaultAnimalNamesClean();
    if raw.None? || !raw.value.JList? {
      return DefaultAnimalNames;
    }
    out := CollectAnimals(raw.value.items);
    AnimalsClean(raw.value.items);
    if out == [] {
      out := DefaultAnimalNames;
    }
  }

  // ---------------------------------------------------------------------------
  // File extensions
  // ---------------------------------------------------------------------------

  /** No ASCII upper-case letter occurs in `s`. */
  predicate NoUpper(s: string) {
    forall i :: 0 <= i < |s| ==> !('A' <= s[i] <= 'Z')
  }

  /** An extension as the normalisers emit it: lower case and starting with a dot. */
  predicate IsExtension(s: string) {
    |s| > 0 && s[0] == '.' && NoUpper(s)
  }

  lemma LowerHasNoUpper(s: string)
    ensures NoUpper(Lower(s)) && |Lower(s)| == |s|
  {
  }

  /** A dot put in front of a lower-case name unless one is there. */
  function Dotted(s: string): (r: string)
    requires s != [] && NoUpper(s)
    ensures IsExtension(r)
  {
    if s[0] == '.' then s
    else
      assert forall i :: 0 < i < |s| + 1 ==> ("." + s)[i] == s[i - 1];
      "." + s
  }

  /** `s = str(e).strip().lower()`, then a dot put in front unless one is there; `None` when blank. */
  function NormaliseExt(e: Json): (r: Option<string>)
    ensures r.Some? ==> IsExtension(r.value)
    ensures r.None? <==> StrippedStr(e) == []
  {
    var s := Lower(StrippedStr(e));
    LowerHasNoUpper(StrippedStr(e));
    if s == [] then None else Some(Dotted(s))
  }

  /** The normalised extensions of `vals`, in order, blanks dropped. */
  function ExtsOf(vals: seq<Json>): seq<string> {
    Somes(MapSeq(NormaliseExt, vals))
  }

  /** Every extension kept is lower case with a leading dot; none is kept exactly when every value is blank. */
  lemma ExtsValid(vals: seq<Json>)
    ensures forall k :: 0 <= k < |ExtsOf(vals)| ==> IsExtension(ExtsOf(vals)[k])
    ensures ExtsOf(vals) == [] <==> forall k :: 0 <= k < |vals| ==> StrippedStr(vals[k]) == []
  {
    var xs := MapSeq(NormaliseExt, vals);
    SomesFrom(xs);
    SomesEmpty(xs);
    forall k | 0 <= k < |ExtsOf(vals)| ensures IsExtension(ExtsOf(vals)[k]) {
      var j :| 0 <= j < |xs| && xs[j] == Some(ExtsOf(vals)[k]);
    }
  }

  /**
   * The loop shared by `cfg_browser_visible_extensions` and `cfg_importer_source_exts`:
   * the normalised extensions of a list setting, or `fallback` when the setting is absent,
   * not a list, or yields none.
   */
  method Extensions(raw: Option<Json>, fallback: seq<string>) returns (exts: seq<string>)
    ensures raw.Some? && raw.value.JList? && ExtsOf(raw.value.items) != [] ==> exts == ExtsOf(raw.value.items)
    ensures !(raw.Some? && raw.value.JList? && ExtsOf(raw.value.items) != []) ==> exts == fallback
  {
    if raw.None? || !raw.value.JList? {
      return fallback;
    }
    exts := CollectExts(raw.value.items);
    if exts == [] {
      exts := fallback;
    }
  }

  /** The loop of the extension settings: each value normalised, blanks dropped, in order. */
  method CollectExts(vals: seq<Json>) returns (exts: seq<string>)
    ensures exts == ExtsOf(vals)
  {
    exts := [];
    ghost var xs: seq<Option<string>> := [];
    var i := 0;
    while i < |vals|
      invariant 0 <= i <= |vals|
      invariant xs == MapSeq(NormaliseExt, vals[..i])
      invariant exts == Somes(xs)
    {
      var x := NormaliseExt(vals[i]);
      MapSnoc(NormaliseExt, vals, i);
      SomesSnoc(xs, x);
      xs := xs + [x];
      match x {
        case Some(e) => exts := exts + [e];
        case None =>
      }
      i := i + 1;
    }
    assert vals[..i] == vals;
  }

  /** `cfg_browser_visible_extensions` */
  method BrowserVisibleExtensions(raw: Option<Json>) returns (exts: seq<string>)
    ensures exts != []
    ensures forall k :: 0 <= k < |exts| ==> IsExtension(exts[k])
    ensures raw.Some? && raw.value.JList? && ExtsOf(raw.value.items) != [] ==> exts == ExtsOf(raw.value.items)
    ensures !(raw.Some? && raw.value.JList? && ExtsOf(raw.value.items) != []) ==> exts == [".mp4", ".avi"]
  {
    exts := Extensions(raw, [".mp4", ".avi"]);
    if raw.Some? && raw.value.JList? {
      ExtsValid(raw.value.items);
    }
  }

  /** `cfg_importer_source_exts` */
  method ImporterSourceExts(raw: Option<Json>) returns (exts: seq<string>)
    ensures exts != []
    ensures forall k :: 0 <= k < |exts| ==> IsExtension(exts[k])
    ensures raw.Some? && raw.value.JList? && ExtsOf(raw.value.items) != [] ==> exts == ExtsOf(raw.value.items)
    ensures !(raw.Some? && raw.value.JList? && ExtsOf(raw.value.items) != []) ==> exts == [".mp4"]
  {
    exts := Extensions(raw, [".mp4"]);
    if raw.Some? && raw.value.JList? {
      ExtsValid(raw.value.items);
    }
  }

  // ---------------------------------------------------------------------------
  // Annotation types
  // ---------------------------------------------------------------------------

  /** One annotation type of the annotator: a behaviour with its key, arity and colour. */
  datatype AnnotationType = AnnotationType(name: string, key: string, mode: string, color: string)

  predicate ValidType(t: AnnotationType) {
    && IsCleanName(t.name)
    && (t.mode == "single" || t.mode == "dyadic")
    && |t.key| <= 1
    && t.color != []
  }

  /** The type a `default_types` entry describes, or `None` when it is not a dict or has a blank name. */
  function TypeOf(t: Json): (r: Option<AnnotationType>)
    ensures r.Some? ==> ValidType(r.value)
    ensures r.Some? <==> t.JObj? && StrippedStr(GetOr(t, "name", JStr(""))) != []
  {
    if !t.JObj? then None
    else
      var name := StrippedStr(GetOr(t, "name", JStr("")));
      if name == [] then None
      else
        var mode := Lower(StrippedStr(GetOr(t, "mode", JStr("single"))));
        var key := StrippedStr(GetOr(t, "key", JStr("")));
        var color := StrippedStr(GetOr(t, "color", JStr("#7c4dff")));
        StripIdempotent(PyStr(GetOr(t, "name", JStr(""))));
        Some(AnnotationType(
          name,
          if |key| <= 1 then key else key[..1],
          if mode == "single" || mode == "dyadic" then mode else "single",
          if color == [] then "#7c4dff" else color))
  }

  /** The valid entries of `default_types`, in order. */
  function TypesOf(vals: seq<Json>): (r: seq<AnnotationType>)
    ensures forall k :: 0 <= k < |r| ==> ValidType(r[k])
    ensures |r| <= |vals|
  {
    if vals == [] then []
    else
      TypesOf(vals[..|vals| - 1]) + match TypeOf(vals[|vals| - 1]) {
        case Some(x) => [x]
        case None => []
      }
  }

  const DefaultTypeList: seq<AnnotationType> := [
    AnnotationType("Grooming", "g", "single", "#4f8cff"),
    AnnotationType("Chasing", "c", "dyadic", "#ff6b6b"),
    AnnotationType("Sniffing", "s", "single", "#ffd166")
  ]

  lemma DefaultTypesValid()
    ensures forall k :: 0 <= k < |DefaultTypeList| ==> ValidType(DefaultTypeList[k])
  {
    StripUnchanged("Grooming");
    StripUnchanged("Chasing");
    StripUnchanged("Sniffing");
  }

  /** `cfg_default_types`: the valid configured types, or the three built-in ones when there are none. */
  method DefaultTypes(raw: Option<Json>) returns (out: seq<AnnotationType>)
    ensures out != [] && forall k :: 0 <= k < |out| ==> ValidType(out[k])
    ensures raw.Some? && raw.value.JList? && TypesOf(raw.value.items) != [] ==> out == TypesOf(raw.value.items)
    ensures !(raw.Some? && raw.value.JList? && TypesOf(raw.value.items) != []) ==> out == DefaultTypeList
  {
    DefaultTypesValid();
    out := [];
    if raw.Some? && raw.value.JList? {
      var vals := raw.value.items;
      var i := 0;
      while i < |vals|
        invariant 0 <= i <= |vals|
        invariant out == TypesOf(vals[..i])
      {
        assert vals[..i + 1][..i] == vals[..i];
        match TypeOf(vals[i]) {
          case Some(x) => out := out + [x];
          case None =>
        }
        i := i + 1;
      }
      assert vals[..i] == vals;
    }
    if out == [] {
      out := DefaultTypeList;
    }
  }

  // ---------------------------------------------------------------------------
  // Keyboard
  // ---------------------------------------------------------------------------

  const DefaultFrameKeys: map<string, string> := map["prev" := "[", "next" := "]"]
  const DefaultJumps: map<string, int> := map["left" := 300, "right" := 300, "shift" := 60, "alt" := 10]

  /** `frame.update({k: str(v) for k, v in keys.items() if v is not None})` on the default frame keys. */
  function FrameKeysOf(keys: seq<(string, Json)>): map<string, string> {
    if keys == [] then DefaultFrameKeys
    else
      var (k, v) := keys[|keys| - 1];
      var m := FrameKeysOf(keys[..|keys| - 1]);
      if v == JNull then m else m[k := PyStr(v)]
  }

  /** `jumps[k] = int(v)` for each entry whose value converts, on the default jumps. */
  function JumpsOf(jumps: seq<(string, Json)>): map<string, int> {
    if jumps == [] then DefaultJumps
    else
      var (k, v) := jumps[|jumps| - 1];
      var m := JumpsOf(jumps[..|jumps| - 1]);
      match PyInt(v)
      case Some(n) => m[k := n]
      case None => m
  }

  /** The default keys are always bound; any other key comes from a non-null entry. */
  lemma {:induction false} FrameKeysDomain(keys: seq<(string, Json)>)
    ensures forall k :: k in DefaultFrameKeys ==> k in FrameKeysOf(keys)
    ensures forall k :: k in FrameKeysOf(keys) && k !in DefaultFrameKeys ==>
      exists i :: 0 <= i < |keys| && keys[i].0 == k && keys[i].1 != JNull
  {
    if keys != [] {
      var init := keys[..|keys| - 1];
      FrameKeysDomain(init);
      assert forall i :: 0 <= i < |init| ==> init[i] == keys[i];
    }
  }

  /** A key that no non-null entry names keeps its default. */
  lemma {:induction false} FrameKeysUntouched(keys: seq<(string, Json)>, k: string)
    requires k in DefaultFrameKeys
    requires forall i :: 0 <= i < |keys| ==> keys[i].0 != k || keys[i].1 == JNull
    ensures k in FrameKeysOf(keys) && FrameKeysOf(keys)[k] == DefaultFrameKeys[k]
  {
    if keys != [] {
      FrameKeysDomain(keys[..|keys| - 1]);
      FrameKeysUntouched(keys[..|keys| - 1], k);
    }
  }

  /** The default jumps are always bound; any other key comes from an entry with an integer value. */
  lemma {:induction false} JumpsDomain(jumps: seq<(string, Json)>)
    ensures forall k :: k in DefaultJumps ==> k in JumpsOf(jumps)
    ensures forall k :: k in JumpsOf(jumps) && k !in DefaultJumps ==>
      exists i :: 0 <= i < |jumps| && jumps[i].0 == k && PyInt(jumps[i].1).Some?
  {
    if jumps != [] {
      var init := jumps[..|jumps| - 1];
      JumpsDomain(init);
      assert forall i :: 0 <= i < |init| ==> init[i] == jumps[i];
    }
  }

  /** The last convertible entry for a key decides its jump. */
  lemma {:induction false} JumpsLast(jumps: seq<(string, Json)>, i: nat)
    requires i < |jumps| && PyInt(jumps[i].1).Some?
    requires forall j :: i < j < |jumps| ==> jumps[j].0 != jumps[i].0 || PyInt(jumps[j].1).None?
    ensures jumps[i].0 in JumpsOf(jumps) && JumpsOf(jumps)[jumps[i].0] == PyInt(jumps[i].1).value
  {
    if i < |jumps| - 1 {
      JumpsLast(jumps[..|jumps| - 1], i);
    }
  }

  /** `cfg_keyboard`: frame-step keys and jump lengths over their defaults. */
  method Keyboard(kb: Option<Json>) returns (frame: map<string, string>, jumps: map<string, int>)
    ensures frame == (match kb.GetOr(JObj([])) case JObj(_) =>
        (match Get(kb.GetOr(JObj([])), "frame_step_keys") case Some(JObj(f)) => FrameKeysOf(f) case _ => DefaultFrameKeys)
      case _ => DefaultFrameKeys)
    ensures jumps == (match kb.GetOr(JObj([])) case JObj(_) =>
        (match Get(kb.GetOr(JObj([])), "jump_seconds") case Some(JObj(j)) => JumpsOf(j) case _ => DefaultJumps)
      case _ => DefaultJumps)
    ensures forall k :: k in DefaultFrameKeys ==> k in frame
    ensures forall k :: k in DefaultJumps ==> k in jumps
  {
    frame := DefaultFrameKeys;
    jumps := DefaultJumps;
    FrameKeysDomain([]);
    JumpsDomain([]);
    var v := kb.GetOr(JObj([]));
    if !v.JObj? {
      return;
    }
    match Get(v, "frame_step_keys") {
      case Some(JObj(f)) =>
        var i := 0;
        while i < |f|
          invariant 0 <= i <= |f|
          invariant frame == FrameKeysOf(f[..i])
        {
          assert f[..i + 1][..i] == f[..i];
          if f[i].1 != JNull {
            frame := frame[f[i].0 := PyStr(f[i].1)];
          }
          i := i + 1;
        }
        assert f[..i] == f;
        FrameKeysDomain(f);
      case _ =>
    }
    match Get(v, "jump_seconds") {
      case Some(JObj(j)) =>
        var i := 0;
        while i < |j|
          invariant 0 <= i <= |j|
          invariant jumps == JumpsOf(j[..i])
        {
          assert j[..i + 1][..i] == j[..i];
          match PyInt(j[i].1) {
            case Some(n) => jumps := jumps[j[i].0 := n];
            case None =>
          }
          i := i + 1;
        }
        assert j[..i] == j;
        JumpsDomain(j);
      case _ =>
    }
  }

  // ---------------------------------------------------------------------------
  // Importer facilities
  // ---------------------------------------------------------------------------

  /** `_ok`: 4 or 5 characters, a colon, all-digit hour at most 23 and all-digit minute at most 59. */
  predicate TimeOk(tm: string) {
    && (|tm| == 4 || |tm| == 5)
    && match SplitOnce(tm, ':')
       case Some((hh, mm)) => IsDigits(hh) && IsDigits(mm) && DigitsValue(hh) <= 23 && DigitsValue(mm) <= 59
       case None => false
  }

  /**
   * A time written as two-digit hour, colon, two-digit minute is accepted exactly when the
   * hour is at most 23 and the minute at most 59.
   */
  lemma TimeOkFormatted(h: nat, m: nat)
    requires h <= 99 && m <= 99
    ensures TimeOk(PadInt(h, 2) + ":" + PadInt(m, 2)) <==> h <= 23 && m <= 59
  {
    var hh, mm := PadInt(h, 2), PadInt(m, 2);
    PadIntLength(h, 2);
    PadIntLength(m, 2);
    PadIntRoundTrip(h, 2);
    PadIntRoundTrip(m, 2);
    assert ':' !in hh by {
      forall i | 0 <= i < |hh| ensures hh[i] != ':' {
        assert IsDigit(hh[i]);
      }
    }
    SplitOnceConcat(hh, ':', mm);
    assert hh + ":" + mm == hh + [':'] + mm;
  }

  /** The configured default start and end times of one treatment; only accepted times are kept. */
  datatype TreatmentTimes = TreatmentTimes(startTime: Option<string>, endTime: Option<string>)

  predicate TimesOk(d: TreatmentTimes) {
    && (d.startTime.Some? ==> TimeOk(d.startTime.value))
    && (d.endTime.Some? ==> TimeOk(d.endTime.value))
    && (d.startTime.Some? || d.endTime.Some?)
  }

  /** A treatment name as stored: non-empty, stripped and lower case. */
  predicate IsNormalName(s: string) {
    IsCleanName(s) && Lower(s) == s
  }

  /** `str(v).strip().lower()`, which is always stripped and lower case. */
  function LowerStrippedStr(v: Json): (r: string)
    ensures r == [] || IsNormalName(r)
  {
    var t := StrippedStr(v);
    StripIdempotent(PyStr(v));
    LowerStripped(t);
    Lower(t)
  }

  /** One kept entry of an experiment's treatment list and, for a dict entry, its accepted times. */
  datatype Treatment = Treatment(name: string, times: Option<TreatmentTimes>)

  predicate TreatmentOk(t: Treatment) {
    IsNormalName(t.name) && (t.times.Some? ==> TimesOk(t.times.value))
  }

  /** An entry of a treatment list; `None` when its name is blank. */
  function TreatmentEntry(t: Json): (r: Option<Treatment>)
    ensures r.Some? ==> TreatmentOk(r.value)
    ensures r.Some? && r.value.times.Some? ==> t.JObj?
    ensures r.None? <==> (if t.JObj? then LowerStrippedStr(GetOr(t, "name", JStr(""))) else LowerStrippedStr(t)) == []
  {
    if t.JObj? then
      var name := LowerStrippedStr(GetOr(t, "name", JStr("")));
      if name == [] then None
      else
        var st := StrippedStr(GetOr(t, "start_time", JStr("")));
        var et := StrippedStr(GetOr(t, "end_time", JStr("")));
        var d := TreatmentTimes(if TimeOk(st) then Some(st) else None, if TimeOk(et) then Some(et) else None);
        Some(Treatment(name, if d.startTime.Some? || d.endTime.Some? then Some(d) else None))
    else
      var name := LowerStrippedStr(t);
      if name == [] then None else Some(Treatment(name, None))
  }

  /** `tlist` before de-duplication: the names of the kept entries, in order. */
  function TreatmentNames(ts: seq<Treatment>): (r: seq<string>)
    ensures |r| == |ts| && forall k :: 0 <= k < |r| ==> r[k] == ts[k].name
  {
    if ts == [] then [] else TreatmentNames(ts[..|ts| - 1]) + [ts[|ts| - 1].name]
  }

  /** `tdefs`: the accepted times per treatment name, a later entry replacing an earlier one. */
  function TreatmentDefaults(ts: seq<Treatment>): map<string, TreatmentTimes> {
    if ts == [] then map[]
    else
      var m := TreatmentDefaults(ts[..|ts| - 1]);
      var t := ts[|ts| - 1];
      if t.times.Some? then m[t.name := t.times.value] else m
  }

  /** One more kept entry appends its name and records its times, if it has any. */
  lemma TreatmentSnoc(ts: seq<Treatment>, t: Treatment)
    ensures TreatmentNames(ts + [t]) == TreatmentNames(ts) + [t.name]
    ensures TreatmentDefaults(ts + [t]) == if t.times.Some? then TreatmentDefaults(ts)[t.name := t.times.value] else TreatmentDefaults(ts)
  {
    assert (ts + [t])[..|ts|] == ts;
  }

  /** Every recorded time set belongs to a kept entry with that name and those times. */
  lemma {:induction false} TreatmentDefaultsFrom(ts: seq<Treatment>)
    ensures forall n :: n in TreatmentDefaults(ts) ==>
      exists k :: 0 <= k < |ts| && ts[k].name == n && ts[k].times == Some(TreatmentDefaults(ts)[n])
  {
    if ts != [] {
      var init := ts[..|ts| - 1];
      TreatmentDefaultsFrom(init);
      assert forall k :: 0 <= k < |init| ==> init[k] == ts[k];
    }
  }

  /** The kept entries of a treatment list. */
  function TreatmentsOf(treats: seq<Json>): seq<Treatment> {
    Somes(MapSeq(TreatmentEntry, treats))
  }

  /** Each kept entry is well formed. */
  lemma TreatmentsOfOk(treats: seq<Json>)
    ensures forall k :: 0 <= k < |TreatmentsOf(treats)| ==> TreatmentOk(TreatmentsOf(treats)[k])
  {
    var xs := MapSeq(TreatmentEntry, treats);
    SomesFrom(xs);
    forall k | 0 <= k < |TreatmentsOf(treats)| ensures TreatmentOk(TreatmentsOf(treats)[k]) {
      var j :| 0 <= j < |xs| && xs[j] == Some(TreatmentsOf(treats)[k]);
    }
  }

  /** One more entry of the list keeps it, or drops it when its name is blank. */
  lemma TreatmentsOfSnoc(treats: seq<Json>, i: nat)
    requires i < |treats|
    ensures TreatmentEntry(treats[i]).None? ==> TreatmentsOf(treats[..i + 1]) == TreatmentsOf(treats[..i])
    ensures TreatmentEntry(treats[i]).Some? ==>
      TreatmentsOf(treats[..i + 1]) == TreatmentsOf(treats[..i]) + [TreatmentEntry(treats[i]).value]
  {
    FilterMapStep(TreatmentEntry, treats, i, MapSeq(TreatmentEntry, treats[..i]));
    assert TreatmentsOf(treats[..i]) + [] == TreatmentsOf(treats[..i]);
  }

  /**
   * The inner loop of `cfg_importer_facilities` over one experiment's treatments,
   * followed by the first-occurrence de-duplication of the names.
   */
  method NormaliseTreatments(treats: seq<Json>) returns (tlist: seq<string>, tdefs: map<string, TreatmentTimes>)
    ensures tlist == Dedupe(TreatmentNames(TreatmentsOf(treats)))
    ensures tdefs == TreatmentDefaults(TreatmentsOf(treats))
  {
    var names: seq<string> := [];
    tdefs := map[];
    var i := 0;
    while i < |treats|
      invariant 0 <= i <= |treats|
      invariant names == TreatmentNames(TreatmentsOf(treats[..i]))
      invariant tdefs == TreatmentDefaults(TreatmentsOf(treats[..i]))
    {
      var e := TreatmentEntry(treats[i]);
      TreatmentsOfSnoc(treats, i);
      if e.Some? {
        TreatmentSnoc(TreatmentsOf(treats[..i]), e.value);
        names := names + [e.value.name];
        if e.value.times.Some? {
          tdefs := tdefs[e.value.name := e.value.times.value];
        }
      }
      i := i + 1;
    }
    assert treats[..i] == treats;
    tlist := Dedupe(names);
  }

  /** The treatment list and time defaults of one experiment; a value that is not a list gives neither. */
  function ExperimentTreatments(treats: Json): (seq<string>, map<string, TreatmentTimes>) {
    if treats.JList? then
      var ts := TreatmentsOf(treats.items);
      (Dedupe(TreatmentNames(ts)), TreatmentDefaults(ts))
    else ([], map[])
  }

  /** Treatment lists are duplicate-free normal names; every time default is accepted and listed. */
  lemma ExperimentTreatmentsWellFormed(treats: Json)
    ensures Distinct(ExperimentTreatments(treats).0)
    ensures forall k :: 0 <= k < |ExperimentTreatments(treats).0| ==> IsNormalName(ExperimentTreatments(treats).0[k])
    ensures forall n :: n in ExperimentTreatments(treats).1 ==>
      n in ExperimentTreatments(treats).0 && TimesOk(ExperimentTreatments(treats).1[n])
  {
    if treats.JList? {
      var ts := TreatmentsOf(treats.items);
      var names := TreatmentNames(ts);
      var tl := Dedupe(names);
      TreatmentsOfOk(treats.items);
      TreatmentDefaultsFrom(ts);
      forall k | 0 <= k < |tl| ensures IsNormalName(tl[k]) {
        var j :| 0 <= j < |names| && names[j] == tl[k];
      }
      forall n | n in TreatmentDefaults(ts) ensures n in tl && TimesOk(TreatmentDefaults(ts)[n]) {
        var k :| 0 <= k < |ts| && ts[k].name == n && ts[k].times == Some(TreatmentDefaults(ts)[n]);
        assert names[k] == n;
      }
    }
  }

  /** The experiments of a facility and the treatment default times per experiment. */
  datatype Experiments = Experiments(lists: map<string, seq<string>>, defaults: map<string, map<string, TreatmentTimes>>)

  /** The experiments table after the entries `exps`, a later entry for the same key replacing an earlier one. */
  function ExperimentsOf(exps: seq<(string, Json)>): Experiments {
    if exps == [] then Experiments(map[], map[])
    else
      var prev := ExperimentsOf(exps[..|exps| - 1]);
      var ename := exps[|exps| - 1].0;
      if ename == [] then prev
      else
        var key := Upper(Strip(ename));
        var tt := ExperimentTreatments(exps[|exps| - 1].1);
        Experiments(prev.lists[key := tt.0], if tt.1 != map[] then prev.defaults[key := tt.1] else prev.defaults)
  }

  predicate ListsWellFormed(lists: map<string, seq<string>>) {
    forall key :: key in lists ==> Distinct(lists[key]) && forall k :: 0 <= k < |lists[key]| ==> IsNormalName(lists[key][k])
  }

  predicate DefaultsWellFormed(e: Experiments) {
    forall key :: key in e.defaults ==> key in e.lists && forall n :: n in e.defaults[key] ==> TimesOk(e.defaults[key][n])
  }

  lemma ListsUpdate(lists: map<string, seq<string>>, key: string, tl: seq<string>)
    requires ListsWellFormed(lists)
    requires Distinct(tl) && forall k :: 0 <= k < |tl| ==> IsNormalName(tl[k])
    ensures ListsWellFormed(lists[key := tl])
  {
  }

  lemma DefaultsUpdate(e: Experiments, key: string, tl: seq<string>, td: map<string, TreatmentTimes>)
    requires DefaultsWellFormed(e)
    requires forall n :: n in td ==> TimesOk(td[n])
    ensures DefaultsWellFormed(Experiments(e.lists[key := tl], if td != map[] then e.defaults[key := td] else e.defaults))
  {
  }

  /**
   * Every experiment's treatment list is duplicate-free normal names, and time defaults exist
   * only for listed experiments and are accepted.
   */
  lemma {:induction false} ExperimentsOfWellFormed(exps: seq<(string, Json)>)
    ensures ListsWellFormed(ExperimentsOf(exps).lists)
    ensures DefaultsWellFormed(ExperimentsOf(exps))
  {
    if exps != [] {
      var prev := ExperimentsOf(exps[..|exps| - 1]);
      ExperimentsOfWellFormed(exps[..|exps| - 1]);
      var ename := exps[|exps| - 1].0;
      if ename != [] {
        var tt := ExperimentTreatments(exps[|exps| - 1].1);
        ExperimentTreatmentsWellFormed(exps[|exps| - 1].1);
        ListsUpdate(prev.lists, Upper(Strip(ename)), tt.0);
        DefaultsUpdate(prev, Upper(Strip(ename)), tt.0, tt.1);
      }
    }
  }

  /** Every experiment key is the stripped, upper-cased name of a non-empty entry. */
  lemma {:induction false} ExperimentKeysFrom(exps: seq<(string, Json)>)
    ensures forall key :: key in ExperimentsOf(exps).lists ==>
      exists i :: 0 <= i < |exps| && exps[i].0 != [] && key == Upper(Strip(exps[i].0))
  {
    if exps != [] {
      var init := exps[..|exps| - 1];
      ExperimentKeysFrom(init);
      assert forall i :: 0 <= i < |init| ==> init[i] == exps[i];
    }
  }

  /** The loop of `cfg_importer_facilities` over a facility's experiments. */
  method NormaliseExperiments(exps: seq<(string, Json)>) returns (e: Experiments)
    ensures e == ExperimentsOf(exps)
  {
    e := Experiments(map[], map[]);
    var i := 0;
    while i < |exps|
      invariant 0 <= i <= |exps|
      invariant e == ExperimentsOf(exps[..i])
    {
      assert exps[..i + 1][..i] == exps[..i];
      var ename := exps[i].0;
      var treats := exps[i].1;
      if ename != [] {
        var key := Upper(Strip(ename));
        var tl: seq<string>, td: map<string, TreatmentTimes> := [], map[];
        if treats.JList? {
          tl, td := NormaliseTreatments(treats.items);
        }
        e := Experiments(e.lists[key := tl], if td != map[] then e.defaults[key := td] else e.defaults);
      }
      i := i + 1;
    }
    assert exps[..i] == exps;
  }

  /** The camera numbers in [0, 999], in order. */
  function InCameraRange(cs: seq<int>): (r: seq<int>)
    ensures forall c :: c in r <==> c in cs && 0 <= c <= 999
  {
    if cs == [] then []
    else InCameraRange(cs[..|cs| - 1]) + (if 0 <= cs[|cs| - 1] <= 999 then [cs[|cs| - 1]] else [])
  }

  /** The integers of a `camera_list` setting, in order; entries `int()` rejects are skipped. */
  function GivenCameras(listRaw: Json): seq<int> {
    if listRaw.JList? then Somes(MapSeq(PyInt, listRaw.items)) else []
  }

  /** `int(cameras)` clamped to [0, 512]; 0 when it does not convert. */
  function ClampedCameras(camsRaw: Json): int {
    Clamp(PyInt(camsRaw).GetOr(0), 0, 512)
  }

  /** `1..n` */
  function Range1(n: nat): (r: seq<int>)
    ensures |r| == n && forall i :: 0 <= i < n ==> r[i] == i + 1
  {
    seq(n, i => i + 1)
  }

  /** `camera_list`: the sorted distinct cameras given in [0, 999], or else `1..cameras`. */
  function CameraList(camsRaw: Json, listRaw: Json): seq<int> {
    var given := SortedUnique(InCameraRange(GivenCameras(listRaw)));
    if given == [] && ClampedCameras(camsRaw) > 0 then Range1(ClampedCameras(camsRaw)) else given
  }

  /** `cameras`: the length of a non-empty camera list, else the clamped count. */
  function CameraCount(camsRaw: Json, listRaw: Json): int {
    var list := CameraList(camsRaw, listRaw);
    if list != [] then |list| else ClampedCameras(camsRaw)
  }

  /** The published camera count always equals the length of the published camera list. */
  lemma CameraCountIsLength(camsRaw: Json, listRaw: Json)
    ensures CameraCount(camsRaw, listRaw) == |CameraList(camsRaw, listRaw)|
  {
    assert 0 <= ClampedCameras(camsRaw);
  }

  /** The camera list is strictly increasing and within [0, 999]. */
  lemma CameraListSorted(camsRaw: Json, listRaw: Json)
    ensures StrictlyIncreasing(CameraList(camsRaw, listRaw))
    ensures forall i :: 0 <= i < |CameraList(camsRaw, listRaw)| ==> 0 <= CameraList(camsRaw, listRaw)[i] <= 999
  {
    assert ClampedCameras(camsRaw) <= 512;
    var given := SortedUnique(InCameraRange(GivenCameras(listRaw)));
    forall i | 0 <= i < |given| ensures 0 <= given[i] <= 999 {
      assert given[i] in given;
    }
  }

  /** When some given camera is in range, the list holds exactly the in-range cameras given. */
  lemma CameraListGiven(camsRaw: Json, listRaw: Json, c0: int)
    requires c0 in GivenCameras(listRaw) && 0 <= c0 <= 999
    ensures forall c :: c in CameraList(camsRaw, listRaw) <==> c in GivenCameras(listRaw) && 0 <= c <= 999
  {
    KeptCameras(GivenCameras(listRaw), c0);
  }

  lemma KeptCameras(cs: seq<int>, c0: int)
    requires c0 in cs && 0 <= c0 <= 999
    ensures SortedUnique(InCameraRange(cs)) != []
    ensures forall c :: c in SortedUnique(InCameraRange(cs)) <==> c in cs && 0 <= c <= 999
  {
    assert c0 in InCameraRange(cs);
  }

  /** When no given camera is in range, the list is `1..n` for the clamped count `n`. */
  lemma CameraListDefault(camsRaw: Json, listRaw: Json)
    requires forall c :: c in GivenCameras(listRaw) ==> c < 0 || c > 999
    ensures CameraList(camsRaw, listRaw) == Range1(ClampedCameras(camsRaw))
  {
    EmptyIffNoMember(SortedUnique(InCameraRange(GivenCameras(listRaw))));
  }

  /** The camera part of the facility loop body. */
  method NormaliseCameras(camsRaw: Json, listRaw: Json) returns (cams: int, list: seq<int>)
    ensures cams == CameraCount(camsRaw, listRaw) && list == CameraList(camsRaw, listRaw)
  {
    cams := Clamp(PyInt(camsRaw).GetOr(0), 0, 512);
    var given: seq<int> := [];
    if listRaw.JList? {
      var items := listRaw.items;
      ghost var xs: seq<Option<int>> := [];
      var i := 0;
      while i < |items|
        invariant 0 <= i <= |items|
        invariant xs == MapSeq(PyInt, items[..i]) && given == Somes(xs)
      {
        var x := PyInt(items[i]);
        MapSnoc(PyInt, items, i);
        SomesSnoc(xs, x);
        xs := xs + [x];
        if x.Some? {
          given := given + [x.value];
        }
        i := i + 1;
      }
      assert items[..i] == items;
    }
    list := SortedUnique(InCameraRange(given));
    if list == [] && cams > 0 {
      list := Range1(cams);
    }
    if list != [] {
      cams := |list|;
    }
  }

  /** The first truthy value of `camera_pattern`, `camera_glob`, `''`, stripped. */
  function CameraPattern(fcfg: Json): string {
    var p := Get(fcfg, "camera_pattern");
    var g := Get(fcfg, "camera_glob");
    StrippedStr(if p.Some? && Truthy(p.value) then p.value else if g.Some? && Truthy(g.value) then g.value else JStr(""))
  }

  /** The name of a legacy setup: `str(name).strip() or 'default'`. */
  function SetupName(su: Json): (r: string)
    ensures r != []
  {
    var name := StrippedStr(GetOr(su, "name", JStr("")));
    if name == [] then "default" else name
  }

  /** `Get(v, key)` when it is a dict, else `{}`. */
  function DictOr(v: Json, key: string): (r: Json)
    ensures r.JObj?
  {
    match Get(v, key) case Some(JObj(f)) => JObj(f) case _ => JObj([])
  }

  /** `Get(v, key)` when it is a list, else `[]`. */
  function ListOr(v: Json, key: string): (r: Json)
    ensures r.JList?
  {
    match Get(v, key) case Some(JList(l)) => JList(l) case _ => JList([])
  }

  /** One named setup of the legacy list form, or `None` for an entry that is not a dict. */
  function LegacySetup(su: Json): (r: Option<Json>)
    ensures r.Some? <==> su.JObj?
  {
    if su.JObj? then
      Some(JObj([("name", JStr(SetupName(su))), ("preproc", DictOr(su, "preproc")), ("roi_sets", ListOr(su, "roi_sets"))]))
    else None
  }

  /** The single setup used when a facility defines none. */
  function DefaultSetups(fcfg: Json): Json {
    JList([JObj([("name", JStr("default")), ("preproc", JObj([])), ("roi_sets", ListOr(fcfg, "roi_sets"))])])
  }

  /**
   * `setups`: a dict passes through unchanged; a list keeps its dict entries, normalised;
   * anything else becomes one `default` setup that carries the facility-level `roi_sets`.
   */
  function SetupsOf(fcfg: Json): Json {
    match Get(fcfg, "setups")
    case Some(JObj(f)) => JObj(f)
    case Some(JList(items)) => JList(Somes(MapSeq(LegacySetup, items)))
    case _ => DefaultSetups(fcfg)
  }

  /** A legacy list keeps one normalised setup per dict entry, in order, and nothing else. */
  lemma SetupsOfList(fcfg: Json)
    requires Get(fcfg, "setups").Some? && Get(fcfg, "setups").value.JList?
    ensures SetupsOf(fcfg).JList?
    ensures |SetupsOf(fcfg).items| <= |Get(fcfg, "setups").value.items|
    ensures forall k :: 0 <= k < |SetupsOf(fcfg).items| ==>
      exists j :: 0 <= j < |Get(fcfg, "setups").value.items| && Get(fcfg, "setups").value.items[j].JObj?
        && SetupsOf(fcfg).items[k] == LegacySetup(Get(fcfg, "setups").value.items[j]).value
  {
    var items := Get(fcfg, "setups").value.items;
    var xs := MapSeq(LegacySetup, items);
    SomesFrom(xs);
    forall k | 0 <= k < |SetupsOf(fcfg).items|
      ensures exists j :: 0 <= j < |items| && items[j].JObj? && SetupsOf(fcfg).items[k] == LegacySetup(items[j]).value
    {
      var j :| 0 <= j < |xs| && xs[j] == Some(SetupsOf(fcfg).items[k]);
      assert items[j].JObj?;
    }
  }

  /** The loop over a legacy list of setups. */
  method NormaliseLegacySetups(items: seq<Json>) returns (out: seq<Json>)
    ensures out == Somes(MapSeq(LegacySetup, items))
  {
    out := [];
    ghost var xs: seq<Option<Json>> := [];
    var i := 0;
    while i < |items|
      invariant 0 <= i <= |items|
      invariant xs == MapSeq(LegacySetup, items[..i]) && out == Somes(xs)
    {
      var x := LegacySetup(items[i]);
      MapSnoc(LegacySetup, items, i);
      SomesSnoc(xs, x);
      xs := xs + [x];
      if x.Some? {
        out := out + [x.value];
      }
      i := i + 1;
    }
    assert items[..i] == items;
  }

  /** The setups part of the facility loop body. */
  method NormaliseSetups(fcfg: Json) returns (setups: Json)
    ensures setups == SetupsOf(fcfg)
  {
    match Get(fcfg, "setups") {
      case Some(JObj(sf)) => setups := JObj(sf);
      case Some(JList(items)) =>
        var out := NormaliseLegacySetups(items);
        setups := JList(out);
      case _ => setups := DefaultSetups(fcfg);
    }
  }

  /** One facility as `cfg_importer_facilities` publishes it. */
  datatype Facility = Facility(
    sourceDir: string,
    cameras: int,
    experiments: map<string, seq<string>>,
    treatmentDefaults: map<string, map<string, TreatmentTimes>>,
    pathTimeRegex: string,
    cameraPattern: string,
    cameraList: seq<int>,
    roiSets: Json,
    setups: Json,
    ignoreDirRegex: string,
    outputDir: string)

  /** The experiments of a facility entry; a value that is not a dict gives none. */
  function FacilityExperiments(fcfg: Json): Experiments {
    match GetOr(fcfg, "experiments", JObj([]))
    case JObj(f) => ExperimentsOf(f)
    case _ => Experiments(map[], map[])
  }

  function FacilityOf(fcfg: Json): Facility {
    var camsRaw := GetOr(fcfg, "cameras", JInt(0));
    var listRaw := GetOr(fcfg, "camera_list", JList([]));
    var e := FacilityExperiments(fcfg);
    Facility(
      StrippedStr(GetOr(fcfg, "source_dir", JStr(""))),
      CameraCount(camsRaw, listRaw), e.lists, e.defaults,
      StrippedStr(GetOr(fcfg, "path_time_regex", JStr(""))),
      CameraPattern(fcfg),
      CameraList(camsRaw, listRaw),
      ListOr(fcfg, "roi_sets"),
      SetupsOf(fcfg),
      StrippedStr(GetOr(fcfg, "ignore_dir_regex", JStr(""))),
      StrippedStr(GetOr(fcfg, "output_dir", JStr(""))))
  }

  /** What every published facility satisfies: camera count and list agree, experiments are well formed. */
  lemma FacilityWellFormed(fcfg: Json)
    ensures FacilityOf(fcfg).cameras == |FacilityOf(fcfg).cameraList|
    ensures StrictlyIncreasing(FacilityOf(fcfg).cameraList)
    ensures forall i :: 0 <= i < |FacilityOf(fcfg).cameraList| ==> 0 <= FacilityOf(fcfg).cameraList[i] <= 999
    ensures ListsWellFormed(FacilityOf(fcfg).experiments)
    ensures DefaultsWellFormed(Experiments(FacilityOf(fcfg).experiments, FacilityOf(fcfg).treatmentDefaults))
  {
    var camsRaw := GetOr(fcfg, "cameras", JInt(0));
    var listRaw := GetOr(fcfg, "camera_list", JList([]));
    CameraCountIsLength(camsRaw, listRaw);
    CameraListSorted(camsRaw, listRaw);
    if GetOr(fcfg, "experiments", JObj([])).JObj? {
      ExperimentsOfWellFormed(GetOr(fcfg, "experiments", JObj([])).fields);
    }
  }

  /** The body of the facility loop of `cfg_importer_facilities` for a dict entry. */
  method NormaliseFacility(fcfg: Json) returns (f: Facility)
    ensures f == FacilityOf(fcfg)
  {
    var cams, list := NormaliseCameras(GetOr(fcfg, "cameras", JInt(0)), GetOr(fcfg, "camera_list", JList([])));
    var e := Experiments(map[], map[]);
    var exps := GetOr(fcfg, "experiments", JObj([]));
    if exps.JObj? {
      e := NormaliseExperiments(exps.fields);
    }
    var setups := NormaliseSetups(fcfg);
    f := Facility(
      StrippedStr(GetOr(fcfg, "source_dir", JStr(""))),
      cams, e.lists, e.defaults,
      StrippedStr(GetOr(fcfg, "path_time_regex", JStr(""))),
      CameraPattern(fcfg),
      list,
      ListOr(fcfg, "roi_sets"),
      setups,
      StrippedStr(GetOr(fcfg, "ignore_dir_regex", JStr(""))),
      StrippedStr(GetOr(fcfg, "output_dir", JStr(""))));
  }

  /** `facilities` when truthy, else the `facilities` of the `importer` section, else `{}`. */
  function FacilitiesSource(top: Option<Json>, importer: Option<Json>): Json {
    if top.Some? && Truthy(top.value) then top.value else importer.GetOr(JObj([]))
  }

  /** The published facilities keyed by stripped, lower-cased name; non-dict entries are skipped. */
  function FacilitiesOf(entries: seq<(string, Json)>): map<string, Facility> {
    if entries == [] then map[]
    else
      var m := FacilitiesOf(entries[..|entries| - 1]);
      var name := entries[|entries| - 1].0;
      var fcfg := entries[|entries| - 1].1;
      if fcfg.JObj? then m[Lower(Strip(name)) := FacilityOf(fcfg)] else m
  }

  /** Every published facility comes from a dict entry with that normalised name. */
  lemma {:induction false} FacilitiesOfFrom(entries: seq<(string, Json)>)
    ensures forall key :: key in FacilitiesOf(entries) ==>
      exists i :: 0 <= i < |entries| && entries[i].1.JObj? && key == Lower(Strip(entries[i].0))
        && FacilitiesOf(entries)[key] == FacilityOf(entries[i].1)
  {
    if entries != [] {
      var init := entries[..|entries| - 1];
      FacilitiesOfFrom(init);
      assert forall i :: 0 <= i < |init| ==> init[i] == entries[i];
    }
  }

  /** One more entry adds or replaces its facility when its value is a dict. */
  lemma FacilitiesSnoc(entries: seq<(string, Json)>, i: nat)
    requires i < |entries|
    ensures FacilitiesOf(entries[..i + 1]) == if entries[i].1.JObj?
      then FacilitiesOf(entries[..i])[Lower(Strip(entries[i].0)) := FacilityOf(entries[i].1)]
      else FacilitiesOf(entries[..i])
  {
    assert entries[..i + 1][..i] == entries[..i];
  }

  /** `cfg_importer_facilities` */
  method ImporterFacilities(top: Option<Json>, importer: Option<Json>) returns (out: map<string, Facility>)
    ensures FacilitiesSource(top, importer).JObj? ==> out == FacilitiesOf(FacilitiesSource(top, importer).fields)
    ensures !FacilitiesSource(top, importer).JObj? ==> out == map[]
  {
    out := map[];
    var raw := FacilitiesSource(top, importer);
    if !raw.JObj? {
      return;
    }
    var entries := raw.fields;
    var i := 0;
    while i < |entries|
      invariant 0 <= i <= |entries|
      invariant out == FacilitiesOf(entries[..i])
    {
      FacilitiesSnoc(entries, i);
      var fcfg := entries[i].1;
      if fcfg.JObj? {
        var f := NormaliseFacility(fcfg);
        out := out[Lower(Strip(entries[i].0)) := f];
      }
      i := i + 1;
    }
    assert entries[..i] == entries;
  }
}
