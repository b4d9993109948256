/**
 * MATLAB integration settings and the gate in front of `/matlab/engine`: the `matlab`
 * section of the configuration names the functions a client may call, and the engine
 * endpoint refuses any other function. The engine itself is not modelled; whether it
 * started is a parameter.
 */
module Matlab {
  import opened Wrappers
  import opened Text
  import opened JsonValues
  import opened Http

  // ---------------------------------------------------------------------------------
  // Sorted string lists
  // ---------------------------------------------------------------------------------

  /** Every earlier string sorts before every later one, so there are no repeats. */
  predicate StrictlySorted(s: seq<string>) {
    forall i, j :: 0 <= i < j < |s| ==> StrLt(s[i], s[j])
  }

  /** Insert `x` into a sorted list unless it is already there. */
  function InsertSorted(x: string, s: seq<string>): seq<string> {
    if s == [] then [x]
    else if x == s[0] then s
    else if StrLt(x, s[0]) then [x] + s
    else [s[0]] + InsertSorted(x, s[1..])
  }

  /** Inserting keeps the list sorted and adds exactly `x`. */
  lemma {:induction false} InsertSortedMeaning(x: string, s: seq<string>)
    requires StrictlySorted(s)
    ensures StrictlySorted(InsertSorted(x, s))
    ensures forall y :: y in InsertSorted(x, s) <==> y == x || y in s
  {
    if s != [] && x != s[0] {
      if StrLt(x, s[0]) {
        forall j | 0 < j < |s| ensures StrLt(x, s[j]) {
          StrLtTransitive(x, s[0], s[j]);
        }
      } else {
        StrLtTotal(x, s[0]);
        var rest := s[1..];
        assert StrictlySorted(rest) by {
          forall i, j | 0 <= i < j < |rest| ensures StrLt(rest[i], rest[j]) {
            assert rest[i] == s[i + 1] && rest[j] == s[j + 1];
          }
        }
        InsertSortedMeaning(x, rest);
        var r := InsertSorted(x, rest);
        forall y | y in r ensures StrLt(s[0], y) {
          if y != x {
            var j :| 0 <= j < |rest| && rest[j] == y;
            assert s[j + 1] == y;
          }
        }
        assert forall y :: y in s <==> y == s[0] || y in rest;
      }
    }
  }

  /** The first string of a sorted list sorts before every other one in it. */
  lemma FirstIsLeast(s: seq<string>, y: string)
    requires StrictlySorted(s) && y in s
    ensures y == s[0] || StrLt(s[0], y)
  {
  }

  /** A set has one sorted listing without repeats. */
  lemma {:induction false} SortedUnique(a: seq<string>, b: seq<string>)
    requires StrictlySorted(a) && StrictlySorted(b)
    requires forall y :: y in a <==> y in b
    ensures a == b
  {
    if a != [] {
      assert a[0] in b;
    }
    if b != [] {
      assert b[0] in a;
    }
    if a != [] && b != [] {
      FirstIsLeast(a, b[0]);
      FirstIsLeast(b, a[0]);
      StrLtAsymmetric(a[0], b[0]);
      assert a[0] == b[0];
      StrLtIrreflexive(a[0]);
      var a', b' := a[1..], b[1..];
      forall y ensures y in a' <==> y in b' {
        assert y in a' <==> y in a && y != a[0];
        assert y in b' <==> y in b && y != b[0];
      }
      assert StrictlySorted(a') by {
        forall i, j | 0 <= i < j < |a'| ensures StrLt(a'[i], a'[j]) {
          assert a'[i] == a[i + 1] && a'[j] == a[j + 1];
        }
      }
      assert StrictlySorted(b') by {
        forall i, j | 0 <= i < j < |b'| ensures StrLt(b'[i], b'[j]) {
          assert b'[i] == b[i + 1] && b'[j] == b[j + 1];
        }
      }
      SortedUnique(a', b');
      assert a == [a[0]] + a' && b == [b[0]] + b';
    }
  }

  /** Python's `sorted` on a set of strings: the set's members in order, each once. */
  method SortedNames(names: set<string>) returns (wl: seq<string>)
    ensures StrictlySorted(wl)
    ensures forall y :: y in wl <==> y in names
  {
    wl := [];
    var rest := names;
    while rest != {}
      invariant rest <= names
      invariant StrictlySorted(wl)
      invariant forall y :: y in wl <==> y in names && y !in rest
      decreases |rest|
    {
      var x :| x in rest;
      InsertSortedMeaning(x, wl);
      wl := InsertSorted(x, wl);
      rest := rest - {x};
    }
  }

  // ---------------------------------------------------------------------------------
  // Settings (`cfg_matlab`)
  // ---------------------------------------------------------------------------------

  /** The two functions every whitelist allows. */
  const Builtin: set<string> := {"segment_frame", "Segment"}

  /** The settings `cfg_matlab` hands to the endpoints. */
  datatype MatlabConfig = MatlabConfig(enabled: bool, mode: string, binary: string, paths: Json, whitelist: seq<string>)

  /** The names a whitelist entry list contributes: each entry as a stripped string, empties dropped. */
  function Listed(items: seq<Json>): set<string> {
    if items == [] then {}
    else
      var s := Strip(PyStr(items[|items| - 1]));
      Listed(items[..|items| - 1]) + (if s != "" then {s} else {})
  }

  /** A name is listed exactly when some entry strips to it and it is not empty. */
  lemma {:induction false} ListedMeaning(items: seq<Json>, name: string)
    ensures name in Listed(items) <==>
      name != "" && exists i :: 0 <= i < |items| && Strip(PyStr(items[i])) == name
  {
    if items != [] {
      var init := items[..|items| - 1];
      ListedMeaning(init, name);
      assert forall i :: 0 <= i < |init| ==> init[i] == items[i];
    }
  }

  /** The allowed names a configured whitelist value gives; any value but a list adds nothing. */
  function Allowed(raw: Json): set<string> {
    (if raw.JList? then Listed(raw.items) else {}) + Builtin
  }

  /** The whitelist value of a `matlab` section: `['segment_frame']` when the key is missing. */
  function RawWhitelist(m: seq<(string, Json)>): Json {
    Lookup(m, "whitelist").GetOr(JList([JStr("segment_frame")]))
  }

  /** `str(m.get('mode', 'engine')).strip() or 'engine'` */
  function ModeOf(m: seq<(string, Json)>): string {
    var s := Strip(PyStr(Lookup(m, "mode").GetOr(JStr("engine"))));
    if s == "" then "engine" else s
  }

  /** The default location of the MATLAB binary. */
  const DefaultBinary := "/Applications/MATLAB_R2025a.app/bin/matlab"

  /** The `matlab` section of the configuration; `.get` on anything but a dict raises. */
  function Section(config: Json): Option<seq<(string, Json)>> {
    if !config.JObj? then None
    else
      match Lookup(config.fields, "matlab")
      case None => Some([])
      case Some(JObj(m)) => Some(m)
      case Some(_) => None
  }

  /** `cfg_matlab`: read the section, collect the whitelist into a set, then sort it. */
  method CfgMatlab(config: Json) returns (r: Result<MatlabConfig, Failure>)
    ensures r.Err? <==> Section(config).None?
    ensures r.Err? ==> r.error == Crash
    ensures r.Ok? ==>
      var m := Section(config).value;
      && r.value.enabled == Truthy(Lookup(m, "enabled").GetOr(JBool(true)))
      && r.value.mode == ModeOf(m)
      && r.value.binary == Strip(PyStr(Lookup(m, "binary").GetOr(JStr(DefaultBinary))))
      && r.value.paths == Lookup(m, "paths").GetOr(JList([JStr("./matlab")]))
      && StrictlySorted(r.value.whitelist)
      && forall y :: y in r.value.whitelist <==> y in Allowed(RawWhitelist(m))
  {
    var sec := Section(config);
    if sec.None? {
      return Err(Crash);
    }
    var m := sec.value;
    var raw := RawWhitelist(m);
    var names: set<string> := {};
    if raw.JList? {
      var items := raw.items;
      for i := 0 to |items|
        invariant names == Listed(items[..i])
      {
        var s := Strip(PyStr(items[i]));
        if s != "" {
          names := names + {s};
        }
        assert items[..i + 1][..i] == items[..i];
      }
      assert items[..|items|] == items;
    }
    names := names + Builtin;
    var wl := SortedNames(names);
    r := Ok(MatlabConfig(
      Truthy(Lookup(m, "enabled").GetOr(JBool(true))),
      ModeOf(m),
      Strip(PyStr(Lookup(m, "binary").GetOr(JStr(DefaultBinary)))),
      Lookup(m, "paths").GetOr(JList([JStr("./matlab")])),
      wl));
  }

  /**
   * What a configured whitelist allows: always the two built-in functions, a listed name
   * only when an entry strips to it and it is not empty, and names from a non-list value never.
   */
  lemma AllowedMeaning(raw: Json, name: string)
    ensures "segment_frame" in Allowed(raw) && "Segment" in Allowed(raw)
    ensures name in Allowed(raw) ==> name != ""
    ensures !raw.JList? ==> Allowed(raw) == Builtin
    ensures raw.JList? && name !in Builtin ==>
      (name in Allowed(raw) <==>
        name != "" && exists i :: 0 <= i < |raw.items| && Strip(PyStr(raw.items[i])) == name)
  {
    if raw.JList? {
      ListedMeaning(raw.items, name);
    }
  }

  /** A section without keys gives the defaults: enabled, engine mode, and only the built-in functions. */
  lemma EmptySectionDefaults()
    ensures RawWhitelist([]) == JList([JStr("segment_frame")])
    ensures Allowed(RawWhitelist([])) == Builtin
    ensures ModeOf([]) == "engine"
    ensures Truthy(Lookup([], "enabled").GetOr(JBool(true)))
  {
    var raw := RawWhitelist([]);
    var items := raw.items;
    assert items[..0] == [];
    assert PyStr(items[0]) == "segment_frame";
    StripUnchanged("segment_frame");
    StripUnchanged("engine");
  }

  /** A blank mode falls back to `engine`; any other mode keeps its stripped text. */
  lemma ModeMeaning(m: seq<(string, Json)>)
    ensures ModeOf(m) != ""
    ensures Lookup(m, "mode").Some? && Strip(PyStr(Lookup(m, "mode").value)) == "" ==> ModeOf(m) == "engine"
    ensures Lookup(m, "mode").Some? && Strip(PyStr(Lookup(m, "mode").value)) != "" ==>
      ModeOf(m) == Strip(PyStr(Lookup(m, "mode").value))
  {
  }

  // ---------------------------------------------------------------------------------
  // The function gate (`/matlab/engine`)
  // ---------------------------------------------------------------------------------

  /**
   * The checks before a call reaches the engine: the integration must be enabled and the
   * engine running, the body must name a function, and a non-empty whitelist must list it.
   * The answer is the function's name.
   */
  function EngineGate(cfg: MatlabConfig, engineUp: bool, payload: Json): Result<string, Failure> {
    if !cfg.enabled then Err(Failure(503, "MATLAB integration disabled"))
    else if !engineUp then Err(Failure(503, "MATLAB Engine not available"))
    else
      var body := Or(payload, JObj([]));
      if !body.JObj? then Err(Crash)
      else
        var func := Strip(PyStr(Lookup(body.fields, "func").GetOr(JStr(""))));
        if func == "" then Err(Failure(400, "Missing func"))
        else if cfg.whitelist != [] && func !in cfg.whitelist then Err(Failure(403, "Function not allowed"))
        else Ok(func)
  }

  /** An empty name is a 400; a name is a 403 exactly when the whitelist is not empty and does not list it. */
  lemma GateMeaning(cfg: MatlabConfig, fields: seq<(string, Json)>)
    requires cfg.enabled
    ensures var func := Strip(PyStr(Lookup(fields, "func").GetOr(JStr(""))));
      var r := EngineGate(cfg, true, JObj(fields));
      (r == Err(Failure(400, "Missing func")) <==> func == "") &&
      (r == Err(Failure(403, "Function not allowed")) <==>
        func != "" && cfg.whitelist != [] && func !in cfg.whitelist) &&
      (r.Ok? <==> func != "" && (cfg.whitelist == [] || func in cfg.whitelist)) &&
      (r.Ok? ==> r.value == func)
  {
    assert Or(JObj(fields), JObj([])) == JObj(fields);
    var func := Strip(PyStr(Lookup(fields, "func").GetOr(JStr(""))));
    var missing, denied := Failure(400, "Missing func"), Failure(403, "Function not allowed");
    assert missing != denied;
    assert EngineGate(cfg, true, JObj(fields)) ==
      if func == "" then Err(missing) else if cfg.whitelist != [] && func !in cfg.whitelist then Err(denied) else Ok(func);
  }

  /**
   * With a whitelist from the settings, which always lists the built-in functions, the gate
   * lets through exactly the allowed names.
   */
  lemma ConfiguredGate(cfg: MatlabConfig, m: seq<(string, Json)>, fields: seq<(string, Json)>, func: string)
    requires cfg.enabled
    requires forall y :: y in cfg.whitelist <==> y in Allowed(RawWhitelist(m))
    requires Strip(PyStr(Lookup(fields, "func").GetOr(JStr("")))) == func
    ensures EngineGate(cfg, true, JObj(fields)) == Ok(func) <==> func in Allowed(RawWhitelist(m))
    ensures func != "" && func !in Allowed(RawWhitelist(m)) ==>
      EngineGate(cfg, true, JObj(fields)) == Err(Failure(403, "Function not allowed"))
  {
    AllowedMeaning(RawWhitelist(m), func);
    assert "Segment" in cfg.whitelist;
    GateMeaning(cfg, fields);
  }
}
