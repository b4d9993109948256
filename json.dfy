/**
 * Loosely typed values as they arrive from `config.json`, request bodies and log lines,
 * together with the Python conversions the code applies to them: truthiness, `str(v)`,
 * `int(v)`, `isinstance` tests and `dict.get`.
 */
module JsonValues {
  import opened Wrappers
  import opened Text

  /**
   * A decoded JSON value. An object is an association list in insertion order; like any
   * Python dict its keys are expected to be distinct, and lookups read the first binding.
   * JSON numbers are integers in this model.
   */
  datatype Json =
    | JNull
    | JBool(b: bool)
    | JInt(i: int)
    | JStr(s: string)
    | JList(items: seq<Json>)
    | JObj(fields: seq<(string, Json)>)

  /** Python's `bool(v)`. */
  predicate Truthy(v: Json) {
    match v
    case JNull => false
    case JBool(b) => b
    case JInt(i) => i != 0
    case JStr(s) => s != []
    case JList(l) => l != []
    case JObj(f) => f != []
  }

  /** `v or default` */
  function Or(v: Json, default: Json): Json {
    if Truthy(v) then v else default
  }

  /** The first binding of `key` in an object's fields. */
  function Lookup(fields: seq<(string, Json)>, key: string): (r: Option<Json>)
    ensures r.Some? <==> exists i :: 0 <= i < |fields| && fields[i].0 == key
    ensures r.Some? ==> exists i :: 0 <= i < |fields| && fields[i] == (key, r.value)
  {
    if fields == [] then None
    else if fields[0].0 == key then Some(fields[0].1)
    else
      var r := Lookup(fields[1..], key);
      assert forall i :: 0 < i < |fields| ==> fields[i] == fields[1..][i - 1];
      r
  }

  /** The binding at `k` is found when no earlier field has its key. */
  lemma {:induction false} LookupAt(fields: seq<(string, Json)>, k: nat, key: string)
    requires k < |fields| && fields[k].0 == key
    requires forall j :: 0 <= j < k ==> fields[j].0 != key
    ensures Lookup(fields, key) == Some(fields[k].1)
    decreases k
  {
    if k > 0 {
      assert fields[1..][k - 1] == fields[k];
      LookupAt(fields[1..], k - 1, key);
    }
  }

  /** `v.get(key)` when `v` is a dict; `None` for a missing key or a non-dict. */
  function Get(v: Json, key: string): Option<Json> {
    if v.JObj? then Lookup(v.fields, key) else None
  }

  /** `v.get(key, default)` for a dict `v`. */
  function GetOr(v: Json, key: string, default: Json): Json {
    Get(v, key).GetOr(default)
  }

  /** Python's `repr(v)` (string contents are not escaped in this model). */
  function Repr(v: Json): string
    decreases v, 1
  {
    match v
    case JStr(s) => "'" + s + "'"
    case _ => PyStr(v)
  }

  /** Python's `str(v)`. */
  function PyStr(v: Json): string
    decreases v, 0
  {
    match v
    case JNull => "None"
    case JBool(b) => if b then "True" else "False"
    case JInt(i) => IntToString(i)
    case JStr(s) => s
    case JList(l) => "[" + ReprItems(l) + "]"
    case JObj(f) => "{" + ReprFields(f) + "}"
  }

  /** `", ".join(repr(x) for x in l)` */
  function ReprItems(l: seq<Json>): string
    decreases l
  {
    if l == [] then ""
    else Repr(l[0]) + (if |l| == 1 then "" else ", " + ReprItems(l[1..]))
  }

  /** `", ".join(f"{k!r}: {v!r}" for k, v in f)` */
  function ReprFields(f: seq<(string, Json)>): string
    decreases f
  {
    if f == [] then ""
    else ReprField(f[0]) + (if |f| == 1 then "" else ", " + ReprFields(f[1..]))
  }

  function ReprField(kv: (string, Json)): string
    decreases kv
  {
    "'" + kv.0 + "': " + Repr(kv.1)
  }

  /** Python's `int(v)`; `None` where it raises (`None`, lists, dicts, malformed strings). */
  function PyInt(v: Json): Option<int> {
    match v
    case JInt(i) => Some(i)
    case JBool(b) => Some(if b then 1 else 0)
    case JStr(s) => ParseInt(s)
    case _ => None
  }

  /** `d[key] = v`: an existing key keeps its place and takes the new value, a new key goes last. */
  function SetField(fields: seq<(string, Json)>, key: string, v: Json): (r: seq<(string, Json)>)
    ensures |r| == |fields| || |r| == |fields| + 1
  {
    if fields == [] then [(key, v)]
    else if fields[0].0 == key then [(key, v)] + fields[1..]
    else [fields[0]] + SetField(fields[1..], key, v)
  }

  /** After `d[key] = v`, `d[key]` is `v` and every other key reads as before. */
  lemma {:induction false} SetFieldLookup(fields: seq<(string, Json)>, key: string, v: Json, other: string)
    ensures Lookup(SetField(fields, key, v), key) == Some(v)
    ensures other != key ==> Lookup(SetField(fields, key, v), other) == Lookup(fields, other)
  {
    if fields != [] && fields[0].0 != key {
      SetFieldLookup(fields[1..], key, v, other);
    }
  }

  /** Assignment adds the key and nothing else: appending happens only for a new key. */
  lemma {:induction false} SetFieldKeys(fields: seq<(string, Json)>, key: string, v: Json)
    ensures |SetField(fields, key, v)| == |fields| <==> Lookup(fields, key).Some?
    ensures forall i :: 0 <= i < |fields| && fields[i].0 != key ==> fields[i] == SetField(fields, key, v)[i]
  {
    if fields != [] && fields[0].0 != key {
      SetFieldKeys(fields[1..], key, v);
      var r := SetField(fields, key, v);
      assert forall i :: 0 < i < |fields| ==> fields[1..][i - 1] == fields[i] && r[i] == SetField(fields[1..], key, v)[i - 1];
    }
  }
}
