/**
 * The raw alerts as Jackson hands them to the parser: nested
 * `Map<String, Object>` / `List<Object>` values with strings, numbers,
 * booleans and `null` at the leaves.
 */
module Json {
  import opened Text

  /**
   * One value of the parsed JSON document. An object keeps its keys in
   * document order (Jackson builds a LinkedHashMap). A floating-point number
   * is kept as the text Java's Double.toString would give for it.
   */
  datatype Json =
    | JNull
    | JBool(b: bool)
    | JInt(i: int)
    | JNumber(text: string)
    | JStr(s: string)
    | JList(items: seq<Json>)
    | JMap(fields: seq<(string, Json)>)

  /**
   * Map.get(key) on the map Jackson builds from the object: the value of the
   * key's last binding, since a repeated key overwrites the earlier value;
   * `null` when the key is absent.
   */
  function Field(fields: seq<(string, Json)>, key: string): (r: Json)
    ensures r != JNull ==> exists k :: 0 <= k < |fields| && fields[k] == (key, r)
    ensures (forall k :: 0 <= k < |fields| ==> fields[k].0 != key) ==> r == JNull
  {
    FieldBefore(fields, key, |fields|)
  }

  /** The value of the last binding of `key` before position `i`. */
  function FieldBefore(fields: seq<(string, Json)>, key: string, i: nat): (r: Json)
    requires i <= |fields|
    ensures r != JNull ==> exists k :: 0 <= k < i && fields[k] == (key, r)
    ensures (forall k :: 0 <= k < i ==> fields[k].0 != key) ==> r == JNull
  {
    if i == 0 then JNull
    else if fields[i - 1].0 == key then fields[i - 1].1
    else FieldBefore(fields, key, i - 1)
  }

  /** Map.get answers the value of the key's last binding: a later put of the same key overwrites. */
  lemma {:induction false} FieldLastBinding(fields: seq<(string, Json)>, key: string, k: nat)
    requires k < |fields| && fields[k].0 == key
    requires forall j :: k < j < |fields| ==> fields[j].0 != key
    ensures Field(fields, key) == fields[k].1
  {
    var i := k + 1;
    while i < |fields|
      invariant k + 1 <= i <= |fields|
      invariant FieldBefore(fields, key, i) == fields[k].1
    {
      i := i + 1;
    }
  }

  /** Map.get on a value that may not be a map (the adapters' `alert.get(key)`); `null` when absent. */
  function Get(m: Json, key: string): (r: Json)
    ensures r == Lookup(m, [key])
  {
    if m.JMap? then Field(m.fields, key) else JNull
  }

  /** Object.toString of the value (Java's rendering of lists as `[a, b]` and maps as `{k=v}`). */
  function Render(j: Json): string
  {
    match j
    case JNull => "null"
    case JBool(b) => if b then "true" else "false"
    case JInt(i) => IntToString(i)
    case JNumber(t) => t
    case JStr(s) => s
    case JList(items) =>
      "[" + Join(seq(|items|, k requires 0 <= k < |items| => Render(items[k])), ", ") + "]"
    case JMap(fields) =>
      "{" + Join(seq(|fields|, k requires 0 <= k < |fields| => fields[k].0 + "=" + Render(fields[k].1)), ", ") + "}"
  }

  /** safeString: `null` reads as the empty string, anything else as its toString. */
  function SafeString(j: Json): (r: string)
    ensures j == JNull ==> r == ""
    ensures j.JStr? ==> r == j.s
    ensures j.JInt? ==> r == IntToString(j.i)
  {
    if j == JNull then "" else Render(j)
  }

  /**
   * What getNested returns: follow `path` key by key from `j`; as soon as the
   * current value is not an object, or a key is missing, the answer is `null`.
   */
  function Lookup(j: Json, path: seq<string>): Json
    decreases |path|
  {
    if |path| == 0 then j
    else if !j.JMap? then JNull
    else Lookup(Field(j.fields, path[0]), path[1..])
  }

  /** A lookup through a `null` is `null`: a missing prefix never raises, it only yields `null`. */
  lemma {:induction false} LookupNull(path: seq<string>)
    ensures Lookup(JNull, path) == JNull
  {
  }

  /** Following `p + q` is following `p`, then `q` from where `p` ended. */
  lemma {:induction false} LookupAppend(j: Json, p: seq<string>, q: seq<string>)
    ensures Lookup(j, p + q) == Lookup(Lookup(j, p), q)
    decreases |p|
  {
    if |p| == 0 {
      assert p + q == q;
    } else if !j.JMap? {
      assert (p + q)[0] == p[0];
      LookupNull(q);
    } else {
      assert (p + q)[0] == p[0];
      assert (p + q)[1..] == p[1..] + q;
      LookupAppend(Field(j.fields, p[0]), p[1..], q);
    }
  }

  /** A one-key path is a plain Map.get on an object. */
  lemma LookupOne(fields: seq<(string, Json)>, key: string)
    ensures Lookup(JMap(fields), [key]) == Field(fields, key)
  {
  }

  /**
   * getNested(map, path...): the loop that walks `current` down the path,
   * returning `null` as soon as it leaves the objects or meets a missing key.
   */
  method GetNested(root: Json, path: seq<string>) returns (r: Json)
    ensures r == Lookup(root, path)
  {
    var current := root;
    var i := 0;
    while i < |path|
      invariant 0 <= i <= |path|
      invariant Lookup(root, path) == Lookup(current, path[i..])
    {
      if !current.JMap? {
        return JNull;
      }
      assert path[i..][0] == path[i] && path[i..][1..] == path[i + 1..];
      current := Field(current.fields, path[i]);
      if current == JNull {
        LookupNull(path[i + 1..]);
        return JNull;
      }
      i := i + 1;
    }
    return current;
  }
}
