/** Parsed JSON documents, as `json.load` hands them to the classifier, and
    Python's subscript `value[key]` on them. */
module Json {
  import opened Wrappers

  /** A parsed JSON value. Numbers are kept as integers: the classifier
      never looks inside a number. */
  datatype Json =
    | JNull
    | JBool(b: bool)
    | JNum(n: int)
    | JStr(s: string)
    | JArr(items: seq<Json>)
    | JObj(fields: map<string, Json>)

  /** Python's `value[key]` with a string key. A dict gives its entry; a dict
      without the key raises KeyError, and every other value raises
      TypeError. Both errors are `None`. */
  function Lookup(v: Json, key: string): (r: Option<Json>)
    ensures r.Some? <==> v.JObj? && key in v.fields
    ensures r.Some? ==> r.value == v.fields[key]
  {
    match v
    case JObj(fields) => if key in fields then Some(fields[key]) else None
    case _ => None
  }

  /** The chained subscript `value[path[0]][path[1]]...`: `None` as soon as
      one step fails, so a failure anywhere on the path is a failure of the
      whole expression. */
  function LookupPath(v: Json, path: seq<string>): (r: Option<Json>)
    ensures path == [] ==> r == Some(v)
    ensures |path| == 1 ==> r == Lookup(v, path[0])
    ensures path != [] && !v.JObj? ==> r.None?
    decreases |path|
  {
    if path == [] then Some(v)
    else
      match Lookup(v, path[0])
      case None => None
      case Some(child) => LookupPath(child, path[1..])
  }

  /** Looking up `p + q` is looking up `p`, then `q` in what was found. */
  lemma {:induction false} LookupPathAppend(v: Json, p: seq<string>, q: seq<string>)
    ensures LookupPath(v, p + q) ==
              match LookupPath(v, p)
              case None => None
              case Some(w) => LookupPath(w, q)
    decreases |p|
  {
    if p != [] {
      assert (p + q)[0] == p[0];
      assert (p + q)[1..] == p[1..] + q;
      match Lookup(v, p[0])
      case None =>
      case Some(child) => LookupPathAppend(child, p[1..], q);
    } else {
      assert p + q == q;
    }
  }

  /** Once a prefix of the path reaches something that is not an object, no
      longer path resolves (Python raises TypeError at the next step). */
  lemma LookupPathPastNonObject(v: Json, p: seq<string>, q: seq<string>)
    requires LookupPath(v, p).Some? ==> !LookupPath(v, p).value.JObj?
    requires q != []
    ensures LookupPath(v, p + q) == None
  {
    LookupPathAppend(v, p, q);
  }

  /** Changing an entry of an object under a key that is not the first step
      of the path does not change what the path finds. */
  lemma LookupPathOtherKey(fields: map<string, Json>, k: string, x: Json, path: seq<string>)
    requires path != [] && path[0] != k
    ensures LookupPath(JObj(fields[k := x]), path) == LookupPath(JObj(fields), path)
  {
  }

  /** Replacing the value found under key `k` replaces it for every path that
      goes through `k`. */
  lemma LookupPathUnder(fields: map<string, Json>, k: string, w1: Json, w2: Json, q: seq<string>)
    requires LookupPath(w1, q) == LookupPath(w2, q)
    ensures LookupPath(JObj(fields[k := w1]), [k] + q) == LookupPath(JObj(fields[k := w2]), [k] + q)
  {
    LookupPathAppend(JObj(fields[k := w1]), [k], q);
    LookupPathAppend(JObj(fields[k := w2]), [k], q);
  }
}
