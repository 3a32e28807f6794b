/**
  The parsed request body of a webhook delivery, and the two ways the
  gateway reads fields out of it: `body[key]` on the top-level hash, and a
  chain of `[]` lookups into nested objects (`payload["installation"]["id"]`).
 */
module Payload {

  import opened Wrappers

  /** A JSON value as the provider delivers it. */
  datatype Json =
    | JNull
    | JBool(b: bool)
    | JInt(i: int)
    | JStr(s: string)
    | JArray(items: seq<Json>)
    | JObject(fields: map<string, Json>)

  /** The top-level object of a request body. */
  type Body = map<string, Json>

  /** `body[key]` on a hash: the stored value, or nil when the key is absent. */
  function Field(body: Body, key: string): Json
  {
    if key in body then body[key] else JNull
  }

  /**
    `v[key]` on a parsed value. Only an object can be indexed by a string key;
    indexing anything else (nil in particular) raises, which is `None` here.
   */
  function Index(v: Json, key: string): Option<Json>
  {
    match v
    case JObject(m) => Some(Field(m, key))
    case _ => None
  }

  /** `v[k0][k1]...[kn]`: the lookups of `path` applied one after another. */
  function IndexPath(v: Json, path: seq<string>): (r: Option<Json>)
    ensures path == [] ==> r == Some(v)
    ensures path != [] && !v.JObject? ==> r == None
    ensures |path| == 1 ==> r == Index(v, path[0])
    decreases |path|
  {
    if path == [] then Some(v)
    else
      match Index(v, path[0])
      case None => None
      case Some(w) => IndexPath(w, path[1..])
  }

  /** Continue a lookup that may already have raised. */
  function Then(r: Option<Json>, path: seq<string>): Option<Json>
  {
    match r
    case None => None
    case Some(w) => IndexPath(w, path)
  }

  /** Looking up `p + q` is looking up `p` and then `q` in what was found. */
  lemma {:induction false} IndexPathAppend(v: Json, p: seq<string>, q: seq<string>)
    ensures IndexPath(v, p + q) == Then(IndexPath(v, p), q)
    decreases |p|
  {
    if p == [] {
      assert p + q == q;
    } else {
      assert (p + q)[0] == p[0];
      assert (p + q)[1..] == p[1..] + q;
      match Index(v, p[0])
      case None =>
      case Some(w) => IndexPathAppend(w, p[1..], q);
    }
  }

  /** The two-key lookup `v[a][b]` is the path lookup of `[a, b]`. */
  lemma {:induction false} IndexPathPair(v: Json, a: string, b: string)
    ensures IndexPath(v, [a, b]) == Then(Index(v, a), [b])
  {
    IndexPathAppend(v, [a], [b]);
    assert [a] + [b] == [a, b];
  }
}
