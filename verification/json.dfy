/**
 A parsed JSON value, as Go's `encoding/json` decodes it into `interface{}`
 values. Object members keep their textual order; looking a key up takes the
 last member with that key, since decoding into a map overwrites earlier
 duplicates.
 */
module Json {
  import opened Wrappers

  datatype Json =
    | Null
    | Bool(b: bool)
    | Num(n: real)
    | Str(s: string)
    | Arr(items: seq<Json>)
    | Obj(members: seq<(string, Json)>)

  /** The value of the last member named `key`. */
  function Get(members: seq<(string, Json)>, key: string): (r: Option<Json>)
    ensures r.None? <==> forall k :: 0 <= k < |members| ==> members[k].0 != key
    ensures r.Some? ==> exists k :: 0 <= k < |members| && members[k] == (key, r.value)
  {
    if members == [] then None
    else if members[|members| - 1].0 == key then Some(members[|members| - 1].1)
    else Get(members[..|members| - 1], key)
  }

  /** A later member overrides an earlier one with the same key, and leaves other keys alone. */
  lemma {:induction false} GetLastWins(members: seq<(string, Json)>, key: string, v: Json, other: string)
    ensures Get(members + [(key, v)], key) == Some(v)
    ensures other != key ==> Get(members + [(key, v)], other) == Get(members, other)
  {
  }

  /** Lookup in a two-member object. */
  lemma GetPair(k1: string, v1: Json, k2: string, v2: Json, key: string)
    ensures Get([(k1, v1), (k2, v2)], key) ==
      if key == k2 then Some(v2) else if key == k1 then Some(v1) else None
  {
  }

  /** One step of a path into a JSON value: an object key or an array index. */
  datatype Step = Key(k: string) | Index(i: nat)

  /** The value found by following `path` from `j`, if every step exists. */
  function At(j: Json, path: seq<Step>): Option<Json>
    decreases |path|
  {
    if path == [] then Some(j)
    else match (j, path[0])
      case (Obj(ms), Key(k)) =>
        (match Get(ms, k)
         case None => None
         case Some(v) => At(v, path[1..]))
      case (Arr(xs), Index(i)) => if i < |xs| then At(xs[i], path[1..]) else None
      case _ => None
  }

  /** Following a path in two parts is following it at once. */
  lemma {:induction false} AtAppend(j: Json, p: seq<Step>, q: seq<Step>)
    ensures At(j, p + q) == (match At(j, p) case None => None case Some(v) => At(v, q))
    decreases |p|
  {
    if p == [] {
      assert p + q == q;
    } else {
      assert (p + q)[0] == p[0];
      assert (p + q)[1..] == p[1..] + q;
      match (j, p[0])
      case (Obj(ms), Key(k)) =>
        match Get(ms, k) {
          case None =>
          case Some(v) => AtAppend(v, p[1..], q);
        }
      case (Arr(xs), Index(i)) =>
        if i < |xs| { AtAppend(xs[i], p[1..], q); }
      case _ =>
    }
  }
}
