/**
 * The configuration: a JSON document, and sub-configurations picked out of
 * it by key. Reading the file (`Config::load`) is not part of this model.
 */
module Configs {
  import opened Wrappers
  import opened JsonValues
  import opened Errors

  datatype Config = Config(json: Json)

  /** `Config::new`. */
  function New(json: Json): (c: Config)
    ensures c.json == json
  {
    Config(json)
  }

  /** `Index<&str> for Config`: `config[key]`, which is `Null` for a missing key or a non-object. */
  function Index(c: Config, key: string): (r: Json)
    ensures r != Null ==> c.json.Object? && exists i :: 0 <= i < |c.json.members| && c.json.members[i] == (key, r)
    ensures c.json.Object? && Find(c.json.members, key).Some? ==> r == Find(c.json.members, key).value
    ensures (!c.json.Object? || forall i :: 0 <= i < |c.json.members| ==> c.json.members[i].0 != key) ==> r == Null
  {
    At(c.json, key)
  }

  /** `Config::from_key`: never fails. */
  function FromKey(json: Json, key: string): (r: Result<Config, Error>)
    ensures r.Ok? && r.value.json == At(json, key)
  {
    Ok(New(At(json, key)))
  }

  /** `Config::get`: never fails, and holds what indexing the configuration gives. */
  function Get(c: Config, key: string): (r: Result<Config, Error>)
    ensures r.Ok? && r.value.json == Index(c, key)
  {
    FromKey(c.json, key)
  }

  /** Indexing along a path of keys, one key after another. */
  function Lookup(j: Json, path: seq<string>): Json
    decreases |path|
  {
    if path == [] then j else Lookup(At(j, path[0]), path[1..])
  }

  /** A chain of `get(..)?` calls along a path of keys. */
  function GetPath(c: Config, path: seq<string>): Result<Config, Error>
    decreases |path|
  {
    if path == [] then Ok(c)
    else
      var r := Get(c, path[0]);
      if r.Err? then r else GetPath(r.value, path[1..])
  }

  /** Chained `get` calls always succeed and give the nested lookup. */
  lemma {:induction false} GetPathIsLookup(c: Config, path: seq<string>)
    ensures GetPath(c, path) == Ok(Config(Lookup(c.json, path)))
    decreases |path|
  {
    if path != [] {
      GetPathIsLookup(Get(c, path[0]).value, path[1..]);
    }
  }

  lemma {:induction false} LookupAppend(j: Json, p: seq<string>, q: seq<string>)
    ensures Lookup(j, p + q) == Lookup(Lookup(j, p), q)
    decreases |p|
  {
    if p != [] {
      assert (p + q)[0] == p[0] && (p + q)[1..] == p[1..] + q;
      LookupAppend(At(j, p[0]), p[1..], q);
    } else {
      assert p + q == q;
    }
  }

  lemma {:induction false} LookupNull(q: seq<string>)
    ensures Lookup(Null, q) == Null
  {
    if q != [] {
      LookupNull(q[1..]);
    }
  }

  /** Once a lookup yields `Null`, every further lookup yields `Null`. */
  lemma NullStaysNull(j: Json, p: seq<string>, q: seq<string>)
    requires Lookup(j, p) == Null
    ensures Lookup(j, p + q) == Null
  {
    LookupAppend(j, p, q);
    LookupNull(q);
  }
}
