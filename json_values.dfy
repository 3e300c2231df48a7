/**
 * JSON documents as the configuration holds them (serde_json's `Value`).
 * An object is the ordered list of its members, in the order the map
 * iterates them; serde_json's maps have unique keys, so the first member
 * with a key is its only one.
 */
module JsonValues {
  import opened Wrappers
  import opened Decimal

  /** serde_json renders every finite float with a fraction point or an exponent. */
  type FloatText = s: string | '.' in s || 'e' in s witness "0.0"

  datatype Json =
    | Null
    | Bool(b: bool)
    | Int(i: int)
    | Float(text: FloatText)
    | Str(s: string)
    | Array(items: seq<Json>)
    | Object(members: seq<(string, Json)>)

  /** The first member named `key`, if any. */
  function Find(members: seq<(string, Json)>, key: string): Option<Json> {
    if members == [] then None
    else if members[0].0 == key then Some(members[0].1)
    else Find(members[1..], key)
  }

  /** `Find` gives the first member with the key, and `None` exactly when there is none. */
  lemma {:induction false} FindSpec(members: seq<(string, Json)>, key: string)
    ensures Find(members, key).None? <==> forall i :: 0 <= i < |members| ==> members[i].0 != key
    ensures Find(members, key).Some? ==>
              exists i :: 0 <= i < |members| && members[i] == (key, Find(members, key).value) &&
                          forall k :: 0 <= k < i ==> members[k].0 != key
  {
    if members != [] && members[0].0 != key {
      FindSpec(members[1..], key);
      assert forall i :: 1 <= i < |members| ==> members[i] == members[1..][i - 1];
      if Find(members, key).Some? {
        var i :| 0 <= i < |members[1..]| && members[1..][i] == (key, Find(members, key).value) &&
                 forall k :: 0 <= k < i ==> members[1..][k].0 != key;
        assert members[i + 1] == (key, Find(members, key).value);
      }
    } else if members != [] {
      assert members[0] == (key, Find(members, key).value);
    }
  }

  /** `Value::get(key)`: the member of an object, `None` for a missing key or a value that is not an object. */
  function Member(j: Json, key: string): (r: Option<Json>)
    ensures !j.Object? ==> r.None?
    ensures j.Object? ==> r == Find(j.members, key)
  {
    if j.Object? then Find(j.members, key) else None
  }

  /** `value[key]`: the member of an object, `Null` for a missing key or a value that is not an object. */
  function At(j: Json, key: string): (r: Json)
    ensures r != Null ==> j.Object? && exists i :: 0 <= i < |j.members| && j.members[i] == (key, r)
    ensures j.Object? && Find(j.members, key).Some? ==> r == Find(j.members, key).value
    ensures (!j.Object? || forall i :: 0 <= i < |j.members| ==> j.members[i].0 != key) ==> r == Null
  {
    if j.Object? then
      FindSpec(j.members, key);
      match Find(j.members, key)
      case Some(v) => v
      case None => Null
    else Null
  }

  /** `Value::as_str`. */
  function AsStr(j: Json): (r: Option<string>)
    ensures r.Some? <==> j.Str?
    ensures r.Some? ==> j == Str(r.value)
  {
    if j.Str? then Some(j.s) else None
  }

  function JoinComma(parts: seq<string>): string {
    if parts == [] then "" else if |parts| == 1 then parts[0] else parts[0] + "," + JoinComma(parts[1..])
  }

  /** The escaped form of one character inside a JSON string. */
  function EscapeChar(c: char): string {
    var hex := "0123456789abcdef";
    if c == '"' then "\\\""
    else if c == '\\' then "\\\\"
    else if c == '\n' then "\\n"
    else if c == '\r' then "\\r"
    else if c == '\t' then "\\t"
    else if c as int == 0x08 then "\\b"
    else if c as int == 0x0c then "\\f"
    else if c as int < 0x20 then "\\u00" + [hex[c as int / 16], hex[c as int % 16]]
    else [c]
  }

  function Escape(s: string): string {
    if s == [] then "" else EscapeChar(s[0]) + Escape(s[1..])
  }

  function Quote(s: string): (r: string)
    ensures |r| > 0 && r[0] == '"'
  {
    "\"" + Escape(s) + "\""
  }

  /** `Value::to_string()`: the compact JSON text of a value. */
  function TextForm(j: Json): string {
    match j
    case Null => "null"
    case Bool(b) => if b then "true" else "false"
    case Int(i) => IntText(i)
    case Float(t) => t
    case Str(s) => Quote(s)
    case Array(items) =>
      "[" + JoinComma(seq(|items|, k requires 0 <= k < |items| => TextForm(items[k]))) + "]"
    case Object(members) =>
      "{" + JoinComma(seq(|members|, k requires 0 <= k < |members| =>
                            Quote(members[k].0) + ":" + TextForm(members[k].1))) + "}"
  }
}
