/** The JSON values the system passes around (`serde_json::Value`), the accessors it uses
    (`get`, `as_str`, `as_u64`) and their text form (`to_string`). */
module Json {
  import opened Errors
  import opened Text

  /** A JSON number: an integer, or a floating-point number kept as its own rendering. */
  datatype Number = Int(i: int) | Float(text: string)

  /** An object is its list of members, in the order the object iterates them. */
  datatype Json =
    | Null
    | Bool(b: bool)
    | Num(n: Number)
    | Str(s: string)
    | Arr(items: seq<Json>)
    | Obj(members: seq<(string, Json)>)

  const U64Max: int := 0xFFFF_FFFF_FFFF_FFFF

  /** The value of the first member of `ms` named `key`. */
  function Lookup(ms: seq<(string, Json)>, key: string): (r: Option<Json>)
    ensures r.Some? <==> exists i :: 0 <= i < |ms| && ms[i].0 == key
    ensures r.Some? ==> exists i :: 0 <= i < |ms| && ms[i] == (key, r.value)
  {
    if ms == [] then None
    else if ms[0].0 == key then Some(ms[0].1)
    else
      var r := Lookup(ms[1..], key);
      assert forall i :: 1 <= i < |ms| ==> ms[i] == ms[1..][i - 1];
      r
  }

  /** The member found is the first one with that key. */
  lemma {:induction false} LookupAt(ms: seq<(string, Json)>, i: nat, key: string)
    requires i < |ms| && ms[i].0 == key
    requires forall j :: 0 <= j < i ==> ms[j].0 != key
    ensures Lookup(ms, key) == Some(ms[i].1)
  {
    if i > 0 {
      LookupAt(ms[1..], i - 1, key);
    }
  }

  /** No two members share a key, as in every object `serde_json` builds. */
  predicate UniqueKeys(ms: seq<(string, Json)>) {
    forall i, j :: 0 <= i < j < |ms| ==> ms[i].0 != ms[j].0
  }

  /** With unique keys, a member's key finds that member. */
  lemma LookupMember(ms: seq<(string, Json)>, key: string, v: Json)
    requires UniqueKeys(ms) && (key, v) in ms
    ensures Lookup(ms, key) == Some(v)
  {
    var i :| 0 <= i < |ms| && ms[i] == (key, v);
    LookupAt(ms, i, key);
  }

  /** With unique keys, lookups do not depend on the order of the members: two listings of
      the same members find the same values. */
  lemma LookupOrderFree(ms: seq<(string, Json)>, ms': seq<(string, Json)>, key: string)
    requires UniqueKeys(ms) && UniqueKeys(ms')
    requires forall m :: m in ms <==> m in ms'
    ensures Lookup(ms, key) == Lookup(ms', key)
  {
    if Lookup(ms, key).Some? {
      LookupMember(ms', key, Lookup(ms, key).value);
    }
    if Lookup(ms', key).Some? {
      LookupMember(ms, key, Lookup(ms', key).value);
    }
  }

  /** `Value::get(key)`: a member of an object; nothing for any other value. */
  function Get(v: Json, key: string): Option<Json> {
    if v.Obj? then Lookup(v.members, key) else None
  }

  /** `Value::as_str`. */
  function AsStr(v: Json): Option<string> {
    if v.Str? then Some(v.s) else None
  }

  /** `Value::as_u64`: an integer that fits in 64 unsigned bits. */
  function AsU64(v: Json): (r: Option<nat>)
    ensures r.Some? ==> r.value <= U64Max
  {
    if v.Num? && v.n.Int? && 0 <= v.n.i <= U64Max then Some(v.n.i) else None
  }

  /** The text of a number (`Number`'s `Display`, which is also its JSON form). */
  function NumberText(n: Number): string {
    match n
    case Int(i) => IntToString(i)
    case Float(text) => text
  }

  function BoolText(b: bool): string { if b then "true" else "false" }

  /** The JSON escape of one character inside a string literal, as serde_json writes it:
      the two-character escapes for quote, backslash, \b, \t, \n, \f and \r, `\u00XX`
      with lower-case hex for the other control characters, the character itself otherwise. */
  function EscapeChar(c: char): string {
    if c == '"' then "\\\""
    else if c == '\\' then "\\\\"
    else if c == '\n' then "\\n"
    else if c == '\r' then "\\r"
    else if c == '\t' then "\\t"
    else if c as int == 0x08 then "\\b"
    else if c as int == 0x0C then "\\f"
    else if c as int < 0x20 then "\\u00" + [HexDigits[c as int / 16], HexDigits[c as int % 16]]
    else [c]
  }

  function Escape(s: string): string {
    if s == [] then "" else EscapeChar(s[0]) + Escape(s[1..])
  }

  /** `serde_json::to_string`: compact JSON text, members in the object's order. */
  function Serialize(v: Json): string
    decreases v
  {
    match v
    case Null => "null"
    case Bool(b) => BoolText(b)
    case Num(n) => NumberText(n)
    case Str(s) => "\"" + Escape(s) + "\""
    case Arr(items) =>
      "[" + Join(seq(|items|, i requires 0 <= i < |items| => Serialize(items[i])), ",") + "]"
    case Obj(ms) =>
      "{" + Join(seq(|ms|, i requires 0 <= i < |ms| =>
                   "\"" + Escape(ms[i].0) + "\":" + Serialize(ms[i].1)), ",") + "}"
  }

  /** `body[key] = value` on an object: replaces the member named `key`, or adds it at the end. */
  function SetMember(ms: seq<(string, Json)>, key: string, value: Json): (r: seq<(string, Json)>)
    ensures Lookup(r, key) == Some(value)
    ensures forall k :: k != key ==> Lookup(r, k) == Lookup(ms, k)
  {
    if ms == [] then [(key, value)]
    else if ms[0].0 == key then [(key, value)] + ms[1..]
    else [ms[0]] + SetMember(ms[1..], key, value)
  }
}
