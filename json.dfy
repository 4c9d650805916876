/** JSON-like values as JavaScript sees them after `JSON.parse`, with JavaScript's truthiness and `String()`. */
module Json {
  import opened Text

  /**
   * A JavaScript value of the kinds `JSON.parse` produces, plus `undefined` for a missing property.
   * Numbers are integers. An object lists its members in the order `Object.entries` enumerates them,
   * each key once.
   */
  datatype Json =
    | Undefined
    | Null
    | Bool(b: bool)
    | Number(n: int)
    | Str(s: string)
    | Arr(items: seq<Json>)
    | Obj(members: seq<(string, Json)>)

  /** JavaScript truthiness: `undefined`, `null`, `false`, `0` and `""` are falsy, everything else is truthy. */
  predicate Truthy(v: Json) {
    match v
    case Undefined => false
    case Null => false
    case Bool(b) => b
    case Number(n) => n != 0
    case Str(s) => s != ""
    case Arr(_) => true
    case Obj(_) => true
  }

  /** `v == null` in JavaScript (loose equality): null or undefined. */
  predicate IsNullish(v: Json) {
    v.Undefined? || v.Null?
  }

  /** `obj[key]`: the member's value, or `undefined` when the object has no such member. */
  function Lookup(members: seq<(string, Json)>, key: string): (v: Json)
    ensures v != Undefined ==> exists i :: 0 <= i < |members| && members[i] == (key, v)
    ensures (forall i :: 0 <= i < |members| ==> members[i].0 != key) ==> v == Undefined
  {
    if |members| == 0 then Undefined
    else if members[0].0 == key then members[0].1
    else Lookup(members[1..], key)
  }

  /** `v[key]` on a value read from the settings store: an object's member, `undefined` for anything else. */
  function Property(v: Json, key: string): (r: Json)
    ensures !v.Obj? ==> r == Undefined
  {
    if v.Obj? then Lookup(v.members, key) else Undefined
  }

  /** `obj[key] = value`: an existing member keeps its place, a new one is appended. */
  function Assign(members: seq<(string, Json)>, key: string, value: Json): (r: seq<(string, Json)>)
    ensures Lookup(r, key) == value || (value == Undefined && Lookup(r, key) == Undefined)
    ensures forall k :: k != key ==> Lookup(r, k) == Lookup(members, k)
  {
    if |members| == 0 then [(key, value)]
    else if members[0].0 == key then [(key, value)] + members[1..]
    else [members[0]] + Assign(members[1..], key, value)
  }

  /** `String(v)`: how JavaScript turns a value into text (template literals, `join`, `String`). */
  function ToText(v: Json): string
    decreases v, 1
  {
    match v
    case Undefined => "undefined"
    case Null => "null"
    case Bool(b) => if b then "true" else "false"
    case Number(n) => IntToString(n)
    case Str(s) => s
    case Arr(items) => Join(seq(|items|, i requires 0 <= i < |items| => ElementText(items[i])), ",")
    case Obj(_) => "[object Object]"
  }

  /** How `Array.prototype.join` renders one element: null and undefined become empty text. */
  function ElementText(v: Json): string
    decreases v, 2
  {
    if IsNullish(v) then "" else ToText(v)
  }
}
