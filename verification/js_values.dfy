/** Parsed JSON values as the listings code sees them, with the pieces of JavaScript
    semantics it relies on: truthiness, `a || b || …` chains, property reads, strict
    equality, ASCII lower-casing and substring search. */
module JsValues {
  import opened Common
  import opened Sequences

  /** A parsed JSON value. Numbers are exact reals (no rounding, no NaN, as JSON has none);
      object entries are listed in `Object.keys` order. Repeated keys, which `JSON.parse`
      collapses to the last one, are not excluded. */
  datatype Json =
    | JNull
    | JBool(b: bool)
    | JNum(n: real)
    | JStr(s: string)
    | JArr(items: seq<Json>)
    | JObj(entries: seq<Field>)

  datatype Field = Field(key: string, val: Json)

  /** JavaScript truthiness of a read value; `None` stands for `undefined`. */
  predicate Truthy(v: Option<Json>) {
    match v
    case None => false
    case Some(JNull) => false
    case Some(JBool(b)) => b
    case Some(JNum(n)) => n != 0.0
    case Some(JStr(s)) => s != ""
    case Some(_) => true
  }

  /** The value stored under `key` among an object's entries. */
  function Lookup(entries: seq<Field>, key: string): (r: Option<Json>)
    ensures r.Some? ==> Field(key, r.value) in entries
  {
    if entries == [] then None
    else if entries[0].key == key then Some(entries[0].val)
    else Lookup(entries[1..], key)
  }

  /** `v[key]`: an own field of an object; every other JSON value reads as `undefined`
      for the field names this code uses. */
  function Get(v: Json, key: string): Option<Json> {
    match v
    case JObj(entries) => Lookup(entries, key)
    case _ => None
  }

  /** `Object.keys(v)` as far as named fields go: an object's keys in order. Arrays and strings
      only have index keys, which never contain a letter, so they contribute none. */
  function Keys(v: Json): seq<string> {
    match v
    case JObj(entries) =>
      seq(|entries|, i requires 0 <= i < |entries| => entries[i].key)
    case _ => []
  }

  /** `cs[0] || cs[1] || … || last`: the first truthy operand, else the last one. */
  function FirstTruthy(cs: seq<Option<Json>>, last: Json): (r: Json)
    ensures (forall i :: 0 <= i < |cs| ==> !Truthy(cs[i])) ==> r == last
    ensures forall i :: 0 <= i < |cs| && Truthy(cs[i]) && (forall j :: 0 <= j < i ==> !Truthy(cs[j]))
                        ==> cs[i] == Some(r)
    ensures Truthy(Some(r)) || r == last
  {
    match FindFirst(cs, Truthy)
    case None => last
    case Some(i) => cs[i].value
  }

  /** Values `===` can find equal to another freshly parsed value: arrays and objects
      are compared by reference, so a parsed one equals nothing else. */
  predicate IsPrimitive(v: Json) {
    !v.JArr? && !v.JObj?
  }

  /** JavaScript `a === b` between two independently parsed values. */
  predicate StrictEq(a: Json, b: Json) {
    IsPrimitive(a) && a == b
  }

  /** `String.prototype.toLowerCase` on one character, for the ASCII letters. */
  function LowerChar(c: char): char {
    if 'A' <= c <= 'Z' then (c as int + 32) as char else c
  }

  /** `String.prototype.toLowerCase`, for the ASCII letters. */
  function ToLower(s: string): (r: string)
    ensures |r| == |s|
    ensures forall i :: 0 <= i < |s| ==> r[i] == LowerChar(s[i])
  {
    seq(|s|, i requires 0 <= i < |s| => LowerChar(s[i]))
  }

  /** Lower-casing twice changes nothing more. */
  lemma ToLowerIdempotent(s: string)
    ensures ToLower(ToLower(s)) == ToLower(s)
  {
  }

  /** `sub` occurs in `s` starting at position `i`. */
  predicate OccursAt(s: string, sub: string, i: int) {
    0 <= i <= |s| - |sub| && s[i..i + |sub|] == sub
  }

  /** `s.includes(sub)`. */
  predicate Contains(s: string, sub: string) {
    exists i :: 0 <= i <= |s| && OccursAt(s, sub, i)
  }

  /** A string containing `sub` contains every character of `sub`. */
  lemma ContainsChar(s: string, sub: string, k: nat)
    requires Contains(s, sub) && k < |sub|
    ensures sub[k] in s
  {
    var i :| 0 <= i <= |s| && OccursAt(s, sub, i);
    assert s[i + k] == sub[k];
  }

  /** A string containing `sub` contains every prefix of `sub`. */
  lemma ContainsPrefix(s: string, sub: string, n: nat)
    requires Contains(s, sub) && n <= |sub|
    ensures Contains(s, sub[..n])
  {
    var i :| 0 <= i <= |s| && OccursAt(s, sub, i);
    assert s[i..i + n] == sub[..n];
    assert OccursAt(s, sub[..n], i);
  }

  /** Decimal digits of a natural number, as `String(n)` writes it. */
  function NatToString(n: nat): (r: string)
    ensures |r| > 0
    ensures forall i :: 0 <= i < |r| ==> '0' <= r[i] <= '9'
  {
    var digit := ['0' + (n % 10) as char];
    if n < 10 then digit else NatToString(n / 10) + digit
  }
}
