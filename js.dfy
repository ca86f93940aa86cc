/**
 * The slice of JavaScript semantics that the two auth pages rely on:
 * parsed JSON values, truthiness, `||` chains, optional property access,
 * `Object.values`, `String(value)` (what `new Error(v)` and
 * `Storage.setItem(k, v)` apply to their argument) and the outcome of a
 * `fetch` followed by `response.json()`.
 */
module Js {

  datatype Option<T> = None | Some(value: T)

  /** A parsed JSON value. `undefined` is never a JSON value; a missing
      property is `None` wherever an `Option<JsonValue>` appears. Object
      entries are listed in the order the body text gives them; a key the
      text repeats appears once per occurrence. */
  datatype JsonValue =
    | JNull
    | JBool(boolean: bool)
    | JNum(number: int)
    | JStr(str: string)
    | JArr(items: seq<JsonValue>)
    | JObj(entries: seq<(string, JsonValue)>)

  /** What `await fetch(...)` followed by `await response.json()` yields:
      a status flag (`response.ok`) with the parsed body, or a rejection
      (network failure, or a body that is not JSON) carrying the thrown
      error's `message`. */
  datatype FetchOutcome =
    | Responded(ok: bool, body: JsonValue)
    | Threw(message: string)

  /** JavaScript truthiness of a JSON value. */
  predicate IsTruthy(v: JsonValue) {
    match v
    case JNull => false
    case JBool(b) => b
    case JNum(n) => n != 0
    case JStr(s) => s != ""
    case JArr(_) => true
    case JObj(_) => true
  }

  /** Truthiness of a possibly-undefined value. */
  predicate Truthy(o: Option<JsonValue>) {
    o.Some? && IsTruthy(o.value)
  }

  // ---------------------------------------------------------------------
  // Number to string

  function DigitChar(d: nat): char
    requires d < 10
  {
    "0123456789"[d]
  }

  function DigitValue(c: char): nat {
    if '0' <= c <= '9' then c as int - '0' as int else 0
  }

  predicate IsDigit(c: char) {
    '0' <= c <= '9'
  }

  /** The decimal digits of `n`, most significant first, without leading zeros. */
  function DecimalText(n: nat): (s: string)
    ensures |s| > 0
    ensures forall i :: 0 <= i < |s| ==> IsDigit(s[i])
    ensures s[0] == '0' ==> n == 0 && s == "0"
  {
    if n < 10 then [DigitChar(n)] else DecimalText(n / 10) + [DigitChar(n % 10)]
  }

  /** Reads a string of decimal digits back as a number. */
  function DecimalValue(s: string): nat {
    if s == [] then 0 else DecimalValue(s[..|s| - 1]) * 10 + DigitValue(s[|s| - 1])
  }

  /** Reading back the digits of `n` gives `n`. */
  lemma {:induction false} DecimalRoundTrip(n: nat)
    ensures DecimalValue(DecimalText(n)) == n
  {
    if n >= 10 {
      var s := DecimalText(n);
      assert s[..|s| - 1] == DecimalText(n / 10);
      DecimalRoundTrip(n / 10);
    }
  }

  /** `String(n)` for an integral number. */
  function IntText(n: int): string {
    if n < 0 then "-" + DecimalText(-n) else DecimalText(n)
  }

  // ---------------------------------------------------------------------
  // String(value)

  /** `String(v)`: `Array.prototype.join(",")` for arrays (a `null` element
      contributes nothing), "[object Object]" for objects. */
  function Text(v: JsonValue): string
    decreases v, 1, 0
  {
    match v
    case JNull => "null"
    case JBool(b) => if b then "true" else "false"
    case JNum(n) => IntText(n)
    case JStr(s) => s
    case JArr(items) => JoinText(v, 0)
    case JObj(_) => "[object Object]"
  }

  /** The comma-joined rendering of the elements of array `v` from index `i` on. */
  function JoinText(v: JsonValue, i: nat): string
    requires v.JArr? && i <= |v.items|
    decreases v, 0, |v.items| - i
  {
    if i == |v.items| then ""
    else
      var item := v.items[i];
      var here := if item.JNull? then "" else Text(item);
      if i + 1 == |v.items| then here else here + "," + JoinText(v, i + 1)
  }

  /** `String(v)` where `v` may be `undefined`. */
  function TextOrUndefined(o: Option<JsonValue>): string {
    if o.Some? then Text(o.value) else "undefined"
  }

  /** Only an array can be truthy and still print as the empty string. */
  lemma TruthyTextNonEmpty(v: JsonValue)
    requires IsTruthy(v) && !v.JArr?
    ensures Text(v) != ""
  {
  }

  // ---------------------------------------------------------------------
  // Property access and Object.values

  /** The value under `key` among `entries`, if any. For a repeated key the
      last occurrence wins, as it does in `JSON.parse`. */
  function Lookup(entries: seq<(string, JsonValue)>, key: string): (r: Option<JsonValue>)
    ensures r.None? <==> forall i :: 0 <= i < |entries| ==> entries[i].0 != key
    ensures r.Some? ==> exists i :: 0 <= i < |entries| && entries[i] == (key, r.value)
  {
    if entries == [] then None
    else if entries[|entries| - 1].0 == key then Some(entries[|entries| - 1].1)
    else Lookup(entries[..|entries| - 1], key)
  }

  /** The last entry carrying `key` decides the lookup. */
  lemma {:induction false} LookupAt(entries: seq<(string, JsonValue)>, key: string, i: nat)
    requires i < |entries| && entries[i].0 == key
    requires forall j :: i < j < |entries| ==> entries[j].0 != key
    ensures Lookup(entries, key) == Some(entries[i].1)
  {
    if i < |entries| - 1 {
      LookupAt(entries[..|entries| - 1], key, i);
    }
  }

  /** The keys of `entries` are pairwise different, as in a parsed object. */
  predicate DistinctKeys(entries: seq<(string, JsonValue)>) {
    forall i, j :: 0 <= i < j < |entries| ==> entries[i].0 != entries[j].0
  }

  /** In an object with distinct keys, each key reads back its own value. */
  lemma PropOfDistinct(entries: seq<(string, JsonValue)>, i: nat)
    requires DistinctKeys(entries) && i < |entries|
    ensures Prop(JObj(entries), entries[i].0) == Some(entries[i].1)
  {
    LookupAt(entries, entries[i].0, i);
  }

  /** `v?.key` (and `v.key` on a non-null value): only objects carry the
      keys these pages read; anything else yields `undefined`. */
  function Prop(v: JsonValue, key: string): Option<JsonValue> {
    if v.JObj? then Lookup(v.entries, key) else None
  }

  /** The key list of an object value (empty for any other value): one key
      per entry, and a key is listed exactly when reading it gives a value. */
  function Keys(v: JsonValue): (ks: seq<string>)
    ensures v.JObj? ==> |ks| == |v.entries|
    ensures forall k :: k in ks <==> Prop(v, k).Some?
  {
    if v.JObj? then
      var ks := seq(|v.entries|, i requires 0 <= i < |v.entries| => v.entries[i].0);
      assert forall k :: k in ks <==> Prop(v, k).Some? by {
        forall k
          ensures k in ks <==> Prop(v, k).Some?
        {
          if Prop(v, k).Some? {
            var i :| 0 <= i < |v.entries| && v.entries[i].0 == k;
            assert ks[i] == k;
          }
        }
      }
      ks
    else []
  }

  /** `Object.values(v)`: the entry values of an object, the elements of an
      array, the one-character strings of a string; nothing for numbers and
      booleans. */
  function ObjectValues(v: JsonValue): (vs: seq<JsonValue>)
    requires !v.JNull?
    ensures v.JObj? ==> |vs| == |v.entries|
    ensures v.JObj? && DistinctKeys(v.entries) ==>
      forall i :: 0 <= i < |vs| ==> Prop(v, v.entries[i].0) == Some(vs[i])
    ensures v.JArr? ==> vs == v.items
    ensures v.JStr? ==> |vs| == |v.str| && forall i :: 0 <= i < |vs| ==> vs[i] == JStr([v.str[i]])
    ensures v.JNum? || v.JBool? ==> vs == []
  {
    if v.JObj? then
      var vs := seq(|v.entries|, i requires 0 <= i < |v.entries| => v.entries[i].1);
      assert DistinctKeys(v.entries) ==> forall i :: 0 <= i < |vs| ==> Prop(v, v.entries[i].0) == Some(vs[i]) by {
        if DistinctKeys(v.entries) {
          forall i | 0 <= i < |vs| {
            PropOfDistinct(v.entries, i);
          }
        }
      }
      vs
    else if v.JArr? then v.items
    else if v.JStr? then seq(|v.str|, i requires 0 <= i < |v.str| => JStr([v.str[i]]))
    else []
  }

  /** `Object.values(v || {})?.[0]`: the first value, or `undefined`. */
  function FirstValue(v: JsonValue): Option<JsonValue> {
    if !IsTruthy(v) then None
    else
      var vs := ObjectValues(v);
      if vs == [] then None else Some(vs[0])
  }

  // ---------------------------------------------------------------------
  // `||` chains

  /** `c0 || c1 || ... || fallback`: the first truthy candidate, else the fallback. */
  function FirstTruthy(cands: seq<Option<JsonValue>>, fallback: JsonValue): (r: JsonValue)
    ensures (forall i :: 0 <= i < |cands| ==> !Truthy(cands[i])) ==> r == fallback
    ensures forall i :: 0 <= i < |cands| && Truthy(cands[i]) && (forall j :: 0 <= j < i ==> !Truthy(cands[j]))
              ==> cands[i] == Some(r)
  {
    if cands == [] then fallback
    else if Truthy(cands[0]) then cands[0].value
    else FirstTruthy(cands[1..], fallback)
  }

  /** `a || b` on values read from a `Storage` (`getItem` gives a string or `null`). */
  function OrItem(a: Option<string>, b: Option<string>): Option<string> {
    if a.Some? && a.value != "" then a else b
  }

  /** `storage.getItem(key)`. */
  function GetItem(store: map<string, string>, key: string): Option<string> {
    if key in store then Some(store[key]) else None
  }
}
