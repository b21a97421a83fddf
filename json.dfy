/**
 * The JSON values the client receives from its server, with the few
 * JavaScript readings of them that the client relies on: truthiness,
 * property lookup, property assignment, `delete` and object spread.
 * An object is its list of members in insertion order; a well-formed
 * object has distinct keys, and every operation here reads or writes the
 * first member carrying a key.
 */
module JsonValue {
  import opened Common

  datatype Json =
    | JNull
    | JBool(b: bool)
    | JNum(n: real)
    | JStr(s: string)
    | JArr(items: seq<Json>)
    | JObj(fields: seq<Field>)

  datatype Field = Field(key: string, value: Json)

  /** JavaScript truthiness: null, false, 0 and "" are falsy; arrays and objects, even empty ones, are truthy. */
  predicate Truthy(j: Json)
  {
    match j
    case JNull => false
    case JBool(b) => b
    case JNum(n) => n != 0.0
    case JStr(s) => s != ""
    case _ => true
  }

  /** A property read through `?.` or on a value that may be `undefined`: absent values are falsy. */
  predicate TruthyAt(v: Option<Json>)
  {
    v.Some? && Truthy(v.value)
  }

  /** `typeof v === 'object' && v !== null`. */
  predicate IsObjectLike(j: Json)
  {
    j.JArr? || j.JObj?
  }

  function Keys(fs: seq<Field>): (r: seq<string>)
    ensures |r| == |fs| && forall i :: 0 <= i < |fs| ==> r[i] == fs[i].key
  {
    if fs == [] then [] else [fs[0].key] + Keys(fs[1..])
  }

  /** Position of the first member named `k`, or |fs| when there is none. */
  function KeyIndex(fs: seq<Field>, k: string): (i: nat)
    ensures i <= |fs|
    ensures i < |fs| ==> fs[i].key == k
    ensures forall j :: 0 <= j < i ==> fs[j].key != k
  {
    if fs == [] then 0 else if fs[0].key == k then 0 else 1 + KeyIndex(fs[1..], k)
  }

  /** `obj[k]` on an object with members `fs` (None is `undefined`). */
  function Lookup(fs: seq<Field>, k: string): (r: Option<Json>)
    ensures r.Some? <==> KeyIndex(fs, k) < |fs|
    ensures r.Some? ==> r.value == fs[KeyIndex(fs, k)].value
  {
    if fs == [] then None else if fs[0].key == k then Some(fs[0].value) else Lookup(fs[1..], k)
  }

  /** `j.k`: properties of anything but an object read as `undefined`. */
  function Get(j: Json, k: string): Option<Json>
  {
    if j.JObj? then Lookup(j.fields, k) else None
  }

  /** Objects whose members are named alike, in the same order, find every key at the same place. */
  lemma {:induction false} KeyIndexSameKeys(fs: seq<Field>, gs: seq<Field>, k: string)
    requires |fs| == |gs| && forall i :: 0 <= i < |fs| ==> fs[i].key == gs[i].key
    ensures KeyIndex(fs, k) == KeyIndex(gs, k)
  {
    if fs != [] && fs[0].key != k {
      KeyIndexSameKeys(fs[1..], gs[1..], k);
    }
  }

  /** `obj[k] = v`: overwrite the member in place, or append a new one at the end. */
  function Put(fs: seq<Field>, k: string, v: Json): (r: seq<Field>)
    ensures Lookup(r, k) == Some(v)
    ensures forall k' :: k' != k ==> Lookup(r, k') == Lookup(fs, k')
    ensures forall i :: 0 <= i < |r| ==> r[i] in fs || r[i] == Field(k, v)
  {
    if fs == [] then [Field(k, v)]
    else if fs[0].key == k then
      var r := [Field(k, v)] + fs[1..];
      assert r[1..] == fs[1..];
      r
    else
      var r := [fs[0]] + Put(fs[1..], k, v);
      assert r[0] == fs[0] && r[1..] == Put(fs[1..], k, v);
      r
  }

  /** `delete obj[k]`: every member named `k` goes, the others keep their order. */
  function Remove(fs: seq<Field>, k: string): (r: seq<Field>)
    ensures Lookup(r, k) == None
    ensures forall k' :: k' != k ==> Lookup(r, k') == Lookup(fs, k')
    ensures forall i :: 0 <= i < |r| ==> r[i] in fs
  {
    if fs == [] then []
    else if fs[0].key == k then Remove(fs[1..], k)
    else
      var r := [fs[0]] + Remove(fs[1..], k);
      assert r[0] == fs[0] && r[1..] == Remove(fs[1..], k);
      r
  }

  /**
   * The members `{...j}` copies: an object's own members, an array's
   * elements under their indices, a string's characters under theirs,
   * nothing for the other values.
   */
  function OwnMembers(j: Json): seq<Field>
  {
    match j
    case JObj(fs) => fs
    case JArr(items) => seq(|items|, i requires 0 <= i < |items| => Field(NatText(i), items[i]))
    case JStr(s) => seq(|s|, i requires 0 <= i < |s| => Field(NatText(i), JStr([s[i]])))
    case _ => []
  }

  /**
   * `{...j, k: v}`: an object in which `k` reads `v` and every other key
   * reads what it read in `j`'s own members; spreading an object keeps
   * its members, and spreading null, a boolean or a number gives `{k: v}`.
   */
  function SpreadWith(j: Json, k: string, v: Json): (r: Json)
    ensures r.JObj?
    ensures Lookup(r.fields, k) == Some(v)
    ensures forall k' :: k' != k ==> Lookup(r.fields, k') == Lookup(OwnMembers(j), k')
    ensures j.JObj? ==> forall k' :: k' != k ==> Get(r, k') == Get(j, k')
    ensures j.JNull? || j.JBool? || j.JNum? ==> r == JObj([Field(k, v)])
  {
    JObj(Put(OwnMembers(j), k, v))
  }

  /** `v || fallback` for a field the server sends as a string; a value of another type reads as absent. */
  function TextOr(v: Option<Json>, fallback: string): string
  {
    if v.Some? && v.value.JStr? && v.value.s != "" then v.value.s else fallback
  }
}
