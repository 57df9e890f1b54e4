/** An already-parsed JSON document, and the few JavaScript operations the import code applies
    to one: property access, the `typeof x === 'object'` test and `Object.entries`. */
module Json {
  import opened Wrappers
  import Text

  /** Numbers are integers here (floating point is not modelled). An object is a map from
      field name to value: `JSON.parse` never yields an object with a repeated key. */
  datatype Json =
    | JNull
    | JBool(b: bool)
    | JNum(n: int)
    | JStr(s: string)
    | JArr(items: seq<Json>)
    | JObj(fields: map<string, Json>)

  /** `v.key` when it is defined. Only objects carry the field names the application reads;
      on an array, string, number or boolean they are all `undefined`. */
  function Field(v: Json, key: string): (r: Option<Json>)
    ensures r.Some? <==> v.JObj? && key in v.fields
  {
    if v.JObj? && key in v.fields then Some(v.fields[key]) else None
  }

  /** `!!v && typeof v === 'object'`: true of objects and of arrays, not of null. */
  predicate IsObjectLike(v: Json) {
    v.JObj? || v.JArr?
  }

  /** `Object.entries(v)` as a map: an object's fields, or an array's elements under the
      numerals of their indices. */
  function Entries(v: Json): map<string, Json>
    requires IsObjectLike(v)
  {
    if v.JObj? then v.fields else IndexEntries(v.items)
  }

  /** The entries of an array: element `i` under the key `String(i)`. */
  function IndexEntries(items: seq<Json>): map<string, Json> {
    if items == [] then map[]
    else IndexEntries(items[..|items| - 1])[Text.NatToString(|items| - 1) := items[|items| - 1]]
  }

  /** Element `i` of an array is its entry under `String(i)`. */
  lemma {:induction false} IndexEntriesAt(items: seq<Json>, i: nat)
    requires i < |items|
    ensures Text.NatToString(i) in IndexEntries(items)
    ensures IndexEntries(items)[Text.NatToString(i)] == items[i]
  {
    var n := |items| - 1;
    if i < n {
      IndexEntriesAt(items[..n], i);
      Text.IntToStringInjective();
      assert Text.IntToString(i) == Text.NatToString(i) && Text.IntToString(n) == Text.NatToString(n);
    }
  }

  /** Every key of an array's entries is the numeral of one of its indices. */
  lemma {:induction false} IndexEntriesKey(items: seq<Json>, k: string) returns (i: nat)
    requires k in IndexEntries(items)
    ensures i < |items| && k == Text.NatToString(i)
  {
    var n := |items| - 1;
    if k == Text.NatToString(n) {
      i := n;
    } else {
      i := IndexEntriesKey(items[..n], k);
    }
  }
}
