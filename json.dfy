/**
 * The JSON values the habit tracker writes and reads back, and the pair of
 * conversions `JSON.stringify` / `JSON.parse` between them and stored text.
 *
 * The text grammar is not modelled: a `Codec` is any pair of conversions, and
 * what the storage layer relies on is stated as the hypothesis `RoundTrips`.
 */
module Json {
  import opened Wrappers

  /** A parsed JSON value. Numbers are integers in this model. */
  datatype Value =
    | Null
    | Bool(b: bool)
    | Num(n: int)
    | Str(s: string)
    | Arr(items: seq<Value>)
    | Obj(fields: seq<(string, Value)>)

  /**
   * JavaScript truthiness of a parsed value, as tested by `if (x)` and `!x`:
   * the falsy values are exactly null, false, 0 and the empty string.
   */
  predicate Truthy(v: Value)
    ensures Truthy(v) <==> v != Null && v != Bool(false) && v != Num(0) && v != Str("")
  {
    match v
    case Null => false
    case Bool(b) => b
    case Num(n) => n != 0
    case Str(s) => s != ""
    case Arr(_) => true
    case Obj(_) => true
  }

  /** A key that a JavaScript object would reorder ahead of the others (an array index). */
  predicate IsIndexKey(k: string) {
    k != [] && forall i :: 0 <= i < |k| ==> '0' <= k[i] <= '9'
  }

  /**
   * Values that a JavaScript object graph can represent faithfully: object keys
   * are pairwise distinct and none is an index key, so insertion order survives.
   */
  ghost predicate WellFormed(v: Value) {
    match v
    case Arr(items) => forall i :: 0 <= i < |items| ==> WellFormed(items[i])
    case Obj(fields) =>
      && (forall i, j :: 0 <= i < j < |fields| ==> fields[i].0 != fields[j].0)
      && (forall i :: 0 <= i < |fields| ==> !IsIndexKey(fields[i].0) && WellFormed(fields[i].1))
    case _ => true
  }

  /** An object whose keys are distinct, start with a non-digit, and whose values are not containers, is well formed. */
  lemma FlatObjectWellFormed(fields: seq<(string, Value)>)
    requires forall i, j :: 0 <= i < j < |fields| ==> fields[i].0 != fields[j].0
    requires forall i :: 0 <= i < |fields| ==> fields[i].0 != [] && !('0' <= fields[i].0[0] <= '9')
    requires forall i :: 0 <= i < |fields| ==> !fields[i].1.Arr? && !fields[i].1.Obj?
    ensures WellFormed(Obj(fields))
  {
  }

  /**
   * The value an object holds under `name`, as property access reads it: the
   * first field with that key, or None when the key is absent.
   */
  function FieldOf(fields: seq<(string, Value)>, name: string): (r: Option<Value>)
    ensures r.None? <==> forall i :: 0 <= i < |fields| ==> fields[i].0 != name
    ensures r.Some? ==> exists i :: 0 <= i < |fields| && fields[i] == (name, r.value)
                                   && forall j :: 0 <= j < i ==> fields[j].0 != name
  {
    if fields == [] then None
    else if fields[0].0 == name then Some(fields[0].1)
    else
      var rest := FieldOf(fields[1..], name);
      if rest.Some? then
        var i :| 0 <= i < |fields| - 1 && fields[1..][i] == (name, rest.value)
                 && forall j :: 0 <= j < i ==> fields[1..][j].0 != name;
        assert fields[i + 1] == (name, rest.value);
        assert forall j :: 0 <= j < i + 1 ==> fields[j].0 != name by {
          forall j | 0 <= j < i + 1 ensures fields[j].0 != name {
            if j > 0 { assert fields[j] == fields[1..][j - 1]; }
          }
        }
        rest
      else rest
  }

  /** With pairwise distinct keys, each field is what a lookup of its key finds. */
  lemma FieldOfDistinctKeys(fields: seq<(string, Value)>, i: nat)
    requires i < |fields|
    requires forall p, q :: 0 <= p < q < |fields| ==> fields[p].0 != fields[q].0
    ensures FieldOf(fields, fields[i].0) == Some(fields[i].1)
  {
  }

  /** `JSON.stringify` and `JSON.parse`; `parse` answers None where `JSON.parse` throws. */
  datatype Codec = Codec(stringify: Value -> string, parse: string -> Option<Value>)

  /**
   * What the storage layer assumes of JSON: stringifying a representable value
   * gives non-empty text, and parsing that text gives the value back.
   */
  ghost predicate RoundTrips(json: Codec) {
    forall v :: WellFormed(v) ==> json.stringify(v) != "" && json.parse(json.stringify(v)) == Some(v)
  }
}
