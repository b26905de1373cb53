/**
 * A small JSON value type: what `JSON.parse` yields and what the handler
 * sends back. Numbers are integers (fractions are not modelled); an object
 * is a map from keys to values, so the last of duplicate keys wins, as in
 * `JSON.parse`.
 */
module Json {
  import opened Wrappers
  import Text

  datatype Value =
    | Null
    | Bool(b: bool)
    | Num(n: int)
    | Str(s: string)
    | Arr(items: seq<Value>)
    | Obj(fields: map<string, Value>)

  /** `typeof v === "object"` for a truthy `v`: objects and arrays pass,
      `null` and every primitive fail. */
  predicate IsObjectLike(v: Value)
  {
    v.Obj? || v.Arr?
  }

  /** The property access `v[key]`: defined only for an object holding the
      key; on arrays and primitives it is `undefined`. */
  function Field(v: Value, key: string): (r: Option<Value>)
    ensures r.Some? <==> v.Obj? && key in v.fields
    ensures r.Some? ==> r.value == v.fields[key]
  {
    if v.Obj? && key in v.fields then Some(v.fields[key]) else None
  }

  /** `String(v)`, the coercion the page applies to `data.error`. */
  function ToJsString(v: Value): (r: string)
    ensures v.Str? ==> r == v.s
    ensures v.Null? ==> r == "null"
    ensures v.Obj? ==> r == "[object Object]"
    ensures v.Bool? ==> r == (if v.b then "true" else "false")
    ensures v.Num? ==> r == Text.IntToString(v.n)
    ensures v.Arr? ==> r == ElementsToJsString(v.items)
  {
    match v
    case Null => "null"
    case Bool(b) => if b then "true" else "false"
    case Num(n) => Text.IntToString(n)
    case Str(s) => s
    case Obj(_) => "[object Object]"
    case Arr(items) => ElementsToJsString(items)
  }

  /** `String(array)`: the elements joined with commas, `null` ones empty. */
  function ElementsToJsString(items: seq<Value>): (r: string)
    ensures items == [] ==> r == ""
    decreases items
  {
    if |items| == 0 then ""
    else
      var first := if items[0].Null? then "" else ToJsString(items[0]);
      if |items| == 1 then first else first + "," + ElementsToJsString(items[1..])
  }

  /** An array of strings as values. */
  function StrValues(xs: seq<string>): (r: seq<Value>)
    ensures |r| == |xs| && forall i :: 0 <= i < |xs| ==> r[i] == Str(xs[i])
  {
    if xs == [] then [] else [Str(xs[0])] + StrValues(xs[1..])
  }

  /** `String` of an array of strings is their comma join. */
  lemma {:induction false} StringOfStrings(xs: seq<string>)
    ensures ElementsToJsString(StrValues(xs)) == Text.Join(xs, ",")
  {
    if |xs| > 1 {
      StringOfStrings(xs[1..]);
      assert StrValues(xs)[1..] == StrValues(xs[1..]);
    }
  }
}
