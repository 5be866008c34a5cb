/** JSON values as the client handles them after `JSON.parse`, JavaScript
    truthiness on them, and the recursive string coercion the command
    builder applies to parsed filter parameters.

    A number is carried as the text `String(n)` gives for it, the only thing
    the client ever does with a number; this keeps floating point out of the
    model. Objects keep their entries in order. */
module Json {
  import opened Base
  import OrderedMap

  datatype Json =
    | JNull
    | JBool(b: bool)
    | JNum(repr: string)
    | JStr(s: string)
    | JArr(items: seq<Json>)
    | JObj(fields: seq<(string, Json)>)

  /** `JSON.parse`, `JSON.stringify(v)` and `JSON.stringify(v, null, 2)`,
      which the model does not implement: `parse` gives the value or the
      message of the SyntaxError it throws. */
  datatype Codec = Codec(
    parse: string -> Result<Json, string>,
    stringify: Json -> string,
    stringifyIndented: Json -> string)

  /** `JSON.parse(text)`: text that is blank holds no JSON value, so it never
      parses, whatever the rest of the parser does. */
  function ParseJson(codec: Codec, text: string): (r: Result<Json, string>)
    ensures IsBlank(text) ==> r.Err?
    ensures !IsBlank(text) ==> r == codec.parse(text)
  {
    if IsBlank(text) then Err("Unexpected end of JSON input") else codec.parse(text)
  }

  /** JavaScript truthiness; `String(n)` is "0" for both zeros, and NaN is
      not a JSON value. */
  predicate Truthy(j: Json)
  {
    match j
    case JNull => false
    case JBool(b) => b
    case JNum(repr) => repr != "0"
    case JStr(s) => s != ""
    case _ => true
  }

  /** `typeof j === "object" && j !== null`. */
  predicate IsObjectValue(j: Json)
  {
    j.JArr? || j.JObj?
  }

  /** The property read `j.key`; `None` is `undefined`. Arrays, strings and
      the other primitives have none of the keys the client reads. */
  function Prop(j: Json, key: string): Option<Json>
  {
    if j.JObj? then OrderedMap.Lookup(j.fields, key) else None
  }

  /** `String(j)` for a value that is not an array or a non-null object. */
  function LeafString(j: Json): string
  {
    match j
    case JNull => "null"
    case JBool(b) => if b then "true" else "false"
    case JNum(repr) => repr
    case JStr(s) => s
    case _ => ""
  }

  /** Every leaf is a string: the shape the wire format requires of a
      filter parameter. */
  predicate StringLeaves(j: Json)
  {
    match j
    case JStr(_) => true
    case JArr(items) => forall i :: 0 <= i < |items| ==> StringLeaves(items[i])
    case JObj(fields) => forall i :: 0 <= i < |fields| ==> StringLeaves(fields[i].1)
    case _ => false
  }

  /** `convertToStringValues`: arrays keep their length, objects their keys
      in order, and every other value becomes its string form. */
  function ToStringValues(j: Json): (r: Json)
    ensures StringLeaves(r)
    ensures j.JArr? <==> r.JArr?
    ensures j.JArr? ==> |r.items| == |j.items|
    ensures j.JObj? <==> r.JObj?
    ensures j.JObj? ==> OrderedMap.Keys(r.fields) == OrderedMap.Keys(j.fields)
    ensures !IsObjectValue(j) ==> r == JStr(LeafString(j))
  {
    match j
    case JArr(items) =>
      JArr(seq(|items|, i requires 0 <= i < |items| => ToStringValues(items[i])))
    case JObj(fields) =>
      JObj(seq(|fields|, i requires 0 <= i < |fields| => (fields[i].0, ToStringValues(fields[i].1))))
    case _ => JStr(LeafString(j))
  }

  /** A value whose leaves are all strings is left as it is. */
  lemma {:induction false} StringLeavesUnchanged(j: Json)
    requires StringLeaves(j)
    ensures ToStringValues(j) == j
  {
    match j
    case JStr(_) =>
    case JArr(items) =>
      var r := ToStringValues(j);
      forall i | 0 <= i < |items| ensures r.items[i] == items[i] {
        StringLeavesUnchanged(items[i]);
      }
      assert r.items == items;
    case JObj(fields) =>
      var r := ToStringValues(j);
      forall i | 0 <= i < |fields| ensures r.fields[i] == fields[i] {
        StringLeavesUnchanged(fields[i].1);
      }
      assert r.fields == fields;
  }

  /** Coercing twice is coercing once. */
  lemma ToStringValuesIdempotent(j: Json)
    ensures ToStringValues(ToStringValues(j)) == ToStringValues(j)
  {
    StringLeavesUnchanged(ToStringValues(j));
  }
}
