/**
 * The JavaScript reading of a parsed JSON document, as the Kafka handlers and the result
 * pulls use it: reading a property (`v.name`), truthiness (`if (v)`), strict equality with a
 * string (`v.name === s`) and the text a template literal makes of a value (`${v.name}`).
 */
module JsValues {
  import opened Wrappers
  import opened Json
  import Decimal

  /** The value of the last field called `name` (`None` is `undefined`): `JSON.parse` keeps the
      last of repeated property names. */
  function Lookup(fields: seq<(string, Json)>, name: string): Option<Json>
    decreases |fields|
  {
    if |fields| == 0 then None
    else if fields[|fields| - 1].0 == name then Some(fields[|fields| - 1].1)
    else Lookup(fields[..|fields| - 1], name)
  }

  /** The last field with the name is the one read. */
  lemma {:induction false} LookupAt(fields: seq<(string, Json)>, name: string, k: nat)
    requires k < |fields| && fields[k].0 == name
    requires forall i :: k < i < |fields| ==> fields[i].0 != name
    ensures Lookup(fields, name) == Some(fields[k].1)
    decreases |fields| - k
  {
    if k < |fields| - 1 {
      LookupAt(fields[..|fields| - 1], name, k);
    }
  }

  /** A name no field carries reads as `undefined`. */
  lemma {:induction false} LookupAbsent(fields: seq<(string, Json)>, name: string)
    requires forall i :: 0 <= i < |fields| ==> fields[i].0 != name
    ensures Lookup(fields, name) == None
    decreases |fields|
  {
    if |fields| > 0 {
      LookupAbsent(fields[..|fields| - 1], name);
    }
  }

  /** `v.name` on a value that is not `null`: only an object has the properties the service reads. */
  function Prop(v: Json, name: string): (r: Option<Json>)
    ensures r.Some? ==> v.JObj?
  {
    if v.JObj? then Lookup(v.fields, name) else None
  }

  /** JavaScript truthiness of a parsed value: `null`, `false`, `0` and `""` are falsy. A serialized
      document is never the empty text. */
  predicate JsTruthy(v: Json) {
    match v
    case JNull => false
    case JBool(b) => b
    case JNum(n) => n != 0
    case JStr(t) => t != Chars("")
    case JArr(_) => true
    case JObj(_) => true
  }

  /** `p === s` for a property and a string: only a string property with exactly those characters. */
  predicate IsString(codec: JsonCodec, p: Option<Json>, s: string) {
    p.Some? && p.value.JStr? && TextChars(codec, p.value.text) == s
  }

  /** `parts.join(sep)`. */
  function Join(parts: seq<string>, sep: string): string
    decreases |parts|
  {
    if |parts| == 0 then ""
    else if |parts| == 1 then parts[0]
    else Join(parts[..|parts| - 1], sep) + sep + parts[|parts| - 1]
  }

  /** `String(v)`: the text a template literal makes of a parsed value. An array joins its elements
      with commas, a `null` element giving the empty text; any object gives `[object Object]`. */
  function JsString(codec: JsonCodec, v: Json): string
    decreases v
  {
    match v
    case JNull => "null"
    case JBool(b) => if b then "true" else "false"
    case JNum(n) => Decimal.IntToString(n)
    case JStr(t) => TextChars(codec, t)
    case JArr(items) =>
      Join(seq(|items|, k requires 0 <= k < |items| => if items[k].JNull? then "" else JsString(codec, items[k])), ",")
    case JObj(_) => "[object Object]"
  }

  /** `${v.name}`: an absent property gives the text `undefined`. */
  function PropText(codec: JsonCodec, v: Json, name: string): (s: string)
    ensures Prop(v, name).None? ==> s == "undefined"
    ensures IsString(codec, Prop(v, name), s) <==> Prop(v, name).Some? && Prop(v, name).value.JStr?
  {
    match Prop(v, name)
    case None => "undefined"
    case Some(p) => JsString(codec, p)
  }
}
