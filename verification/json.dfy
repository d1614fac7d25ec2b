/**
 * JSON as the service uses it. `JSON.stringify` and `JSON.parse` are not implemented
 * character by character: a text on the wire is either the serialization of a document
 * or some other characters, and parsing recovers exactly the document that was serialized.
 * Where the service needs the characters themselves (templates, user code), the two
 * functions are supplied as a `JsonCodec` collaborator.
 */
module Json {
  import opened Wrappers

  /** A JSON document. Numbers are integers in this model. */
  datatype Json =
    | JNull
    | JBool(b: bool)
    | JNum(n: int)
    | JStr(text: Text)
    | JArr(items: seq<Json>)
    | JObj(fields: seq<(string, Json)>)

  /** A string, as the wire sees it: the output of `JSON.stringify`, or other characters. */
  datatype Text = Serialized(doc: Json) | Chars(chars: string)

  /** `JSON.stringify(v)` for a defined value. */
  function Stringify(v: Json): Text {
    Serialized(v)
  }

  /** `JSON.parse(t)`: `None` is the `SyntaxError` it throws. */
  function Parse(t: Text): (r: Option<Json>)
    ensures t.Serialized? <==> r.Some?
  {
    match t
    case Serialized(d) => Some(d)
    case Chars(_) => None
  }

  /** A JSON string holding plain characters. */
  function Str(s: string): Json {
    JStr(Chars(s))
  }

  /** Parsing undoes serialization. */
  lemma ParseStringify(v: Json)
    ensures Parse(Stringify(v)) == Some(v)
  {
  }

  /** Serializing an already serialized text does not give it back: the outer layer parses to a string. */
  lemma StringifyTwice(v: Json)
    ensures Parse(Stringify(JStr(Stringify(v)))) == Some(JStr(Stringify(v)))
    ensures Parse(Stringify(JStr(Stringify(v)))) != Some(v)
  {
    assert v < Serialized(v) < JStr(Serialized(v));
  }

  /** The string-level JSON functions, as an external collaborator. */
  datatype JsonCodec = JsonCodec(parse: string -> Option<Json>, render: Json -> string)

  /** `JSON.parse(s)` when the caller needs a string back; any other document counts as failure. */
  function ParseString(codec: JsonCodec, s: string): Option<string> {
    match codec.parse(s)
    case Some(JStr(t)) => Some(TextChars(codec, t))
    case _ => None
  }

  /** The characters of a text. */
  function TextChars(codec: JsonCodec, t: Text): string {
    match t
    case Chars(s) => s
    case Serialized(d) => codec.render(d)
  }
}
