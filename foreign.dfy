/** Library calls the client makes whose exact behaviour is not part of this
    model: number parsing and printing, URI component encoding, and JSON.
    Each is passed in as a value; the laws the model relies on are stated as
    predicates and required only by the lemmas that need them. */
module Foreign {
  import opened Common

  /** `parseFloat`, `Number` and number-to-text. `None` stands for `NaN`. */
  datatype Numerics = Numerics(
    parseFloat: string -> Option<real>,
    number: string -> Option<real>,
    show: real -> string)

  /** The two facts about JavaScript number parsing the forms depend on:
      `Number("")` is 0 and `parseFloat("")` is `NaN`. */
  predicate NumericsLawful(n: Numerics) {
    n.number("") == Some(0.0) && n.parseFloat("") == None
  }

  /** `encodeURIComponent` and `decodeURIComponent`; `None` is the
      `URIError` a malformed escape raises. */
  datatype UriCodec = UriCodec(encode: string -> string, decode: string -> Option<string>)

  /** Decoding undoes encoding, and encoded text never contains the
      characters a cookie header uses as delimiters. */
  ghost predicate UriLawful(c: UriCodec) {
    forall s :: c.decode(c.encode(s)) == Some(s) &&
      ';' !in c.encode(s) && '=' !in c.encode(s) &&
      forall i :: 0 <= i < |c.encode(s)| ==> !IsWhitespace(c.encode(s)[i])
  }

  /** `JSON.stringify` and `JSON.parse` at one record type; `None` is the
      `SyntaxError` a malformed text raises. */
  datatype JsonCodec<!T> = JsonCodec(stringify: T -> string, parse: string -> Option<T>)

  /** Parsing undoes stringifying, and the JSON text of a record is never
      the empty string. */
  ghost predicate JsonLawful<T(!new)>(j: JsonCodec<T>) {
    forall u :: j.parse(j.stringify(u)) == Some(u) && j.stringify(u) != ""
  }
}
