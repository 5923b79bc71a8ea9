/** The part of the serde data model the types here touch: a JSON value as
    seen by a derived deserializer, and the deserialization errors. */
module Serde {

  /** A JSON value, reduced to what the record's fields can hold: a string,
      an integer, or anything else (null, boolean, fraction, array, object). */
  datatype Json = JString(str: string) | JInt(num: int) | JOther

  datatype DeError =
    | UnknownVariant(variant: string, expected: seq<string>)  // token outside the accepted set
    | InvalidType(field: string)                              // value of the wrong JSON shape
    | InvalidValue(field: string)                             // integer out of the field's range
    | MissingField(field: string)                             // required key absent
    | Syntax                                                  // text is not a JSON object
}
