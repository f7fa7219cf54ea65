/** The dynamic values that cross the SDK's boundaries: bytes, JSON
    documents and the entries of a keypair dictionary. */
module Values {

  type byte = b: int | 0 <= b < 256

  /** A JSON document as the `json` module and `requests` decode it
      (floating-point numbers are not part of this model). */
  datatype Json =
    | JNull
    | JBool(b: bool)
    | JInt(i: int)
    | JStr(s: string)
    | JList(items: seq<Json>)
    | JObject(fields: map<string, Json>)

  /** A keypair dictionary entry: Python `str` or `bytes`. */
  datatype KeyValue = Text(text: string) | Bytes(bytes: seq<byte>)
}
