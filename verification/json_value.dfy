/**
 * The JSON documents that the secret payloads hold once `json.loads` has parsed
 * them. Serialisation is treated as an identity round trip, so a payload is
 * modelled directly as the object it encodes.
 */
module JsonValue {

  /** A JSON value: a string, a number (a Python float, kept exact here) or an object. */
  datatype Value =
    | Str(s: string)
    | Num(n: real)
    | Obj(fields: map<string, Value>)

  /** A top-level JSON object, the shape of every configuration payload. */
  type Blob = map<string, Value>

  /** The key under which a configuration records its format version. */
  const VersionKey: string := "version"
}
