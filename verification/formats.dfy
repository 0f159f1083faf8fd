/** The registry's JSON envelopes as the client reads and writes them, and
    the library collaborators (url.Parse, json.Marshal, json.Unmarshal into
    each target type) as uninterpreted functions. JSON syntax is not modelled:
    a decoder either yields the target's fields or fails. */
module Formats {

  import opened Http
  import opened Subjects

  /** A serialized (Avro) schema document, opaque to the client. */
  type Schema = string

  /** The "no schema" value. */
  const EmptySchema: Schema := ""

  /** Request bodies: `{"schema": ...}` and `{"compatibility": ...}`. */
  datatype Payload =
    | SchemaJson(schema: Schema)
    | ConfigPutJson(compatibility: string)

  /** `{"id", "schema"}` as read by a version lookup. */
  datatype VersionReply = VersionReply(id: uint32, schema: Schema)

  /** `{"schema", "version", "subject", "id"}` as read by an existence check. */
  datatype CheckedReply = CheckedReply(schema: Schema, version: int, subject: Subject, id: int)

  /** The collaborators a request or a reply passes through. Each decoder
      is json.Unmarshal into one target type. */
  datatype Codec = Codec(
    parseUrl: string -> Result<Url>,
    marshal: Payload -> Result<Body>,
    decodeId: Body -> Result<uint32>,            // {"id"}
    decodeSchema: Body -> Result<Schema>,        // {"schema"}
    decodeVersion: Body -> Result<VersionReply>,
    decodeChecked: Body -> Result<CheckedReply>,
    decodeIsCompatible: Body -> Result<bool>,    // {"is_compatible"}
    decodeSubjects: Body -> Result<seq<Subject>>,
    decodeVersions: Body -> Result<seq<int>>,
    decodeConfigGet: Body -> Result<string>,     // {"compatibilityLevel"}
    decodeConfigPut: Body -> Result<string>)     // {"compatibility"}
}
