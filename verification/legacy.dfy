/** The older client variant of api.go, built around a Host. Each call
    overwrites the host URL's path with the endpoint path (it does not join
    it to the base path), and the overwritten host is what the caller keeps;
    this shared mutation is why the type is not safe for concurrent use.
    Unlike sr.go, the response handler branches on the 2xx range itself. */
module LegacyApi {

  import opened Http
  import opened Routes
  import Decimal

  /** The one media type of this variant: Content-Type of a POST, Accept of a GET. */
  const ContentType := "application/vnd.schemaregistry.v1+json"

  /** The registry's error envelope, `{"error_code", "message"}`. */
  datatype ErrorEnvelope = ErrorEnvelope(code: int, message: string)

  /** `{"id"}` as returned when a schema is added. */
  datatype SchemaId = SchemaId(id: int)

  /** `{"schema"}`: the document posted to add or check a schema, and the
      reply of a lookup by id. */
  datatype Schema = Schema(schema: string)

  /** The registry address (whose path every call replaces) and the
      verbose-logging flag. */
  datatype Host = Host(u: Url, verbose: bool)

  /** The library collaborators this variant uses besides the per-call
      decoding target: url.Parse, json.Marshal and decoding the error envelope. */
  datatype LegacyCodec = LegacyCodec(
    parseUrl: string -> Result<Url>,
    marshal: Schema -> Result<Body>,
    decodeError: Body -> Result<ErrorEnvelope>)

  /** A call's outcome: the host as the call leaves it, the decoded target
      or the error, and the requests handed to the transport. */
  datatype Outcome<T> = Outcome(host: Host, result: Result<T>, sent: seq<Request>)

  /** A 2xx status. */
  predicate Success(status: int) {
    200 <= status <= 299
  }

  /** `NewHost`: a host exactly when the address parses. */
  function NewHost(codec: LegacyCodec, address: string, verbose: bool): (r: Result<Host>)
    ensures r.Ok? <==> codec.parseUrl(address).Ok?
    ensures r.Ok? ==> r.value.u == codec.parseUrl(address).value && r.value.verbose == verbose
    ensures r.Err? ==> r.error == codec.parseUrl(address).error
  {
    match codec.parseUrl(address)
    case Err(e) => Err(e)
    case Ok(u) => Ok(Host(u, verbose))
  }

  /** `parseResponse`: an incoming error comes back unchanged; outside the
      2xx range the body is read only as an error envelope, and the call
      fails with either that decode failure or the envelope itself; inside
      it the result is exactly the decoding of the body into the target. */
  function ParseResponse<T>(codec: LegacyCodec, resp: Result<Response>, target: Body -> Result<T>): (r: Result<T>)
    ensures resp.Err? ==> r == Err(resp.error)
    ensures resp.Ok? && resp.value.readError.Some? ==> r == Err(resp.value.readError.value)
    ensures resp.Ok? && resp.value.readError.None? && !Success(resp.value.status) ==>
              && r.Err?
              && (codec.decodeError(resp.value.body).Err? ==> r.error == codec.decodeError(resp.value.body).error)
              && (codec.decodeError(resp.value.body).Ok? ==>
                    r.error == Registry(codec.decodeError(resp.value.body).value.code, codec.decodeError(resp.value.body).value.message))
    ensures resp.Ok? && resp.value.readError.None? && Success(resp.value.status) ==> r == target(resp.value.body)
  {
    match resp
    case Err(e) => Err(e)
    case Ok(res) =>
      if res.readError.Some? then Err(res.readError.value)
      else if res.status < 200 || res.status > 299 then
        match codec.decodeError(res.body)
        case Err(e) => Err(e)
        case Ok(envelope) => Err(Registry(envelope.code, envelope.message))
      else target(res.body)
  }

  /** Outside the 2xx range the caller's target plays no part: any two
      targets give the same error. */
  lemma NonSuccessIgnoresTarget<T>(codec: LegacyCodec, resp: Result<Response>, t1: Body -> Result<T>, t2: Body -> Result<T>)
    requires resp.Ok? && !Success(resp.value.status)
    ensures ParseResponse(codec, resp, t1).Err?
    ensures ParseResponse(codec, resp, t1) == ParseResponse(codec, resp, t2)
  {
  }

  /** h2 is h with its path replaced by the endpoint's joined elements, and nothing else changed. */
  predicate MovedTo(h: Host, h2: Host, e: Endpoint) {
    h2.u.origin == h.u.origin && h2.u.path == Join(ElementsOf(e)) && h2.verbose == h.verbose
  }

  /** q carries the marshalled schema and only the Content-Type header. */
  predicate PostsSchema(codec: LegacyCodec, q: Request, schema: Schema) {
    && codec.marshal(schema).Ok?
    && q.headers == [Header("Content-Type", ContentType)]
    && q.body == Some(codec.marshal(schema).value)
  }

  /** q has no body and only the Accept header. */
  predicate AcceptsOnly(q: Request) {
    q.headers == [Header("Accept", ContentType)] && q.body.None?
  }

  /** The call sent at most one request, with the endpoint's method, to the
      host's new URL; when it sent one, the result is the parsed response. */
  ghost predicate SentTo<T>(client: Transport, codec: LegacyCodec, r: Outcome<T>, e: Endpoint, target: Body -> Result<T>) {
    && |r.sent| <= 1
    && (forall q :: q in r.sent ==> q.verb == MethodOf(e) && q.url == r.host.u)
    && (|r.sent| == 1 ==> r.result == ParseResponse(codec, client(r.sent[0]), target))
  }

  /** `post`: the path is overwritten first, then the payload is marshalled
      (a failure returns before any network call), then it is sent with
      only the Content-Type header. */
  function Post<T>(h: Host, client: Transport, codec: LegacyCodec, path: seq<string>, payload: Schema, target: Body -> Result<T>): (r: Outcome<T>)
    ensures r.host.u == Url(h.u.origin, Join(path)) && r.host.verbose == h.verbose
    ensures codec.marshal(payload).Err? ==> r.sent == [] && r.result == Err(codec.marshal(payload).error)
    ensures codec.marshal(payload).Ok? ==>
              && r.sent == [Request(POST, r.host.u, [Header("Content-Type", ContentType)], Some(codec.marshal(payload).value))]
              && r.result == ParseResponse(codec, client(r.sent[0]), target)
  {
    var moved := h.(u := h.u.(path := Join(path)));
    match codec.marshal(payload)
    case Err(e) => Outcome(moved, Err(e), [])
    case Ok(p) =>
      var q := Request(POST, moved.u, [Header("Content-Type", ContentType)], Some(p));
      Outcome(moved, ParseResponse(codec, client(q), target), [q])
  }

  /** `get`: the path is overwritten, then a GET carrying only the Accept
      header is sent. */
  function Get<T>(h: Host, client: Transport, codec: LegacyCodec, path: seq<string>, target: Body -> Result<T>): (r: Outcome<T>)
    ensures r.host.u == Url(h.u.origin, Join(path)) && r.host.verbose == h.verbose
    ensures r.sent == [Request(GET, r.host.u, [Header("Accept", ContentType)], None)]
    ensures r.result == ParseResponse(codec, client(r.sent[0]), target)
  {
    var moved := h.(u := h.u.(path := Join(path)));
    var q := Request(GET, moved.u, [Header("Accept", ContentType)], None);
    Outcome(moved, ParseResponse(codec, client(q), target), [q])
  }

  /** `AddSchema`: POST subjects/<subject>/versions. */
  function AddSchema(h: Host, client: Transport, codec: LegacyCodec, subject: string, schema: Schema, target: Body -> Result<SchemaId>): (r: Outcome<SchemaId>)
    ensures MovedTo(h, r.host, RegisterSchema(subject)) && SentTo(client, codec, r, RegisterSchema(subject), target)
    ensures codec.marshal(schema).Err? <==> r.sent == []
    ensures r.sent == [] ==> r.result == Err(codec.marshal(schema).error)
    ensures forall q :: q in r.sent ==> PostsSchema(codec, q, schema)
  {
    Post(h, client, codec, ["subjects", subject, "versions"], schema, target)
  }

  /** `CheckSchema`: POST subjects/<subject>. */
  function CheckSchema<T>(h: Host, client: Transport, codec: LegacyCodec, subject: string, schema: Schema, target: Body -> Result<T>): (r: Outcome<T>)
    ensures MovedTo(h, r.host, LookupSchema(subject)) && SentTo(client, codec, r, LookupSchema(subject), target)
    ensures codec.marshal(schema).Err? <==> r.sent == []
    ensures r.sent == [] ==> r.result == Err(codec.marshal(schema).error)
    ensures forall q :: q in r.sent ==> PostsSchema(codec, q, schema)
  {
    Post(h, client, codec, ["subjects", subject], schema, target)
  }

  /** `CheckIsCompatible`: POST compatibility/subjects/<subject>/versions/<version>. */
  function CheckIsCompatible<T>(h: Host, client: Transport, codec: LegacyCodec, subject: string, version: string, schema: Schema, target: Body -> Result<T>): (r: Outcome<T>)
    ensures MovedTo(h, r.host, CheckCompatibility(subject, version)) && SentTo(client, codec, r, CheckCompatibility(subject, version), target)
    ensures codec.marshal(schema).Err? <==> r.sent == []
    ensures r.sent == [] ==> r.result == Err(codec.marshal(schema).error)
    ensures forall q :: q in r.sent ==> PostsSchema(codec, q, schema)
  {
    Post(h, client, codec, ["compatibility", "subjects", subject, "versions", version], schema, target)
  }

  /** `GetSchema`: GET schemas/ids/<id>. */
  function GetSchema(h: Host, client: Transport, codec: LegacyCodec, id: int, target: Body -> Result<Schema>): (r: Outcome<Schema>)
    ensures MovedTo(h, r.host, SchemaById(id)) && SentTo(client, codec, r, SchemaById(id), target) && |r.sent| == 1
    ensures AcceptsOnly(r.sent[0])
  {
    Get(h, client, codec, ["schemas", "ids", Decimal.FormatInt(id)], target)
  }

  /** `ListSubjects`: GET subjects. */
  function ListSubjects(h: Host, client: Transport, codec: LegacyCodec, target: Body -> Result<seq<string>>): (r: Outcome<seq<string>>)
    ensures MovedTo(h, r.host, SubjectList) && SentTo(client, codec, r, SubjectList, target) && |r.sent| == 1
    ensures AcceptsOnly(r.sent[0])
  {
    Get(h, client, codec, ["subjects"], target)
  }

  /** `ListVersions`: GET subjects/<subject>/versions. */
  function ListVersions(h: Host, client: Transport, codec: LegacyCodec, subject: string, target: Body -> Result<seq<int>>): (r: Outcome<seq<int>>)
    ensures MovedTo(h, r.host, SubjectVersions(subject)) && SentTo(client, codec, r, SubjectVersions(subject), target) && |r.sent| == 1
    ensures AcceptsOnly(r.sent[0])
  {
    Get(h, client, codec, ["subjects", subject, "versions"], target)
  }

  /** `GetVersion`: GET subjects/<subject>/versions/<version>. */
  function GetVersion<T>(h: Host, client: Transport, codec: LegacyCodec, subject: string, version: string, target: Body -> Result<T>): (r: Outcome<T>)
    ensures MovedTo(h, r.host, SubjectVersion(subject, version)) && SentTo(client, codec, r, SubjectVersion(subject, version), target) && |r.sent| == 1
    ensures AcceptsOnly(r.sent[0])
  {
    Get(h, client, codec, ["subjects", subject, "versions", version], target)
  }

  /** Because the path is overwritten, the base path of the address given
      to NewHost is lost: a request to a well-formed endpoint reaches it only
      on a registry mounted at the root, whatever path the host had before. */
  lemma SentRequestsIgnoreBasePath<T>(h: Host, r: Outcome<T>, e: Endpoint)
    requires WellFormed(e) && MovedTo(h, r.host, e)
    requires forall q :: q in r.sent ==> q.verb == MethodOf(e) && q.url == r.host.u
    ensures forall q :: q in r.sent ==> q.url.path == ElementsOf(e) && Route([], q) == Some(e)
  {
    forall q | q in r.sent
      ensures q.url.path == ElementsOf(e) && Route([], q) == Some(e)
    {
      RequestReachesEndpoint([], q, e);
    }
  }

  /** The host's previous path plays no part in a call: two hosts that
      differ only in their path send the same requests, get the same
      results, and end up equal. */
  lemma PreviousPathIsIrrelevant<T>(h1: Host, h2: Host, client: Transport, codec: LegacyCodec, path: seq<string>, payload: Schema, target: Body -> Result<T>)
    requires h1.u.origin == h2.u.origin && h1.verbose == h2.verbose
    ensures Get(h1, client, codec, path, target) == Get(h2, client, codec, path, target)
    ensures Post(h1, client, codec, path, payload, target) == Post(h2, client, codec, path, payload, target)
  {
  }
}
