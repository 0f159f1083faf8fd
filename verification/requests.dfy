/** The request factory of sr.go: one builder per registry endpoint, on
    top of `get`, `putOrPost` and `buildURL`. */
module Requests {

  import opened Http
  import opened Subjects
  import opened Formats
  import opened Routes
  import Decimal

  /** Accept value of every request (note the space before the last type). */
  const SchemaRegistryAccepts := "application/vnd.schemaregistry.v1+json,application/vnd.schemaregistry+json, application/json"
  /** Content-Type value of every request that carries a body. */
  const ContentTypeV1 := "application/vnd.schemaregistry.v1+json"

  const AcceptHeader := Header("Accept", SchemaRegistryAccepts)
  const ContentTypeHeader := Header("Content-Type", ContentTypeV1)

  /** q is a bodiless GET that carries the Accept header and nothing else. */
  predicate IsPlainGet(q: Request) {
    q.verb == GET && q.headers == [AcceptHeader] && q.body.None?
  }

  /** q carries the marshalled payload with both registry headers. */
  predicate Uploads(codec: Codec, q: Request, payload: Payload) {
    && codec.marshal(payload).Ok?
    && q.headers == [AcceptHeader, ContentTypeHeader]
    && q.body == Some(codec.marshal(payload).value)
  }

  /** The path a registry at u is mounted at, as path.Join cleans it:
      empty segments, from a trailing or doubled '/', are dropped, and a
      path that is already clean is kept. */
  function BasePath(u: Url): (p: Path)
    ensures Clean(p)
    ensures Clean(u.path) ==> p == u.path
  {
    JoinOfClean(u.path);
    Join(u.path)
  }

  /** q is sent to the registry whose address is baseUrl and names endpoint
      e: e's method, the base URL's origin, and the base path followed by
      e's joined elements. */
  predicate Addresses(codec: Codec, baseUrl: string, q: Request, e: Endpoint) {
    && codec.parseUrl(baseUrl).Ok?
    && q.verb == MethodOf(e)
    && q.url.origin == codec.parseUrl(baseUrl).value.origin
    && q.url.path == BasePath(codec.parseUrl(baseUrl).value) + Join(ElementsOf(e))
  }

  /** buildURL: parse the base address and path.Join its path with the
      endpoint, which cleans the base path as well. */
  function BuildUrl(codec: Codec, baseUrl: string, endpoint: seq<string>): (r: Result<Url>)
    ensures r.Err? <==> codec.parseUrl(baseUrl).Err?
    ensures r.Err? ==> r.error == codec.parseUrl(baseUrl).error
    ensures r.Ok? ==> r.value.origin == codec.parseUrl(baseUrl).value.origin
    ensures r.Ok? ==> Clean(r.value.path)
    ensures r.Ok? ==> r.value.path == BasePath(codec.parseUrl(baseUrl).value) + Join(endpoint)
    ensures r.Ok? && Clean(codec.parseUrl(baseUrl).value.path) && (forall i :: 0 <= i < |endpoint| ==> Segment(endpoint[i])) ==>
              r.value.path == codec.parseUrl(baseUrl).value.path + endpoint
  {
    match codec.parseUrl(baseUrl)
    case Err(e) => Err(e)
    case Ok(u) =>
      JoinAppend(u.path, endpoint);
      JoinKeepsSegments(endpoint);
      Ok(Url(u.origin, Join(u.path + endpoint)))
  }

  /** `get`: a GET request carrying only the Accept header. */
  function Get(codec: Codec, baseUrl: string, endpoint: seq<string>): (r: Result<Request>)
    ensures r.Err? <==> codec.parseUrl(baseUrl).Err?
    ensures r.Err? ==> r.error == codec.parseUrl(baseUrl).error
    ensures r.Ok? ==> IsPlainGet(r.value)
    ensures r.Ok? ==> r.value.url == Url(codec.parseUrl(baseUrl).value.origin, BasePath(codec.parseUrl(baseUrl).value) + Join(endpoint))
  {
    match BuildUrl(codec, baseUrl, endpoint)
    case Err(e) => Err(e)
    case Ok(u) => Ok(Request(GET, u, [AcceptHeader], None))
  }

  /** `putOrPost`: the body is marshalled first, and a marshal failure is
      returned before the URL is even parsed. */
  function PutOrPost(codec: Codec, baseUrl: string, verb: Method, endpoint: seq<string>, body: Option<Payload>): (r: Result<Request>)
    ensures body.Some? && codec.marshal(body.value).Err? ==> r == Err(codec.marshal(body.value).error)
    ensures r.Ok? <==> (body.None? || codec.marshal(body.value).Ok?) && codec.parseUrl(baseUrl).Ok?
    ensures r.Ok? ==> r.value.verb == verb && r.value.headers == [AcceptHeader, ContentTypeHeader]
    ensures r.Ok? ==> r.value.url == Url(codec.parseUrl(baseUrl).value.origin, BasePath(codec.parseUrl(baseUrl).value) + Join(endpoint))
    ensures r.Ok? && body.Some? ==> r.value.body == Some(codec.marshal(body.value).value)
    ensures r.Ok? && body.None? ==> r.value.body.None?
  {
    var data :=
      match body
      case None => Ok(None)
      case Some(p) =>
        match codec.marshal(p)
        case Err(e) => Err(e)
        case Ok(bytes) => Ok(Some(bytes));
    match data
    case Err(e) => Err(e)
    case Ok(reader) =>
      match BuildUrl(codec, baseUrl, endpoint)
      case Err(e) => Err(e)
      case Ok(u) => Ok(Request(verb, u, [AcceptHeader, ContentTypeHeader], reader))
  }

  /** GET schemas/ids/<id> */
  function GetSchemaRequest(codec: Codec, baseUrl: string, id: uint32): (r: Result<Request>)
    ensures r.Err? <==> codec.parseUrl(baseUrl).Err?
    ensures r.Ok? ==> IsPlainGet(r.value) && Addresses(codec, baseUrl, r.value, SchemaById(id as int))
  {
    Get(codec, baseUrl, ["schemas", "ids", Decimal.FormatInt(id as int)])
  }

  /** POST subjects/<subject>/versions with the schema as body. */
  function RegisterRequest(codec: Codec, baseUrl: string, subject: Subject, body: Payload): (r: Result<Request>)
    ensures codec.marshal(body).Err? ==> r == Err(codec.marshal(body).error)
    ensures r.Ok? <==> codec.marshal(body).Ok? && codec.parseUrl(baseUrl).Ok?
    ensures r.Ok? ==> Uploads(codec, r.value, body) && Addresses(codec, baseUrl, r.value, RegisterSchema(subject))
  {
    PutOrPost(codec, baseUrl, POST, ["subjects", subject, "versions"], Some(body))
  }

  /** GET subjects/<subject>/versions/<version>; the version may be "latest". */
  function GetVersionRequest(codec: Codec, baseUrl: string, subject: Subject, version: string): (r: Result<Request>)
    ensures r.Err? <==> codec.parseUrl(baseUrl).Err?
    ensures r.Ok? ==> IsPlainGet(r.value) && Addresses(codec, baseUrl, r.value, SubjectVersion(subject, version))
  {
    Get(codec, baseUrl, ["subjects", subject, "versions", version])
  }

  /** POST subjects/<subject> with the schema as body. */
  function HasSchemaRequest(codec: Codec, baseUrl: string, subject: Subject, body: Payload): (r: Result<Request>)
    ensures codec.marshal(body).Err? ==> r == Err(codec.marshal(body).error)
    ensures r.Ok? <==> codec.marshal(body).Ok? && codec.parseUrl(baseUrl).Ok?
    ensures r.Ok? ==> Uploads(codec, r.value, body) && Addresses(codec, baseUrl, r.value, LookupSchema(subject))
  {
    PutOrPost(codec, baseUrl, POST, ["subjects", subject], Some(body))
  }

  /** POST compatibility/subjects/<subject>/versions/<version> with the schema as body. */
  function CheckIsCompatibleRequest(codec: Codec, baseUrl: string, subject: Subject, version: string, body: Payload): (r: Result<Request>)
    ensures codec.marshal(body).Err? ==> r == Err(codec.marshal(body).error)
    ensures r.Ok? <==> codec.marshal(body).Ok? && codec.parseUrl(baseUrl).Ok?
    ensures r.Ok? ==> Uploads(codec, r.value, body) && Addresses(codec, baseUrl, r.value, CheckCompatibility(subject, version))
  {
    PutOrPost(codec, baseUrl, POST, ["compatibility", "subjects", subject, "versions", version], Some(body))
  }

  /** GET subjects */
  function ListSubjectsRequest(codec: Codec, baseUrl: string): (r: Result<Request>)
    ensures r.Err? <==> codec.parseUrl(baseUrl).Err?
    ensures r.Ok? ==> IsPlainGet(r.value) && Addresses(codec, baseUrl, r.value, SubjectList)
  {
    Get(codec, baseUrl, ["subjects"])
  }

  /** GET subjects/<subject>/versions */
  function ListVersionsRequest(codec: Codec, baseUrl: string, subject: Subject): (r: Result<Request>)
    ensures r.Err? <==> codec.parseUrl(baseUrl).Err?
    ensures r.Ok? ==> IsPlainGet(r.value) && Addresses(codec, baseUrl, r.value, SubjectVersions(subject))
  {
    Get(codec, baseUrl, ["subjects", subject, "versions"])
  }

  /** GET config */
  function GetConfigRequest(codec: Codec, baseUrl: string): (r: Result<Request>)
    ensures r.Err? <==> codec.parseUrl(baseUrl).Err?
    ensures r.Ok? ==> IsPlainGet(r.value) && Addresses(codec, baseUrl, r.value, GlobalConfig)
  {
    Get(codec, baseUrl, ["config"])
  }

  /** GET config/<subject> */
  function GetSubjectConfigRequest(codec: Codec, baseUrl: string, subject: Subject): (r: Result<Request>)
    ensures r.Err? <==> codec.parseUrl(baseUrl).Err?
    ensures r.Ok? ==> IsPlainGet(r.value) && Addresses(codec, baseUrl, r.value, SubjectConfig(subject))
  {
    Get(codec, baseUrl, ["config", subject])
  }

  /** PUT config/<subject> with the level as body. */
  function PutSubjectConfigRequest(codec: Codec, baseUrl: string, subject: Subject, body: Payload): (r: Result<Request>)
    ensures codec.marshal(body).Err? ==> r == Err(codec.marshal(body).error)
    ensures r.Ok? <==> codec.marshal(body).Ok? && codec.parseUrl(baseUrl).Ok?
    ensures r.Ok? ==> Uploads(codec, r.value, body) && Addresses(codec, baseUrl, r.value, UpdateSubjectConfig(subject))
  {
    PutOrPost(codec, baseUrl, PUT, ["config", subject], Some(body))
  }

  /** A request addressed to a well-formed endpoint reaches that endpoint
      on the registry mounted at the base URL's cleaned path, and its path
      is that base path followed by exactly the endpoint's elements. */
  lemma AddressedRequestReachesEndpoint(codec: Codec, baseUrl: string, q: Request, e: Endpoint)
    requires Addresses(codec, baseUrl, q, e) && WellFormed(e)
    ensures q.url.path == BasePath(codec.parseUrl(baseUrl).value) + ElementsOf(e)
    ensures Route(BasePath(codec.parseUrl(baseUrl).value), q) == Some(e)
  {
    RequestReachesEndpoint(BasePath(codec.parseUrl(baseUrl).value), q, e);
  }

  /** An empty subject is not a path segment: path.Join drops it, so a
      version lookup for "" asks for subjects/versions/<version> instead. */
  lemma EmptySubjectCollapses(codec: Codec, baseUrl: string, version: string)
    requires codec.parseUrl(baseUrl).Ok? && Segment(version)
    ensures GetVersionRequest(codec, baseUrl, EmptySubject, version).value.url.path
            == BasePath(codec.parseUrl(baseUrl).value) + ["subjects", "versions", version]
  {
    JoinSkipsEmpty(["subjects"], ["versions", version]);
    assert ["subjects"] + [""] + ["versions", version] == ["subjects", EmptySubject, "versions", version];
    assert ["subjects"] + ["versions", version] == ["subjects", "versions", version];
    JoinOfSegments(["subjects", "versions", version]);
  }
}
