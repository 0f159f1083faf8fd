# Schema-registry client protocol, modelled in Dafny

This project models the client side of the MediaMath `sr` Go library for
the Confluent Schema Registry REST API. It covers:

- the request factory: one builder per registry endpoint, on top of
  `get`, `putOrPost` and `buildURL`;
- the response handler `doJSON`;
- the registry operations built on those: schema lookup by id and by
  subject/version, registration, schema lookup within a subject, the
  compatibility check, subject and version listing, and the subject and
  server compatibility levels;
- `Copy`, which moves every subject's latest schema from one registry to
  another under a renamed subject;
- the subject naming convention (`<topic>-value`, `<topic>-key`) and the
  compatibility-level names;
- the older `Host` variant of `api.go`, kept in its own module because its
  URL handling and response handling differ from `sr.go`.

The HTTP client is a parameter: a `Transport` is a function from a request
to a response or an error. Every operation of sr.go returns the value
and error that the Go function returns; the methods of api.go return the
decoded target or the error (see "Left out"). Every operation also returns the requests it handed to
the transport, so properties such as "nothing is sent when building
fails" or "the loop stops after the failing subject" can be stated. JSON
encoding and decoding, and `url.Parse`, are uninterpreted functions
collected in a `Codec` record. Each decoder maps a body to a value or an
error.

Request building is checked against an independent partner. `Routes`
defines the registry's endpoints and a server-side `Dispatch` that reads a
method and path back into an endpoint. The request builders are proved to
produce requests that the registry, mounted at the base URL's path as path.Join cleans it,
routes to the endpoint they were built for.

Modules, one per concern of the source:

| module | file | models |
|---|---|---|
| `Http` | http.dfy | requests, responses, errors, the transport, and `path.Join` on segments |
| `Decimal` | decimal.dfy | `fmt.Sprintf("%v", n)` of an integer and its reading back |
| `Subjects` | subject.dfy | subject.go |
| `Compatibility` | compatibility.dfy | compatibility.go |
| `Formats` | formats.dfy | the JSON envelope types of sr.go and the `Codec` |
| `Routes` | routes.dfy | the registry's endpoint table and dispatch |
| `Requests` | requests.dfy | the request factory of sr.go |
| `Client` | client.dfy | `doJSON` and the registry operations of sr.go |
| `Copying` | copy.dfy | `Copy` of sr.go |
| `LegacyApi` | legacy.dfy | api.go |

Three behaviours of the code are easy to misread, and the model keeps
them as the code has them:

- `GetSubjectCompatibility` and `GetDefaultCompatibility` never look at
  the status. Any reply whose body decodes counts as success, including a
  404 or a 500.
- `doJSON` hands the body to the decoder even when it is empty, whatever
  the status (`Client.DoJson`). Since `encoding/json` rejects an empty
  input, in Go such a reply is an error whenever the caller passes a
  decoding target; the decoders here are uninterpreted, so the model
  states only that the empty body is decoded.
- `Copy` renames a subject with `strings.Replace(subject, fromPrefix,
  toPrefix, 1)`. This replaces the first occurrence anywhere in the
  subject, not only a leading prefix. With prefix `a` and replacement
  `c`, the subject `b-value` becomes `b-vclue`, not `b-value`
  (`Copying.ReplaceIsNotPrefixOnly`).

## Model

| member | source | states |
|---|---|---|
| Subjects.ValueSubject | subject.go:17-24 | the value subject is empty exactly for the empty topic; otherwise it is the topic followed by "-value" |
| Subjects.KeySubject | subject.go:26-33 | the key subject is empty exactly for the empty topic; otherwise it is the topic followed by "-key" |
| Subjects.TopicOf | subject.go:9-11 | reading a topic back from a subject gives a non-empty topic that the suffix completes to the subject |
| Subjects.ValueSubjectRoundTrip | subject.go:17-24 | the value subject of a topic reads back as that topic, and not as a key subject |
| Subjects.KeySubjectRoundTrip | subject.go:26-33 | the key subject of a topic reads back as that topic, and not as a value subject |
| Subjects.TopicSubjects | subject.go:9-33 | a topic's key and value subjects differ, are non-empty and start with the topic, and no two topics share one |
| Compatibility.ConstantsDistinct | compatibility.go:6-21 | the five constants are pairwise distinct; the four registry levels are named levels, and Zero, the empty string, is the only one that is not |
| Decimal.Format | sr.go:281-283 | the id is printed as a non-empty run of digits without a leading zero |
| Decimal.FormatInt | api.go:52-57 | a signed id prints without '/': a non-negative one as digits that denote it, a negative one as '-' followed by digits that denote its magnitude |
| Decimal.ValueOfFormat | sr.go:281-283 | reading back the printed id gives the id |
| Http.Join | sr.go:381-388 | the joined path has no empty segment and no separator inside a segment |
| Http.PiecesSplitsOnSlash | sr.go:386 | an element's segments are what splitting it on the separator gives, whether or not it holds one |
| Http.JoinOfClean | sr.go:386 | a path with no empty segment and no separator inside one is its own join |
| Http.JoinAppend | sr.go:386 | joining the base path's elements with the endpoint's is joining each and concatenating |
| Http.JoinOfSegments | sr.go:381-388 | joining elements that are each one segment yields exactly those elements |
| Http.JoinSkipsEmpty | sr.go:290-293 | an empty element (such as an empty subject) contributes nothing to the joined path |
| Routes.DispatchInvertsElements | sr.go:280-328 | the registry's dispatch reads each well-formed endpoint's method and path back into that endpoint |
| Routes.ElementsAreSegments | sr.go:280-328 | a well-formed endpoint's path elements survive path.Join unchanged |
| Routes.RequestReachesEndpoint | sr.go:280-328 | a request with an endpoint's method and the base path followed by its joined elements is routed to that endpoint |
| Routes.EndpointsAreDistinguishable | sr.go:280-328 | two different well-formed endpoints never share both method and path |
| Requests.BasePath | sr.go:386 | the base path as path.Join leaves it: clean, and unchanged when it was already clean |
| Requests.BuildUrl | sr.go:381-388 | fails exactly when the base URL does not parse, with its error; otherwise keeps the origin, and the path is the cleaned base path followed by the endpoint's joined segments, so a clean base and single-segment elements give exactly base then elements |
| Requests.Get | sr.go:332-345 | fails exactly when the URL does not parse; otherwise a bodiless GET carrying only the Accept header, at the cleaned base path plus the endpoint |
| Requests.PutOrPost | sr.go:347-379 | a marshal failure is returned before the URL is parsed; otherwise the request carries the method, both headers and the marshalled body |
| Requests.GetSchemaRequest | sr.go:280-283 | fails exactly on a bad URL; otherwise a plain GET addressed to schemas/ids/<id> |
| Requests.RegisterRequest | sr.go:285-288 | fails exactly on a marshal or URL failure, the former first; otherwise a POST of the schema to subjects/<subject>/versions |
| Requests.GetVersionRequest | sr.go:290-293 | fails exactly on a bad URL; otherwise a plain GET addressed to subjects/<subject>/versions/<version> |
| Requests.HasSchemaRequest | sr.go:295-298 | fails exactly on a marshal or URL failure; otherwise a POST of the schema to subjects/<subject> |
| Requests.CheckIsCompatibleRequest | sr.go:300-303 | fails exactly on a marshal or URL failure; otherwise a POST of the schema to compatibility/subjects/<subject>/versions/<version> |
| Requests.ListSubjectsRequest | sr.go:305-308 | fails exactly on a bad URL; otherwise a plain GET addressed to subjects |
| Requests.ListVersionsRequest | sr.go:310-313 | fails exactly on a bad URL; otherwise a plain GET addressed to subjects/<subject>/versions |
| Requests.GetConfigRequest | sr.go:315-318 | fails exactly on a bad URL; otherwise a plain GET addressed to config |
| Requests.GetSubjectConfigRequest | sr.go:320-323 | fails exactly on a bad URL; otherwise a plain GET addressed to config/<subject> |
| Requests.PutSubjectConfigRequest | sr.go:325-328 | fails exactly on a marshal or URL failure; otherwise a PUT of the level to config/<subject> |
| Requests.AddressedRequestReachesEndpoint | sr.go:381-388 | a request the factory addressed to a well-formed endpoint is routed to it on the registry mounted at the cleaned base path |
| Requests.EmptySubjectCollapses | sr.go:290-293 | a version lookup for the empty subject asks for subjects/versions/<version> |
| Client.DoJson | sr.go:395-412 | a transport error comes back with status 0 and no body; otherwise the body is decoded whatever the status, and a decode failure is an error |
| Client.DoJsonIgnoresStatus | sr.go:395-412 | two responses that differ only in status give the same error verdict and decoded value |
| Client.GetVersion | sr.go:45-73 | sends the built request whenever building succeeds; succeeds exactly when the answer decodes to a non-empty schema, which is then returned; on error the schema is empty and the id is the one decoded from an empty-schema reply, 0 when nothing was decoded |
| Client.GetLatestSchema | sr.go:40-43 | sends the GET for subjects/<subject>/versions/latest whenever the URL parses, and nothing otherwise; succeeds exactly when the answer decodes to a non-empty schema, which is returned; on error the id is the decoded one of an empty-schema reply, 0 otherwise |
| Client.GetSchema | sr.go:75-92 | succeeds exactly when the one request is answered with a decodable body, returning the decoded schema; the empty schema on error |
| Client.Register | sr.go:94-121 | succeeds exactly when the decoded id is non-zero; id zero on every error |
| Client.HasSchema | sr.go:123-145 | succeeds exactly when the answer decodes, whatever the status; returns its version and id, (0, 0) on error |
| Client.IsCompatible | sr.go:147-170 | succeeds exactly when the answer decodes and the status is 200; true only on success |
| Client.ListSubjects | sr.go:172-181 | the decoded list in the server's order when the answer decodes; an error otherwise |
| Client.ListVersions | sr.go:183-192 | the decoded list in the server's order when the answer decodes; an error otherwise |
| Client.CompatibilityJson | sr.go:267-278 | the decoded level and the status, whatever the status; Zero on error |
| Client.GetSchemaAsWritten | sr.go:75-92 | the code as written panics exactly when the URL parses and the reply is delivered with a null body; otherwise it returns what GetSchema returns |
| Client.NullSchemaReply | sr.go:83-87 | on a null reply the code as written panics, while GetSchema returns the empty schema and no error |
| Client.CompatibilityJsonAsWritten | sr.go:267-278 | the code as written panics exactly when the reply is delivered with a null body; otherwise it returns what CompatibilityJson returns |
| Client.NullConfigReply | sr.go:270-274 | on a null reply the code as written panics, while CompatibilityJson returns the status with Zero and no error |
| Client.GetSubjectCompatibility | sr.go:241-252 | the decoded level whatever the status; Zero on error |
| Client.GetDefaultCompatibility | sr.go:254-265 | the decoded server-wide level whatever the status; Zero on error |
| Client.GetSubjectDerivedCompatibility | sr.go:194-210 | the server default, fetched after the subject lookup, exactly when the subject lookup succeeded with status 404; otherwise the subject lookup's result |
| Client.DerivedLookupReachesConfig | sr.go:194-210 | a derived lookup sends at most two requests; the first reaches config/<subject> and the second, when sent, reaches config |
| Client.SetSubjectCompatibility | sr.go:212-239 | succeeds exactly when the answer decodes and the status is 200, returning the echoed level; Zero on error |
| Copying.FindFrom | sr.go:427 | finds the first occurrence of the pattern at or after a position, or reports there is none |
| Copying.ReplaceFirst | sr.go:427 | the first occurrence of the pattern anywhere in the subject is replaced; without one the subject is unchanged |
| Copying.ReplaceLeadingPrefix | sr.go:427 | a pattern that is a prefix of the subject is swapped for the replacement |
| Copying.ReplaceIsNotPrefixOnly | sr.go:427 | replacing "a" with "c" turns "a-value" into "c-value" but "b-value" into "b-vclue" |
| Copying.CopySubject | sr.go:422-431 | one loop turn fails exactly when fetching the latest schema or registering the fetched schema under the target subject fails; registering is attempted only after a successful fetch, and the turn sends at most those two requests, each addressed to its endpoint |
| Copying.FirstRequestReadsLatest | sr.go:422 | the first request of a turn reaches subjects/<s>/versions/latest under the source registry's base path |
| Copying.SecondRequestRegisters | sr.go:427-428 | the second request of a turn, when there is one, reaches subjects/<target>/versions under the destination registry's base path |
| Copying.CopySubjectReachesEndpoints | sr.go:422-428 | one loop turn reads subjects/<s>/versions/latest on the source, then registers under the target subject on the destination |
| Copying.CopyAll | sr.go:421-434 | subjects are handled in order; every subject before the count succeeded, the error is the failing subject's, and nothing after it was sent |
| Copying.Copy | sr.go:414-437 | a failed listing copies nothing and returns its error; otherwise the listed subjects are copied in order, each under the name the first-occurrence replacement gives it, until the first failure, whose error is returned with the count of subjects copied before it; the requests sent are the listing followed by each attempted turn's |
| Copying.SecondFailureStopsCopy | sr.go:421-434 | when the second subject fails, the count is one and only the first two subjects were attempted |
| LegacyApi.NewHost | api.go:20-29 | a host exactly when the address parses, keeping the verbose flag |
| LegacyApi.ParseResponse | api.go:82-111 | a transport or read error comes back unchanged; outside 2xx the error envelope is the error; inside 2xx the target is decoded |
| LegacyApi.NonSuccessIgnoresTarget | api.go:99-107 | outside the 2xx range the result is an error that does not depend on the caller's target |
| LegacyApi.Post | api.go:113-123 | the host path is overwritten first; a marshal failure sends nothing; otherwise one POST with only the Content-Type header |
| LegacyApi.Get | api.go:125-136 | the host path is overwritten; one GET with only the Accept header, whose response is parsed |
| LegacyApi.AddSchema | api.go:31-36 | POSTs the marshalled schema, with only the Content-Type header, to subjects/<subject>/versions on the host's new path; nothing is sent exactly when marshalling fails, and the marshal error is then the result |
| LegacyApi.CheckSchema | api.go:38-43 | POSTs the marshalled schema, with only the Content-Type header, to subjects/<subject>; nothing is sent exactly when marshalling fails |
| LegacyApi.CheckIsCompatible | api.go:45-50 | POSTs the marshalled schema, with only the Content-Type header, to compatibility/subjects/<subject>/versions/<version>; nothing is sent exactly when marshalling fails |
| LegacyApi.GetSchema | api.go:52-57 | one bodiless GET with only the Accept header to schemas/ids/<id>, its reply decoded as the `{"schema"}` document |
| LegacyApi.ListSubjects | api.go:59-64 | one bodiless GET with only the Accept header to subjects |
| LegacyApi.ListVersions | api.go:66-71 | one bodiless GET with only the Accept header to subjects/<subject>/versions |
| LegacyApi.GetVersion | api.go:73-78 | one bodiless GET with only the Accept header to subjects/<subject>/versions/<version> |
| LegacyApi.SentRequestsIgnoreBasePath | api.go:113-136 | the host's base path is lost: a request reaches its endpoint on a registry mounted at the root |
| LegacyApi.PreviousPathIsIrrelevant | api.go:113-136 | two hosts differing only in their path send the same requests and end equal |

## Left out

- The transport is a pure function of the request. A registry whose answers change over time (register, then fetch) is not modelled, so "a registered schema is returned by the next lookup" is a property of the server, not of this client.
- JSON syntax and `encoding/json` field matching are uninterpreted decoders. Partial filling of a target on a type error is not modelled.
- Client.ListSubjects: on a decode error it returns the empty list. Go may return a partly filled slice when decoding stops on a type error.
- Client.ListVersions: on a decode error it returns the empty list, for the same reason.
- `http.NewRequest` failing on a URL that `url.Parse` accepted is not modelled. Building a request fails only when parsing or marshalling fails.
- `url.URL.String()` and percent-escaping are not modelled. A URL is kept as its origin plus path segments.
- Http.Join: path.Join's cleaning of "." and ".." is not modelled; the routing lemmas require segments that exclude them.
- The text of error messages is not modelled. Only whether an error occurs, and its source, is kept.
- Go's integer widths for versions and `HasSchema`'s ids (`int`) are unbounded integers. The uint32 ids of `GetVersion`, `Register` and `GetSchema` are a 32-bit newtype.
- Strings are sequences of characters, not bytes.
- Verbose logging in api.go:93-97 only writes to the log and is left out.
- The legacy client's `http.DefaultClient` and `http.Post` are the same `Transport` parameter as in sr.go.
- LegacyApi.AddSchema: it returns only the decoded target or the error. Go also hands back its target object (api.go:33) with the error, zero-valued or partly filled.
- LegacyApi.CheckSchema: the same; Go also hands back its `CheckedSchema` target (api.go:40) with the error.
- LegacyApi.CheckIsCompatible: the same; Go also hands back its `IsCompatible` target (api.go:47) with the error.
- LegacyApi.GetSchema: the same; Go also hands back its `Schema` target (api.go:54) with the error.
- LegacyApi.ListSubjects: the same; Go also hands back its list (api.go:61), empty or partly filled, with the error.
- LegacyApi.ListVersions: the same; Go also hands back its list (api.go:68), empty or partly filled, with the error.
- LegacyApi.GetVersion: the same; Go also hands back its `Version` target (api.go:75) with the error.
- The legacy host's path mutation is modelled as a returned host. Shared mutation between concurrent callers is not modelled.
- The `sr/main.go` command-line tool, `functional.go`, and the tests that need a live registry are not part of this model.

## Findings

Both rows are the same slip: `json.Unmarshal` is given a pointer to a
struct pointer (`&schemaResponse`, `&configResponse`). For a body that is
the JSON literal `null`, encoding/json sets the inner pointer to nil and
reports no error, and the next line reads a field through it. Every
other failure path of sr.go returns its failure as an error value.

| source | as written | input that shows it | evidently intended | confidence | as-written member | corrected member |
|---|---|---|---|---|---|---|
| sr.go:83-87 | `GetSchema` decodes into `&schemaResponse` and then reads `schemaResponse.Schema` | a reply with body `null` and any status to a URL that parses | decode into `schemaResponse` itself, so that null leaves the zero `SchemaJSON`: the empty schema and no error | high; not executed | Client.GetSchemaAsWritten, Client.NullSchemaReply | Client.GetSchema, Client.NullSchemaReply |
| sr.go:270-274 | `compatibilityJSON` decodes into `&configResponse` and then reads `configResponse.Compatibility`; `GetSubjectCompatibility`, `GetDefaultCompatibility` and `GetSubjectDerivedCompatibility` call it | a reply with body `null` and any status to a config lookup | decode into `configResponse` itself, so that null leaves the zero `ConfigGetJSON`: level Zero and no error | high; not executed | Client.CompatibilityJsonAsWritten, Client.NullConfigReply | Client.CompatibilityJson, Client.NullConfigReply |
