/** The response handler and the registry operations of sr.go. Each
    operation builds its request, runs it through `doJSON`, and then applies
    its own rule to the status and the decoded payload. Besides Go's value
    and error results, every operation reports the requests it put on the
    wire, so that "the transport is not touched" can be stated. */
module Client {

  import opened Http
  import opened Subjects
  import opened Formats
  import opened Routes
  import opened Requests
  import Compatibility

  /** What doJSON returns: the status and raw body read (0 and empty when
      the transport failed), the error, and the decoded target on success. */
  datatype Exchange<T> = Exchange(status: int, body: Body, err: Option<Error>, decoded: Option<T>)

  /** A registry operation's outcome: Go's value result, which is defined on
      error paths too, the error, and the requests handed to the transport. */
  datatype Call<T> = Call(value: T, err: Option<Error>, sent: seq<Request>)

  /** What compatibilityJSON returns. */
  datatype Lookup = Lookup(status: int, level: Compatibility.Compatibility, err: Option<Error>)

  /** The request that reaches the transport: the built one, or none when building failed. */
  function Attempted(built: Result<Request>): seq<Request> {
    if built.Ok? then [built.value] else []
  }

  /** The transport answered q and its body was read in full. */
  predicate Delivered(client: Transport, q: Request) {
    client(q).Ok? && client(q).value.readError.None?
  }

  /** Exactly one request was sent, it was delivered, and its body decodes with decode. */
  predicate Answered<T>(client: Transport, sent: seq<Request>, decode: Body -> Result<T>) {
    |sent| == 1 && Delivered(client, sent[0]) && decode(client(sent[0]).value.body).Ok?
  }

  /** The payload decoded from the answer. */
  function Answer<T>(client: Transport, sent: seq<Request>, decode: Body -> Result<T>): T
    requires Answered(client, sent, decode)
  {
    decode(client(sent[0]).value.body).value
  }

  /** The single request sent got a response with the given status. */
  predicate AnsweredWith(client: Transport, sent: seq<Request>, status: int) {
    |sent| == 1 && client(sent[0]).Ok? && client(sent[0]).value.status == status
  }

  /** `doJSON`: a transport error comes back unchanged with status 0 and no
      body; otherwise the body is decoded whenever a target is given,
      whatever the status, and a decode failure becomes an error. */
  function DoJson<T>(client: Transport, q: Request, target: Option<Body -> Result<T>>): (x: Exchange<T>)
    ensures client(q).Err? ==> x.status == 0 && x.body == [] && x.err == Some(client(q).error) && x.decoded.None?
    ensures client(q).Ok? ==> x.status == client(q).value.status && x.body == client(q).value.body
    ensures client(q).Ok? && client(q).value.readError.Some? ==> x.err == client(q).value.readError && x.decoded.None?
    ensures Delivered(client, q) && target.None? ==> x.err.None? && x.decoded.None?
    ensures Delivered(client, q) && target.Some? ==>
              && (x.err.None? <==> target.value(x.body).Ok?)
              && (x.err.None? ==> x.decoded == Some(target.value(x.body).value))
              && (x.err.Some? ==> x.err == Some(Unexpected(x.status, x.body)) && x.decoded.None?)
  {
    match client(q)
    case Err(e) => Exchange(0, [], Some(e), None)
    case Ok(res) =>
      if res.readError.Some? then Exchange(res.status, res.body, res.readError, None)
      else
        match target
        case None => Exchange(res.status, res.body, None, None)
        case Some(decode) =>
          match decode(res.body)
          case Err(_) => Exchange(res.status, res.body, Some(Unexpected(res.status, res.body)), None)
          case Ok(v) => Exchange(res.status, res.body, None, Some(v))
  }

  /** doJSON never looks at the status: two responses that differ only in
      their status give the same error verdict and the same decoded value. */
  lemma DoJsonIgnoresStatus<T>(c1: Transport, c2: Transport, q: Request, target: Option<Body -> Result<T>>)
    requires c1(q).Ok? && c2(q).Ok?
    requires c1(q).value.body == c2(q).value.body && c1(q).value.readError == c2(q).value.readError
    ensures DoJson(c1, q, target).err.None? == DoJson(c2, q, target).err.None?
    ensures DoJson(c1, q, target).decoded == DoJson(c2, q, target).decoded
  {
  }

  /** What a failed version lookup returns: the id decoded from a reply
      whose schema was empty, and id 0 when nothing was decoded. */
  function ErrorReply(client: Transport, codec: Codec, sent: seq<Request>): VersionReply {
    if Answered(client, sent, codec.decodeVersion)
    then VersionReply(Answer(client, sent, codec.decodeVersion).id, EmptySchema)
    else VersionReply(0, EmptySchema)
  }

  /** `GetVersion`: succeeds exactly when the schema it returns is not
      empty. A reply that decodes to an empty schema is an error, though the
      decoded id is still handed back. */
  function GetVersion(client: Transport, codec: Codec, url: string, subject: Subject, version: string): (r: Call<VersionReply>)
    ensures r.sent == Attempted(GetVersionRequest(codec, url, subject, version))
    ensures r.err.None? <==> r.value.schema != EmptySchema
    ensures r.err.None? <==>
              Answered(client, r.sent, codec.decodeVersion) && Answer(client, r.sent, codec.decodeVersion).schema != EmptySchema
    ensures r.err.None? ==> Answered(client, r.sent, codec.decodeVersion) && r.value == Answer(client, r.sent, codec.decodeVersion)
    ensures r.err.Some? ==> r.value == ErrorReply(client, codec, r.sent)
  {
    var built := GetVersionRequest(codec, url, subject, version);
    if built.Err? then Call(VersionReply(0, EmptySchema), Some(built.error), [])
    else
      var x := DoJson(client, built.value, Some(codec.decodeVersion));
      var reply := if x.err.None? then x.decoded.value else VersionReply(0, EmptySchema);
      if x.err.None? && reply.schema == EmptySchema then
        Call(reply, Some(Unexpected(x.status, x.body)), [built.value])
      else
        Call(reply, x.err, [built.value])
  }

  /** `GetLatestSchema`: the version lookup for "latest". The GET is sent
      whenever the URL parses, and the call succeeds exactly when the answer
      decodes to a non-empty schema. */
  function GetLatestSchema(client: Transport, codec: Codec, url: string, subject: Subject): (r: Call<VersionReply>)
    ensures r.sent == Attempted(GetVersionRequest(codec, url, subject, "latest"))
    ensures r.err.None? <==> r.value.schema != EmptySchema
    ensures r.err.None? <==>
              Answered(client, r.sent, codec.decodeVersion) && Answer(client, r.sent, codec.decodeVersion).schema != EmptySchema
    ensures |r.sent| <= 1
    ensures forall q :: q in r.sent ==> IsPlainGet(q) && Addresses(codec, url, q, SubjectVersion(subject, "latest"))
    ensures r.err.None? ==> Answered(client, r.sent, codec.decodeVersion) && r.value == Answer(client, r.sent, codec.decodeVersion)
    ensures r.err.Some? ==> r.value == ErrorReply(client, codec, r.sent)
  {
    GetVersion(client, codec, url, subject, "latest")
  }

  /** `GetSchema`: the decoded schema, or EmptySchema on error. Unlike a
      version lookup, an empty decoded schema is not an error. */
  function GetSchema(client: Transport, codec: Codec, url: string, id: uint32): (r: Call<Schema>)
    ensures r.sent == Attempted(GetSchemaRequest(codec, url, id))
    ensures r.err.None? <==> Answered(client, r.sent, codec.decodeSchema)
    ensures r.err.None? ==> r.value == Answer(client, r.sent, codec.decodeSchema)
    ensures r.err.Some? ==> r.value == EmptySchema
  {
    var built := GetSchemaRequest(codec, url, id);
    if built.Err? then Call(EmptySchema, Some(built.error), [])
    else
      var x := DoJson(client, built.value, Some(codec.decodeSchema));
      if x.err.None? then Call(x.decoded.value, None, [built.value])
      else Call(EmptySchema, x.err, [built.value])
  }

  /** `Register`: succeeds exactly when the id is not zero; a decoded id of
      zero is turned into an error and every error returns id zero. */
  function Register(client: Transport, codec: Codec, url: string, subject: Subject, schema: Schema): (r: Call<uint32>)
    ensures r.sent == Attempted(RegisterRequest(codec, url, subject, SchemaJson(schema)))
    ensures r.err.None? <==> r.value != 0
    ensures r.err.None? <==> Answered(client, r.sent, codec.decodeId) && Answer(client, r.sent, codec.decodeId) != 0
    ensures r.err.None? ==> r.value == Answer(client, r.sent, codec.decodeId)
  {
    var built := RegisterRequest(codec, url, subject, SchemaJson(schema));
    if built.Err? then Call(0, Some(built.error), [])
    else
      var x := DoJson(client, built.value, Some(codec.decodeId));
      var id := if x.err.None? then x.decoded.value else 0;
      if x.err.None? && id == 0 then Call(id, Some(Unexpected(x.status, x.body)), [built.value])
      else Call(id, x.err, [built.value])
  }

  /** `HasSchema`: the version and id the registry reports for the schema;
      the status is not looked at, and every error returns (0, 0). */
  function HasSchema(client: Transport, codec: Codec, url: string, subject: Subject, schema: Schema): (r: Call<(int, int)>)
    ensures r.sent == Attempted(HasSchemaRequest(codec, url, subject, SchemaJson(schema)))
    ensures r.err.None? <==> Answered(client, r.sent, codec.decodeChecked)
    ensures r.err.None? ==>
              r.value == (Answer(client, r.sent, codec.decodeChecked).version, Answer(client, r.sent, codec.decodeChecked).id)
    ensures r.err.Some? ==> r.value == (0, 0)
  {
    var built := HasSchemaRequest(codec, url, subject, SchemaJson(schema));
    if built.Err? then Call((0, 0), Some(built.error), [])
    else
      var x := DoJson(client, built.value, Some(codec.decodeChecked));
      if x.err.None? then Call((x.decoded.value.version, x.decoded.value.id), None, [built.value])
      else Call((0, 0), x.err, [built.value])
  }

  /** `IsCompatible`: succeeds only on status 200 exactly, so a transport
      failure (status 0) and a well-decoded non-200 reply are both errors;
      on error the answer is false. */
  function IsCompatible(client: Transport, codec: Codec, url: string, subject: Subject, version: string, schema: Schema): (r: Call<bool>)
    ensures r.sent == Attempted(CheckIsCompatibleRequest(codec, url, subject, version, SchemaJson(schema)))
    ensures r.err.None? <==> Answered(client, r.sent, codec.decodeIsCompatible) && AnsweredWith(client, r.sent, StatusOK)
    ensures r.err.None? ==> r.value == Answer(client, r.sent, codec.decodeIsCompatible)
    ensures r.value ==> r.err.None?
  {
    var built := CheckIsCompatibleRequest(codec, url, subject, version, SchemaJson(schema));
    if built.Err? then Call(false, Some(built.error), [])
    else
      var x := DoJson(client, built.value, Some(codec.decodeIsCompatible));
      var err := if x.status != StatusOK then Some(Unexpected(x.status, x.body)) else x.err;
      if err.None? then Call(x.decoded.value, None, [built.value])
      else Call(false, err, [built.value])
  }

  /** `ListSubjects`: the decoded list, in the server's order. */
  function ListSubjects(client: Transport, codec: Codec, url: string): (r: Call<seq<Subject>>)
    ensures r.sent == Attempted(ListSubjectsRequest(codec, url))
    ensures r.err.None? <==> Answered(client, r.sent, codec.decodeSubjects)
    ensures r.err.None? ==> r.value == Answer(client, r.sent, codec.decodeSubjects)
    ensures r.err.Some? ==> r.value == []
  {
    var built := ListSubjectsRequest(codec, url);
    if built.Err? then Call([], Some(built.error), [])
    else
      var x := DoJson(client, built.value, Some(codec.decodeSubjects));
      if x.err.None? then Call(x.decoded.value, None, [built.value])
      else Call([], x.err, [built.value])
  }

  /** `ListVersions`: the decoded list, in the server's order. */
  function ListVersions(client: Transport, codec: Codec, url: string, subject: Subject): (r: Call<seq<int>>)
    ensures r.sent == Attempted(ListVersionsRequest(codec, url, subject))
    ensures r.err.None? <==> Answered(client, r.sent, codec.decodeVersions)
    ensures r.err.None? ==> r.value == Answer(client, r.sent, codec.decodeVersions)
    ensures r.err.Some? ==> r.value == []
  {
    var built := ListVersionsRequest(codec, url, subject);
    if built.Err? then Call([], Some(built.error), [])
    else
      var x := DoJson(client, built.value, Some(codec.decodeVersions));
      if x.err.None? then Call(x.decoded.value, None, [built.value])
      else Call([], x.err, [built.value])
  }

  /** `compatibilityJSON`: the decoded level whatever the status, Zero on
      error, and the status beside it. */
  function CompatibilityJson(client: Transport, codec: Codec, q: Request): (r: Lookup)
    ensures r.err.None? <==> Delivered(client, q) && codec.decodeConfigGet(client(q).value.body).Ok?
    ensures r.err.None? ==> r.level == codec.decodeConfigGet(client(q).value.body).value
    ensures r.err.Some? ==> r.level == Compatibility.Zero
    ensures r.status == (if client(q).Ok? then client(q).value.status else 0)
  {
    var x := DoJson(client, q, Some(codec.decodeConfigGet));
    if x.err.None? then Lookup(x.status, x.decoded.value, None)
    else Lookup(x.status, Compatibility.Zero, x.err)
  }

  /** `GetSubjectCompatibility`: the decoded level regardless of status, so
      a 404 envelope that decodes without a level gives (Zero, no error). */
  function GetSubjectCompatibility(client: Transport, codec: Codec, url: string, subject: Subject): (r: Call<Compatibility.Compatibility>)
    ensures r.sent == Attempted(GetSubjectConfigRequest(codec, url, subject))
    ensures r.err.None? <==> Answered(client, r.sent, codec.decodeConfigGet)
    ensures r.err.None? ==> r.value == Answer(client, r.sent, codec.decodeConfigGet)
    ensures r.err.Some? ==> r.value == Compatibility.Zero
  {
    var built := GetSubjectConfigRequest(codec, url, subject);
    if built.Err? then Call(Compatibility.Zero, Some(built.error), [])
    else
      var l := CompatibilityJson(client, codec, built.value);
      Call(l.level, l.err, [built.value])
  }

  /** `GetDefaultCompatibility`: the server-wide level, decoded regardless of status. */
  function GetDefaultCompatibility(client: Transport, codec: Codec, url: string): (r: Call<Compatibility.Compatibility>)
    ensures r.sent == Attempted(GetConfigRequest(codec, url))
    ensures r.err.None? <==> Answered(client, r.sent, codec.decodeConfigGet)
    ensures r.err.None? ==> r.value == Answer(client, r.sent, codec.decodeConfigGet)
    ensures r.err.Some? ==> r.value == Compatibility.Zero
  {
    var built := GetConfigRequest(codec, url);
    if built.Err? then Call(Compatibility.Zero, Some(built.error), [])
    else
      var l := CompatibilityJson(client, codec, built.value);
      Call(l.level, l.err, [built.value])
  }

  /** The subject lookup succeeded but the registry answered 404: the
      subject has no level of its own. */
  predicate NoOverride(client: Transport, sub: Call<Compatibility.Compatibility>) {
    sub.err.None? && AnsweredWith(client, sub.sent, StatusNotFound)
  }

  /** `GetSubjectDerivedCompatibility`: the server default exactly when the
      subject lookup succeeded with status 404, and otherwise the subject
      lookup's own result; the default is only asked for in the first case. */
  function GetSubjectDerivedCompatibility(client: Transport, codec: Codec, url: string, subject: Subject): (r: Call<Compatibility.Compatibility>)
    ensures var sub := GetSubjectCompatibility(client, codec, url, subject);
            var dflt := GetDefaultCompatibility(client, codec, url);
            NoOverride(client, sub) ==> r == Call(dflt.value, dflt.err, sub.sent + dflt.sent)
    ensures var sub := GetSubjectCompatibility(client, codec, url, subject);
            !NoOverride(client, sub) ==> r == sub
  {
    var built := GetSubjectConfigRequest(codec, url, subject);
    if built.Err? then Call(Compatibility.Zero, Some(built.error), [])
    else
      var l := CompatibilityJson(client, codec, built.value);
      if l.err.None? && l.status == StatusNotFound then
        var dflt := GetDefaultCompatibility(client, codec, url);
        Call(dflt.value, dflt.err, [built.value] + dflt.sent)
      else
        Call(l.level, l.err, [built.value])
  }

  /** `SetSubjectCompatibility`: succeeds only on status 200 exactly and
      then returns the level the server echoes; Zero on every error. */
  function SetSubjectCompatibility(client: Transport, codec: Codec, url: string, subject: Subject, level: Compatibility.Compatibility): (r: Call<Compatibility.Compatibility>)
    ensures r.sent == Attempted(PutSubjectConfigRequest(codec, url, subject, ConfigPutJson(level)))
    ensures r.err.None? <==> Answered(client, r.sent, codec.decodeConfigPut) && AnsweredWith(client, r.sent, StatusOK)
    ensures r.err.None? ==> r.value == Answer(client, r.sent, codec.decodeConfigPut)
    ensures r.err.Some? ==> r.value == Compatibility.Zero
  {
    var built := PutSubjectConfigRequest(codec, url, subject, ConfigPutJson(level));
    if built.Err? then Call(Compatibility.Zero, Some(built.error), [])
    else
      var x := DoJson(client, built.value, Some(codec.decodeConfigPut));
      var err := if x.err.None? && x.status != StatusOK then Some(Unexpected(x.status, x.body)) else x.err;
      if err.None? then Call(x.decoded.value, None, [built.value])
      else Call(Compatibility.Zero, err, [built.value])
  }

  /** Every request of a derived lookup for a well-formed subject reaches
      either that subject's config or the server-wide config: the first one
      the subject's, and the second, when there is one, the server-wide. */
  lemma DerivedLookupReachesConfig(client: Transport, codec: Codec, url: string, subject: Subject)
    requires Segment(subject)
    ensures var r := GetSubjectDerivedCompatibility(client, codec, url, subject);
            && |r.sent| <= 2
            && (forall q :: q in r.sent ==>
                  Route(BasePath(codec.parseUrl(url).value), q) == Some(SubjectConfig(subject)) ||
                  Route(BasePath(codec.parseUrl(url).value), q) == Some(GlobalConfig))
            && (|r.sent| > 0 ==> Route(BasePath(codec.parseUrl(url).value), r.sent[0]) == Some(SubjectConfig(subject)))
            && (|r.sent| == 2 ==> Route(BasePath(codec.parseUrl(url).value), r.sent[1]) == Some(GlobalConfig))
  {
    var r := GetSubjectDerivedCompatibility(client, codec, url, subject);
    var sub := GetSubjectCompatibility(client, codec, url, subject);
    var dflt := GetDefaultCompatibility(client, codec, url);
    forall q | q in sub.sent
      ensures Route(BasePath(codec.parseUrl(url).value), q) == Some(SubjectConfig(subject))
    {
      AddressedRequestReachesEndpoint(codec, url, q, SubjectConfig(subject));
    }
    forall q | q in dflt.sent
      ensures Route(BasePath(codec.parseUrl(url).value), q) == Some(GlobalConfig)
    {
      AddressedRequestReachesEndpoint(codec, url, q, GlobalConfig);
    }
    if NoOverride(client, sub) {
      assert r.sent == sub.sent + dflt.sent;
      assert r.sent[0] == sub.sent[0];
      if |r.sent| == 2 {
        assert r.sent[1] == dflt.sent[0];
      }
    }
  }

  /** A Go call that either returns its results or panics. */
  datatype Run<T> = Returned(call: T) | Panicked

  /** The transport answered q in full with a body that is the JSON
      literal null; isNull says which bodies are. */
  predicate NullReply(client: Transport, q: Request, isNull: Body -> bool) {
    Delivered(client, q) && isNull(client(q).value.body)
  }

  /** json.Unmarshal into a pointer to a struct pointer: null sets the
      pointer to nil and is not an error; any other body decodes as into
      the struct itself. */
  function IntoPointer<T>(decode: Body -> Result<T>, isNull: Body -> bool): Body -> Result<Option<T>> {
    b => if isNull(b) then Ok(None) else match decode(b) case Err(e) => Err(e) case Ok(v) => Ok(Some(v))
  }

  /** `GetSchema` as written: it decodes into `&schemaResponse`, a pointer
      to a pointer, so a null reply leaves schemaResponse nil and reading
      its Schema field panics. Any other outcome is GetSchema's. */
  function GetSchemaAsWritten(client: Transport, codec: Codec, isNull: Body -> bool, url: string, id: uint32): (r: Run<Call<Schema>>)
    ensures r.Panicked? <==> GetSchemaRequest(codec, url, id).Ok? && NullReply(client, GetSchemaRequest(codec, url, id).value, isNull)
    ensures r.Returned? ==> r.call == GetSchema(client, codec, url, id)
  {
    var built := GetSchemaRequest(codec, url, id);
    if built.Err? then Returned(Call(EmptySchema, Some(built.error), []))
    else
      var x := DoJson(client, built.value, Some(IntoPointer(codec.decodeSchema, isNull)));
      if x.err.Some? then Returned(Call(EmptySchema, x.err, [built.value]))
      else
        match x.decoded.value
        case None => Panicked
        case Some(schema) => Returned(Call(schema, None, [built.value]))
  }

  /** A null reply: the code as written panics, while GetSchema, whose
      decoder leaves an untouched SchemaJSON at its zero value, returns the
      empty schema without an error. */
  lemma NullSchemaReply(client: Transport, codec: Codec, isNull: Body -> bool, url: string, id: uint32)
    requires GetSchemaRequest(codec, url, id).Ok? && NullReply(client, GetSchemaRequest(codec, url, id).value, isNull)
    requires codec.decodeSchema(client(GetSchemaRequest(codec, url, id).value).value.body) == Ok(EmptySchema)
    ensures GetSchemaAsWritten(client, codec, isNull, url, id).Panicked?
    ensures GetSchema(client, codec, url, id) == Call(EmptySchema, None, [GetSchemaRequest(codec, url, id).value])
  {
  }

  /** `compatibilityJSON` as written: it decodes into `&configResponse`, a
      pointer to a pointer, so a null reply leaves configResponse nil and
      reading its level panics; GetSubjectCompatibility,
      GetDefaultCompatibility and GetSubjectDerivedCompatibility inherit
      the panic. Any other outcome is CompatibilityJson's. */
  function CompatibilityJsonAsWritten(client: Transport, codec: Codec, isNull: Body -> bool, q: Request): (r: Run<Lookup>)
    ensures r.Panicked? <==> NullReply(client, q, isNull)
    ensures r.Returned? ==> r.call == CompatibilityJson(client, codec, q)
  {
    var x := DoJson(client, q, Some(IntoPointer(codec.decodeConfigGet, isNull)));
    if x.err.Some? then Returned(Lookup(x.status, Compatibility.Zero, x.err))
    else
      match x.decoded.value
      case None => Panicked
      case Some(level) => Returned(Lookup(x.status, level, None))
  }

  /** A null reply: the code as written panics, while CompatibilityJson,
      whose decoder leaves an untouched ConfigGetJSON at its zero value,
      returns the status with Zero and no error. */
  lemma NullConfigReply(client: Transport, codec: Codec, isNull: Body -> bool, q: Request)
    requires NullReply(client, q, isNull)
    requires codec.decodeConfigGet(client(q).value.body) == Ok(Compatibility.Zero)
    ensures CompatibilityJsonAsWritten(client, codec, isNull, q).Panicked?
    ensures CompatibilityJson(client, codec, q) == Lookup(client(q).value.status, Compatibility.Zero, None)
  {
  }
}
