/** The registry's REST endpoints: the method and path of each, and the
    server-side dispatch that reads a request back into the endpoint it
    names. The dispatch is the partner the request builders are checked
    against: a built request must reach the endpoint it was built for. */
module Routes {

  import opened Http
  import opened Subjects
  import Decimal

  datatype Endpoint =
    | SchemaById(id: int)                              // GET  schemas/ids/<id>
    | RegisterSchema(subject: Subject)                 // POST subjects/<s>/versions
    | SubjectVersion(subject: Subject, version: string) // GET subjects/<s>/versions/<v>
    | LookupSchema(subject: Subject)                   // POST subjects/<s>
    | CheckCompatibility(subject: Subject, version: string) // POST compatibility/subjects/<s>/versions/<v>
    | SubjectList                                       // GET  subjects
    | SubjectVersions(subject: Subject)                // GET  subjects/<s>/versions
    | GlobalConfig                                     // GET  config
    | SubjectConfig(subject: Subject)                  // GET  config/<s>
    | UpdateSubjectConfig(subject: Subject)            // PUT  config/<s>

  function MethodOf(e: Endpoint): Method {
    match e
    case RegisterSchema(_) => POST
    case LookupSchema(_) => POST
    case CheckCompatibility(_, _) => POST
    case UpdateSubjectConfig(_) => PUT
    case _ => GET
  }

  /** The path elements of an endpoint, in the order path.Join receives them. */
  function ElementsOf(e: Endpoint): seq<string> {
    match e
    case SchemaById(id) => ["schemas", "ids", Decimal.FormatInt(id)]
    case RegisterSchema(s) => ["subjects", s, "versions"]
    case SubjectVersion(s, v) => ["subjects", s, "versions", v]
    case LookupSchema(s) => ["subjects", s]
    case CheckCompatibility(s, v) => ["compatibility", "subjects", s, "versions", v]
    case SubjectList => ["subjects"]
    case SubjectVersions(s) => ["subjects", s, "versions"]
    case GlobalConfig => ["config"]
    case SubjectConfig(s) => ["config", s]
    case UpdateSubjectConfig(s) => ["config", s]
  }

  /** Every identifier in the endpoint is one clean path segment and the
      id is not negative. The client does not check this; it is what the
      caller must supply for the path to mean what it says. */
  predicate WellFormed(e: Endpoint) {
    match e
    case SchemaById(id) => id >= 0
    case SubjectVersion(s, v) => Segment(s) && Segment(v)
    case CheckCompatibility(s, v) => Segment(s) && Segment(v)
    case SubjectList => true
    case GlobalConfig => true
    case _ => Segment(e.subject)
  }

  /** The registry's dispatch on a path relative to its base. */
  function Dispatch(m: Method, p: Path): Option<Endpoint> {
    match m
    case GET =>
      if p == ["subjects"] then Some(SubjectList)
      else if p == ["config"] then Some(GlobalConfig)
      else if |p| == 2 && p[0] == "config" then Some(SubjectConfig(p[1]))
      else if |p| == 3 && p[0] == "schemas" && p[1] == "ids" && Decimal.IsNumeral(p[2]) then
        Some(SchemaById(Decimal.Value(p[2])))
      else if |p| == 3 && p[0] == "subjects" && p[2] == "versions" then Some(SubjectVersions(p[1]))
      else if |p| == 4 && p[0] == "subjects" && p[2] == "versions" then Some(SubjectVersion(p[1], p[3]))
      else None
    case POST =>
      if |p| == 2 && p[0] == "subjects" then Some(LookupSchema(p[1]))
      else if |p| == 3 && p[0] == "subjects" && p[2] == "versions" then Some(RegisterSchema(p[1]))
      else if |p| == 5 && p[0] == "compatibility" && p[1] == "subjects" && p[3] == "versions" then
        Some(CheckCompatibility(p[2], p[4]))
      else None
    case PUT =>
      if |p| == 2 && p[0] == "config" then Some(UpdateSubjectConfig(p[1])) else None
  }

  /** The endpoint a registry mounted at path `base` serves for request q. */
  function Route(base: Path, q: Request): Option<Endpoint> {
    if base <= q.url.path then Dispatch(q.verb, q.url.path[|base|..]) else None
  }

  lemma NumeralIsSegment(s: string)
    requires Decimal.IsNumeral(s)
    ensures Segment(s)
  {
    assert Decimal.IsDigit(s[0]);
  }

  /** Dispatch reads every well-formed endpoint's own method and elements
      back into that endpoint. */
  lemma DispatchInvertsElements(e: Endpoint)
    requires WellFormed(e)
    ensures Dispatch(MethodOf(e), ElementsOf(e)) == Some(e)
  {
    if e.SchemaById? {
      var s := Decimal.Format(e.id);
      assert ElementsOf(e)[2] == s;
      Decimal.ValueOfFormat(e.id);
    }
  }

  /** The path elements of a well-formed endpoint are single segments, so
      path.Join keeps them as they are. */
  lemma {:induction false} ElementsAreSegments(e: Endpoint)
    requires WellFormed(e)
    ensures Join(ElementsOf(e)) == ElementsOf(e)
  {
    if e.SchemaById? {
      NumeralIsSegment(Decimal.Format(e.id));
    }
    JoinOfSegments(ElementsOf(e));
  }

  /** A request sent with an endpoint's method to the registry's base path
      followed by the endpoint's joined elements reaches that endpoint, and
      its path is exactly the base followed by the elements. */
  lemma {:induction false} RequestReachesEndpoint(base: Path, q: Request, e: Endpoint)
    requires WellFormed(e)
    requires q.verb == MethodOf(e) && q.url.path == base + Join(ElementsOf(e))
    ensures q.url.path == base + ElementsOf(e)
    ensures Route(base, q) == Some(e)
  {
    ElementsAreSegments(e);
    assert q.url.path[|base|..] == ElementsOf(e);
    DispatchInvertsElements(e);
  }

  /** Two different well-formed endpoints never share a method and path. */
  lemma {:induction false} EndpointsAreDistinguishable(e1: Endpoint, e2: Endpoint)
    requires WellFormed(e1) && WellFormed(e2) && e1 != e2
    ensures MethodOf(e1) != MethodOf(e2) || Join(ElementsOf(e1)) != Join(ElementsOf(e2))
  {
    DispatchInvertsElements(e1);
    DispatchInvertsElements(e2);
    ElementsAreSegments(e1);
    ElementsAreSegments(e2);
  }
}
