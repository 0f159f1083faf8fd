/** HTTP vocabulary shared by both client variants: requests and responses,
    the injectable transport, errors, and the segment view of URL paths
    that Go's path.Join produces. */
module Http {

  newtype byte = x: int | 0 <= x < 256
  newtype uint32 = x: int | 0 <= x < 0x1_0000_0000

  /** A raw request or response body. */
  type Body = seq<byte>

  datatype Option<+T> = None | Some(value: T)

  /** Only whether an error occurs, and where it comes from, is modelled;
      the text of the messages is not. */
  datatype Error =
    | Failed(cause: string)                // raised by a collaborator (transport, url.Parse, encoding/json) and passed along
    | Unexpected(status: int, body: Body)  // built by the client from the status code and the raw body
    | Registry(code: int, message: string) // the registry's {"error_code", "message"} envelope

  datatype Result<+T> = Ok(value: T) | Err(error: Error)

  /** A URL path as the list of its segments. */
  type Path = seq<string>

  /** A parsed URL: `origin` stands for everything but the path (scheme,
      host, query), which the client never touches. */
  datatype Url = Url(origin: string, path: Path)

  datatype Method = GET | POST | PUT

  datatype Header = Header(name: string, value: string)

  datatype Request = Request(verb: Method, url: Url, headers: seq<Header>, body: Option<Body>)

  /** What the transport hands back. Reading the body may fail part-way;
      Go's ioutil.ReadAll then returns what it read together with the error. */
  datatype Response = Response(status: int, body: Body, readError: Option<Error>)

  /** The one injection seam: send a request, get a response or an error. */
  type Transport = Request -> Result<Response>

  const StatusOK := 200
  const StatusNotFound := 404

  /** A path element that path.Join keeps as exactly one segment. */
  predicate Segment(s: string) {
    s != "" && s != "." && s != ".." && '/' !in s
  }

  /** A well-formed path: no empty segment and no separator inside one. */
  predicate Clean(p: Path) {
    forall i :: 0 <= i < |p| ==> p[i] != "" && '/' !in p[i]
  }

  function Piece(cur: string): Path {
    if cur == "" then [] else [cur]
  }

  /** Splits s on '/' and drops empty pieces; cur is the piece read so far. */
  function SplitFrom(s: string, cur: string): (r: Path)
    requires '/' !in cur
    ensures Clean(r)
    decreases |s|
  {
    if s == [] then Piece(cur)
    else if s[0] == '/' then Piece(cur) + SplitFrom(s[1..], "")
    else SplitFrom(s[1..], cur + [s[0]])
  }

  /** The segments one element contributes: an element without a
      separator is one segment (none when empty), and any other is split. */
  function Pieces(e: string): (p: Path)
    ensures Clean(p)
  {
    if '/' in e then SplitFrom(e, "") else Piece(e)
  }

  /** path.Join(elems...): the elements' segments in order, empty ones
      dropped. Cleaning of "." and ".." is not modelled. */
  function Join(elems: seq<string>): (p: Path)
    ensures Clean(p)
  {
    if elems == [] then [] else Pieces(elems[0]) + Join(elems[1..])
  }

  lemma {:induction false} SplitWithoutSlash(s: string, cur: string)
    requires '/' !in cur && '/' !in s
    ensures SplitFrom(s, cur) == Piece(cur + s)
    decreases |s|
  {
    if s == [] {
      assert cur + s == cur;
    } else {
      assert s[0] != '/' by { assert s[0] in s; }
      assert cur + s == (cur + [s[0]]) + s[1..];
      SplitWithoutSlash(s[1..], cur + [s[0]]);
    }
  }

  /** Keeping a separator-free element whole is what splitting it gives. */
  lemma PiecesSplitsOnSlash(e: string)
    ensures Pieces(e) == SplitFrom(e, "")
  {
    if '/' !in e {
      SplitWithoutSlash(e, "");
      assert "" + e == e;
    }
  }

  /** Joining elements that are each a single segment yields exactly them. */
  lemma {:induction false} JoinOfSegments(elems: seq<string>)
    requires forall i :: 0 <= i < |elems| ==> Segment(elems[i])
    ensures Join(elems) == elems
  {
    if elems != [] {
      assert Pieces(elems[0]) == [elems[0]];
      JoinOfSegments(elems[1..]);
    }
  }

  /** A clean path is its own join: every segment is kept as it is. */
  lemma {:induction false} JoinOfClean(p: Path)
    ensures Clean(p) ==> Join(p) == p
  {
    if p != [] && Clean(p) {
      assert p[0] != "" && '/' !in p[0];
      assert Pieces(p[0]) == [p[0]];
      JoinOfClean(p[1..]);
    }
  }

  /** Joining two lists of elements is joining each and concatenating:
      path.Join(a..., b...) has the segments of a followed by those of b. */
  lemma {:induction false} JoinAppend(a: seq<string>, b: seq<string>)
    ensures Join(a + b) == Join(a) + Join(b)
  {
    if a == [] {
      assert a + b == b;
    } else {
      assert (a + b)[0] == a[0];
      assert (a + b)[1..] == a[1..] + b;
      JoinAppend(a[1..], b);
    }
  }

  lemma JoinKeepsSegments(elems: seq<string>)
    ensures (forall i :: 0 <= i < |elems| ==> Segment(elems[i])) ==> Join(elems) == elems
  {
    if forall i :: 0 <= i < |elems| ==> Segment(elems[i]) {
      JoinOfSegments(elems);
    }
  }

  /** An empty element contributes nothing: path.Join skips it. */
  lemma JoinSkipsEmpty(a: seq<string>, b: seq<string>)
    ensures Join(a + [""] + b) == Join(a + b)
  {
    if a == [] {
      assert a + [""] + b == [""] + b;
      assert ([""] + b)[1..] == b;
      assert Pieces("") == [];
      assert a + b == b;
    } else {
      assert (a + [""] + b)[1..] == a[1..] + [""] + b;
      assert (a + b)[1..] == a[1..] + b;
      JoinSkipsEmpty(a[1..], b);
    }
  }
}
