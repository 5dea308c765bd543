/**
 * The HTTP values a handler sees: request targets (URIs), requests and
 * responses. Parsing and serialising HTTP belongs to the transport; here a
 * URI is the record of its three optional components, and a request is the
 * record of its head and its body.
 */
module Http {
  import opened Results
  import Net

  /** The scheme component of a URI; the two standard schemes have their own cases. */
  datatype Scheme = Http | Https | Other(name: OtherScheme)

  /** The name of a non-standard scheme. */
  type OtherScheme = s: string | s != "http" && s != "https" witness "ftp"

  /** The authority component (`host[:port]`); the URI library never builds an empty one. */
  type Authority = s: string | s != [] witness "localhost"

  /** The path and the optional query of a URI. */
  datatype PathAndQuery = PathAndQuery(path: string, query: Option<string>)

  /** The components a URI is taken apart into and rebuilt from. */
  datatype UriParts = UriParts(scheme: Option<Scheme>, authority: Option<Authority>, pathAndQuery: Option<PathAndQuery>)

  /** Why a set of components does not make a URI. */
  datatype InvalidUriParts = AuthorityMissing | PathAndQueryMissing | SchemeMissing

  /**
   * The consistency rule the URI library applies when it rebuilds a URI from
   * its components: a scheme needs both an authority and a path, and without
   * a scheme an authority and a path may not both be present.
   */
  predicate ValidParts(p: UriParts)
  {
    if p.scheme.Some? then p.authority.Some? && p.pathAndQuery.Some?
    else !(p.authority.Some? && p.pathAndQuery.Some?)
  }

  /** A URI: components that the rule above accepts. */
  type Uri = p: UriParts | ValidParts(p) witness UriParts(None, None, None)

  /** Rebuilding a URI from components, failing with the first violated rule. */
  function UriFromParts(p: UriParts): (r: Result<Uri, InvalidUriParts>)
    ensures r.Ok? <==> ValidParts(p)
    ensures r.Ok? ==> r.value == p
    ensures r == Err(SchemeMissing) <==> p.scheme.None? && p.authority.Some? && p.pathAndQuery.Some?
  {
    if p.scheme.Some? then
      if p.authority.None? then Err(AuthorityMissing)
      else if p.pathAndQuery.None? then Err(PathAndQueryMissing)
      else Ok(p)
    else if p.authority.Some? && p.pathAndQuery.Some? then Err(SchemeMissing)
    else Ok(p)
  }

  function SchemeText(s: Scheme): string
  {
    match s
    case Http => "http"
    case Https => "https"
    case Other(name) => name
  }

  /** The text of a URI up to its authority: `scheme://`, or nothing. */
  function SchemePrefix(u: UriParts): string
  {
    if u.scheme.Some? then SchemeText(u.scheme.value) + "://" else ""
  }

  /** The text of a URI's authority, or nothing. */
  function AuthorityText(u: UriParts): string
  {
    if u.authority.Some? then u.authority.value else ""
  }

  /** The text of a URI after its authority: the path and `?query`, or nothing. */
  function PathText(u: UriParts): string
  {
    match u.pathAndQuery
    case None => ""
    case Some(pq) => pq.path + (if pq.query.Some? then "?" + pq.query.value else "")
  }

  /** A URI written out as text, component after component. */
  function Text(u: UriParts): string
  {
    SchemePrefix(u) + AuthorityText(u) + PathText(u)
  }

  datatype Method = Options | Get | Post | Put | Delete | Head | Trace | Connect | Patch | Extension(name: string)

  datatype Version = Http09 | Http10 | Http11 | Http2 | Http3

  /** Header fields in order; a name may occur more than once. */
  type Headers = seq<(string, string)>

  type Body = seq<Net.Byte>

  /** An HTTP request: its head (method, target, version, headers) and its body. */
  datatype Request = Request(verb: Method, uri: Uri, version: Version, headers: Headers, body: Body)

  /** An HTTP response as the outbound client delivers it. */
  datatype Response = Response(status: nat, version: Version, headers: Headers, body: Body)

  /**
   * The head of a request taken apart from its body, so that its fields can
   * be rewritten in place before the request is put back together.
   */
  class RequestParts {
    var verb: Method
    var uri: Uri
    var version: Version
    var headers: Headers

    /** Takes a request apart: the head goes into the new object, the body is returned beside it. */
    constructor (request: Request)
      ensures verb == request.verb && uri == request.uri
      ensures version == request.version && headers == request.headers
    {
      verb := request.verb;
      uri := request.uri;
      version := request.version;
      headers := request.headers;
    }

    /** Puts the request back together from this head and a body. */
    function Assemble(body: Body): Request
      reads this
    {
      Request(verb, uri, version, headers, body)
    }
  }

  /** Splits a request into its head and its body. */
  method IntoParts(request: Request) returns (parts: RequestParts, body: Body)
    ensures fresh(parts)
    ensures parts.Assemble(body) == request
  {
    parts := new RequestParts(request);
    body := request.body;
  }
}
