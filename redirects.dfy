/**
 * The redirecting handler: it rewrites the target of a request in place
 * with an exchangeable strategy and hands the rewritten request to the
 * shared outbound client, whose outcome is its own.
 */
module Redirects {
  import opened Results
  import opened Net
  import opened Http
  import opened Handler

  /**
   * The exchangeable rewrite strategy of a redirect: replace the authority
   * with a fixed one, or apply an arbitrary rewrite function.
   */
  datatype RedirectLogic =
    | ChangeAuthority(to: Authority)
    | RedirectFn(rewrite: Uri -> Uri)

  /**
   * Whether the strategy can rewrite `uri` without failing. Replacing the
   * authority rebuilds the URI from its components, which the URI library
   * refuses when the new components break its consistency rule.
   */
  predicate CanRewrite(logic: RedirectLogic, uri: Uri)
  {
    match logic
    case ChangeAuthority(to) => ValidParts(uri.(authority := Some(to)))
    case RedirectFn(_) => true
  }

  /** The URI `uri` with its authority replaced by `to`. */
  function WithAuthority(uri: Uri, to: Authority): (r: Uri)
    requires ValidParts(uri.(authority := Some(to)))
    ensures r.authority == Some(to)
    ensures r.scheme == uri.scheme && r.pathAndQuery == uri.pathAndQuery
  {
    uri.(authority := Some(to))
  }

  /** The target the strategy turns `uri` into. */
  function Rewrite(logic: RedirectLogic, uri: Uri): Uri
    requires CanRewrite(logic, uri)
  {
    match logic
    case ChangeAuthority(to) => WithAuthority(uri, to)
    case RedirectFn(rewrite) => rewrite(uri)
  }

  /**
   * Replacing the authority succeeds exactly on URIs that have a scheme
   * (absolute form) or have no path (authority form); a URI with a path but
   * no scheme (origin form, `/a/b/c`) makes the rebuild fail.
   */
  lemma CanChangeAuthorityIff(uri: Uri, to: Authority)
    ensures CanRewrite(ChangeAuthority(to), uri) <==> uri.scheme.Some? || uri.pathAndQuery.None?
    ensures !CanRewrite(ChangeAuthority(to), uri) ==> UriFromParts(uri.(authority := Some(to))) == Err(SchemeMissing)
  {
  }

  /** Replacing the authority twice with the same value is the same as doing it once. */
  lemma ChangeAuthorityIdempotent(uri: Uri, to: Authority)
    requires CanRewrite(ChangeAuthority(to), uri)
    ensures CanRewrite(ChangeAuthority(to), Rewrite(ChangeAuthority(to), uri))
    ensures Rewrite(ChangeAuthority(to), Rewrite(ChangeAuthority(to), uri)) == Rewrite(ChangeAuthority(to), uri)
  {
  }

  /**
   * Written out as text, the rewritten URI is the original with only the
   * authority in between the `scheme://` prefix and the path replaced.
   */
  lemma ChangeAuthorityText(uri: Uri, to: Authority)
    requires CanRewrite(ChangeAuthority(to), uri)
    ensures Text(Rewrite(ChangeAuthority(to), uri)) == SchemePrefix(uri) + to + PathText(uri)
  {
  }

  /**
   * The documented example: a request to the proxy's own address
   * `http://127.0.0.1:8080/a/b/c`, redirected to `example.com`, targets
   * `http://example.com/a/b/c`; the same path in origin form cannot be
   * rewritten.
   */
  lemma DocumentedExample(own: Uri, origin: Uri)
    requires own == UriParts(Some(Http), Some("127.0.0.1:8080"), Some(PathAndQuery("/a/b/c", None)))
    requires origin == UriParts(None, None, Some(PathAndQuery("/a/b/c", None)))
    ensures CanRewrite(ChangeAuthority("example.com"), own)
    ensures Text(Rewrite(ChangeAuthority("example.com"), own)) == "http://example.com/a/b/c"
    ensures !CanRewrite(ChangeAuthority("example.com"), origin)
  {
    var moved := Rewrite(ChangeAuthority("example.com"), own);
    assert moved == UriParts(Some(Http), Some("example.com"), Some(PathAndQuery("/a/b/c", None)));
    DocumentedExampleText(moved);
  }

  lemma DocumentedExampleText(moved: UriParts)
    requires moved == UriParts(Some(Http), Some("example.com"), Some(PathAndQuery("/a/b/c", None)))
    ensures Text(moved) == "http://example.com/a/b/c"
  {
  }

  /** The query survives the rewrite: `http://old.example/a/b?q=1` becomes `http://new.example/a/b?q=1`. */
  lemma QueryExample(target: Uri)
    requires target == UriParts(Some(Http), Some("old.example"), Some(PathAndQuery("/a/b", Some("q=1"))))
    ensures Text(target) == "http://old.example/a/b?q=1"
    ensures CanRewrite(ChangeAuthority("new.example"), target)
    ensures Text(Rewrite(ChangeAuthority("new.example"), target)) == "http://new.example/a/b?q=1"
  {
    QueryExampleTextBefore(target);
    var moved := Rewrite(ChangeAuthority("new.example"), target);
    assert moved == UriParts(Some(Http), Some("new.example"), Some(PathAndQuery("/a/b", Some("q=1"))));
    QueryExampleTextAfter(moved);
  }

  lemma QueryExampleTextBefore(target: UriParts)
    requires target == UriParts(Some(Http), Some("old.example"), Some(PathAndQuery("/a/b", Some("q=1"))))
    ensures Text(target) == "http://old.example/a/b?q=1"
  {
    assert PathText(target) == "/a/b?q=1" by { assert "/a/b" + "?q=1" == "/a/b?q=1"; }
  }

  lemma QueryExampleTextAfter(moved: UriParts)
    requires moved == UriParts(Some(Http), Some("new.example"), Some(PathAndQuery("/a/b", Some("q=1"))))
    ensures Text(moved) == "http://new.example/a/b?q=1"
  {
    assert PathText(moved) == "/a/b?q=1" by { assert "/a/b" + "?q=1" == "/a/b?q=1"; }
  }

  /** A rewrite strategy made from a plain function: it applies exactly that function. */
  function RedirectFnLogic(rewrite: Uri -> Uri): (logic: RedirectLogic)
    ensures forall uri :: CanRewrite(logic, uri) && Rewrite(logic, uri) == rewrite(uri)
  {
    RedirectFn(rewrite)
  }

  /** A redirect: the strategy it rewrites targets with. */
  datatype Redirect = Redirect(logic: RedirectLogic)

  /** A redirect that sends every request it can rewrite to the authority `to`. */
  function ChangeAuthorityRedirect(to: Authority): (redirect: Redirect)
    ensures redirect.logic == ChangeAuthority(to)
    ensures forall uri :: CanRewrite(redirect.logic, uri) ==>
      Rewrite(redirect.logic, uri).authority == Some(to)
  {
    Redirect(ChangeAuthority(to))
  }

  /**
   * The request a redirect hands to the outbound client: the inbound
   * request with its target rewritten and everything else as it was.
   */
  function Forwarded(logic: RedirectLogic, request: Request): (forwarded: Request)
    requires CanRewrite(logic, request.uri)
    ensures forwarded.uri == Rewrite(logic, request.uri)
    ensures forwarded.verb == request.verb && forwarded.version == request.version
    ensures forwarded.headers == request.headers && forwarded.body == request.body
  {
    request.(uri := Rewrite(logic, request.uri))
  }

  /** Lets the strategy rewrite the target held in `parts`, in place; nothing else in `parts` changes. */
  method ChangeUri(logic: RedirectLogic, parts: RequestParts)
    requires CanRewrite(logic, parts.uri)
    modifies parts`uri
    ensures parts.uri == Rewrite(logic, old(parts.uri))
  {
    match logic
    case ChangeAuthority(to) =>
      var uriParts: UriParts := parts.uri;
      uriParts := uriParts.(authority := Some(to));
      var rebuilt := UriFromParts(uriParts);
      parts.uri := rebuilt.value;
    case RedirectFn(rewrite) =>
      parts.uri := rewrite(parts.uri);
  }

  /**
   * Handles a request: takes it apart, rewrites its target, puts it back
   * together and returns the outbound client's outcome for it. The caller's
   * address plays no part.
   */
  method Handle(redirect: Redirect, from: SocketAddr, request: Request, client: Client)
    returns (r: Result<Response, ClientError>)
    requires CanRewrite(redirect.logic, request.uri)
    ensures r == client(Forwarded(redirect.logic, request))
  {
    var parts, body := IntoParts(request);
    ChangeUri(redirect.logic, parts);
    r := client(parts.Assemble(body));
  }

  /** The redirect as a request handler, defined on the requests it can rewrite. */
  function AsHandler(redirect: Redirect): (handler: Handler<ClientError>)
    ensures forall from: SocketAddr, request: Request, client: Client | CanRewrite(redirect.logic, request.uri) ::
      handler.requires(from, request, client) && handler(from, request, client) == client(Forwarded(redirect.logic, request))
  {
    (from: SocketAddr, request: Request, client: Client) requires CanRewrite(redirect.logic, request.uri) =>
      client(Forwarded(redirect.logic, request))
  }
}
