/**
 * Handler chains: an address filter guarding a redirect, the chain a proxy
 * is typically configured with, and what it does end to end.
 */
module Proxy {
  import opened Results
  import opened Net
  import opened Http
  import opened Handler
  import opened Filters
  import opened Redirects

  /** A whitelist filter in front of a redirect to `to`. */
  function WhitelistRedirect(to: Authority, whitelist: set<SocketAddr>): Filter<ClientError>
  {
    AddrWhitelist(Redirects.AsHandler(ChangeAuthorityRedirect(to)), whitelist)
  }

  /** A blacklist filter in front of a redirect to `to`. */
  function BlacklistRedirect(to: Authority, blacklist: set<SocketAddr>): Filter<ClientError>
  {
    AddrBlacklist(Redirects.AsHandler(ChangeAuthorityRedirect(to)), blacklist)
  }

  /**
   * The chain of a whitelist in front of a redirect: a listed caller's
   * request goes upstream with only its authority replaced, and the
   * upstream outcome comes back unchanged (a transport failure wrapped as
   * `Inner`); any other caller's request is filtered out, whatever the
   * client would have answered.
   */
  lemma WhitelistRedirectChain(to: Authority, whitelist: set<SocketAddr>, from: SocketAddr, request: Request, client: Client)
    requires from in whitelist ==> CanRewrite(ChangeAuthority(to), request.uri)
    ensures from in whitelist ==>
      Filters.Handle(WhitelistRedirect(to, whitelist), from, request, client) == LiftInner(client(Forwarded(ChangeAuthority(to), request)))
    ensures from !in whitelist ==>
      Filters.Handle(WhitelistRedirect(to, whitelist), from, request, client) == Err(FilteredOut(from, request))
  {
    var filter := WhitelistRedirect(to, whitelist);
    if from in whitelist {
      AdmissionPassesThrough(filter, from, request, client);
    }
  }

  /** The address 127.0.0.1:9000. */
  function LocalCaller(): SocketAddr { V4(127, 0, 0, 1, 9000) }

  /** The address 10.0.0.5:1234. */
  function RemoteCaller(): SocketAddr { V4(10, 0, 0, 5, 1234) }

  /**
   * With the whitelist {127.0.0.1:9000} in front of a redirect to
   * `upstream.test`, a request from 127.0.0.1:9000 is forwarded and the
   * upstream response relayed unchanged, and a request from 10.0.0.5:1234
   * is filtered out without an outbound call.
   */
  lemma WhitelistScenario(request: Request, client: Client, response: Response)
    requires CanRewrite(ChangeAuthority("upstream.test"), request.uri)
    requires client(Forwarded(ChangeAuthority("upstream.test"), request)) == Ok(response)
    ensures Filters.Handle(WhitelistRedirect("upstream.test", {LocalCaller()}), LocalCaller(), request, client) == Ok(response)
    ensures Filters.Handle(WhitelistRedirect("upstream.test", {LocalCaller()}), RemoteCaller(), request, client)
         == Err(FilteredOut(RemoteCaller(), request))
  {
    WhitelistRedirectChain("upstream.test", {LocalCaller()}, LocalCaller(), request, client);
    WhitelistRedirectChain("upstream.test", {LocalCaller()}, RemoteCaller(), request, client);
  }

  /**
   * With the blacklist {10.0.0.5:1234} in front of a redirect, a request
   * from 127.0.0.1:9000 is forwarded and a request from 10.0.0.5:1234 is
   * rejected.
   */
  lemma BlacklistScenario(to: Authority, request: Request, client: Client)
    requires CanRewrite(ChangeAuthority(to), request.uri)
    ensures Filters.Handle(BlacklistRedirect(to, {RemoteCaller()}), LocalCaller(), request, client)
         == LiftInner(client(Forwarded(ChangeAuthority(to), request)))
    ensures Filters.Handle(BlacklistRedirect(to, {RemoteCaller()}), RemoteCaller(), request, client)
         == Err(FilteredOut(RemoteCaller(), request))
  {
    var filter := BlacklistRedirect(to, {RemoteCaller()});
    assert LocalCaller() != RemoteCaller();
    AdmissionPassesThrough(filter, LocalCaller(), request, client);
  }
}
