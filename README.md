# proxylib handlers in Dafny

A model of the two built-in request handlers of `proxylib`, a Rust library
for building forwarding HTTP proxies out of composable handlers.

- **Filter** (`src/handlers/filter.rs`) decorates an inner handler with an
  admission strategy (`FilterLogic`). An admitted request is delegated, and an
  inner failure `e` becomes `FilterError::Inner(e)`. A rejected request is
  answered at once with `FilterError::FilteredOut(caller, request)`, and the
  inner handler is never called. The strategy is either an `AddrLookupFilter`
  or a plain function (`filter_fn`). An `AddrLookupFilter` is a set of socket
  addresses with an `is_blacklist` flag. `addr_whitelist` and
  `addr_blacklist` build a filter with that flag fixed.
- **Redirect** (`src/handlers/redirect.rs`) takes a request apart. Its
  strategy (`RedirectLogic`) rewrites the target URI in place. The request
  is then put back together and handed to the shared outbound client, whose
  outcome the redirect returns. The strategy is either `ChangeAuthority`,
  which replaces the URI's authority, or a plain function (`redirect_fn`).

How the Rust is represented:

- `results.dfy` (`Results`) holds `Option` and `Result`.
- `net.dfy` (`Net`) holds `SocketAddr`. Equality covers the whole address: IP and port, plus flow info and scope id for IPv6. That equality is the key a lookup set compares by.
- `http.dfy` (`Http`) holds URIs, requests and responses.
  - A URI is the record of its optional scheme, authority and path-and-query.
  - `Uri` is the subtype of records that the URI library's rebuild rule accepts (`ValidParts`). So the `unwrap()` in `ChangeAuthority::change_uri` becomes a proof obligation.
  - `RequestParts` is the request head that `Redirect::handle` mutates.
- `handler.dfy` (`Handler`) gives the shape of the `RequestHandler` trait: a function from caller address, request and client to a `Result`. The outbound `Client` is a function from the forwarded request to a response or a transport error.
- `filters.dfy` (`Filters`) models `filter.rs`. That file has no state, so it is all functions and lemmas.
- `redirects.dfy` (`Redirects`) models `redirect.rs`. The in-place rewrite (`ChangeUri`) and `Handle` are methods over a `RequestParts` object. They are proved against the pure functions `Rewrite` and `Forwarded`.
- `proxy.dfy` (`Proxy`) puts a whitelist or blacklist filter in front of a redirect, the chain `examples/whitelist.rs` configures. It proves the end-to-end behaviour.

The traits `FilterLogic` and `RedirectLogic` become datatypes with one
variant per implementation in the repository. The asynchronous plumbing
(`Either`, `Map`, `Ready`, `ResponseFuture`) becomes the value it resolves to.

`ChangeAuthority::change_uri` rebuilds the URI with `Uri::from_parts` and
unwraps the result. That function rejects a URI that has a path but no
scheme. This is the origin form `/a/b/c` that a client sends when it
addresses the proxy directly. On such a URI the code panics. The model makes
the rebuild's success a precondition (`CanRewrite`). `CanChangeAuthorityIff`
characterises it: the URI must have a scheme or have no path.
`DocumentedExample` shows the documented example in absolute form, and shows
that its origin form is refused.

A filter has no rejection callback, and `FilteredOut` carries the caller's
address and the original request (src/handlers/filter.rs:48, 77-80).

## Model

| member | source | states |
|---|---|---|
| `Filters.Admits` | src/handlers/filter.rs:100-104 | an address lookup in whitelist mode admits exactly the listed addresses, and in blacklist mode exactly the unlisted ones |
| `Filters.FilterFnLogic` | src/handlers/filter.rs:18-29 | the strategy made from a function `f` decides every (address, request) pair exactly as `f` does |
| `Filters.Handle` | src/handlers/filter.rs:64-82 | `Ok` only on admission, with the inner handler's response unchanged; `Inner(e)` only on admission when the inner handler failed with `e`; `FilteredOut` exactly on rejection, carrying the caller's address and the original request |
| `Filters.AsHandler` | src/handlers/filter.rs:60-82 | as a request handler, the filter is defined wherever its inner handler is defined on the requests it admits, and yields exactly the filter's outcome, so a filter can be the root handler or the inner handler of another filter |
| `Filters.AddrWhitelist` | src/handlers/filter.rs:107-116 | the built filter wraps the given handler and admits a request iff its caller is in the set |
| `Filters.AddrBlacklist` | src/handlers/filter.rs:118-127 | the built filter wraps the given handler and admits a request iff its caller is not in the set |
| `Filters.AddrLookupIgnoresRequest` | src/handlers/filter.rs:101-102 | an address lookup gives every request from one address the same decision |
| `Filters.BlacklistComplementsWhitelist` | src/handlers/filter.rs:90-102 | a blacklist rejects exactly what a whitelist admits iff the two lists are the same set |
| `Filters.DecisionsDetermineList` | src/handlers/filter.rs:100-104 | two address lookups in the same mode decide alike on all inputs iff their lists are equal |
| `Filters.RejectionIgnoresInner` | src/handlers/filter.rs:76-81 | on rejection the outcome is `FilteredOut(caller, request)` whatever inner handler and client are used, so neither is consulted |
| `Filters.AdmissionPassesThrough` | src/handlers/filter.rs:70-75 | on admission the filter's outcome is the inner handler's outcome with only the failure wrapped in `Inner` |
| `Http.UriFromParts` | src/handlers/redirect.rs:65 | rebuilding a URI succeeds iff the components are consistent, and then yields exactly them; a path and an authority without a scheme fail with `SchemeMissing` |
| `Http.IntoParts` | src/handlers/redirect.rs:45 | the head and body taken apart reassemble to the original request |
| `Redirects.WithAuthority` | src/handlers/redirect.rs:62-66 | the rewritten URI has authority `to`, and its scheme and path-and-query are the original's |
| `Redirects.CanChangeAuthorityIff` | src/handlers/redirect.rs:65 | replacing the authority rebuilds without panicking iff the URI has a scheme or no path; otherwise the rebuild fails with `SchemeMissing` |
| `Redirects.ChangeAuthorityIdempotent` | src/handlers/redirect.rs:62-66 | replacing the authority twice is possible and gives the same URI as doing it once |
| `Redirects.ChangeAuthorityText` | src/handlers/redirect.rs:53-56 | as text, the rewritten URI is the original's `scheme://` prefix, then `to`, then the original's path and query |
| `Redirects.DocumentedExample` | src/handlers/redirect.rs:53-56 | `http://127.0.0.1:8080/a/b/c` redirected to `example.com` becomes `http://example.com/a/b/c`; the origin form `/a/b/c` cannot be rewritten |
| `Redirects.QueryExample` | src/handlers/redirect.rs:62-66 | `http://old.example/a/b?q=1` redirected to `new.example` becomes `http://new.example/a/b?q=1` |
| `Redirects.RedirectFnLogic` | src/handlers/redirect.rs:15-26 | the strategy made from a function `f` can rewrite every URI and rewrites it to exactly `f` of it |
| `Redirects.ChangeAuthorityRedirect` | src/handlers/redirect.rs:69-75 | the built redirect's strategy is `ChangeAuthority(to)`, so every URI it rewrites ends up with authority `to` |
| `Redirects.Forwarded` | src/handlers/redirect.rs:45-49 | the forwarded request has the rewritten URI and the original method, version, headers and body |
| `Redirects.ChangeUri` | src/handlers/redirect.rs:61-67 | after the in-place rewrite the held URI is the strategy's rewrite of the old one; only that field of the request head changes |
| `Redirects.Handle` | src/handlers/redirect.rs:39-50 | the outcome is the client's outcome on the forwarded request, which depends neither on the caller's address nor on anything but the request and the strategy |
| `Redirects.AsHandler` | src/handlers/redirect.rs:35-50 | as a request handler, the redirect is defined on every request its strategy can rewrite and yields the client's outcome for the forwarded request |
| `Proxy.WhitelistRedirectChain` | examples/whitelist.rs:11-23 | a whitelist in front of a redirect forwards a listed caller's request with the client's outcome passed back (failures as `Inner`) and filters out every other caller's request |
| `Proxy.WhitelistScenario` | examples/whitelist.rs:11-23 | with whitelist {127.0.0.1:9000}, a request from that address gets the upstream response unchanged and one from 10.0.0.5:1234 is filtered out |
| `Proxy.BlacklistScenario` | src/handlers/filter.rs:118-127 | with blacklist {10.0.0.5:1234}, a request from 127.0.0.1:9000 is forwarded and one from 10.0.0.5:1234 is filtered out |

## Left out

- `run_proxy`, `ProxyConfig` and `ProxyError` (`src/lib.rs:33-78`) are left out. They bind a TCP listener, start the hyper server and create the shared client, which is I/O and asynchronous server plumbing.
- The `Send`, `Sync` and `'static` bounds of `RequestHandler` are left out, and so are the future type it returns. Only its shape (caller, request, client to a result) is kept.
- The future combinators (`Either`, `Map`, `Ready`) and hyper's `ResponseFuture` are modelled as the outcome they resolve to. Suspension, cancellation and concurrency are not modelled.
- `Client::request` is a network call. It is a total function from the forwarded request to a response or a transport error.
- URI parsing and validation belong to the URI library, which is not part of this model.
  - The URI is the record of its components, and only the library's rule for rebuilding from components is modelled.
  - The normalisation of an empty path to `/` is not modelled.
  - `Text` renders the components in the library's order: `scheme://`, authority, path, `?query`.
- The request's extensions map is not modelled. `RequestParts` carries the method, URI, version and headers. A body stream is a byte sequence.
- Closures passed to `filter_fn` and `redirect_fn` are modelled as pure total functions. A closure that panics or has side effects is not modelled.
- `Redirects.ChangeUri`: the Rust method takes `&mut Uri`. Its only caller passes `&mut parts.uri`, so the model's method takes the request head and may modify only its `uri` field.
- `examples/whitelist.rs` builds its whitelist by DNS resolution. Only the resulting handler chain is modelled.
