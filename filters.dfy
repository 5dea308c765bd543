/**
 * The filtering handler: a decorator that asks an admission strategy about
 * every request and either hands the request to the handler it wraps or
 * answers at once with a "filtered out" failure that carries the request.
 */
module Filters {
  import opened Results
  import opened Net
  import opened Http
  import opened Handler

  /**
   * The exchangeable admission strategy of a filter: a set of known
   * addresses used as a whitelist or a blacklist, or an arbitrary decision
   * over the caller's address and the request.
   */
  datatype FilterLogic =
    | AddrLookupFilter(list: set<SocketAddr>, isBlacklist: bool)
    | FilterFn(decide: (SocketAddr, Request) -> bool)

  /** Whether the strategy lets a request from `from` through. */
  function Admits(logic: FilterLogic, from: SocketAddr, request: Request): (admitted: bool)
    ensures logic.AddrLookupFilter? && !logic.isBlacklist ==> (admitted <==> from in logic.list)
    ensures logic.AddrLookupFilter? && logic.isBlacklist ==> (admitted <==> from !in logic.list)
  {
    match logic
    case AddrLookupFilter(list, isBlacklist) => isBlacklist != (from in list)
    case FilterFn(decide) => decide(from, request)
  }

  /** An admission strategy made from a plain decision function. */
  function FilterFnLogic(decide: (SocketAddr, Request) -> bool): (logic: FilterLogic)
    ensures forall from, request :: Admits(logic, from, request) == decide(from, request)
  {
    FilterFn(decide)
  }

  /** Why a filter did not produce a response. */
  datatype FilterError<E> =
    | Inner(error: E)                                  // the wrapped handler failed
    | FilteredOut(from: SocketAddr, request: Request)  // the strategy rejected the request

  /** A filter: the handler it wraps and the strategy that guards it. */
  datatype Filter<E> = Filter(inner: Handler<E>, logic: FilterLogic)

  /**
   * Handles a request: an admitted request goes to the inner handler, whose
   * response is passed on unchanged and whose failure is wrapped in `Inner`;
   * a rejected request yields `FilteredOut` with the caller's address and the
   * request itself, without the inner handler being asked.
   */
  function Handle<E>(filter: Filter<E>, from: SocketAddr, request: Request, client: Client): (r: Result<Response, FilterError<E>>)
    requires Admits(filter.logic, from, request) ==> filter.inner.requires(from, request, client)
    ensures r.Ok? ==> Admits(filter.logic, from, request) && filter.inner(from, request, client) == Ok(r.value)
    ensures r.Err? && r.error.Inner? ==> Admits(filter.logic, from, request) && filter.inner(from, request, client) == Err(r.error.error)
    ensures r.Err? && r.error.FilteredOut? <==> !Admits(filter.logic, from, request)
    ensures r.Err? && r.error.FilteredOut? ==> r.error.from == from && r.error.request == request
  {
    if Admits(filter.logic, from, request) then
      match filter.inner(from, request, client)
      case Ok(response) => Ok(response)
      case Err(e) => Err(Inner(e))
    else
      Err(FilteredOut(from, request))
  }

  /** The filter as a request handler, defined wherever its inner handler is defined on the requests it admits. */
  function AsHandler<E>(filter: Filter<E>): (handler: Handler<FilterError<E>>)
    ensures forall from, request, client | Admits(filter.logic, from, request) ==> filter.inner.requires(from, request, client) ::
      handler.requires(from, request, client) && handler(from, request, client) == Handle(filter, from, request, client)
  {
    (from: SocketAddr, request: Request, client: Client)
      requires Admits(filter.logic, from, request) ==> filter.inner.requires(from, request, client) =>
      Handle(filter, from, request, client)
  }

  /** A filter that lets through exactly the requests from the given addresses. */
  function AddrWhitelist<E>(inner: Handler<E>, whitelist: set<SocketAddr>): (filter: Filter<E>)
    ensures filter.inner == inner
    ensures forall from, request :: Admits(filter.logic, from, request) <==> from in whitelist
  {
    Filter(inner, AddrLookupFilter(whitelist, false))
  }

  /** A filter that lets through exactly the requests from addresses not in the given set. */
  function AddrBlacklist<E>(inner: Handler<E>, blacklist: set<SocketAddr>): (filter: Filter<E>)
    ensures filter.inner == inner
    ensures forall from, request :: Admits(filter.logic, from, request) <==> from !in blacklist
  {
    Filter(inner, AddrLookupFilter(blacklist, true))
  }

  /** An address lookup consults only the address: every request from one address gets one decision. */
  lemma AddrLookupIgnoresRequest(list: set<SocketAddr>, isBlacklist: bool, from: SocketAddr, r1: Request, r2: Request)
    ensures Admits(AddrLookupFilter(list, isBlacklist), from, r1) == Admits(AddrLookupFilter(list, isBlacklist), from, r2)
  {
  }

  /**
   * Over the same set, the whitelist admits exactly the addresses the
   * blacklist rejects, and no other set makes a blacklist do that.
   */
  lemma {:induction false} BlacklistComplementsWhitelist(whitelist: set<SocketAddr>, blacklist: set<SocketAddr>, request: Request)
    ensures (forall from :: Admits(AddrLookupFilter(blacklist, true), from, request) == !Admits(AddrLookupFilter(whitelist, false), from, request))
        <==> blacklist == whitelist
  {
    if forall from :: Admits(AddrLookupFilter(blacklist, true), from, request) == !Admits(AddrLookupFilter(whitelist, false), from, request) {
      forall from ensures from in blacklist <==> from in whitelist {
        assert Admits(AddrLookupFilter(blacklist, true), from, request) == !Admits(AddrLookupFilter(whitelist, false), from, request);
      }
    }
  }

  /**
   * The decisions of an address lookup determine its list: two lookups in
   * the same mode decide alike on every request from every address exactly
   * when their lists are equal.
   */
  lemma {:induction false} DecisionsDetermineList(list1: set<SocketAddr>, list2: set<SocketAddr>, isBlacklist: bool)
    ensures (forall from, request :: Admits(AddrLookupFilter(list1, isBlacklist), from, request) == Admits(AddrLookupFilter(list2, isBlacklist), from, request))
        <==> list1 == list2
  {
    if forall from, request :: Admits(AddrLookupFilter(list1, isBlacklist), from, request) == Admits(AddrLookupFilter(list2, isBlacklist), from, request) {
      var someRequest := Request(Get, UriParts(None, None, None), Http11, [], []);
      forall from ensures from in list1 <==> from in list2 {
        assert Admits(AddrLookupFilter(list1, isBlacklist), from, someRequest) == Admits(AddrLookupFilter(list2, isBlacklist), from, someRequest);
      }
    }
  }

  /**
   * A rejected request never reaches the inner handler or the client: the
   * outcome is the same whatever handler is wrapped and whatever client is used.
   */
  lemma RejectionIgnoresInner<E>(inner1: Handler<E>, inner2: Handler<E>, logic: FilterLogic,
                                 from: SocketAddr, request: Request, client1: Client, client2: Client)
    requires !Admits(logic, from, request)
    ensures Handle(Filter(inner1, logic), from, request, client1) == Handle(Filter(inner2, logic), from, request, client2)
    ensures Handle(Filter(inner1, logic), from, request, client1) == Err(FilteredOut(from, request))
  {
  }

  /** The inner handler's outcome, as seen through the filter's failure kind. */
  function LiftInner<E>(outcome: Result<Response, E>): Result<Response, FilterError<E>>
  {
    match outcome
    case Ok(response) => Ok(response)
    case Err(e) => Err(Inner(e))
  }

  /**
   * On admission the filter is a pass-through: its outcome is the inner
   * handler's outcome on the same caller, request and client, up to the
   * wrapping of the failure.
   */
  lemma AdmissionPassesThrough<E>(filter: Filter<E>, from: SocketAddr, request: Request, client: Client)
    requires Admits(filter.logic, from, request)
    requires filter.inner.requires(from, request, client)
    ensures Handle(filter, from, request, client) == LiftInner(filter.inner(from, request, client))
  {
  }
}
