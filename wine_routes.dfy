/**
 * The wine router: `authenticate` runs in front of every wine route, the
 * rule list in front of POST and PUT, and then the handler. A request the
 * gate refuses never reaches a handler; one it lets through reaches the
 * handler with the gate's caller attached.
 */
module WineRoutes {
  import opened Wrappers
  import opened WineTypes
  import opened WineSchema
  import opened WineValidation
  import opened WineQuery
  import opened WineController
  import opened AuthGate

  /**
   * The five wine routes. `order` stands for the requested sort, `newId` for
   * the id the store assigns, `now` for the current time.
   */
  datatype Route =
    | ListRoute(order: seq<string>, query: Query)
    | GetRoute(id: string)
    | CreateRoute(payload: Payload, newId: string, now: Date)
    | UpdateRoute(id: string, payload: Payload, now: Date)
    | DeleteRoute(id: string)

  /**
   * What a list route needs of its inputs: a sort of the stored ids and, once
   * the gate lets the request through, a page and limit that parse to
   * positive numbers.
   */
  ghost predicate Servable(route: Route, wines: map<string, Wine>, gate: Outcome) {
    route.ListRoute? ==> IsOrdering(route.order, wines) && (gate.Proceed? ==> PagingInRange(route.query))
  }

  /** The id of the caller the gate attached, as the handlers compare it with `userId`. */
  function CallerOf(o: Outcome): Option<string> {
    if o.Proceed? then Some(o.user.id) else None
  }

  /** The handler a route is dispatched to, with the caller attached. */
  function Dispatch(wines: map<string, Wine>, caller: Option<string>, route: Route,
                    year: int, isDate: string -> bool, isObjectId: string -> bool): Step
    requires route.ListRoute? ==> IsOrdering(route.order, wines) && (caller.Some? ==> PagingInRange(route.query))
  {
    match route
    case ListRoute(order, query) => ListSpec(wines, order, caller, query)
    case GetRoute(id) => GetSpec(wines, caller, id, isObjectId)
    case CreateRoute(payload, newId, now) => CreateSpec(wines, caller, payload, newId, now, year, isDate)
    case UpdateRoute(id, payload, now) => UpdateSpec(wines, caller, id, payload, now, year, isDate, isObjectId)
    case DeleteRoute(id) => DeleteSpec(wines, caller, id, isObjectId)
  }

  /** A request through the router: the gate, then the handler. */
  function RouteSpec(wines: map<string, Wine>, header: Option<string>, verify: string -> Option<Claims>,
                     lookup: string -> Lookup, route: Route,
                     year: int, isDate: string -> bool, isObjectId: string -> bool): (s: Step)
    requires Servable(route, wines, Authenticate(header, verify, lookup))
    ensures Authenticate(header, verify, lookup).Reject? ==> s.wines == wines
  {
    var gate := Authenticate(header, verify, lookup);
    if gate.Reject? then Step(Failure(gate.status, gate.message, []), wines)
    else Dispatch(wines, CallerOf(gate), route, year, isDate, isObjectId)
  }

  /**
   * The gate comes first: a refused request is answered by the gate and
   * changes nothing, and a request that gets through is answered by its
   * handler for the attached caller, which never answers "User not
   * authenticated".
   */
  lemma GateBeforeHandler(wines: map<string, Wine>, header: Option<string>, verify: string -> Option<Claims>,
                          lookup: string -> Lookup, route: Route,
                          year: int, isDate: string -> bool, isObjectId: string -> bool)
    requires Servable(route, wines, Authenticate(header, verify, lookup))
    ensures var gate := Authenticate(header, verify, lookup);
            var s := RouteSpec(wines, header, verify, lookup, route, year, isDate, isObjectId);
            && (gate.Reject? ==> s == Step(Failure(401, gate.message, []), wines))
            && (gate.Proceed? ==> s == Dispatch(wines, Some(gate.user.id), route, year, isDate, isObjectId)
                                  && s.reply != Unauthenticated)
  {
    RejectionsAre401(header, verify, lookup);
  }

  /** Without a usable bearer header no route reaches the store. */
  lemma NoTokenNoAccess(wines: map<string, Wine>, header: Option<string>, verify: string -> Option<Claims>,
                        lookup: string -> Lookup, route: Route,
                        year: int, isDate: string -> bool, isObjectId: string -> bool)
    requires route.ListRoute? ==> IsOrdering(route.order, wines)
    requires header.None? || !HasBearerPrefix(header.value)
    ensures RouteSpec(wines, header, verify, lookup, route, year, isDate, isObjectId)
         == Step(Failure(401, MissingToken, []), wines)
  {
  }

  /** Serves one request against the store. */
  method Serve(store: WineStore, header: Option<string>, verify: string -> Option<Claims>,
               lookup: string -> Lookup, route: Route) returns (reply: Reply)
    requires store.Valid() && Servable(route, store.wines, Authenticate(header, verify, lookup))
    modifies store
    ensures store.Valid()
    ensures var s := RouteSpec(old(store.wines), header, verify, lookup, route, store.year, store.isDate, store.isObjectId);
            reply == s.reply && store.wines == s.wines
  {
    var gate := Authenticate(header, verify, lookup);
    if gate.Reject? {
      return Failure(gate.status, gate.message, []);
    }
    var caller := Some(gate.user.id);
    assert RouteSpec(store.wines, header, verify, lookup, route, store.year, store.isDate, store.isObjectId)
        == Dispatch(store.wines, caller, route, store.year, store.isDate, store.isObjectId);
    match route {
      case ListRoute(order, query) =>
        reply := store.GetWines(order, caller, query);
      case GetRoute(id) =>
        reply := store.GetWine(caller, id);
      case CreateRoute(payload, newId, now) =>
        reply := store.CreateWine(caller, payload, newId, now);
      case UpdateRoute(id, payload, now) =>
        reply := store.UpdateWine(caller, id, payload, now);
      case DeleteRoute(id) =>
        reply := store.DeleteWine(caller, id);
    }
  }
}
