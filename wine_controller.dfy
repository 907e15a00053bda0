/**
 * The wine handlers: list, get, create, update and delete over the store of
 * wine documents, each scoped to the authenticated caller.
 *
 * Each handler is specified by a function from the store (a map from wine id
 * to document) and the request to a `Step`: the reply and the store after
 * the request. `WineStore` holds the store in a field and runs the handlers
 * step by step; each of its methods is proved to do what its function says.
 * Exceptions the handlers catch themselves (a malformed id, a cast or
 * validator failure of the document store, a duplicate id) become the
 * handler's own 500 reply.
 */
module WineController {
  import opened Wrappers
  import opened Text
  import opened WineTypes
  import opened WineSchema
  import opened WineValidation
  import opened WineQuery

  datatype Pagination = Pagination(
    page: int,
    limit: int,
    total: nat,
    totalPages: nat,
    hasNextPage: bool,
    hasPrevPage: bool)

  datatype Listing = Listing(wines: seq<Wine>, pagination: Pagination)

  /** The `data` member of a reply body. */
  datatype Data = NoData | WineData(wine: Wine) | ListData(listing: Listing)

  /** A JSON reply: `success: true` with an optional message and data, or `success: false` with a message and errors. */
  datatype Reply =
    | Success(status: int, message: Option<string>, data: Data)
    | Failure(status: int, reason: string, errors: seq<string>)

  /** What a request answers and the store it leaves behind. */
  datatype Step = Step(reply: Reply, wines: map<string, Wine>)

  const Unauthenticated := Failure(401, "User not authenticated", [])
  const WineNotFound := Failure(404, "Wine not found", [])
  const ServerError := Failure(500, "Internal server error", [])

  function ValidationFailed(errors: seq<string>): Reply {
    Failure(400, "Validation failed", errors)
  }

  /** Every stored document sits under its own id, passes the schema and has its strings trimmed. */
  predicate StoreValid(wines: map<string, Wine>, year: int) {
    forall id :: id in wines ==> wines[id].id == id && SchemaValid(wines[id], year) && Normalised(wines[id])
  }

  /** The wine `id` exists and belongs to `owner`: the `{ _id: id, userId }` match. */
  predicate Owned(wines: map<string, Wine>, id: string, owner: string) {
    id in wines && wines[id].userId == owner
  }

  // -------------------------------------------------------------------
  // getWines
  // -------------------------------------------------------------------

  /** `page` defaults to "1" only when absent; `parseInt` of what was sent otherwise. */
  function PageNum(q: Query): Option<int> {
    ParseInt(q.page.GetOr("1"))
  }

  /** `limit` defaults to "20" only when absent. */
  function LimitNum(q: Query): Option<int> {
    ParseInt(q.limit.GetOr("20"))
  }

  /** The page and limit parse to positive numbers. */
  predicate PagingInRange(q: Query) {
    PageNum(q).Some? && PageNum(q).value >= 1 && LimitNum(q).Some? && LimitNum(q).value >= 1
  }

  /**
   * The list reply for a caller; `order` is the store's ids in the requested
   * sort order. A vintage `parseInt` rejects puts `NaN` in the filter, which
   * the store refuses to cast: `find` fails and the handler answers 500.
   */
  function ListSpec(wines: map<string, Wine>, order: seq<string>, caller: Option<string>, q: Query): (s: Step)
    requires IsOrdering(order, wines)
    requires caller.Some? ==> PagingInRange(q)
    ensures s.reply == Unauthenticated ==> caller.None?
  {
    if caller.None? then Step(Unauthenticated, wines)
    else if !VintageCasts(q) then Step(ServerError, wines)
    else
      var page := PageNum(q).value;
      var limit := LimitNum(q).value;
      var all := Select(order, wines, FilterOf(q, caller.value));
      var skip := SkipOf(page, limit);
      var totalPages := CeilDiv(|all|, limit);
      var pagination := Pagination(page, limit, |all|, totalPages, page < totalPages, page > 1);
      Step(Success(200, None, ListData(Listing(Slice(all, skip, limit), pagination))), wines)
  }

  // -------------------------------------------------------------------
  // getWine, createWine, updateWine, deleteWine
  // -------------------------------------------------------------------

  /** The get reply; `isObjectId` tells which ids the store can cast to an ObjectId. */
  function GetSpec(wines: map<string, Wine>, caller: Option<string>, id: string, isObjectId: string -> bool): (s: Step)
    ensures s.reply == Unauthenticated ==> caller.None?
  {
    if caller.None? then Step(Unauthenticated, wines)
    else if !isObjectId(id) then Step(ServerError, wines)
    else if Owned(wines, id, caller.value) then Step(Success(200, None, WineData(wines[id])), wines)
    else Step(WineNotFound, wines)
  }

  /**
   * The create reply: the rule list first, then the caller, then the document
   * built from the payload with the caller as owner, stored under `newId`.
   */
  function CreateSpec(wines: map<string, Wine>, caller: Option<string>, p: Payload, newId: string, now: Date,
                      year: int, isDate: string -> bool): (s: Step)
    ensures !s.reply.Success? ==> s.wines == wines
    ensures s.reply == Unauthenticated ==> caller.None?
  {
    var errors := Violations(p, year, isDate);
    if errors != [] then Step(ValidationFailed(errors), wines)
    else if caller.None? then Step(Unauthenticated, wines)
    else
      var doc := Materialize(CastPayload(p.(userId := Some(caller.value)), now, isDate), newId, now);
      if doc.None? || !SchemaValid(doc.value, year) || newId in wines then Step(ServerError, wines)
      else Step(Success(201, Some("Wine created successfully"), WineData(doc.value)), wines[newId := doc.value])
  }

  /**
   * The update reply: the rule list, then the caller, then the update is cast
   * and validated as a whole before it is matched against `{ _id, userId }`.
   */
  function UpdateSpec(wines: map<string, Wine>, caller: Option<string>, id: string, p: Payload, now: Date,
                      year: int, isDate: string -> bool, isObjectId: string -> bool): (s: Step)
    ensures !s.reply.Success? ==> s.wines == wines
    ensures s.reply == Unauthenticated ==> caller.None?
  {
    var errors := Violations(p, year, isDate);
    if errors != [] then Step(ValidationFailed(errors), wines)
    else if caller.None? then Step(Unauthenticated, wines)
    else if !isObjectId(id) then Step(ServerError, wines)
    else
      var c := CastPayload(p, now, isDate);
      if !NoInvalid(c) || !ChangesValid(c, year) then Step(ServerError, wines)
      else if !Owned(wines, id, caller.value) then Step(WineNotFound, wines)
      else
        var w := Overlay(wines[id], c, now);
        Step(Success(200, Some("Wine updated successfully"), WineData(w)), wines[id := w])
  }

  function DeleteSpec(wines: map<string, Wine>, caller: Option<string>, id: string, isObjectId: string -> bool): (s: Step)
    ensures !s.reply.Success? ==> s.wines == wines
    ensures s.reply == Unauthenticated ==> caller.None?
  {
    if caller.None? then Step(Unauthenticated, wines)
    else if !isObjectId(id) then Step(ServerError, wines)
    else if Owned(wines, id, caller.value) then Step(Success(200, Some("Wine deleted successfully"), NoData), wines - {id})
    else Step(WineNotFound, wines)
  }

  // -------------------------------------------------------------------
  // Properties of the handlers
  // -------------------------------------------------------------------

  /** Without a caller every handler leaves the store alone; create and update still report validation first. */
  lemma NoCallerTouchesNothing(wines: map<string, Wine>, order: seq<string>, q: Query, id: string, p: Payload,
                               newId: string, now: Date, year: int, isDate: string -> bool, isObjectId: string -> bool)
    requires IsOrdering(order, wines)
    ensures ListSpec(wines, order, None, q) == Step(Unauthenticated, wines)
    ensures GetSpec(wines, None, id, isObjectId) == Step(Unauthenticated, wines)
    ensures DeleteSpec(wines, None, id, isObjectId) == Step(Unauthenticated, wines)
    ensures CreateSpec(wines, None, p, newId, now, year, isDate).wines == wines
    ensures UpdateSpec(wines, None, id, p, now, year, isDate, isObjectId).wines == wines
    ensures var errors := Violations(p, year, isDate);
            && CreateSpec(wines, None, p, newId, now, year, isDate).reply
               == (if errors == [] then Unauthenticated else ValidationFailed(errors))
            && UpdateSpec(wines, None, id, p, now, year, isDate, isObjectId).reply
               == (if errors == [] then Unauthenticated else ValidationFailed(errors))
  {
  }

  /** Another user's wine is answered exactly as if it did not exist, and is left in place. */
  lemma ForeignWineLooksMissing(wines: map<string, Wine>, caller: string, id: string, p: Payload, now: Date,
                                year: int, isDate: string -> bool, isObjectId: string -> bool)
    requires id in wines && wines[id].userId != caller
    ensures GetSpec(wines, Some(caller), id, isObjectId).reply == GetSpec(wines - {id}, Some(caller), id, isObjectId).reply
    ensures DeleteSpec(wines, Some(caller), id, isObjectId).reply == DeleteSpec(wines - {id}, Some(caller), id, isObjectId).reply
    ensures UpdateSpec(wines, Some(caller), id, p, now, year, isDate, isObjectId).reply
         == UpdateSpec(wines - {id}, Some(caller), id, p, now, year, isDate, isObjectId).reply
    ensures GetSpec(wines, Some(caller), id, isObjectId).wines == wines
    ensures DeleteSpec(wines, Some(caller), id, isObjectId).wines == wines
    ensures UpdateSpec(wines, Some(caller), id, p, now, year, isDate, isObjectId).wines == wines
    ensures isObjectId(id) ==> GetSpec(wines, Some(caller), id, isObjectId).reply == WineNotFound
  {
  }

  /**
   * A list reply holds only the caller's wines that match every given
   * parameter, at most `limit` of them; `total` counts every match whatever
   * the page, and `hasNextPage` holds exactly when the matches run past this page.
   * The list succeeds exactly when the vintage, if given, reads as a number.
   */
  lemma {:induction false} ListReply(wines: map<string, Wine>, order: seq<string>, caller: string, q: Query)
    requires IsOrdering(order, wines) && PagingInRange(q)
    ensures var r := ListSpec(wines, order, Some(caller), q);
            var page := PageNum(q).value;
            var limit := LimitNum(q).value;
            && r.wines == wines
            && (r.reply.Success? <==> VintageCasts(q))
            && (!VintageCasts(q) ==> r.reply == ServerError)
            && (VintageCasts(q) ==>
                && r.reply.Success? && r.reply.status == 200 && r.reply.data.ListData?
                && var listing := r.reply.data.listing;
                   && |listing.wines| <= limit
                   && (forall i :: 0 <= i < |listing.wines| ==>
                         listing.wines[i] in wines.Values && listing.wines[i].userId == caller
                         && Matches(FilterOf(q, caller), listing.wines[i]))
                   && listing.pagination.total == |MatchingIds(wines, FilterOf(q, caller))|
                   && (listing.pagination.hasNextPage <==> page * limit < listing.pagination.total)
                   && (listing.pagination.hasPrevPage <==> page > 1))
  {
    var f := FilterOf(q, caller);
    var page := PageNum(q).value;
    var limit := LimitNum(q).value;
    SelectCountsMatches(order, wines, f);
    HasNextPageIff(page, limit, |Select(order, wines, f)|);
  }

  /** A vintage text `parseInt` rejects, such as "abc", makes the list answer 500 and change nothing. */
  lemma UnparsableVintageAnswers500(wines: map<string, Wine>, order: seq<string>, caller: string, q: Query, vintage: string)
    requires IsOrdering(order, wines) && PagingInRange(q) && vintage != "" && ParseInt(vintage).None?
    ensures ListSpec(wines, order, Some(caller), q.(vintage := Some(vintage))) == Step(ServerError, wines)
  {
  }

  /** The match at position `k` of the full sorted result is listed on page `PageOf(k, limit)`, at index `IndexOnPage(k, limit)`. */
  lemma {:induction false} EveryMatchOnItsPage(wines: map<string, Wine>, order: seq<string>, caller: string, q: Query, k: nat)
    requires IsOrdering(order, wines) && PagingInRange(q) && VintageCasts(q)
    requires k < |Select(order, wines, FilterOf(q, caller))|
    ensures var limit := LimitNum(q).value;
            var q' := q.(page := Some(IntToDecimal(PageOf(k, limit))));
            && PagingInRange(q')
            && var r := ListSpec(wines, order, Some(caller), q').reply;
               && r.Success? && r.data.ListData?
               && IndexOnPage(k, limit) < |r.data.listing.wines|
               && r.data.listing.wines[IndexOnPage(k, limit)] == Select(order, wines, FilterOf(q, caller))[k]
  {
    var limit := LimitNum(q).value;
    var page := PageOf(k, limit);
    var q' := q.(page := Some(IntToDecimal(page)));
    ParseIntOfDecimal(page, "");
    assert IntToDecimal(page) + "" == IntToDecimal(page);
    assert PageNum(q') == Some(page);
    assert FilterOf(q', caller) == FilterOf(q, caller);
    var all := Select(order, wines, FilterOf(q, caller));
    PageHoldsPosition(all, limit, k);
    assert ListSpec(wines, order, Some(caller), q').reply.data.listing.wines == Slice(all, SkipOf(page, limit), limit);
  }

  /** A created wine belongs to the caller whatever the payload said, sits under the new id, and nothing else changes. */
  lemma CreateStampsCaller(wines: map<string, Wine>, caller: string, p: Payload, newId: string, now: Date,
                           year: int, isDate: string -> bool)
    requires CreateSpec(wines, Some(caller), p, newId, now, year, isDate).reply.Success?
    ensures var s := CreateSpec(wines, Some(caller), p, newId, now, year, isDate);
            && s.reply.status == 201 && s.reply.data.WineData?
            && var w := s.reply.data.wine;
               && w.userId == caller && w.id == newId && w.createdAt == now && w.updatedAt == now
               && newId !in wines && s.wines == wines[newId := w]
               && SchemaValid(w, year) && Normalised(w)
  {
    var data := p.(userId := Some(caller));
    var c := CastPayload(data, now, isDate);
    var doc := Materialize(c, newId, now);
    var s := CreateSpec(wines, Some(caller), p, newId, now, year, isDate);
    assert Violations(p, year, isDate) == [] && doc.Some? && SchemaValid(doc.value, year) && newId !in wines;
    assert s == Step(Success(201, Some("Wine created successfully"), WineData(doc.value)), wines[newId := doc.value]);
    CastNormalises(data, now, isDate);
    MaterializeNormalised(c, newId, now);
  }

  /** The owner named in a create payload is ignored: the reply and the store are the same without it. */
  lemma CreateIgnoresPayloadOwner(wines: map<string, Wine>, caller: string, p: Payload, claimed: string, newId: string,
                                  now: Date, year: int, isDate: string -> bool)
    ensures CreateSpec(wines, Some(caller), p.(userId := Some(claimed)), newId, now, year, isDate)
         == CreateSpec(wines, Some(caller), p.(userId := None), newId, now, year, isDate)
  {
    assert p.(userId := Some(claimed)).(userId := Some(caller)) == p.(userId := None).(userId := Some(caller));
    assert Violations(p.(userId := Some(claimed)), year, isDate) == Violations(p.(userId := None), year, isDate);
  }

  /**
   * A payload that passes the rule list, from a caller, under a fresh id, is
   * created exactly when it also passes the checks only the schema makes; it
   * is otherwise refused with 500 and the store is unchanged.
   */
  lemma CreateAcceptedIff(wines: map<string, Wine>, caller: string, p: Payload, newId: string, now: Date,
                          year: int, isDate: string -> bool)
    requires Violations(p, year, isDate) == [] && caller != "" && newId !in wines
    ensures var s := CreateSpec(wines, Some(caller), p, newId, now, year, isDate);
            && (s.reply.Success? <==> SchemaOnlyRules(p, isDate))
            && (!s.reply.Success? ==> s.reply == ServerError && s.wines == wines)
  {
    RouteValidThenStored(p, caller, newId, now, year, isDate);
  }

  /** Creating and then getting the new id gives back the created wine. */
  lemma CreateThenGet(wines: map<string, Wine>, caller: string, p: Payload, newId: string, now: Date,
                      year: int, isDate: string -> bool, isObjectId: string -> bool)
    requires CreateSpec(wines, Some(caller), p, newId, now, year, isDate).reply.Success? && isObjectId(newId)
    ensures var s := CreateSpec(wines, Some(caller), p, newId, now, year, isDate);
            GetSpec(s.wines, Some(caller), newId, isObjectId).reply == Success(200, None, s.reply.data)
  {
    CreateStampsCaller(wines, caller, p, newId, now, year, isDate);
  }

  /**
   * A successful update replaces the supplied fields of the matched wine and
   * returns the result: its id and creation time stay, `updatedAt` moves, the
   * owner becomes the payload's `userId` when one is sent, ratings stay when
   * none are sent, and every other wine is untouched.
   */
  lemma UpdateEffect(wines: map<string, Wine>, caller: string, id: string, p: Payload, now: Date,
                     year: int, isDate: string -> bool, isObjectId: string -> bool)
    requires UpdateSpec(wines, Some(caller), id, p, now, year, isDate, isObjectId).reply.Success?
    ensures var s := UpdateSpec(wines, Some(caller), id, p, now, year, isDate, isObjectId);
            && Owned(wines, id, caller) && s.reply.status == 200 && s.reply.data.WineData?
            && var w := s.reply.data.wine;
               && s.wines == wines[id := w]
               && w.id == wines[id].id && w.createdAt == wines[id].createdAt && w.updatedAt == now
               && w.name == Trim(p.name.value) && w.producer == Trim(p.producer.value)
               && w.vintage == p.vintage.value && w.alcohol == p.alcohol.value
               && w.style == ParseStyle(p.style.value).value
               && w.grapes == TrimAll(p.grapes.value)
               && (p.userId.None? ==> w.userId == wines[id].userId)
               && (p.userId.Some? ==> w.userId == p.userId.value)
               && w.region == CastRegion(p.region).value
               && w.tastingNotes == CastNotes(p.tastingNotes).value
               && w.cellar == CastCellar(p.cellar, now, isDate).value
               && (p.ratings.None? ==> w.ratings == wines[id].ratings)
               && (p.ratings.Some? ==> w.ratings == CastRatings(p.ratings).value)
  {
    var c := CastPayload(p, now, isDate);
    var s := UpdateSpec(wines, Some(caller), id, p, now, year, isDate, isObjectId);
    assert Violations(p, year, isDate) == [] && isObjectId(id);
    assert NoInvalid(c) && ChangesValid(c, year) && Owned(wines, id, caller);
    var w := Overlay(wines[id], c, now);
    assert s == Step(Success(200, Some("Wine updated successfully"), WineData(w)), wines[id := w]);
    assert RouteValid(p, year, isDate);
    var gs := p.grapes.value;
    assert !exists i :: 0 <= i < |gs| && IsBlank(gs[i]);
    assert c.grapes == Valid(TrimAll(gs));
    assert c.name == Valid(Trim(p.name.value)) && c.producer == Valid(Trim(p.producer.value));
    assert c.vintage == Valid(p.vintage.value) && c.alcohol == Valid(p.alcohol.value);
    assert c.style == Valid(ParseStyle(p.style.value).value);
    assert p.userId.None? ==> c.userId == Missing;
    assert p.userId.Some? ==> c.userId == Valid(p.userId.value);
    assert p.ratings.None? ==> c.ratings == Missing;
    assert p.ratings.Some? ==> c.ratings.Valid?;
    assert c.region.Valid? && c.tastingNotes.Valid? && c.cellar.Valid?;
  }

  /** Delete removes exactly the caller's wine, and deleting it again finds nothing. */
  lemma DeleteRemovesOne(wines: map<string, Wine>, caller: string, id: string, isObjectId: string -> bool)
    requires isObjectId(id)
    ensures var s := DeleteSpec(wines, Some(caller), id, isObjectId);
            && (s.reply.Success? <==> Owned(wines, id, caller))
            && (s.reply.Success? ==> s.wines == wines - {id} && id !in s.wines)
            && (!s.reply.Success? ==> s.reply == WineNotFound && s.wines == wines)
            && DeleteSpec(s.wines, Some(caller), id, isObjectId) == Step(WineNotFound, s.wines)
  {
  }

  /** Create keeps the store invariant. */
  lemma CreateKeepsStoreValid(wines: map<string, Wine>, caller: Option<string>, p: Payload, newId: string, now: Date,
                              year: int, isDate: string -> bool)
    requires StoreValid(wines, year)
    ensures StoreValid(CreateSpec(wines, caller, p, newId, now, year, isDate).wines, year)
  {
    var s := CreateSpec(wines, caller, p, newId, now, year, isDate);
    if s.reply.Success? {
      CreateStampsCaller(wines, caller.value, p, newId, now, year, isDate);
      StoreValidAfterPut(wines, newId, s.reply.data.wine, year);
    }
  }

  lemma StoreValidAfterPut(wines: map<string, Wine>, id: string, w: Wine, year: int)
    requires StoreValid(wines, year) && w.id == id && SchemaValid(w, year) && Normalised(w)
    ensures StoreValid(wines[id := w], year)
  {
  }

  /** Update keeps the store invariant: the id stays and the merged wine passes the schema. */
  lemma UpdateKeepsStoreValid(wines: map<string, Wine>, caller: Option<string>, id: string, p: Payload, now: Date,
                              year: int, isDate: string -> bool, isObjectId: string -> bool)
    requires StoreValid(wines, year)
    ensures StoreValid(UpdateSpec(wines, caller, id, p, now, year, isDate, isObjectId).wines, year)
  {
    var s := UpdateSpec(wines, caller, id, p, now, year, isDate, isObjectId);
    if s.reply.Success? {
      assert Violations(p, year, isDate) == [] && caller.Some? && isObjectId(id);
      var c := CastPayload(p, now, isDate);
      assert NoInvalid(c) && ChangesValid(c, year);
      assert Owned(wines, id, caller.value);
      var w := Overlay(wines[id], c, now);
      assert s.wines == wines[id := w];
      assert w.id == id;
      CastNormalises(p, now, isDate);
      OverlayKeepsValid(wines[id], c, now, year);
      StoreValidAfterPut(wines, id, w, year);
    }
  }

  /** Delete keeps the store invariant. */
  lemma DeleteKeepsStoreValid(wines: map<string, Wine>, caller: Option<string>, id: string, year: int, isObjectId: string -> bool)
    requires StoreValid(wines, year)
    ensures StoreValid(DeleteSpec(wines, caller, id, isObjectId).wines, year)
  {
  }

  // -------------------------------------------------------------------
  // The store
  // -------------------------------------------------------------------

  /**
   * The wine collection behind the handlers. `year` is the calendar year when
   * the schema and the rule list were loaded, `isDate` the date parser and
   * `isObjectId` the ObjectId cast check.
   */
  class WineStore {
    const year: int
    const isDate: string -> bool
    const isObjectId: string -> bool
    var wines: map<string, Wine>

    ghost predicate Valid()
      reads this
    {
      StoreValid(wines, year)
    }

    constructor(year: int, isDate: string -> bool, isObjectId: string -> bool)
      ensures Valid() && wines == map[]
      ensures this.year == year && this.isDate == isDate && this.isObjectId == isObjectId
    {
      this.year := year;
      this.isDate := isDate;
      this.isObjectId := isObjectId;
      wines := map[];
    }

    /** `getWines`. */
    method GetWines(order: seq<string>, caller: Option<string>, q: Query) returns (reply: Reply)
      requires Valid() && IsOrdering(order, wines) && (caller.Some? ==> PagingInRange(q))
      ensures reply == ListSpec(wines, order, caller, q).reply
    {
      if caller.None? {
        return Unauthenticated;
      }
      var filter := BuildFilter(q, caller.value);
      if filter.vintage.VintageNaN? {
        return ServerError;
      }
      var page := PageNum(q).value;
      var limit := LimitNum(q).value;
      var skip := SkipOf(page, limit);
      var found := Select(order, wines, filter);
      var total := |found|;
      var totalPages := CeilDiv(total, limit);
      var pagination := Pagination(page, limit, total, totalPages, page < totalPages, page > 1);
      reply := Success(200, None, ListData(Listing(Slice(found, skip, limit), pagination)));
    }

    /** `getWine`. */
    method GetWine(caller: Option<string>, id: string) returns (reply: Reply)
      requires Valid()
      ensures reply == GetSpec(wines, caller, id, isObjectId).reply
    {
      if caller.None? {
        return Unauthenticated;
      }
      if !isObjectId(id) {
        return ServerError;
      }
      if id !in wines || wines[id].userId != caller.value {
        return WineNotFound;
      }
      reply := Success(200, None, WineData(wines[id]));
    }

    /** `createWine`; `newId` is the id the store assigns and `now` the current time. */
    method CreateWine(caller: Option<string>, p: Payload, newId: string, now: Date) returns (reply: Reply)
      requires Valid()
      modifies this
      ensures Valid()
      ensures var s := CreateSpec(old(wines), caller, p, newId, now, year, isDate);
              reply == s.reply && wines == s.wines
    {
      CreateKeepsStoreValid(wines, caller, p, newId, now, year, isDate);
      var errors := Violations(p, year, isDate);
      if errors != [] {
        return ValidationFailed(errors);
      }
      if caller.None? {
        return Unauthenticated;
      }
      var data := p.(userId := Some(caller.value));
      var doc := Materialize(CastPayload(data, now, isDate), newId, now);
      if doc.None? || !SchemaValid(doc.value, year) || newId in wines {
        return ServerError;
      }
      wines := wines[newId := doc.value];
      reply := Success(201, Some("Wine created successfully"), WineData(doc.value));
    }

    /** `updateWine`; `now` is the current time. */
    method UpdateWine(caller: Option<string>, id: string, p: Payload, now: Date) returns (reply: Reply)
      requires Valid()
      modifies this
      ensures Valid()
      ensures var s := UpdateSpec(old(wines), caller, id, p, now, year, isDate, isObjectId);
              reply == s.reply && wines == s.wines
    {
      UpdateKeepsStoreValid(wines, caller, id, p, now, year, isDate, isObjectId);
      var errors := Violations(p, year, isDate);
      if errors != [] {
        return ValidationFailed(errors);
      }
      if caller.None? {
        return Unauthenticated;
      }
      if !isObjectId(id) {
        return ServerError;
      }
      var changes := CastPayload(p, now, isDate);
      if !NoInvalid(changes) || !ChangesValid(changes, year) {
        return ServerError;
      }
      if id !in wines || wines[id].userId != caller.value {
        return WineNotFound;
      }
      var updated := Overlay(wines[id], changes, now);
      wines := wines[id := updated];
      reply := Success(200, Some("Wine updated successfully"), WineData(updated));
    }

    /** `deleteWine`. */
    method DeleteWine(caller: Option<string>, id: string) returns (reply: Reply)
      requires Valid()
      modifies this
      ensures Valid()
      ensures var s := DeleteSpec(old(wines), caller, id, isObjectId);
              reply == s.reply && wines == s.wines
    {
      DeleteKeepsStoreValid(wines, caller, id, year, isObjectId);
      if caller.None? {
        return Unauthenticated;
      }
      if !isObjectId(id) {
        return ServerError;
      }
      if id !in wines || wines[id].userId != caller.value {
        return WineNotFound;
      }
      wines := wines - {id};
      reply := Success(200, Some("Wine deleted successfully"), NoData);
    }
  }
}
