/**
 * The list query of the wine catalog: the query-string parameters, the
 * filter built from them (owner AND each given parameter), the selection the
 * document store makes for a filter in the store's sort order, the
 * `skip`/`limit` page and the pagination arithmetic.
 *
 * The filter strings are compiled as case-insensitive regular expressions by
 * the handler; here each is read as a literal, ASCII-case-insensitive
 * "contains" test.
 */
module WineQuery {
  import opened Wrappers
  import opened Text
  import opened WineTypes

  /** The query string of a list request; every parameter may be absent. */
  datatype Query = Query(
    page: Option<string>,
    limit: Option<string>,
    style: Option<string>,
    country: Option<string>,
    vintage: Option<string>,
    producer: Option<string>,
    search: Option<string>,
    cellarRoom: Option<string>,
    cellarRack: Option<string>)

  const NoQuery := Query(None, None, None, None, None, None, None, None, None)

  /** JavaScript truthiness of a query parameter: present and not the empty string. */
  predicate Given(s: Option<string>) {
    s.Some? && s.value != ""
  }

  /**
   * The vintage condition: none, an exact year, or `NaN` for a year text
   * `parseInt` rejects. The document store cannot cast `NaN` to a number, so a
   * filter holding it is refused before any wine is compared with it.
   */
  datatype VintageCond = AnyVintage | VintageIs(year: int) | VintageNaN

  /** The filter document: the owner is always present, each other condition only when its parameter was given. */
  datatype Filter = Filter(
    owner: string,
    style: Option<string>,
    country: Option<string>,
    vintage: VintageCond,
    producer: Option<string>,
    cellarRoom: Option<string>,
    cellarRack: Option<string>,
    search: Option<string>)

  /** `new RegExp(term, 'i')` tested against a field, read as case-insensitive containment. */
  predicate Like(field: string, term: string) {
    ContainsIgnoringCase(field, term)
  }

  /** A regular expression never matches a path the document lacks. */
  predicate LikeOpt(field: Option<string>, term: string) {
    field.Some? && Like(field.value, term)
  }

  predicate VintageMatches(c: VintageCond, v: int) {
    match c
    case AnyVintage => true
    case VintageIs(y) => v == y
    case VintageNaN => false
  }

  /** The `$or` of the search term: the name, the producer, or any grape. */
  predicate SearchMatches(term: string, w: Wine) {
    || Like(w.name, term)
    || Like(w.producer, term)
    || exists i :: 0 <= i < |w.grapes| && Like(w.grapes[i], term)
  }

  /** A stored wine satisfies every condition of the filter. */
  predicate Matches(f: Filter, w: Wine) {
    && w.userId == f.owner
    && (f.style.Some? ==> StyleName(w.style) == f.style.value)
    && (f.country.Some? ==> Like(w.region.country, f.country.value))
    && VintageMatches(f.vintage, w.vintage)
    && (f.producer.Some? ==> Like(w.producer, f.producer.value))
    && (f.cellarRoom.Some? ==> LikeOpt(w.cellar.location.room, f.cellarRoom.value))
    && (f.cellarRack.Some? ==> LikeOpt(w.cellar.location.rack, f.cellarRack.value))
    && (f.search.Some? ==> SearchMatches(f.search.value, w))
  }

  function GivenOnly(s: Option<string>): Option<string> {
    if Given(s) then s else None
  }

  function VintageCondOf(s: Option<string>): VintageCond {
    if !Given(s) then AnyVintage
    else match ParseInt(s.value)
      case Some(v) => VintageIs(v)
      case None => VintageNaN
  }

  /** The vintage parameter is absent or `parseInt` reads a number from it: the filter is one the store can cast. */
  predicate VintageCasts(q: Query) {
    !Given(q.vintage) || ParseInt(q.vintage.value).Some?
  }

  /** The filter a list request builds for the caller `owner`. */
  function FilterOf(q: Query, owner: string): (f: Filter)
    ensures f.owner == owner
    ensures f.vintage.VintageNaN? <==> !VintageCasts(q)
    ensures f.vintage.AnyVintage? <==> !Given(q.vintage)
    ensures (f.style.Some? <==> Given(q.style)) && (f.country.Some? <==> Given(q.country))
    ensures (f.producer.Some? <==> Given(q.producer)) && (f.search.Some? <==> Given(q.search))
    ensures (f.cellarRoom.Some? <==> Given(q.cellarRoom)) && (f.cellarRack.Some? <==> Given(q.cellarRack))
  {
    Filter(owner, GivenOnly(q.style), GivenOnly(q.country), VintageCondOf(q.vintage), GivenOnly(q.producer),
           GivenOnly(q.cellarRoom), GivenOnly(q.cellarRack), GivenOnly(q.search))
  }

  /** The handler's step-by-step construction of the filter object. */
  method BuildFilter(q: Query, owner: string) returns (f: Filter)
    ensures f == FilterOf(q, owner)
  {
    f := Filter(owner, None, None, AnyVintage, None, None, None, None);
    if Given(q.style) {
      f := f.(style := q.style);
    }
    if Given(q.country) {
      f := f.(country := q.country);
    }
    if Given(q.vintage) {
      var v := ParseInt(q.vintage.value);
      f := f.(vintage := if v.Some? then VintageIs(v.value) else VintageNaN);
    }
    if Given(q.producer) {
      f := f.(producer := q.producer);
    }
    if Given(q.cellarRoom) {
      f := f.(cellarRoom := q.cellarRoom);
    }
    if Given(q.cellarRack) {
      f := f.(cellarRack := q.cellarRack);
    }
    if Given(q.search) {
      f := f.(search := q.search);
    }
  }

  /** The filter parameters of a list request. */
  datatype Param = StyleParam | CountryParam | VintageParam | ProducerParam | RoomParam | RackParam | SearchParam

  /** The query that keeps parameter `k` of `q` and drops every other filter parameter. */
  function Only(q: Query, k: Param): Query {
    match k
    case StyleParam => NoQuery.(style := q.style)
    case CountryParam => NoQuery.(country := q.country)
    case VintageParam => NoQuery.(vintage := q.vintage)
    case ProducerParam => NoQuery.(producer := q.producer)
    case RoomParam => NoQuery.(cellarRoom := q.cellarRoom)
    case RackParam => NoQuery.(cellarRack := q.cellarRack)
    case SearchParam => NoQuery.(search := q.search)
  }

  /** The condition parameter `k` puts into filter `f`. */
  predicate Holds(f: Filter, k: Param, w: Wine) {
    match k
    case StyleParam => f.style.Some? ==> StyleName(w.style) == f.style.value
    case CountryParam => f.country.Some? ==> Like(w.region.country, f.country.value)
    case VintageParam => VintageMatches(f.vintage, w.vintage)
    case ProducerParam => f.producer.Some? ==> Like(w.producer, f.producer.value)
    case RoomParam => f.cellarRoom.Some? ==> LikeOpt(w.cellar.location.room, f.cellarRoom.value)
    case RackParam => f.cellarRack.Some? ==> LikeOpt(w.cellar.location.rack, f.cellarRack.value)
    case SearchParam => f.search.Some? ==> SearchMatches(f.search.value, w)
  }

  lemma OnlyKeepsOne(q: Query, owner: string, w: Wine, k: Param)
    ensures Matches(FilterOf(Only(q, k), owner), w) <==> w.userId == owner && Holds(FilterOf(q, owner), k, w)
  {
  }

  lemma MatchesEveryCondition(f: Filter, w: Wine)
    ensures Matches(f, w) <==> w.userId == f.owner && forall k: Param :: Holds(f, k, w)
  {
    if w.userId == f.owner && forall k: Param :: Holds(f, k, w) {
      assert Holds(f, StyleParam, w) && Holds(f, CountryParam, w) && Holds(f, VintageParam, w);
      assert Holds(f, ProducerParam, w) && Holds(f, RoomParam, w) && Holds(f, RackParam, w);
      assert Holds(f, SearchParam, w);
    }
  }

  /** The parameters are AND-ed: a wine matches a query exactly when it matches each parameter on its own. */
  lemma {:induction false} FiltersConjoin(q: Query, owner: string, w: Wine)
    ensures Matches(FilterOf(q, owner), w) <==> forall k: Param :: Matches(FilterOf(Only(q, k), owner), w)
  {
    var f := FilterOf(q, owner);
    forall k: Param
      ensures Matches(FilterOf(Only(q, k), owner), w) <==> w.userId == owner && Holds(f, k, w)
    {
      OnlyKeepsOne(q, owner, w, k);
    }
    MatchesEveryCondition(f, w);
    if forall k: Param :: Matches(FilterOf(Only(q, k), owner), w) {
      assert Matches(FilterOf(Only(q, StyleParam), owner), w);
    }
  }

  /** No query parameter lifts the owner condition, and a query without parameters lists all the caller's wines. */
  lemma OwnerAlwaysFiltered(q: Query, owner: string, w: Wine)
    ensures Matches(FilterOf(q, owner), w) ==> w.userId == owner
    ensures Matches(FilterOf(NoQuery, owner), w) <==> w.userId == owner
  {
  }

  /** A search term matches the name, the producer or any grape, ignoring ASCII case. */
  lemma SearchIsDisjunction(term: string, owner: string, w: Wine)
    requires term != ""
    ensures Matches(FilterOf(NoQuery.(search := Some(term)), owner), w)
        <==> w.userId == owner
             && (ContainsIgnoringCase(w.name, term) || ContainsIgnoringCase(w.producer, term)
                 || exists i :: 0 <= i < |w.grapes| && ContainsIgnoringCase(w.grapes[i], term))
  {
  }

  /** Style and vintage are exact matches: a matching wine has the style named and the year `parseInt` reads. */
  lemma StyleAndVintageExact(q: Query, owner: string, w: Wine)
    ensures Given(q.style) && Matches(FilterOf(q, owner), w) ==> StyleName(w.style) == q.style.value
    ensures Given(q.vintage) && ParseInt(q.vintage.value).Some? && Matches(FilterOf(q, owner), w)
            ==> w.vintage == ParseInt(q.vintage.value).value
  {
  }

  /** A vintage written in decimal filters on exactly that vintage. */
  lemma {:induction false} VintageTextFilters(year: int, owner: string, w: Wine)
    ensures Matches(FilterOf(NoQuery.(vintage := Some(IntToDecimal(year))), owner), w)
        <==> w.userId == owner && w.vintage == year
  {
    ParseIntOfDecimal(year, "");
    assert IntToDecimal(year) + "" == IntToDecimal(year);
    assert IntToDecimal(year) != "" by {
      if year < 0 {
        assert IntToDecimal(year) == "-" + NatToDecimal(-year);
      } else {
        assert IntToDecimal(year) == NatToDecimal(year);
      }
    }
  }

  // -------------------------------------------------------------------
  // Selection in sort order
  // -------------------------------------------------------------------

  /** `order` lists every stored id exactly once, in the sort order the request asked for. */
  ghost predicate IsOrdering(order: seq<string>, wines: map<string, Wine>) {
    && (forall i, j :: 0 <= i < j < |order| ==> order[i] != order[j])
    && (forall id :: id in wines <==> id in order)
  }

  /** `Wine.find(filter).sort(...)`: the matching wines, in `order`. */
  function Select(order: seq<string>, wines: map<string, Wine>, f: Filter): (r: seq<Wine>)
    ensures |r| <= |order|
    ensures forall i :: 0 <= i < |r| ==> Matches(f, r[i]) && r[i] in wines.Values
    ensures forall i :: 0 <= i < |order| && order[i] in wines && Matches(f, wines[order[i]]) ==> wines[order[i]] in r
  {
    if order == [] then []
    else
      var rest := Select(order[1..], wines, f);
      assert forall i :: 1 <= i < |order| ==> order[i] == order[1..][i - 1];
      if order[0] in wines && Matches(f, wines[order[0]]) then [wines[order[0]]] + rest else rest
  }

  /** The id names a stored wine that matches `f`. */
  predicate Hit(wines: map<string, Wine>, f: Filter, id: string) {
    id in wines && Matches(f, wines[id])
  }

  /** For each position of `order`, whether its id is a hit. */
  function HitsOf(order: seq<string>, wines: map<string, Wine>, f: Filter): (b: seq<bool>)
    ensures |b| == |order| && forall i :: 0 <= i < |order| ==> b[i] == Hit(wines, f, order[i])
  {
    seq(|order|, i requires 0 <= i < |order| => Hit(wines, f, order[i]))
  }

  /** The indices where `b` holds, in increasing order. */
  function TruePositions(b: seq<bool>): (m: seq<nat>)
    ensures forall k :: 0 <= k < |m| ==> m[k] < |b| && b[m[k]]
    ensures forall x, y :: 0 <= x < y < |m| ==> m[x] < m[y]
    ensures forall i :: 0 <= i < |b| && b[i] ==> i in m
  {
    if b == [] then []
    else
      var rest := TruePositions(b[1..]);
      ShiftTrue(b, rest);
      if b[0] then [0] + Shift(rest) else Shift(rest)
  }

  function Shift(m: seq<nat>): (r: seq<nat>)
    ensures |r| == |m| && forall k :: 0 <= k < |m| ==> r[k] == m[k] + 1
  {
    seq(|m|, k requires 0 <= k < |m| => m[k] + 1)
  }

  /** Positions in the tail of `b`, moved up by one, are positions in `b`. */
  lemma ShiftTrue(b: seq<bool>, rest: seq<nat>)
    requires b != []
    requires forall k :: 0 <= k < |rest| ==> rest[k] < |b| - 1 && b[1..][rest[k]]
    requires forall x, y :: 0 <= x < y < |rest| ==> rest[x] < rest[y]
    requires forall i :: 0 <= i < |b| - 1 && b[1..][i] ==> i in rest
    ensures var m := (if b[0] then [0] else []) + Shift(rest);
            && (forall k :: 0 <= k < |m| ==> m[k] < |b| && b[m[k]])
            && (forall x, y :: 0 <= x < y < |m| ==> m[x] < m[y])
            && (forall i :: 0 <= i < |b| && b[i] ==> i in m)
  {
    var shifted := Shift(rest);
    forall i | 1 <= i < |b| && b[i] ensures i in shifted {
      assert b[1..][i - 1] == b[i];
      var k :| 0 <= k < |rest| && rest[k] == i - 1;
      assert shifted[k] == i;
    }
  }

  /** The positions in `order` of the stored wines that match `f`, in increasing order. */
  function MatchPositions(order: seq<string>, wines: map<string, Wine>, f: Filter): (m: seq<nat>)
    ensures forall k :: 0 <= k < |m| ==> m[k] < |order| && Hit(wines, f, order[m[k]])
    ensures forall x, y :: 0 <= x < y < |m| ==> m[x] < m[y]
    ensures forall i :: 0 <= i < |order| && Hit(wines, f, order[i]) ==> i in m
  {
    TruePositions(HitsOf(order, wines, f))
  }

  /**
   * `.sort(...)` is kept: the selection lists the matching wines in the order
   * of their positions in `order`, one for each matching position.
   */
  lemma {:induction false} SelectFollowsOrder(order: seq<string>, wines: map<string, Wine>, f: Filter)
    ensures var r := Select(order, wines, f);
            var m := MatchPositions(order, wines, f);
            |r| == |m| && forall k :: 0 <= k < |m| ==> r[k] == wines[order[m[k]]]
  {
    if order != [] {
      var tail := order[1..];
      SelectFollowsOrder(tail, wines, f);
      var b := HitsOf(order, wines, f);
      assert b[1..] == HitsOf(tail, wines, f);
      var rest := MatchPositions(tail, wines, f);
      var r0 := Select(tail, wines, f);
      var shifted := Shift(rest);
      assert MatchPositions(order, wines, f) == if b[0] then [0] + shifted else shifted;
      assert |r0| == |shifted|;
      forall k | 0 <= k < |shifted| ensures r0[k] == wines[order[shifted[k]]] {
        assert tail[rest[k]] == order[rest[k] + 1];
      }
      if Hit(wines, f, order[0]) {
        ConsFollows(order, wines, r0, shifted);
      }
    }
  }

  lemma ConsFollows(order: seq<string>, wines: map<string, Wine>, r0: seq<Wine>, shifted: seq<nat>)
    requires order != [] && order[0] in wines && |r0| == |shifted|
    requires forall k :: 0 <= k < |shifted| ==>
               shifted[k] < |order| && order[shifted[k]] in wines && r0[k] == wines[order[shifted[k]]]
    ensures var r := [wines[order[0]]] + r0;
            var m := [0] + shifted;
            |r| == |m| && forall k :: 0 <= k < |m| ==> m[k] < |order| && order[m[k]] in wines && r[k] == wines[order[m[k]]]
  {
  }

  /** The ids of the stored wines that match a filter: what `countDocuments(filter)` counts. */
  function MatchingIds(wines: map<string, Wine>, f: Filter): set<string> {
    set id | id in wines && Matches(f, wines[id])
  }

  function MatchingIdsIn(order: seq<string>, wines: map<string, Wine>, f: Filter): set<string> {
    set id | id in order && id in wines && Matches(f, wines[id])
  }

  lemma {:induction false} SelectCountsIn(order: seq<string>, wines: map<string, Wine>, f: Filter)
    requires forall i, j :: 0 <= i < j < |order| ==> order[i] != order[j]
    ensures |Select(order, wines, f)| == |MatchingIdsIn(order, wines, f)|
  {
    if order != [] {
      var tail := order[1..];
      assert forall i, j :: 0 <= i < j < |tail| ==> tail[i] != tail[j] by {
        forall i, j | 0 <= i < j < |tail| ensures tail[i] != tail[j] {
          assert tail[i] == order[i + 1] && tail[j] == order[j + 1];
        }
      }
      SelectCountsIn(tail, wines, f);
      var h := order[0];
      assert h !in tail by {
        forall i | 0 <= i < |tail| ensures tail[i] != h {
          assert tail[i] == order[i + 1];
        }
      }
      assert forall id :: id in order <==> id == h || id in tail by {
        forall id ensures id in order <==> id == h || id in tail {
          assert order == [h] + tail;
        }
      }
      if h in wines && Matches(f, wines[h]) {
        assert MatchingIdsIn(order, wines, f) == {h} + MatchingIdsIn(tail, wines, f);
      } else {
        assert MatchingIdsIn(order, wines, f) == MatchingIdsIn(tail, wines, f);
      }
    }
  }

  /** `countDocuments(filter)` and the length of the unpaged selection agree. */
  lemma SelectCountsMatches(order: seq<string>, wines: map<string, Wine>, f: Filter)
    requires IsOrdering(order, wines)
    ensures |Select(order, wines, f)| == |MatchingIds(wines, f)|
  {
    SelectCountsIn(order, wines, f);
    assert MatchingIdsIn(order, wines, f) == MatchingIds(wines, f);
  }

  // -------------------------------------------------------------------
  // Paging
  // -------------------------------------------------------------------

  function Min(a: int, b: int): int {
    if a <= b then a else b
  }

  /** `.skip(skip).limit(limit)` with a positive limit: at most `limit` consecutive elements from position `skip`. */
  function Slice<T>(s: seq<T>, skip: nat, limit: nat): (r: seq<T>)
    ensures |r| <= limit
    ensures forall j :: 0 <= j < |r| ==> skip + j < |s| && r[j] == s[skip + j]
    ensures skip + limit <= |s| ==> |r| == limit
    ensures skip < |s| ==> |r| == Min(limit, |s| - skip)
  {
    if skip >= |s| then [] else s[skip .. skip + Min(limit, |s| - skip)]
  }

  /** `Math.ceil(total / limit)` for a positive limit: the least number of pages of `limit` that hold `total`. */
  function CeilDiv(total: nat, limit: nat): (pages: nat)
    requires limit >= 1
    ensures pages * limit >= total
    ensures pages == 0 || (pages - 1) * limit < total
  {
    var q := (total + limit - 1) / limit;
    assert q * limit <= total + limit - 1 < (q + 1) * limit;
    q
  }

  lemma MulMonotone(a: int, b: int, c: nat)
    requires a <= b
    ensures a * c <= b * c
  {
  }

  /** `(page - 1) * limit`: how many matches come before page `page`. */
  function SkipOf(page: int, limit: nat): (skip: nat)
    requires page >= 1
    ensures skip == (page - 1) * limit
  {
    MulMonotone(0, page - 1, limit);
    (page - 1) * limit
  }

  /** A later page starts no earlier than an earlier one. */
  lemma SkipMonotone(p1: int, p2: int, limit: nat)
    requires 1 <= p1 <= p2
    ensures SkipOf(p1, limit) <= SkipOf(p2, limit)
  {
    MulMonotone(p1 - 1, p2 - 1, limit);
  }

  /** `hasNextPage` (page < totalPages) holds exactly when the wines before the end of this page are fewer than the total. */
  lemma {:induction false} HasNextPageIff(page: int, limit: nat, total: nat)
    requires limit >= 1
    ensures page < CeilDiv(total, limit) <==> page * limit < total
  {
    var c := CeilDiv(total, limit);
    if page < c {
      MulMonotone(page, c - 1, limit);
      assert (c - 1) * limit < total;
    } else {
      MulMonotone(c, page, limit);
    }
  }

  /** The page that holds position `k` of the full result. */
  function PageOf(k: nat, limit: nat): (page: int)
    requires limit >= 1
    ensures page >= 1
  {
    k / limit + 1
  }

  /** The index of position `k` within its page. */
  function IndexOnPage(k: nat, limit: nat): (j: nat)
    requires limit >= 1
    ensures j < limit
  {
    k % limit
  }

  /** Position `k` of the full result lies on page `PageOf(k, limit)`, at index `IndexOnPage(k, limit)`. */
  lemma {:induction false} PageHoldsPosition<T>(s: seq<T>, limit: nat, k: nat)
    requires limit >= 1 && k < |s|
    ensures var page := Slice(s, SkipOf(PageOf(k, limit), limit), limit);
            IndexOnPage(k, limit) < |page| && page[IndexOnPage(k, limit)] == s[k]
  {
    var skip := SkipOf(PageOf(k, limit), limit);
    assert skip == (k / limit) * limit;
    assert skip + k % limit == k;
    assert skip <= k;
    var r := Slice(s, skip, limit);
    assert |r| == Min(limit, |s| - skip);
  }
}
