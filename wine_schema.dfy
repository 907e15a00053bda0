/**
 * The document schema of a wine (`wineSchema` and its sub-schemas): how the
 * document store casts a payload into a stored wine (trimming `trim: true`
 * strings, applying defaults, rejecting missing required paths, unknown
 * styles and unparseable dates) and the validators a stored wine must pass
 * (length caps, numeric ranges).
 */
module WineSchema {
  import opened Wrappers
  import opened Text
  import opened WineTypes

  /** What casting one path of a payload yields: not supplied, a cast value, or a cast/`required` failure. */
  datatype Field<T> = Missing | Valid(value: T) | Invalid

  /** Every path of a payload, cast; an update `$set`s exactly the `Valid` ones. */
  datatype Changes = Changes(
    userId: Field<string>,
    name: Field<string>,
    producer: Field<string>,
    vintage: Field<int>,
    region: Field<Region>,
    grapes: Field<seq<string>>,
    style: Field<WineStyle>,
    alcohol: Field<real>,
    tastingNotes: Field<TastingNotes>,
    ratings: Field<Ratings>,
    cellar: Field<Cellar>)

  // -------------------------------------------------------------------
  // Casting (setters, defaults, `required`, `enum`, date casting)
  // -------------------------------------------------------------------

  function TrimOpt(s: Option<string>): Option<string> {
    match s
    case None => None
    case Some(t) => Some(Trim(t))
  }

  /** The `trim: true` setter of an array of strings, applied to each element. */
  function TrimAll(xs: seq<string>): (r: seq<string>)
    ensures |r| == |xs|
    ensures AllTrimmed(r)
    ensures AllTrimmed(xs) ==> r == xs
  {
    seq(|xs|, i requires 0 <= i < |xs| => Trim(xs[i]))
  }

  /** A number or other path the model takes as already of the right type. */
  function CastValue<T>(v: Option<T>): Field<T> {
    match v
    case None => Missing
    case Some(x) => Valid(x)
  }

  /** A required `trim: true` string: `required` rejects what trims to the empty string. */
  function CastRequiredText(s: Option<string>): Field<string> {
    match s
    case None => Missing
    case Some(t) => if Trim(t) == "" then Invalid else Valid(Trim(t))
  }

  /** `userId` is required but not trimmed. */
  function CastUserId(s: Option<string>): Field<string> {
    match s
    case None => Missing
    case Some(u) => if u == "" then Invalid else Valid(u)
  }

  function CastRegion(r: Option<RegionInput>): Field<Region> {
    match r
    case None => Missing
    case Some(ri) =>
      match (CastRequiredText(ri.country), CastRequiredText(ri.area))
      case (Valid(country), Valid(area)) => Valid(Region(country, area, TrimOpt(ri.subregion)))
      case _ => Invalid
  }

  /** An array of `trim: true` strings; when its elements are `required`, none may trim to empty. */
  function CastTextArray(xs: seq<string>, required: bool): Option<seq<string>> {
    if required && exists i :: 0 <= i < |xs| && IsBlank(xs[i]) then None else Some(TrimAll(xs))
  }

  function CastGrapes(g: Option<seq<string>>): Field<seq<string>> {
    match g
    case None => Missing
    case Some(xs) => if CastTextArray(xs, true).None? then Invalid else Valid(CastTextArray(xs, true).value)
  }

  function CastStyle(s: Option<string>): Field<WineStyle> {
    match s
    case None => Missing
    case Some(name) => if ParseStyle(name).None? then Invalid else Valid(ParseStyle(name).value)
  }

  /** Tasting notes: missing arrays default to empty; `taste` elements are required, `aroma` elements are not. */
  function CastNotes(n: Option<NotesInput>): Field<TastingNotes> {
    match n
    case None => Missing
    case Some(ni) =>
      var aroma := CastTextArray(ni.aroma.GetOr([]), false).value;
      match CastTextArray(ni.taste.GetOr([]), true)
      case None => Invalid
      case Some(taste) => Valid(TastingNotes(TrimOpt(ni.appearance), aroma, taste, TrimOpt(ni.finish)))
  }

  function CastRatings(r: Option<Ratings>): Field<Ratings> {
    match r
    case None => Missing
    case Some(rt) =>
      var critic := match rt.critic
        case None => None
        case Some(c) => Some(Critic(c.score, TrimOpt(c.reviewer)));
      Valid(Ratings(rt.personal, critic))
  }

  function CastLocation(l: CellarLocation): CellarLocation {
    CellarLocation(TrimOpt(l.room), TrimOpt(l.rack), TrimOpt(l.shelf), TrimOpt(l.position), TrimOpt(l.notes))
  }

  /**
   * The cellar sub-document: `quantity` defaults to 1, `location` to an empty
   * location, `purchaseDate` to the current time; a date text that does not
   * parse fails the cast.
   */
  function CastCellar(c: Option<CellarInput>, now: Date, isDate: string -> bool): (r: Field<Cellar>)
    ensures c.None? <==> r.Missing?
    ensures c.Some? ==>
              (r.Valid? <==> (c.value.purchaseDate.None? || isDate(c.value.purchaseDate.value))
                             && (c.value.drinkBy.None? || isDate(c.value.drinkBy.value)))
    ensures r.Valid? && c.value.quantity.None? ==> r.value.quantity == 1
    ensures r.Valid? && c.value.location.None? ==> r.value.location == NoLocation
    ensures r.Valid? && c.value.purchaseDate.None? ==> r.value.purchaseDate == now
    ensures r.Valid? && c.value.drinkBy.None? ==> r.value.drinkBy.None?
  {
    match c
    case None => Missing
    case Some(ci) =>
      var purchase := match ci.purchaseDate
        case None => Some(now)
        case Some(s) => if isDate(s) then Some(Date(s)) else None;
      var drinkBy := match ci.drinkBy
        case None => Some(None)
        case Some(s) => if isDate(s) then Some(Some(Date(s))) else None;
      if purchase.None? || drinkBy.None? then Invalid
      else Valid(Cellar(ci.quantity.GetOr(1), CastLocation(ci.location.GetOr(NoLocation)),
                        ci.purchasePrice, purchase.value, drinkBy.value))
  }

  /** The changes set a path, or fail to, exactly when the body supplies it. */
  predicate SamePaths(p: Payload, c: Changes) {
    && (c.userId.Missing? <==> p.userId.None?) && (c.name.Missing? <==> p.name.None?)
    && (c.producer.Missing? <==> p.producer.None?) && (c.vintage.Missing? <==> p.vintage.None?)
    && (c.region.Missing? <==> p.region.None?) && (c.grapes.Missing? <==> p.grapes.None?)
    && (c.style.Missing? <==> p.style.None?) && (c.alcohol.Missing? <==> p.alcohol.None?)
    && (c.tastingNotes.Missing? <==> p.tastingNotes.None?) && (c.ratings.Missing? <==> p.ratings.None?)
    && (c.cellar.Missing? <==> p.cellar.None?)
  }

  /** Casts every path of a payload; a path is left out of the changes exactly when the body lacks it. */
  function CastPayload(p: Payload, now: Date, isDate: string -> bool): (c: Changes)
    ensures SamePaths(p, c)
    ensures c.vintage.Valid? ==> c.vintage.value == p.vintage.value
    ensures c.alcohol.Valid? ==> c.alcohol.value == p.alcohol.value
  {
    Changes(CastUserId(p.userId), CastRequiredText(p.name), CastRequiredText(p.producer),
            CastValue(p.vintage), CastRegion(p.region), CastGrapes(p.grapes), CastStyle(p.style),
            CastValue(p.alcohol), CastNotes(p.tastingNotes), CastRatings(p.ratings),
            CastCellar(p.cellar, now, isDate))
  }

  /** No supplied path failed its cast. */
  predicate NoInvalid(c: Changes) {
    && !c.userId.Invalid? && !c.name.Invalid? && !c.producer.Invalid? && !c.vintage.Invalid?
    && !c.region.Invalid? && !c.grapes.Invalid? && !c.style.Invalid? && !c.alcohol.Invalid?
    && !c.tastingNotes.Invalid? && !c.ratings.Invalid? && !c.cellar.Invalid?
  }

  /** Every path the schema marks required, `grapes` and `ratings` excepted (they default). */
  predicate RequiredPresent(c: Changes) {
    && c.userId.Valid? && c.name.Valid? && c.producer.Valid? && c.vintage.Valid? && c.region.Valid?
    && c.style.Valid? && c.alcohol.Valid? && c.tastingNotes.Valid? && c.cellar.Valid?
  }

  /**
   * The document `new Wine(data)` builds: the cast paths with `grapes` defaulting
   * to the empty array, `ratings` to empty ratings and both timestamps to `now`;
   * `None` when a required path is missing or any path fails its cast.
   */
  function Materialize(c: Changes, id: string, now: Date): (r: Option<Wine>)
    ensures r.Some? <==> NoInvalid(c) && RequiredPresent(c)
    ensures r.Some? ==> r.value.id == id && r.value.userId == c.userId.value && r.value.createdAt == now
    ensures r.Some? ==> r.value.updatedAt == now
    ensures r.Some? ==> && r.value.name == c.name.value && r.value.producer == c.producer.value
                        && r.value.vintage == c.vintage.value && r.value.region == c.region.value
                        && r.value.style == c.style.value && r.value.alcohol == c.alcohol.value
                        && r.value.tastingNotes == c.tastingNotes.value && r.value.cellar == c.cellar.value
    ensures r.Some? ==> r.value.grapes == (if c.grapes.Missing? then [] else c.grapes.value)
    ensures r.Some? ==> r.value.ratings == (if c.ratings.Missing? then NoRatings else c.ratings.value)
  {
    if !NoInvalid(c) || !RequiredPresent(c) then None
    else
      Some(Wine(id, c.userId.value, c.name.value, c.producer.value, c.vintage.value, c.region.value,
                if c.grapes.Valid? then c.grapes.value else [],
                c.style.value, c.alcohol.value, c.tastingNotes.value,
                if c.ratings.Valid? then c.ratings.value else NoRatings,
                c.cellar.value, now, now))
  }

  /** `findOneAndUpdate`: the supplied paths replace the stored ones, the rest stay, `updatedAt` moves to `now`. */
  function Overlay(w: Wine, c: Changes, now: Date): (r: Wine)
    ensures r.id == w.id && r.createdAt == w.createdAt && r.updatedAt == now
  {
    w.(userId := Pick(c.userId, w.userId),
       name := Pick(c.name, w.name),
       producer := Pick(c.producer, w.producer),
       vintage := Pick(c.vintage, w.vintage),
       region := Pick(c.region, w.region),
       grapes := Pick(c.grapes, w.grapes),
       style := Pick(c.style, w.style),
       alcohol := Pick(c.alcohol, w.alcohol),
       tastingNotes := Pick(c.tastingNotes, w.tastingNotes),
       ratings := Pick(c.ratings, w.ratings),
       cellar := Pick(c.cellar, w.cellar),
       updatedAt := now)
  }

  function Pick<T>(f: Field<T>, old_: T): T {
    if f.Valid? then f.value else old_
  }

  /** No path of the changes is set. */
  predicate NothingSet(c: Changes) {
    && !c.userId.Valid? && !c.name.Valid? && !c.producer.Valid? && !c.vintage.Valid?
    && !c.region.Valid? && !c.grapes.Valid? && !c.style.Valid? && !c.alcohol.Valid?
    && !c.tastingNotes.Valid? && !c.ratings.Valid? && !c.cellar.Valid?
  }

  /** An update that sets no path changes nothing but `updatedAt`. */
  lemma OverlayNothingSet(w: Wine, c: Changes, now: Date)
    requires NothingSet(c)
    ensures Overlay(w, c, now) == w.(updatedAt := now)
  {
  }

  /** Applying the same update twice is applying it once, up to `updatedAt`. */
  lemma OverlayIdempotent(w: Wine, c: Changes, now: Date, later: Date)
    ensures Overlay(Overlay(w, c, now), c, later) == Overlay(w, c, later)
  {
  }

  // -------------------------------------------------------------------
  // Validators
  // -------------------------------------------------------------------

  /** `required` plus `maxlength: 200` on a trimmed name or producer. */
  predicate NameValid(s: string) { s != "" && |s| <= 200 }

  predicate VintageValid(v: int, year: int) { 1800 <= v <= year }

  predicate RegionValid(r: Region) { r.country != "" && r.area != "" }

  predicate NoneEmpty(xs: seq<string>) { forall i :: 0 <= i < |xs| ==> xs[i] != "" }

  predicate AlcoholValid(a: real) { 0.0 <= a <= 50.0 }

  predicate NotesValid(n: TastingNotes) { NoneEmpty(n.taste) }

  predicate ScoreValid(x: Option<real>) { x.None? || 1.0 <= x.value <= 100.0 }

  predicate RatingsValid(r: Ratings) {
    ScoreValid(r.personal) && (r.critic.None? || ScoreValid(r.critic.value.score))
  }

  predicate AtMost(s: Option<string>, n: nat) { s.None? || |s.value| <= n }

  predicate LocationValid(l: CellarLocation) {
    AtMost(l.room, 50) && AtMost(l.rack, 20) && AtMost(l.shelf, 20) && AtMost(l.position, 20) && AtMost(l.notes, 200)
  }

  predicate CellarValid(c: Cellar) {
    c.quantity >= 0 && LocationValid(c.location) && (c.purchasePrice.None? || c.purchasePrice.value >= 0.0)
  }

  /**
   * A stored wine passes every validator of the schema; `year` is the calendar
   * year when the schema was loaded, the upper bound of `vintage`.
   */
  predicate SchemaValid(w: Wine, year: int) {
    && w.userId != ""
    && NameValid(w.name) && NameValid(w.producer)
    && VintageValid(w.vintage, year)
    && RegionValid(w.region)
    && NoneEmpty(w.grapes)
    && AlcoholValid(w.alcohol)
    && NotesValid(w.tastingNotes)
    && RatingsValid(w.ratings)
    && CellarValid(w.cellar)
  }

  /** The update validators: every supplied path passes the validators of its own path. */
  predicate ChangesValid(c: Changes, year: int) {
    && (c.userId.Valid? ==> c.userId.value != "")
    && (c.name.Valid? ==> NameValid(c.name.value))
    && (c.producer.Valid? ==> NameValid(c.producer.value))
    && (c.vintage.Valid? ==> VintageValid(c.vintage.value, year))
    && (c.region.Valid? ==> RegionValid(c.region.value))
    && (c.grapes.Valid? ==> NoneEmpty(c.grapes.value))
    && (c.alcohol.Valid? ==> AlcoholValid(c.alcohol.value))
    && (c.tastingNotes.Valid? ==> NotesValid(c.tastingNotes.value))
    && (c.ratings.Valid? ==> RatingsValid(c.ratings.value))
    && (c.cellar.Valid? ==> CellarValid(c.cellar.value))
  }

  // -------------------------------------------------------------------
  // Normal form: the `trim: true` setters have run
  // -------------------------------------------------------------------

  predicate AllTrimmed(xs: seq<string>) { forall i :: 0 <= i < |xs| ==> IsTrimmed(xs[i]) }

  predicate OptTrimmed(s: Option<string>) { s.None? || IsTrimmed(s.value) }

  predicate RegionTrimmed(r: Region) { IsTrimmed(r.country) && IsTrimmed(r.area) && OptTrimmed(r.subregion) }

  predicate NotesTrimmed(n: TastingNotes) {
    OptTrimmed(n.appearance) && AllTrimmed(n.aroma) && AllTrimmed(n.taste) && OptTrimmed(n.finish)
  }

  predicate RatingsTrimmed(r: Ratings) { r.critic.None? || OptTrimmed(r.critic.value.reviewer) }

  predicate LocationTrimmed(l: CellarLocation) {
    OptTrimmed(l.room) && OptTrimmed(l.rack) && OptTrimmed(l.shelf) && OptTrimmed(l.position) && OptTrimmed(l.notes)
  }

  predicate Normalised(w: Wine) {
    && IsTrimmed(w.name) && IsTrimmed(w.producer) && RegionTrimmed(w.region) && AllTrimmed(w.grapes)
    && NotesTrimmed(w.tastingNotes) && RatingsTrimmed(w.ratings) && LocationTrimmed(w.cellar.location)
  }

  predicate ChangesNormalised(c: Changes) {
    && (c.name.Valid? ==> IsTrimmed(c.name.value))
    && (c.producer.Valid? ==> IsTrimmed(c.producer.value))
    && (c.region.Valid? ==> RegionTrimmed(c.region.value))
    && (c.grapes.Valid? ==> AllTrimmed(c.grapes.value))
    && (c.tastingNotes.Valid? ==> NotesTrimmed(c.tastingNotes.value))
    && (c.ratings.Valid? ==> RatingsTrimmed(c.ratings.value))
    && (c.cellar.Valid? ==> LocationTrimmed(c.cellar.value.location))
  }

  /** Cast values are in normal form, and a cast required text is non-empty. */
  lemma CastNormalises(p: Payload, now: Date, isDate: string -> bool)
    ensures ChangesNormalised(CastPayload(p, now, isDate))
    ensures CastRequiredText(p.name).Valid? ==> CastRequiredText(p.name).value != ""
  {
    var c := CastPayload(p, now, isDate);
    assert c.region == CastRegion(p.region) && c.tastingNotes == CastNotes(p.tastingNotes);
    assert c.ratings == CastRatings(p.ratings) && c.cellar == CastCellar(p.cellar, now, isDate);
    CastPartsTrimmed(p.region, p.tastingNotes, p.ratings, p.cellar, now, isDate);
  }

  lemma CastPartsTrimmed(r: Option<RegionInput>, n: Option<NotesInput>, rt: Option<Ratings>, cl: Option<CellarInput>,
                         now: Date, isDate: string -> bool)
    ensures CastRegion(r).Valid? ==> RegionTrimmed(CastRegion(r).value)
    ensures CastNotes(n).Valid? ==> NotesTrimmed(CastNotes(n).value)
    ensures CastRatings(rt).Valid? ==> RatingsTrimmed(CastRatings(rt).value)
    ensures CastCellar(cl, now, isDate).Valid? ==> LocationTrimmed(CastCellar(cl, now, isDate).value.location)
  {
  }

  // -------------------------------------------------------------------
  // What the validators guarantee of stored wines
  // -------------------------------------------------------------------

  /**
   * A document built from a payload passes the schema exactly when the
   * supplied paths pass their own validators.
   */
  lemma MaterializeValidIff(c: Changes, id: string, now: Date, year: int)
    requires Materialize(c, id, now).Some?
    ensures SchemaValid(Materialize(c, id, now).value, year) <==> ChangesValid(c, year)
  {
    var w := Materialize(c, id, now).value;
    assert w.grapes == (if c.grapes.Valid? then c.grapes.value else []);
    assert w.ratings == (if c.ratings.Valid? then c.ratings.value else NoRatings);
  }

  lemma MaterializeNormalised(c: Changes, id: string, now: Date)
    requires Materialize(c, id, now).Some? && ChangesNormalised(c)
    ensures Normalised(Materialize(c, id, now).value)
  {
  }

  /**
   * An update whose supplied paths pass their validators keeps a valid stored
   * wine valid and in normal form, whichever paths it supplies.
   */
  lemma OverlayKeepsValid(w: Wine, c: Changes, now: Date, year: int)
    requires SchemaValid(w, year) && Normalised(w)
    requires ChangesValid(c, year) && ChangesNormalised(c)
    ensures SchemaValid(Overlay(w, c, now), year) && Normalised(Overlay(w, c, now))
  {
  }

  /** The schema is weaker than the route rules: it accepts a wine with no grapes and no aroma notes. */
  lemma SchemaAcceptsEmptyGrapesAndAroma(year: int)
    requires year >= 1800
    ensures exists w: Wine :: SchemaValid(w, year) && w.grapes == [] && w.tastingNotes.aroma == []
  {
    var d := Date("2020-01-01");
    var w := Wine("id", "owner", "Wine", "Producer", 1800, Region("France", "Bordeaux", None), [], Red, 13.0,
                  TastingNotes(None, [], [], None), NoRatings, Cellar(1, NoLocation, None, d, None), d, d);
    assert SchemaValid(w, year);
  }
}
