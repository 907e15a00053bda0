/**
 * The request rule list that guards both POST and PUT of a wine
 * (`wineValidation`): each rule reads one path of the JSON body, a missing
 * path reads as the empty string, and every failing rule contributes its
 * message, in rule order; the `grapes.*` rule contributes one message per
 * blank element.
 */
module WineValidation {
  import opened Wrappers
  import opened Text
  import opened WineTypes
  import opened WineSchema

  const NameMessage := "Wine name is required and must be less than 200 characters"
  const ProducerMessage := "Producer is required and must be less than 200 characters"
  const VintageMessage := "Vintage must be a valid year between 1800 and current year"
  const CountryMessage := "Country is required"
  const AreaMessage := "Area is required"
  const GrapesMessage := "At least one grape variety is required"
  const GrapeMessage := "Grape variety cannot be empty"
  const StyleMessage := "Style must be one of: red, white, ros\U{E9}, sparkling, dessert"
  const AlcoholMessage := "Alcohol content must be between 0 and 50%"
  const AromaMessage := "At least one aroma note is required"
  const TasteMessage := "At least one taste note is required"
  const QuantityMessage := "Quantity must be a non-negative integer"
  const PurchaseDateMessage := "Purchase date must be a valid date"

  /** `.trim().isLength({ min, max })`: a missing path reads as the empty string. */
  predicate TrimmedLengthIn(s: Option<string>, min: nat, max: nat) {
    min <= |Trim(s.GetOr(""))| <= max
  }

  /** `.trim().isLength({ min: 1 })`. */
  predicate NonBlank(s: Option<string>) {
    s.Some? && !IsBlank(s.value)
  }

  predicate NameRule(p: Payload) { TrimmedLengthIn(p.name, 1, 200) }

  predicate ProducerRule(p: Payload) { TrimmedLengthIn(p.producer, 1, 200) }

  /** `isInt({ min: 1800, max: <year the routes were loaded> })`. */
  predicate VintageRule(p: Payload, year: int) { p.vintage.Some? && 1800 <= p.vintage.value <= year }

  predicate CountryRule(p: Payload) { p.region.Some? && NonBlank(p.region.value.country) }

  predicate AreaRule(p: Payload) { p.region.Some? && NonBlank(p.region.value.area) }

  /** `isArray({ min: 1 })`. */
  predicate GrapesRule(p: Payload) { p.grapes.Some? && |p.grapes.value| >= 1 }

  /** `isIn([...the five styles...])`. */
  predicate StyleRule(p: Payload) { p.style.Some? && ParseStyle(p.style.value).Some? }

  /** `isFloat({ min: 0, max: 50 })`. */
  predicate AlcoholRule(p: Payload) { p.alcohol.Some? && 0.0 <= p.alcohol.value <= 50.0 }

  predicate AromaRule(p: Payload) {
    p.tastingNotes.Some? && p.tastingNotes.value.aroma.Some? && |p.tastingNotes.value.aroma.value| >= 1
  }

  predicate TasteRule(p: Payload) {
    p.tastingNotes.Some? && p.tastingNotes.value.taste.Some? && |p.tastingNotes.value.taste.value| >= 1
  }

  /** `isInt({ min: 0 })`. */
  predicate QuantityRule(p: Payload) {
    p.cellar.Some? && p.cellar.value.quantity.Some? && p.cellar.value.quantity.value >= 0
  }

  /** `isISO8601()`, with `isDate` standing for the date parser. */
  predicate PurchaseDateRule(p: Payload, isDate: string -> bool) {
    p.cellar.Some? && p.cellar.value.purchaseDate.Some? && isDate(p.cellar.value.purchaseDate.value)
  }

  /** The number of elements that trim to nothing. */
  function BlankCount(grapes: seq<string>): nat {
    if grapes == [] then 0 else (if IsBlank(grapes[0]) then 1 else 0) + BlankCount(grapes[1..])
  }

  /** The `grapes.*` rule: one message per element that trims to nothing; none when `grapes` is missing. */
  function GrapeErrors(grapes: seq<string>): (errors: seq<string>)
    ensures |errors| == BlankCount(grapes)
    ensures forall i :: 0 <= i < |errors| ==> errors[i] == GrapeMessage
    ensures errors == [] <==> forall i :: 0 <= i < |grapes| ==> !IsBlank(grapes[i])
  {
    if grapes == [] then []
    else
      var rest := GrapeErrors(grapes[1..]);
      var head := if IsBlank(grapes[0]) then [GrapeMessage] else [];
      assert (forall i :: 0 <= i < |grapes| ==> !IsBlank(grapes[i]))
         <==> !IsBlank(grapes[0]) && forall i :: 0 <= i < |grapes[1..]| ==> !IsBlank(grapes[1..][i]) by {
        assert forall i :: 1 <= i < |grapes| ==> grapes[i] == grapes[1..][i - 1];
      }
      head + rest
  }

  function Check(ok: bool, message: string): seq<string> {
    if ok then [] else [message]
  }

  /** Every rule of the list holds. */
  predicate RouteValid(p: Payload, year: int, isDate: string -> bool) {
    && NameRule(p) && ProducerRule(p) && VintageRule(p, year) && CountryRule(p) && AreaRule(p)
    && GrapesRule(p) && (forall i :: 0 <= i < |p.grapes.value| ==> !IsBlank(p.grapes.value[i]))
    && StyleRule(p) && AlcoholRule(p) && AromaRule(p) && TasteRule(p) && QuantityRule(p)
    && PurchaseDateRule(p, isDate)
  }

  /**
   * `validationResult(req)`: the messages of the failing rules, in rule order.
   * The request is accepted exactly when the list is empty.
   */
  function Violations(p: Payload, year: int, isDate: string -> bool): (errors: seq<string>)
    ensures errors == [] <==> RouteValid(p, year, isDate)
  {
    Check(NameRule(p), NameMessage)
    + Check(ProducerRule(p), ProducerMessage)
    + Check(VintageRule(p, year), VintageMessage)
    + Check(CountryRule(p), CountryMessage)
    + Check(AreaRule(p), AreaMessage)
    + Check(GrapesRule(p), GrapesMessage)
    + GrapeErrors(p.grapes.GetOr([]))
    + Check(StyleRule(p), StyleMessage)
    + Check(AlcoholRule(p), AlcoholMessage)
    + Check(AromaRule(p), AromaMessage)
    + Check(TasteRule(p), TasteMessage)
    + Check(QuantityRule(p), QuantityMessage)
    + Check(PurchaseDateRule(p, isDate), PurchaseDateMessage)
  }

  /** The number of rules of the list, `grapes.*` aside, that fail. */
  function FailingRules(p: Payload, year: int, isDate: string -> bool): nat {
    |Check(NameRule(p), NameMessage)| + |Check(ProducerRule(p), ProducerMessage)|
    + |Check(VintageRule(p, year), VintageMessage)| + |Check(CountryRule(p), CountryMessage)|
    + |Check(AreaRule(p), AreaMessage)| + |Check(GrapesRule(p), GrapesMessage)|
    + |Check(StyleRule(p), StyleMessage)| + |Check(AlcoholRule(p), AlcoholMessage)|
    + |Check(AromaRule(p), AromaMessage)| + |Check(TasteRule(p), TasteMessage)|
    + |Check(QuantityRule(p), QuantityMessage)| + |Check(PurchaseDateRule(p, isDate), PurchaseDateMessage)|
  }

  /** Errors are collected, not cut short: one message per failing rule plus one per blank grape. */
  lemma ViolationCount(p: Payload, year: int, isDate: string -> bool)
    ensures |Violations(p, year, isDate)| == FailingRules(p, year, isDate) + BlankCount(p.grapes.GetOr([]))
  {
  }

  /** Each failing rule contributes its own message. */
  lemma FailingRuleReported(p: Payload, year: int, isDate: string -> bool)
    ensures !NameRule(p) ==> NameMessage in Violations(p, year, isDate)
    ensures !VintageRule(p, year) ==> VintageMessage in Violations(p, year, isDate)
    ensures !StyleRule(p) ==> StyleMessage in Violations(p, year, isDate)
    ensures !PurchaseDateRule(p, isDate) ==> PurchaseDateMessage in Violations(p, year, isDate)
    ensures !GrapesRule(p) ==> GrapesMessage in Violations(p, year, isDate)
    ensures !ProducerRule(p) ==> ProducerMessage in Violations(p, year, isDate)
    ensures !CountryRule(p) ==> CountryMessage in Violations(p, year, isDate)
    ensures !AreaRule(p) ==> AreaMessage in Violations(p, year, isDate)
    ensures !AlcoholRule(p) ==> AlcoholMessage in Violations(p, year, isDate)
    ensures !AromaRule(p) ==> AromaMessage in Violations(p, year, isDate)
    ensures !TasteRule(p) ==> TasteMessage in Violations(p, year, isDate)
    ensures !QuantityRule(p) ==> QuantityMessage in Violations(p, year, isDate)
  {
  }

  /** A payload that names only a wine name fails every rule but the name rule. */
  lemma NameOnlyFails(p: Payload, year: int, isDate: string -> bool)
    requires p == EmptyPayload.(name := p.name)
    ensures !ProducerRule(p) && !VintageRule(p, year) && !CountryRule(p) && !AreaRule(p) && !GrapesRule(p)
    ensures !StyleRule(p) && !AlcoholRule(p) && !AromaRule(p) && !TasteRule(p) && !QuantityRule(p)
    ensures !PurchaseDateRule(p, isDate) && GrapeErrors(p.grapes.GetOr([])) == []
  {
  }

  /**
   * The same list guards PUT, so an update naming only a new wine name is
   * refused with one message for each of the eleven other rules.
   */
  lemma {:induction false} NameOnlyUpdateRefused(name: string, year: int, isDate: string -> bool)
    requires 1 <= |Trim(name)| <= 200
    ensures !RouteValid(EmptyPayload.(name := Some(name)), year, isDate)
    ensures |Violations(EmptyPayload.(name := Some(name)), year, isDate)| == 11
  {
    var p := EmptyPayload.(name := Some(name));
    assert NameRule(p);
    NameOnlyFails(p, year, isDate);
    ViolationCount(p, year, isDate);
    assert BlankCount(p.grapes.GetOr([])) == 0;
  }

  // -------------------------------------------------------------------
  // The rule list against the schema
  // -------------------------------------------------------------------

  /**
   * What the schema checks and the rule list does not: non-blank `taste`
   * elements, a parseable `drinkBy`, rating and score bounds, a non-negative
   * purchase price, and the length caps of the cellar location.
   */
  predicate SchemaOnlyRules(p: Payload, isDate: string -> bool) {
    && (p.tastingNotes.Some? ==> forall i :: 0 <= i < |p.tastingNotes.value.taste.GetOr([])| ==>
                                   !IsBlank(p.tastingNotes.value.taste.GetOr([])[i]))
    && (p.cellar.Some? ==> p.cellar.value.drinkBy.None? || isDate(p.cellar.value.drinkBy.value))
    && (p.ratings.Some? ==> RatingsValid(p.ratings.value))
    && (p.cellar.Some? ==> p.cellar.value.purchasePrice.None? || p.cellar.value.purchasePrice.value >= 0.0)
    && (p.cellar.Some? ==> LocationValid(CastLocation(p.cellar.value.location.GetOr(NoLocation))))
  }

  /** The route-checked paths cast to valid values: the owner, names, vintage, region, grapes, style and alcohol. */
  lemma RouteValidCasts(p: Payload, owner: string, now: Date, year: int, isDate: string -> bool)
    requires RouteValid(p, year, isDate) && owner != ""
    ensures var c := CastPayload(p.(userId := Some(owner)), now, isDate);
            && c.userId.Valid? && c.userId.value != ""
            && c.name.Valid? && NameValid(c.name.value)
            && c.producer.Valid? && NameValid(c.producer.value)
            && c.vintage.Valid? && VintageValid(c.vintage.value, year)
            && c.region.Valid? && RegionValid(c.region.value)
            && c.grapes.Valid? && NoneEmpty(c.grapes.value)
            && c.style.Valid? && c.alcohol.Valid? && AlcoholValid(c.alcohol.value)
  {
    var gs := p.grapes.value;
    assert !exists i :: 0 <= i < |gs| && IsBlank(gs[i]);
    assert CastTextArray(gs, true) == Some(TrimAll(gs));
  }

  /** The tasting notes cast exactly when no `taste` element is blank, and are then valid. */
  lemma RouteValidNotes(p: Payload, isDate: string -> bool)
    requires p.tastingNotes.Some?
    ensures var n := CastNotes(p.tastingNotes);
            && !n.Missing?
            && (n.Valid? <==> SchemaOnlyRules(p.(cellar := None, ratings := None), isDate))
            && (n.Valid? ==> NotesValid(n.value))
  {
    var taste := p.tastingNotes.value.taste.GetOr([]);
    if forall i :: 0 <= i < |taste| ==> !IsBlank(taste[i]) {
      assert CastTextArray(taste, true) == Some(TrimAll(taste));
    }
  }

  /** The cellar casts exactly when `drinkBy` (if given) parses, and is then valid exactly when price and location are. */
  lemma RouteValidCellar(p: Payload, now: Date, year: int, isDate: string -> bool)
    requires PurchaseDateRule(p, isDate) && QuantityRule(p)
    ensures var ci := p.cellar.value;
            var k := CastCellar(p.cellar, now, isDate);
            && !k.Missing?
            && (k.Valid? <==> ci.drinkBy.None? || isDate(ci.drinkBy.value))
            && (k.Valid? ==> (CellarValid(k.value) <==>
                  (ci.purchasePrice.None? || ci.purchasePrice.value >= 0.0)
                  && LocationValid(CastLocation(ci.location.GetOr(NoLocation)))))
  {
  }

  /** A document builds and passes the schema exactly when every path cast, the required ones are there, and all are valid. */
  lemma StoredIff(c: Changes, id: string, now: Date, year: int)
    ensures Materialize(c, id, now).Some? && SchemaValid(Materialize(c, id, now).value, year)
        <==> NoInvalid(c) && RequiredPresent(c) && ChangesValid(c, year)
  {
    if NoInvalid(c) && RequiredPresent(c) {
      MaterializeValidIff(c, id, now, year);
    }
  }

  /** On a payload that passes the rule list, the casts succeed and validate exactly when the schema-only checks hold. */
  lemma {:induction false} RouteValidCastsIff(p: Payload, owner: string, now: Date, year: int, isDate: string -> bool)
    requires RouteValid(p, year, isDate) && owner != ""
    ensures var c := CastPayload(p.(userId := Some(owner)), now, isDate);
            NoInvalid(c) && RequiredPresent(c) && ChangesValid(c, year) <==> SchemaOnlyRules(p, isDate)
  {
    var c := CastPayload(p.(userId := Some(owner)), now, isDate);
    RouteValidCasts(p, owner, now, year, isDate);
    RouteValidNotes(p, isDate);
    RouteValidCellar(p, now, year, isDate);
    assert c.ratings.Valid? ==> (RatingsValid(c.ratings.value) <==> RatingsValid(p.ratings.value));
  }

  /**
   * A payload that passes the rule list, stamped with a non-empty owner,
   * becomes a valid stored wine exactly when it also passes the checks only the
   * schema makes; otherwise saving it fails.
   */
  lemma {:induction false} RouteValidThenStored(p: Payload, owner: string, id: string, now: Date, year: int, isDate: string -> bool)
    requires RouteValid(p, year, isDate) && owner != ""
    ensures var doc := Materialize(CastPayload(p.(userId := Some(owner)), now, isDate), id, now);
            doc.Some? && SchemaValid(doc.value, year) <==> SchemaOnlyRules(p, isDate)
  {
    StoredIff(CastPayload(p.(userId := Some(owner)), now, isDate), id, now, year);
    RouteValidCastsIff(p, owner, now, year, isDate);
  }
}
