# Wine catalogue backend: a Dafny model

This project models the core of the wine-catalogue REST backend, a
TypeScript Express service over a MongoDB collection of wines. Each
wine belongs to one user.

The model covers:

- **The bearer-token gate** (`authenticate`) that runs in front of every
  wine route.
- **The request rule list** (`wineValidation`) that guards POST and PUT.
- **The five wine handlers:** list with filters and paging, get, create,
  update and delete.
- **The Mongoose wine schema:** casting, trimming, defaults and
  validators.
- **The error middleware** (`errorHandler`, `notFound`).
- **The seed-collection generator**, with the owner stamping that
  follows it.

Module layout:

- `Text` holds the JavaScript string operations the service relies on:
  `trim`, case-insensitive containment, `parseInt`, decimal rendering
  and `join`.
- `WineTypes` holds the records of `types/index.ts`.
- `WineSchema` models `models/Wine.ts`.
- `WineValidation` models the rule list.
- `WineQuery` holds the list filter and the paging arithmetic.
- `WineController` holds the handlers. Each handler is a pure function
  `XSpec` that returns the reply and the new collection. The class
  `WineStore` holds the collection and has one method per handler. Each
  method changes its `wines` field step by step, as the handler does,
  and is proved equal to its `XSpec`.
- `AuthGate` models the gate. `WineRoutes` models the router: gate
  first, then the handler.
- `ErrorHandler` models the error middleware. `HandleError` runs the
  same chain of overriding checks as the source; it is proved equal to a
  reference function that reads the checks in reverse.
- `Seed` models `generateWineCollection` as a loop with invariants, and
  the stamping map.

The model follows the code where it differs from what its tests expect.
The rule list guards PUT exactly as it guards POST. So an update that
sends only a new name is refused with 400 and eleven messages
(`NameOnlyUpdateRefused`). The controller test at
`backend/tests/controllers/wineController.test.ts:137-147` expects that
request to succeed.

The model decides the following points the same way the code does:

- An update casts and validates its body before it looks up the wine.
  So an invalid update answers 500 even when the id names no wine of the
  caller.
- An update may replace the owner through `userId` in its body.
- A create whose document fails the schema answers 500, because the
  save error reaches the handler's `catch`.
- The seed script spells its accented names with each accented letter
  doubly encoded ("ChÃ¢teau Margaux"); the seed model keeps those names exactly as
  written.
- In the gate, a failed account lookup falls inside the inner `try`. It
  therefore answers 401 "Invalid or expired token", not 500.

## Model

| member | source | states |
|---|---|---|
| Text.Trim | backend/src/routes/wines.ts:19-22 | The result has no white space at either end, is no longer than the input, and leaves an already trimmed string unchanged |
| Text.TrimIdempotent | backend/src/models/Wine.ts:120-125 | Trimming twice equals trimming once, so the rule list's trim and the schema's trim agree |
| Text.TrimEmptyIff | backend/src/routes/wines.ts:30-33 | A string trims to the empty string exactly when every character is white space |
| Text.Contains | backend/src/controllers/wineController.ts:36-38 | The substring test holds exactly when the needle occurs at some position of the text |
| Text.NatToDecimal | backend/scripts/seedDatabase.ts:199 | A decimal rendering is non-empty, all digits, and has no leading zero except for 0 |
| Text.DecimalValue | backend/scripts/seedDatabase.ts:199 | The digits of a rendered number denote that number |
| Text.ParseIntOfDecimal | backend/src/controllers/wineController.ts:40-42 | `parseInt` of an integer's decimal text, followed by any text that cannot continue a number, gives back that integer |
| Text.ParseInt | backend/src/controllers/wineController.ts:40-42 | `parseInt` reads a number only after skipping leading white space, and the number is negative only when the text then starts with "-"; with ParseIntOfDecimal it reads back every integer's decimal text |
| Text.Join | backend/src/middleware/error.ts:29-31 | Joining no parts gives the empty text; joining one part gives that part |
| Text.JoinSnoc | backend/src/middleware/error.ts:29-31 | Appending a part to a non-empty list appends the separator and then that part, so the parts keep their order with one separator between neighbours |
| Text.JoinContainsParts | backend/src/middleware/error.ts:29-31 | Every part occurs in the joined text |
| WineTypes.ParseStyle | backend/src/models/Wine.ts:147-154 | A style name parses to the style with that name, and fails exactly when no style has that name |
| WineTypes.StyleNameRoundTrip | backend/src/types/index.ts:52 | Parsing a style's name gives the style back |
| WineSchema.TrimAll | backend/src/models/Wine.ts:142-146 | Trimming an array of texts keeps its length, leaves every element trimmed, and leaves an already trimmed array unchanged |
| WineSchema.Materialize | backend/src/models/Wine.ts:113-177 | A document is built exactly when no path failed its cast and every required path is present. It carries the given id, the cast owner, both timestamps at `now`, and every cast path; `grapes` defaults to the empty array and `ratings` to empty ratings |
| WineSchema.CastCellar | backend/src/models/Wine.ts:88-111 | The cellar casts exactly when its dates, if given, parse. An absent `quantity` becomes 1, an absent `location` an empty location, an absent `purchaseDate` the current time, and an absent `drinkBy` stays absent |
| WineSchema.CastPayload | backend/src/models/Wine.ts:113-177 | A path is left out of the cast changes exactly when the body lacks it, and numbers are taken as sent |
| WineSchema.Overlay | backend/src/controllers/wineController.ts:202-212 | The updated wine keeps its id and creation time and has `updatedAt` at `now`; UpdateEffect states which paths an update replaces |
| WineSchema.OverlayNothingSet | backend/src/controllers/wineController.ts:202-212 | An update that sets no path changes nothing but `updatedAt` |
| WineSchema.OverlayIdempotent | backend/src/controllers/wineController.ts:202-212 | Applying the same update twice equals applying it once, apart from `updatedAt` |
| WineSchema.SchemaValid | backend/src/models/Wine.ts:113-177 | The validators a stored wine passes: required owner, name and producer up to 200 characters, vintage from 1800 to the load year, alcohol from 0 to 50, non-blank taste notes and grapes, scores from 1 to 100, cellar caps. MaterializeValidIff and OverlayKeepsValid state what it guarantees |
| WineSchema.CastNormalises | backend/src/models/Wine.ts:4-111 | Every text the casts produce is trimmed, and a cast name is never empty |
| WineSchema.MaterializeValidIff | backend/src/models/Wine.ts:113-177 | A built document passes the schema validators exactly when every supplied path passes the validators of its own path |
| WineSchema.MaterializeNormalised | backend/src/models/Wine.ts:113-177 | A document built from trimmed changes is itself in trimmed form |
| WineSchema.OverlayKeepsValid | backend/src/controllers/wineController.ts:202-212 | Overlaying valid, trimmed changes on a valid, trimmed wine gives a valid, trimmed wine |
| WineSchema.SchemaAcceptsEmptyGrapesAndAroma | backend/src/models/Wine.ts:21-39 | The schema accepts a wine with no grapes and no aroma notes; only the rule list demands at least one of each |
| WineValidation.GrapeErrors | backend/src/routes/wines.ts:41-44 | One "Grape variety cannot be empty" message per blank grape, and none exactly when no grape is blank |
| WineValidation.RouteValid | backend/src/routes/wines.ts:18-63 | Every rule of the list holds; Violations states that the message list is empty exactly when this holds, and RouteValidCasts what a body that passes it casts to |
| WineValidation.Violations | backend/src/routes/wines.ts:18-63 | The message list is empty exactly when every rule of the list holds |
| WineValidation.ViolationCount | backend/src/routes/wines.ts:18-63 | Messages are collected, not cut short: one per failing rule plus one per blank grape |
| WineValidation.FailingRuleReported | backend/src/routes/wines.ts:18-63 | Every failing rule puts its own message in the list |
| WineValidation.NameOnlyFails | backend/src/routes/wines.ts:23-62 | A body that sends only a name fails every rule after the name rule and has no blank grape |
| WineValidation.NameOnlyUpdateRefused | backend/src/routes/wines.ts:69 | An update sending only a valid name is refused with exactly eleven messages |
| WineValidation.RouteValidCasts | backend/src/models/Wine.ts:113-160 | A body that passes the rule list casts to an owner, names, vintage, region, grapes, style and alcohol that pass the schema |
| WineValidation.RouteValidNotes | backend/src/models/Wine.ts:21-39 | The tasting notes cast exactly when no taste note is blank, and are then valid |
| WineValidation.RouteValidCellar | backend/src/models/Wine.ts:88-111 | The cellar casts exactly when `drinkBy`, if given, parses; it is then valid exactly when the price is non-negative and the location fits its length caps |
| WineValidation.StoredIff | backend/src/models/Wine.ts:113-177 | A document builds and passes the schema exactly when every path cast, the required ones are present, and all are valid |
| WineValidation.RouteValidCastsIff | backend/src/models/Wine.ts:4-177 | For a body that passes the rule list, the casts succeed and validate exactly when the schema-only checks hold |
| WineValidation.RouteValidThenStored | backend/src/controllers/wineController.ts:158-164 | A body that passes the rule list, stamped with an owner, becomes a valid stored wine exactly when it passes the checks that only the schema makes |
| WineQuery.FilterOf | backend/src/controllers/wineController.ts:30-62 | The filter always holds the caller as owner, and each condition exactly when its parameter is given; the vintage condition is `NaN` exactly when `parseInt` rejects the vintage text |
| WineQuery.Matches | backend/src/controllers/wineController.ts:30-62 | A stored wine satisfies the owner condition and every given condition; FiltersConjoin, MatchesEveryCondition and SearchIsDisjunction state its meaning |
| WineQuery.BuildFilter | backend/src/controllers/wineController.ts:30-62 | The filter built step by step equals the declarative filter of the query |
| WineQuery.FiltersConjoin | backend/src/controllers/wineController.ts:32-62 | A wine matches a query exactly when it matches each parameter on its own |
| WineQuery.OnlyKeepsOne | backend/src/controllers/wineController.ts:32-62 | A query reduced to one parameter tests the owner and that parameter's condition alone |
| WineQuery.MatchesEveryCondition | backend/src/controllers/wineController.ts:30-62 | A filter holds exactly when the owner matches and every parameter's condition holds |
| WineQuery.OwnerAlwaysFiltered | backend/src/controllers/wineController.ts:30 | No parameter lifts the owner condition; a query without parameters lists all the caller's wines |
| WineQuery.SearchIsDisjunction | backend/src/controllers/wineController.ts:56-62 | A search term matches the name, the producer or any grape, ignoring case |
| WineQuery.StyleAndVintageExact | backend/src/controllers/wineController.ts:32-42 | A matching wine has exactly the style named and the vintage `parseInt` reads from the text |
| WineQuery.VintageTextFilters | backend/src/controllers/wineController.ts:40-42 | A vintage sent as decimal text filters on exactly that year |
| WineQuery.Select | backend/src/controllers/wineController.ts:68-69 | The sorted result holds only matching stored wines and every matching wine of the sort order |
| WineQuery.MatchPositions | backend/src/controllers/wineController.ts:68-69 | The positions of the sort order whose wine matches, each once and in increasing order |
| WineQuery.SelectFollowsOrder | backend/src/controllers/wineController.ts:68-69 | The result lists the matching wines in sort order: element k is the wine at the k-th matching position |
| WineQuery.SelectCountsIn | backend/src/controllers/wineController.ts:74 | The result has one element per matching id of the sort order |
| WineQuery.SelectCountsMatches | backend/src/controllers/wineController.ts:74 | When the sort order lists each stored id once, the result counts the matching wines of the collection |
| WineQuery.Slice | backend/src/controllers/wineController.ts:70-71 | A page holds at most `limit` elements, and they are the elements from `skip` on, in order; it is full while elements remain |
| WineQuery.CeilDiv | backend/src/controllers/wineController.ts:75 | `totalPages` is the least number of pages of size `limit` that cover `total` |
| WineQuery.SkipOf | backend/src/controllers/wineController.ts:66 | `skip` is `(page - 1) * limit` and is never negative for a page of at least 1 |
| WineQuery.SkipMonotone | backend/src/controllers/wineController.ts:66 | A later page never starts earlier than an earlier one |
| WineQuery.HasNextPageIff | backend/src/controllers/wineController.ts:86 | `page < totalPages` holds exactly when `page * limit < total` |
| WineQuery.PageHoldsPosition | backend/src/controllers/wineController.ts:66-71 | Element k of the full result is element `k mod limit` of page `k div limit + 1` |
| WineController.ListSpec | backend/src/controllers/wineController.ts:6-98 | The list reply; only a missing caller gets "User not authenticated", and a vintage `parseInt` rejects gets 500 |
| WineController.GetSpec | backend/src/controllers/wineController.ts:100-136 | The get reply; only a missing caller gets "User not authenticated" |
| WineController.CreateSpec | backend/src/controllers/wineController.ts:138-178 | The create reply; a refusal leaves the collection unchanged, and only a missing caller gets "User not authenticated" |
| WineController.UpdateSpec | backend/src/controllers/wineController.ts:180-234 | The update reply; a refusal leaves the collection unchanged, and only a missing caller gets "User not authenticated" |
| WineController.DeleteSpec | backend/src/controllers/wineController.ts:236-272 | The delete reply; a refusal leaves the collection unchanged, and only a missing caller gets "User not authenticated" |
| WineController.NoCallerTouchesNothing | backend/src/controllers/wineController.ts:8-14 | Without a caller no handler changes the collection; list, get and delete answer 401; create and update report validation failures first |
| WineController.ForeignWineLooksMissing | backend/src/controllers/wineController.ts:112-123 | Another user's wine is answered exactly as if it did not exist, and is left in place |
| WineController.ListReply | backend/src/controllers/wineController.ts:64-90 | A list reply holds at most `limit` of the caller's matching wines; `total` counts all matches; `hasNextPage` and `hasPrevPage` hold exactly when matches run past this page or the page is after the first. The reply is a success exactly when the vintage, if given, reads as a number, and 500 otherwise |
| WineController.UnparsableVintageAnswers500 | backend/src/controllers/wineController.ts:40-42 | A vintage text `parseInt` rejects, such as "abc", puts `NaN` in the filter; the store refuses to cast it, so the list answers 500 and changes nothing |
| WineController.EveryMatchOnItsPage | backend/src/controllers/wineController.ts:64-72 | Every match of the full sorted result is listed on the page its position falls on |
| WineController.CreateStampsCaller | backend/src/controllers/wineController.ts:158-170 | A created wine belongs to the caller, sits under the new id with both timestamps at `now`, passes the schema in trimmed form, and nothing else changes |
| WineController.CreateIgnoresPayloadOwner | backend/src/controllers/wineController.ts:158-161 | A `userId` in the create body has no effect on the reply or the collection |
| WineController.CreateAcceptedIff | backend/src/controllers/wineController.ts:163-177 | A valid body from a caller under a fresh id is created exactly when it passes the schema-only checks; otherwise the reply is 500 and nothing changes |
| WineController.CreateThenGet | backend/src/controllers/wineController.ts:112-128 | Getting a just-created wine returns it |
| WineController.UpdateEffect | backend/src/controllers/wineController.ts:202-226 | A successful update of the caller's wine sets name, producer, vintage, alcohol, style, grapes, region, tasting notes and cellar to the cast values of the body, and ratings when sent; it keeps the id and creation time, moves `updatedAt` to `now`, changes the owner only if the body sends one, and changes no other wine |
| WineController.DeleteRemovesOne | backend/src/controllers/wineController.ts:248-264 | Delete succeeds exactly on the caller's own wine and removes only it; deleting again answers 404 |
| WineController.CreateKeepsStoreValid | backend/src/controllers/wineController.ts:163-164 | Create keeps every stored wine valid, trimmed and stored under its own id |
| WineController.StoreValidAfterPut | backend/src/controllers/wineController.ts:163-164 | Storing a valid, trimmed wine under its own id keeps the collection invariant |
| WineController.UpdateKeepsStoreValid | backend/src/controllers/wineController.ts:202-212 | Update keeps the collection invariant, because the update runs the validators |
| WineController.DeleteKeepsStoreValid | backend/src/controllers/wineController.ts:248-251 | Delete keeps the collection invariant |
| WineController.WineStore.constructor | backend/src/models/Wine.ts:113-177 | A store starts with an empty collection, which satisfies the invariant, and with the given year, date parser and ObjectId check |
| WineController.WineStore.GetWines | backend/src/controllers/wineController.ts:6-98 | The method's reply is the list reply, and the collection is not changed |
| WineController.WineStore.GetWine | backend/src/controllers/wineController.ts:100-136 | The method's reply is the get reply, and the collection is not changed |
| WineController.WineStore.CreateWine | backend/src/controllers/wineController.ts:138-178 | The method's reply and new collection are those of the create reply, and the invariant holds |
| WineController.WineStore.UpdateWine | backend/src/controllers/wineController.ts:180-234 | The method's reply and new collection are those of the update reply, and the invariant holds |
| WineController.WineStore.DeleteWine | backend/src/controllers/wineController.ts:236-272 | The method's reply and new collection are those of the delete reply, and the invariant holds |
| AuthGate.TokenOf | backend/src/middleware/auth.ts:22 | The token is what remains after the "Bearer " prefix: prefix plus token gives the header back |
| AuthGate.Authenticate | backend/src/middleware/auth.ts:6-44 | A request goes through only with a "Bearer " header whose token verifies; ProceedIff, MissingTokenIff and RejectionsAre401 state the rest |
| AuthGate.BearerRoundTrip | backend/src/middleware/auth.ts:14-22 | Prefixing a token with "Bearer " gives a header the gate accepts and reads that same token from |
| AuthGate.BearerHeaderVerifiesToken | backend/src/middleware/auth.ts:22-25 | What is verified is exactly the text after "Bearer " |
| AuthGate.MissingTokenIff | backend/src/middleware/auth.ts:14-20 | "Access token is missing or invalid" is the answer exactly when the header is absent or lacks the exact prefix |
| AuthGate.LowerCaseBearerRefused | backend/src/middleware/auth.ts:14 | The prefix test is case-sensitive: a "bearer " header is refused |
| AuthGate.ProceedIff | backend/src/middleware/auth.ts:24-37 | A request goes through exactly when the token verifies and its account exists; the caller attached is that account without its password |
| AuthGate.CallerIsTokenSubject | backend/src/middleware/auth.ts:25-37 | When lookups return the account asked for, the caller attached is the user the token names |
| AuthGate.RejectionsAre401 | backend/src/middleware/auth.ts:14-44 | Every refusal is a 401 with one of the gate's three messages |
| AuthGate.TokenFailures | backend/src/middleware/auth.ts:24-44 | A token that does not verify gets "Invalid or expired token"; a verified token naming no account gets "User not found" |
| WineRoutes.RouteSpec | backend/src/routes/wines.ts:15-70 | The gate, then the routed handler; a request the gate refuses leaves the collection unchanged |
| WineRoutes.GateBeforeHandler | backend/src/routes/wines.ts:15 | A refused request is answered by the gate with 401 and changes nothing; a request that gets through is answered by its handler for the attached caller and is never "User not authenticated" |
| WineRoutes.NoTokenNoAccess | backend/src/routes/wines.ts:15-70 | Without a usable bearer header no route reaches the collection |
| WineRoutes.Serve | backend/src/routes/wines.ts:15-70 | Serving a request gives the reply and the new collection of the gate followed by the routed handler, and keeps the invariant |
| ErrorHandler.Classify | backend/src/middleware/error.ts:16-49 | The status and message the checks settle on, read from the last check backwards; LaterCheckWins, UnrecognisedKeepsOwn and RecognisedAreClientErrors state its cases |
| ErrorHandler.HandleError | backend/src/middleware/error.ts:10-58 | The status and message equal the reference classification, where the last matching check wins; `success` is false and the stack is sent only in development |
| ErrorHandler.LaterCheckWins | backend/src/middleware/error.ts:20-38 | A duplicate-key error named `CastError` ends as "Invalid ID format", because the later check overrides |
| ErrorHandler.DuplicateNamesFirstKey | backend/src/middleware/error.ts:20-24 | A duplicate-key error names the first key of `keyValue` |
| ErrorHandler.ValidationMentionsEveryField | backend/src/middleware/error.ts:27-32 | A validation error answers 400 with a message that contains every field message |
| ErrorHandler.UnrecognisedKeepsOwn | backend/src/middleware/error.ts:16-17 | An error no check recognises keeps its own status and message, with 500 and "Internal Server Error" as fallbacks |
| ErrorHandler.RecognisedAreClientErrors | backend/src/middleware/error.ts:20-49 | Every error a check recognises ends as a 400 or a 401 |
| ErrorHandler.NotFound | backend/src/middleware/error.ts:60-65 | An unmatched route answers 404, not successful, without a stack, with the requested URL in the message |
| Seed.SeedWineAt | backend/scripts/seedDatabase.ts:183-200 | Wine i always has a name and takes the vintage of variation `i mod 10` |
| Seed.GenerateWineCollection | backend/scripts/seedDatabase.ts:177-207 | The loop produces exactly 100 wines, wine i in position i |
| Seed.SeedNames | backend/scripts/seedDatabase.ts:196-200 | The first ten names are the base names; later names add " (Bottle n)" with n = i div 10 + 1 |
| Seed.SeedFieldsCycle | backend/scripts/seedDatabase.ts:183-194 | Wine i copies every field but the name from base wine `i mod 10`, and vintage and cellar from variation `i mod 10`; it has no owner yet |
| Seed.SameSlotDifferOnlyInName | backend/scripts/seedDatabase.ts:183-184 | Wines whose positions agree modulo 10 differ in the name alone |
| Seed.BaseNamesTellApart | backend/scripts/seedDatabase.ts:9-161 | The ten base names differ in their first or third character |
| Seed.DecimalInjective | backend/scripts/seedDatabase.ts:199 | Different bottle numbers render as different texts |
| Seed.BottleNamesDistinct | backend/scripts/seedDatabase.ts:197-200 | Two bottle names of the same base wine are equal only for the same cycle |
| Seed.SeedNamesDistinct | backend/scripts/seedDatabase.ts:177-207 | All 100 generated wines have different names |
| Seed.StampOwner | backend/scripts/seedDatabase.ts:244-247 | Stamping keeps the length, sets every owner to the test user, and changes no other field |

## Left out

- Regular-expression filters: `new RegExp(term, 'i')` is modelled as a literal substring test that ignores ASCII case. Metacharacters, anchors, an invalid pattern (which throws and answers 500) and Unicode case folding are not modelled.
- The sort: `sort` is not parsed. The list handler receives the result order as a sequence of the stored ids, one each.
- WineController.ListSpec: requires that `page` and `limit` parse to numbers of at least 1. The source does not check them; zero, negative or non-numeric values give a skip or a `totalPages` that MongoDB and `Math.ceil` would treat in their own ways.
- `parseInt` on fractional or exponent texts and on values beyond the safe-integer range: the model reads the leading digits as an unbounded integer.
- Request bodies are typed payloads. JSON coercion of wrong types by Mongoose and express-validator (a number sent as text, an array sent as an object) is not modelled, and neither are unknown body keys, `_id` or timestamps sent in a body.
- Dates are kept as their ISO text. Whether a text is a valid ISO 8601 date or a date Mongoose can cast is the parameter `isDate`. Whether a path parameter is a valid ObjectId is the parameter `isObjectId`.
- Lengths are counted in characters, not UTF-16 code units.
- The detail of `errors.array()` (the path and value of each failing field): only the messages are modelled.
- The gate's outer `catch` (500 "Internal server error"): nothing in the modelled steps can throw there.
- JSON Web Token signing and verification (`utils/jwt.ts`): verification is the parameter `verify`. The account lookup is the parameter `lookup`.
- User registration and login, server start-up, middleware wiring, logging, the analytics script, and every database I/O step of `seedDatabase()` (connect, delete, insert, exit).
- Concurrency between requests: each request runs to completion against the collection before the next one starts.
- The current year and the current time are parameters (`year`, `now`), fixed when the store is created or the request arrives.
