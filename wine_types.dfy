/**
 * The record shapes of the wine catalog: a stored wine with its region,
 * tasting notes, ratings and cellar metadata, the five wine styles, and the
 * request payload a client sends to create or update a wine, in which every
 * field may be missing.
 */
module WineTypes {
  import opened Wrappers

  /** A date, carried by its ISO 8601 text; parsing it is not part of the model. */
  datatype Date = Date(iso: string)

  datatype WineStyle = Red | White | Rose | Sparkling | Dessert

  /** The spelling of a style in requests, queries and stored documents. */
  function StyleName(s: WineStyle): string {
    match s
    case Red => "red"
    case White => "white"
    case Rose => "ros\U{E9}"
    case Sparkling => "sparkling"
    case Dessert => "dessert"
  }

  /** Enum membership: a name denotes a style exactly when it is one of the five spellings. */
  function ParseStyle(name: string): (r: Option<WineStyle>)
    ensures r.Some? ==> StyleName(r.value) == name
    ensures r.None? ==> forall s :: StyleName(s) != name
  {
    if name == "red" then Some(Red)
    else if name == "white" then Some(White)
    else if name == "ros\U{E9}" then Some(Rose)
    else if name == "sparkling" then Some(Sparkling)
    else if name == "dessert" then Some(Dessert)
    else None
  }

  lemma StyleNameRoundTrip(s: WineStyle)
    ensures ParseStyle(StyleName(s)) == Some(s)
  {
  }

  datatype Region = Region(country: string, area: string, subregion: Option<string>)

  datatype TastingNotes = TastingNotes(
    appearance: Option<string>,
    aroma: seq<string>,
    taste: seq<string>,
    finish: Option<string>)

  datatype Critic = Critic(score: Option<real>, reviewer: Option<string>)

  datatype Ratings = Ratings(personal: Option<real>, critic: Option<Critic>)

  const NoRatings := Ratings(None, None)

  datatype CellarLocation = CellarLocation(
    room: Option<string>,
    rack: Option<string>,
    shelf: Option<string>,
    position: Option<string>,
    notes: Option<string>)

  const NoLocation := CellarLocation(None, None, None, None, None)

  datatype Cellar = Cellar(
    quantity: int,
    location: CellarLocation,
    purchasePrice: Option<real>,
    purchaseDate: Date,
    drinkBy: Option<Date>)

  /** A stored wine document: its id, its owner's id, the catalogued fields and the two timestamps. */
  datatype Wine = Wine(
    id: string,
    userId: string,
    name: string,
    producer: string,
    vintage: int,
    region: Region,
    grapes: seq<string>,
    style: WineStyle,
    alcohol: real,
    tastingNotes: TastingNotes,
    ratings: Ratings,
    cellar: Cellar,
    createdAt: Date,
    updatedAt: Date)

  // -------------------------------------------------------------------
  // Request payloads: the JSON body of POST and PUT, every field optional
  // -------------------------------------------------------------------

  datatype RegionInput = RegionInput(country: Option<string>, area: Option<string>, subregion: Option<string>)

  datatype NotesInput = NotesInput(
    appearance: Option<string>,
    aroma: Option<seq<string>>,
    taste: Option<seq<string>>,
    finish: Option<string>)

  datatype CellarInput = CellarInput(
    quantity: Option<int>,
    location: Option<CellarLocation>,
    purchasePrice: Option<real>,
    purchaseDate: Option<string>,
    drinkBy: Option<string>)

  datatype Payload = Payload(
    userId: Option<string>,
    name: Option<string>,
    producer: Option<string>,
    vintage: Option<int>,
    region: Option<RegionInput>,
    grapes: Option<seq<string>>,
    style: Option<string>,
    alcohol: Option<real>,
    tastingNotes: Option<NotesInput>,
    ratings: Option<Ratings>,
    cellar: Option<CellarInput>)

  const EmptyPayload := Payload(None, None, None, None, None, None, None, None, None, None, None)
}
