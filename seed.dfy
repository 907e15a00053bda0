/**
 * The seed collection: ten base wines and ten cellar variations, combined by
 * `generateWineCollection` into one hundred wines, and the step that stamps
 * every generated wine with the test user's id before it is inserted.
 *
 * A generated wine is a payload in the shape the store accepts; dates are
 * kept as their ISO text.
 */
module Seed {
  import opened Wrappers
  import opened Text
  import opened WineTypes

  /** The fields a base wine contributes: everything but the vintage and the cellar. */
  datatype BaseWine = BaseWine(
    name: string,
    producer: string,
    region: RegionInput,
    grapes: seq<string>,
    style: string,
    alcohol: real,
    tastingNotes: NotesInput,
    ratings: Ratings)

  /** The fields a variation contributes: the vintage and the cellar record. */
  datatype Variation = Variation(vintage: int, cellar: CellarInput)

  const CollectionSize := 100

  function Notes(aroma: seq<string>, taste: seq<string>, finish: string): NotesInput {
    NotesInput(None, Some(aroma), Some(taste), Some(finish))
  }

  function Rated(personal: real): Ratings {
    Ratings(Some(personal), None)
  }

  function RatedBy(personal: real, score: real, reviewer: string): Ratings {
    Ratings(Some(personal), Some(Critic(Some(score), Some(reviewer))))
  }

  function Place(room: string, rack: string, shelf: string, position: string, notes: Option<string>): CellarLocation {
    CellarLocation(Some(room), Some(rack), Some(shelf), Some(position), notes)
  }

  function Vary(vintage: int, quantity: int, location: CellarLocation, price: real, purchased: string, drinkBy: string): Variation {
    Variation(vintage, CellarInput(Some(quantity), Some(location), Some(price), Some(purchased), Some(drinkBy)))
  }

  /**
   * `wineData`. The accented names are kept exactly as the script spells them:
   * each accented letter appears as the two characters its UTF-8 bytes give when
   * read as Latin-1 ("Ch\U{C3}\U{A2}teau Margaux").
   */
  const WineData: seq<BaseWine> := [
    BaseWine("Ch\U{C3}\U{A2}teau Margaux", "Ch\U{C3}\U{A2}teau Margaux",
             RegionInput(Some("France"), Some("Bordeaux"), Some("Margaux")),
             ["Cabernet Sauvignon", "Merlot", "Petit Verdot", "Cabernet Franc"], "red", 13.5,
             Notes(["blackcurrant", "cedar", "violet", "tobacco"], ["full-bodied", "elegant tannins", "dark fruit", "spice"],
                   "Long and sophisticated"),
             RatedBy(95.0, 98.0, "Robert Parker")),
    BaseWine("Dom P\U{C3}\U{A9}rignon", "Mo\U{C3}\U{AB}t & Chandon",
             RegionInput(Some("France"), Some("Champagne"), None),
             ["Chardonnay", "Pinot Noir"], "sparkling", 12.5,
             Notes(["brioche", "citrus", "white flowers"], ["crisp", "elegant bubbles", "mineral"], "Clean and refreshing"),
             RatedBy(92.0, 95.0, "Wine Spectator")),
    BaseWine("Chablis Premier Cru", "William F\U{C3}\U{A8}vre",
             RegionInput(Some("France"), Some("Burgundy"), Some("Chablis")),
             ["Chardonnay"], "white", 12.8,
             Notes(["green apple", "mineral", "citrus"], ["crisp acidity", "stone fruit", "oyster shell"], "Mineral and persistent"),
             Rated(88.0)),
    BaseWine("Barolo Brunate", "Giuseppe Rinaldi",
             RegionInput(Some("Italy"), Some("Piedmont"), Some("Barolo")),
             ["Nebbiolo"], "red", 14.0,
             Notes(["rose", "tar", "cherry", "herbs"], ["powerful tannins", "red fruit", "earthy"], "Long and complex"),
             RatedBy(90.0, 93.0, "Antonio Galloni")),
    BaseWine("Chianti Classico Riserva", "Castello di Ama",
             RegionInput(Some("Italy"), Some("Tuscany"), Some("Chianti Classico")),
             ["Sangiovese", "Canaiolo"], "red", 13.5,
             Notes(["cherry", "leather", "herb"], ["medium-bodied", "bright acidity", "savory"], "Food-friendly and persistent"),
             Rated(85.0)),
    BaseWine("Rioja Gran Reserva", "Marqu\U{C3}\U{A9}s de Riscal",
             RegionInput(Some("Spain"), Some("Rioja"), None),
             ["Tempranillo", "Graciano", "Mazuelo"], "red", 13.8,
             Notes(["vanilla", "coconut", "red fruit"], ["smooth tannins", "oak influence", "spice"], "Balanced and mature"),
             Rated(87.0)),
    BaseWine("Riesling Sp\U{C3}\U{A4}tlese", "Dr. Loosen",
             RegionInput(Some("Germany"), Some("Mosel"), None),
             ["Riesling"], "white", 8.5,
             Notes(["peach", "apricot", "honey"], ["off-dry", "bright acidity", "stone fruit"], "Sweet and refreshing"),
             Rated(89.0)),
    BaseWine("Cabernet Sauvignon", "Opus One",
             RegionInput(Some("USA"), Some("California"), Some("Napa Valley")),
             ["Cabernet Sauvignon", "Merlot", "Cabernet Franc"], "red", 14.5,
             Notes(["blackberry", "cassis", "cedar"], ["full-bodied", "velvety tannins", "dark fruit"], "Rich and long"),
             RatedBy(94.0, 96.0, "James Suckling")),
    BaseWine("Pinot Noir", "Domaine de la C\U{C3}\U{B4}te",
             RegionInput(Some("USA"), Some("California"), Some("Santa Barbara County")),
             ["Pinot Noir"], "red", 13.2,
             Notes(["strawberry", "rose petal", "earth"], ["light-bodied", "silky texture", "red fruit"], "Elegant and pure"),
             Rated(91.0)),
    BaseWine("Shiraz", "Penfolds",
             RegionInput(Some("Australia"), Some("Barossa Valley"), None),
             ["Shiraz"], "red", 14.8,
             Notes(["blackberry", "pepper", "chocolate"], ["full-bodied", "rich texture", "spice"], "Bold and warming"),
             Rated(88.0))
  ]

  /** `wineVariations`. */
  const WineVariations: seq<Variation> := [
    Vary(2015, 2, Place("Main Cellar", "A1", "3", "12", None), 450.0, "2018-01-15", "2030-12-31"),
    Vary(2016, 1, Place("Main Cellar", "A2", "1", "5", None), 480.0, "2019-03-20", "2031-12-31"),
    Vary(2017, 3, Place("Climate Room", "B1", "2", "8-10", None), 420.0, "2020-05-10", "2032-12-31"),
    Vary(2018, 1, Place("Main Cellar", "C3", "4", "15", Some("Special reserve section")), 500.0, "2021-08-25", "2033-12-31"),
    Vary(2019, 2, Place("Basement", "D1", "1", "3-4", None), 390.0, "2022-02-14", "2034-12-31"),
    Vary(2020, 1, Place("Climate Room", "B2", "3", "7", None), 520.0, "2023-01-05", "2035-12-31"),
    Vary(2021, 4, Place("Main Cellar", "A3", "2", "20-23", None), 350.0, "2023-06-30", "2036-12-31"),
    Vary(2022, 2, Place("Basement", "D2", "4", "11-12", None), 380.0, "2024-01-15", "2037-12-31"),
    Vary(2023, 1, Place("Climate Room", "B3", "1", "2", Some("Easy access for young wines")), 400.0, "2024-12-01", "2038-12-31"),
    Vary(2013, 1, Place("Main Cellar", "C1", "5", "25", Some("Premium aged section")), 600.0, "2017-11-20", "2028-12-31")
  ]

  /** A base wine with a variation's vintage and cellar; a missing or empty `drinkBy` is dropped. */
  function Combine(base: BaseWine, variation: Variation): Payload {
    var c := variation.cellar;
    var drinkBy := if c.drinkBy.Some? && c.drinkBy.value != "" then c.drinkBy else None;
    Payload(None, Some(base.name), Some(base.producer), Some(variation.vintage), Some(base.region), Some(base.grapes),
            Some(base.style), Some(base.alcohol), Some(base.tastingNotes), Some(base.ratings),
            Some(c.(drinkBy := drinkBy)))
  }

  /** The name of the `cycle`-th repetition of a base name, counting the first as cycle 0. */
  function BottleName(name: string, cycle: nat): string {
    name + " (Bottle " + NatToDecimal(cycle + 1) + ")"
  }

  /** Wine `i` of the collection. */
  function SeedWineAt(i: nat): (w: Payload)
    requires i < CollectionSize
    ensures w.name.Some? && w.vintage == Some(WineVariations[i % 10].vintage)
  {
    var base := WineData[i % |WineData|];
    var wine := Combine(base, WineVariations[i % |WineVariations|]);
    if i < |WineData| then wine else wine.(name := Some(BottleName(base.name, i / |WineData|)))
  }

  /** `generateWineCollection`: the loop that cycles through the base wines and the variations. */
  method GenerateWineCollection() returns (wines: seq<Payload>)
    ensures |wines| == CollectionSize
    ensures forall i :: 0 <= i < CollectionSize ==> wines[i] == SeedWineAt(i)
  {
    wines := [];
    var wineIndex := 0;
    for i := 0 to CollectionSize
      invariant wineIndex == i
      invariant |wines| == i
      invariant forall j :: 0 <= j < i ==> wines[j] == SeedWineAt(j)
    {
      var base := WineData[wineIndex % |WineData|];
      var variation := WineVariations[i % |WineVariations|];
      var wine := Combine(base, variation);
      if i >= |WineData| {
        var cycle := i / |WineData|;
        wine := wine.(name := Some(base.name + " (Bottle " + NatToDecimal(cycle + 1) + ")"));
      }
      assert wine == SeedWineAt(i);
      wines := wines + [wine];
      wineIndex := wineIndex + 1;
    }
  }

  /** The first ten wines carry their base names unchanged; each later one adds the bottle number `i / 10 + 1`. */
  lemma {:induction false} SeedNames(i: nat)
    requires i < CollectionSize
    ensures i < 10 ==> SeedWineAt(i).name == Some(WineData[i].name)
    ensures i >= 10 ==> SeedWineAt(i).name == Some(WineData[i % 10].name + " (Bottle " + NatToDecimal(i / 10 + 1) + ")")
  {
    var base := WineData[i % 10];
    if i < 10 {
      assert i % 10 == i;
      assert SeedWineAt(i).name == Combine(base, WineVariations[i % 10]).name;
    } else {
      assert SeedWineAt(i).name == Some(BottleName(base.name, i / 10));
    }
  }

  /** Wines ten apart share their base wine and their variation, so they differ in the name alone. */
  lemma SameSlotDifferOnlyInName(i: nat, j: nat)
    requires i < CollectionSize && j < CollectionSize && i % 10 == j % 10
    ensures SeedWineAt(i).(name := None) == SeedWineAt(j).(name := None)
  {
  }

  /** Wine `i` copies every field of base wine `i % 10` but the name, and the cellar of variation `i % 10`. */
  lemma SeedFieldsCycle(i: nat)
    requires i < CollectionSize
    ensures var w := SeedWineAt(i);
            var base := WineData[i % 10];
            var variation := WineVariations[i % 10];
            && w.producer == Some(base.producer) && w.region == Some(base.region) && w.grapes == Some(base.grapes)
            && w.style == Some(base.style) && w.alcohol == Some(base.alcohol)
            && w.tastingNotes == Some(base.tastingNotes) && w.ratings == Some(base.ratings)
            && w.vintage == Some(variation.vintage) && w.cellar == Some(variation.cellar)
            && w.userId.None?
  {
  }

  /** The ten base names are told apart by their first and third characters. */
  lemma {:induction false} BaseNamesTellApart(a: nat, b: nat)
    requires a < 10 && b < 10 && a != b
    ensures |WineData[a].name| >= 3 && |WineData[b].name| >= 3
    ensures WineData[a].name[0] != WineData[b].name[0] || WineData[a].name[2] != WineData[b].name[2]
  {
    var keys := [('C', '\U{C3}'), ('D', 'm'), ('C', 'a'), ('B', 'r'), ('C', 'i'),
                 ('R', 'o'), ('R', 'e'), ('C', 'b'), ('P', 'n'), ('S', 'i')];
    forall k: nat | k < 10
      ensures |WineData[k].name| >= 3 && (WineData[k].name[0], WineData[k].name[2]) == keys[k]
    {
      assert k == 0 || k == 1 || k == 2 || k == 3 || k == 4 || k == 5 || k == 6 || k == 7 || k == 8 || k == 9;
    }
    assert keys[a] != keys[b] by {
      assert a == 0 || a == 1 || a == 2 || a == 3 || a == 4 || a == 5 || a == 6 || a == 7 || a == 8 || a == 9;
    }
  }

  /** A decimal numeral determines its number. */
  lemma DecimalInjective(m: nat, n: nat)
    requires NatToDecimal(m) == NatToDecimal(n)
    ensures m == n
  {
    DecimalValue(m);
    DecimalValue(n);
  }

  /** Two bottle names of the same base name are equal only for the same cycle. */
  lemma {:induction false} BottleNamesDistinct(name: string, c: nat, d: nat)
    requires c != d
    ensures BottleName(name, c) != BottleName(name, d)
  {
    if BottleName(name, c) == BottleName(name, d) {
      var head := name + " (Bottle ";
      var x := NatToDecimal(c + 1);
      var y := NatToDecimal(d + 1);
      assert BottleName(name, c) == head + x + ")";
      assert BottleName(name, d) == head + y + ")";
      assert |x| == |y|;
      assert x == (head + x + ")")[|head|..|head| + |x|];
      assert y == (head + y + ")")[|head|..|head| + |y|];
      DecimalInjective(c + 1, d + 1);
    }
  }

  /** Every wine of the collection has a name of its own. */
  lemma {:induction false} SeedNamesDistinct(i: nat, j: nat)
    requires i < CollectionSize && j < CollectionSize && i != j
    ensures SeedWineAt(i).name != SeedWineAt(j).name
  {
    var a, b := i % 10, j % 10;
    var ni, nj := SeedWineAt(i).name.value, SeedWineAt(j).name.value;
    if a == b {
      assert i / 10 != j / 10;
      if i < 10 {
        assert ni == WineData[a].name && nj == BottleName(WineData[a].name, j / 10);
        assert |nj| > |ni|;
      } else if j < 10 {
        assert nj == WineData[a].name && ni == BottleName(WineData[a].name, i / 10);
        assert |ni| > |nj|;
      } else {
        BottleNamesDistinct(WineData[a].name, i / 10, j / 10);
      }
    } else {
      BaseNamesTellApart(a, b);
      assert ni[0] == WineData[a].name[0] && ni[2] == WineData[a].name[2];
      assert nj[0] == WineData[b].name[0] && nj[2] == WineData[b].name[2];
    }
  }

  /** The step before insertion: every generated wine gets the test user's id as its owner. */
  function StampOwner(wines: seq<Payload>, ownerId: string): (stamped: seq<Payload>)
    ensures |stamped| == |wines|
    ensures forall i :: 0 <= i < |wines| ==> stamped[i].userId == Some(ownerId)
    ensures forall i :: 0 <= i < |wines| ==> stamped[i].(userId := wines[i].userId) == wines[i]
  {
    seq(|wines|, i requires 0 <= i < |wines| => wines[i].(userId := Some(ownerId)))
  }
}
