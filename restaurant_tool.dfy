/** `search_restaurants` (travel_planner/tools/restaurant_tool.py): the mock city table and its two filters. */
module RestaurantTool {
  import opened Wrappers
  import opened Sequences
  import opened PyText

  datatype Listing = Listing(name: string, cuisine: string, rating: real, priceLevel: string, neighborhood: string)

  /** The mock data, keyed by lower-case city name. */
  const MockRestaurants: map<string, seq<Listing>> :=
    map["san francisco" := SanFrancisco, "tokyo" := Tokyo, "london" := London]

  const SanFrancisco: seq<Listing> := [
      Listing("Zuni Café", "French/Italian", 4.6, "$$$", "Hayes Valley"),
      Listing("Sotto Mare", "Seafood", 4.7, "$$", "North Beach"),
      Listing("Mister Jiu's", "Modern Chinese", 4.5, "$$$$", "Chinatown"),
      Listing("Brenda's French Soul Food", "Creole/Southern", 4.4, "$$", "Tenderloin"),
      Listing("La Taqueria", "Mexican", 4.8, "$", "Mission District")]

  const Tokyo: seq<Listing> := [
      Listing("Kaiten Sushi Toriton", "Sushi", 4.7, "$$", "Sumida"),
      Listing("Rokurinsha", "Ramen", 4.5, "$", "Tokyo Station"),
      Listing("Sézanne", "Modern French", 4.9, "$$$$", "Marunouchi"),
      Listing("Gyukatsu Motomura", "Beef Cutlet", 4.6, "$$", "Shibuya"),
      Listing("Den", "Kaiseki", 4.8, "$$$$", "Jingumae")]

  const London: seq<Listing> := [
      Listing("Dishoom", "Indian", 4.7, "$$", "Soho"),
      Listing("The Ledbury", "Modern British", 4.9, "$$$$", "Notting Hill"),
      Listing("Padella", "Italian", 4.6, "$$", "Borough Market"),
      Listing("St. John", "British", 4.5, "$$$", "Smithfield"),
      Listing("Tayyabs", "Punjabi", 4.4, "$", "Whitechapel")]

  /** The tool's answer: one of its two messages, or the matching listings (which it returns as JSON text). */
  datatype Answer = NoCityData(message: string) | NoMatch(message: string) | Found(listings: seq<Listing>)

  /** Whether a listing's cuisine contains the query, ignoring case. */
  predicate CuisineMatches(r: Listing, cuisine: string) {
    Contains(Lower(r.cuisine), Lower(cuisine))
  }

  /** Whether a listing's price level has at most as many signs as the query. */
  predicate WithinPrice(r: Listing, maxPrice: string) {
    |r.priceLevel| <= |maxPrice|
  }

  function ByCuisine(listings: seq<Listing>, cuisine: string): (r: seq<Listing>)
    ensures IsSubsequence(r, listings)
    ensures forall x :: x in r <==> x in listings && CuisineMatches(x, cuisine)
  {
    var p := (x: Listing) => CuisineMatches(x, cuisine);
    FilterIsSubsequence(listings, p);
    Filter(listings, p)
  }

  function ByPrice(listings: seq<Listing>, maxPrice: string): (r: seq<Listing>)
    ensures IsSubsequence(r, listings)
    ensures forall x :: x in r <==> x in listings && WithinPrice(x, maxPrice)
  {
    var p := (x: Listing) => WithinPrice(x, maxPrice);
    FilterIsSubsequence(listings, p);
    Filter(listings, p)
  }

  /** A filter argument that is switched on: given and not empty. */
  predicate Given(s: Option<string>) {
    s.Some? && s.value != ""
  }

  /** The listings of `city` left by the filters that are switched on. */
  function Matching(listings: seq<Listing>, cuisine: Option<string>, maxPrice: Option<string>): seq<Listing> {
    var byCuisine := if Given(cuisine) then ByCuisine(listings, cuisine.value) else listings;
    if Given(maxPrice) then ByPrice(byCuisine, maxPrice.value) else byCuisine
  }

  /** `search_restaurants(location, cuisine, max_price)`. */
  function SearchRestaurants(location: string, cuisine: Option<string>, maxPrice: Option<string>): Answer {
    var city := Lower(location);
    if city !in MockRestaurants then
      NoCityData("I'm sorry, I don't have restaurant data for " + location + " yet.")
    else
      var results := Matching(MockRestaurants[city], cuisine, maxPrice);
      if results == [] then NoMatch("No restaurants found in " + location + " matching your specific criteria.")
      else Found(results)
  }

  /** Whether a listing passes every filter that is switched on. */
  predicate Passes(r: Listing, cuisine: Option<string>, maxPrice: Option<string>) {
    (Given(cuisine) ==> CuisineMatches(r, cuisine.value)) && (Given(maxPrice) ==> WithinPrice(r, maxPrice.value))
  }

  /**
   * The filters only remove listings and keep their order, and a listing is
   * kept exactly when it passes every filter that is switched on.
   */
  lemma MatchingSpec(listings: seq<Listing>, cuisine: Option<string>, maxPrice: Option<string>)
    ensures IsSubsequence(Matching(listings, cuisine, maxPrice), listings)
    ensures forall x :: x in Matching(listings, cuisine, maxPrice) <==> x in listings && Passes(x, cuisine, maxPrice)
  {
    var byCuisine := if Given(cuisine) then ByCuisine(listings, cuisine.value) else listings;
    SubsequenceOfItself(listings);
    SubsequenceOfItself(byCuisine);
    SubsequenceTransitive(Matching(listings, cuisine, maxPrice), byCuisine, listings);
  }

  /**
   * The answer depends on the city only through its lower-case form: an
   * unknown city gets the no-data message, a known one its filtered listings,
   * or the no-match message when none is left.
   */
  lemma SearchOutcome(location: string, cuisine: Option<string>, maxPrice: Option<string>)
    ensures Lower(location) !in MockRestaurants <==> SearchRestaurants(location, cuisine, maxPrice).NoCityData?
    ensures Lower(location) in MockRestaurants ==>
              var results := Matching(MockRestaurants[Lower(location)], cuisine, maxPrice);
              (results == [] <==> SearchRestaurants(location, cuisine, maxPrice).NoMatch?) &&
              (results != [] ==> SearchRestaurants(location, cuisine, maxPrice) == Found(results))
  {
  }

  /** Spelling the city in another case changes nothing but the messages' wording. */
  lemma CityCaseInsensitive(a: string, b: string, cuisine: Option<string>, maxPrice: Option<string>)
    requires Lower(a) == Lower(b)
    ensures SearchRestaurants(a, cuisine, maxPrice).Found? == SearchRestaurants(b, cuisine, maxPrice).Found?
    ensures SearchRestaurants(a, cuisine, maxPrice).NoCityData? == SearchRestaurants(b, cuisine, maxPrice).NoCityData?
    ensures SearchRestaurants(a, cuisine, maxPrice).Found? ==> SearchRestaurants(a, cuisine, maxPrice) == SearchRestaurants(b, cuisine, maxPrice)
  {
  }

  /** "London" with a one-sign budget finds only Tayyabs. */
  lemma CheapLondon()
    ensures SearchRestaurants("London", None, Some("$")) == Found([London[4]])
  {
    LondonLowered();
    assert "london" in MockRestaurants && MockRestaurants["london"] == London;
    LondonOneSign();
    assert Matching(London, None, Some("$")) == [London[4]];
  }

  /** The city lookup step of CheapLondon. */
  lemma LondonLowered()
    ensures Lower("London") == "london"
  {
    assert LowerChar('L') == 'l';
  }

  /** The price filter step of CheapLondon. */
  lemma LondonOneSign()
    ensures ByPrice(London, "$") == [London[4]]
  {
    var p := (x: Listing) => WithinPrice(x, "$");
    assert London[1..][1..] == London[2..];
    assert London[2..][1..] == London[3..];
    assert London[3..][1..] == [London[4]];
    assert [London[4]][1..] == [];
    assert Filter([London[4]], p) == [London[4]];
    assert Filter(London[3..], p) == [London[4]];
    assert Filter(London[2..], p) == [London[4]];
    assert Filter(London[1..], p) == [London[4]];
    assert Filter(London, p) == [London[4]];
  }
}
