/**
 * The candidate records the providers produce and the planner consumes.  In
 * the source they are dictionaries whose keys differ by category; here one
 * record type has an optional field per key, `None` standing for a key the
 * dictionary does not have.
 */
module Records {
  import opened Wrappers
  import opened Sequences

  datatype Candidate = Candidate(
    name: string,                 // "airline" of a flight, "name" of a hotel or restaurant
    departure: string,
    arrival: string,
    currency: string,
    cuisine: string,
    link: Option<string>,
    stops: Option<int>,
    stars: Option<int>,
    price: Option<real>,          // flights
    pricePerNight: Option<real>,  // hotels
    estimatedPrice: Option<real>, // restaurants
    avgPrice: Option<real>,       // restaurants from other sources
    rating: Option<real>,
    score: Option<real>)          // added by the ranker

  /** What one provider call yields: a list, or the error a failed call leaves. */
  datatype Slot = Items(items: seq<Candidate>) | Failed

  function FlightRecord(airline: string, departure: string, arrival: string, price: real, stops: int): Candidate {
    Candidate(airline, departure, arrival, "USD", "", None, Some(stops), None, Some(price), None, None, None, None, None)
  }

  function HotelRecord(name: string, stars: int, pricePerNight: real, rating: real, link: string): Candidate {
    Candidate(name, "", "", "USD", "", Some(link), None, Some(stars), None, Some(pricePerNight), None, None, Some(rating), None)
  }

  function RestaurantRecord(name: string, link: string, estimatedPrice: real, cuisine: string): Candidate {
    Candidate(name, "", "", "", cuisine, Some(link), None, None, None, None, Some(estimatedPrice), None, None, None)
  }

  /** `d.get(key, 0)`. */
  function GetOrZero(v: Option<real>): real {
    v.GetOr(0.0)
  }

  /** Python's `a or b` on numbers: `a` unless it is zero. */
  function OrElse(a: real, b: real): real {
    if a != 0.0 then a else b
  }

  /** The restaurant price the greedy pick tests: `estimated_price or avg_price or price`. */
  function PickPrice(r: Candidate): real {
    OrElse(OrElse(GetOrZero(r.estimatedPrice), GetOrZero(r.avgPrice)), GetOrZero(r.price))
  }

  /** The restaurant price the cost sum adds: `estimated_price or avg_price`. */
  function CostPrice(r: Candidate): (p: real)
    ensures PickPrice(r) == 0.0 ==> p == 0.0
    ensures p != 0.0 ==> p == PickPrice(r)
  {
    OrElse(GetOrZero(r.estimatedPrice), GetOrZero(r.avgPrice))
  }

  /** The restaurant price pruning sorts by and subtracts: `estimated_price` only. */
  function PrunePrice(r: Candidate): (p: real)
    ensures p != 0.0 ==> p == CostPrice(r) && p == PickPrice(r)
  {
    GetOrZero(r.estimatedPrice)
  }

  /** `restaurants_cost`: the sum of the cost prices of `rs`. */
  function CostSum(rs: seq<Candidate>): real {
    if rs == [] then 0.0 else CostPrice(rs[0]) + CostSum(rs[1..])
  }

  /** The sum of the prune prices of `rs`. */
  function PruneSum(rs: seq<Candidate>): real {
    if rs == [] then 0.0 else PrunePrice(rs[0]) + PruneSum(rs[1..])
  }

  /** A sort key: a price, or the `float('inf')` a flight without a price gets. */
  datatype PriceKey = Finite(amount: real) | Infinity

  function KeyOf(f: Candidate): PriceKey {
    if f.price.Some? then Finite(f.price.value) else Infinity
  }

  predicate KeyLe(a: PriceKey, b: PriceKey) {
    b.Infinity? || (a.Finite? && a.amount <= b.amount)
  }

  /** The order `sorted(flights, key=lambda f: f.get("price", inf))` arranges flights in. */
  predicate CheaperOrSame(f: Candidate, g: Candidate) {
    KeyLe(KeyOf(f), KeyOf(g))
  }

  lemma CheaperOrSameIsTotalPreorder()
    ensures TotalPreorder(CheaperOrSame)
  {
  }
}
