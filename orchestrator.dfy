/**
 * `TravelPlannerOrchestrator.plan` (travel_planner/orchestrator.py): the
 * nights check, the allocation, the three provider calls and their
 * truncation, the ranking and the choice of flight and hotel, the greedy
 * restaurant pick, the costs, the three relaxation stages and the tolerance
 * flag.  The providers and the ranker are inputs.
 */
module Orchestrator {
  import opened Wrappers
  import opened Money
  import opened Sequences
  import opened Records
  import opened Utils

  /**
   * The arguments of `plan` the arithmetic depends on: the trip as day
   * numbers, the budget, the allocation override and the tolerance.  Origin,
   * destination, cuisine, passengers and the star preference only reach the
   * providers, which are given already bound to them.
   */
  datatype Request = Request(startDay: int, endDay: int, budget: real, allocationOverride: Option<Dict>, tolerance: real)

  /**
   * The agents as the plan sees them: the flight search at a flight budget,
   * the hotel search at a per-night cap, the restaurant search with a result
   * limit, and `rank_items_via_llm(role, items, role_budget, top_k)`.
   */
  datatype Providers = Providers(
    flights: real -> Slot,
    hotels: real -> Slot,
    restaurants: int -> Slot,
    rank: (string, seq<Candidate>, real, int) -> seq<Candidate>)

  const NightsError: string := "end_date must be after start_date"
  const HotelSearchError: string := "hotel search raised"
  const FlightSearchError: string := "flight search raised"

  /** `round(hotel / max(nights, 1), 2)`: the per-night cap of the hotel search. */
  function HotelCap(hotelAmount: real, nights: nat): (cap: real)
    ensures IsCents(cap)
    ensures nights <= 1 ==> cap == Round2(hotelAmount)
    ensures hotelAmount >= 0.0 ==> 0.0 <= cap
  {
    var perNight := hotelAmount / (if nights > 1 then nights else 1) as real;
    RoundIsCents(perNight);
    if hotelAmount >= 0.0 then
      RoundMonotone(0.0, perNight);
      Round2(perNight)
    else Round2(perNight)
  }

  /** `max(6, nights * 2)`: how many restaurants are asked for. */
  function RestaurantLimit(nights: nat): (limit: int)
    ensures limit >= 6 && limit >= 2 * nights && (limit == 6 || limit == 2 * nights)
  {
    if 6 >= nights * 2 then 6 else nights * 2
  }

  /** `xs[:n] if isinstance(xs, list) else []`: a failed call counts as no result. */
  function Top(slot: Slot, n: nat): (top: seq<Candidate>)
    ensures slot.Failed? ==> top == []
    ensures slot.Items? ==> |top| == (if |slot.items| < n then |slot.items| else n) && top == slot.items[..|top|]
  {
    match slot
    case Items(xs) => SliceTo(xs, n)
    case Failed => []
  }

  /** The ranker is called only on a non-empty candidate list. */
  function RankIfAny(rank: (string, seq<Candidate>, real, int) -> seq<Candidate>, role: string,
                     top: seq<Candidate>, roleBudget: real, topK: int): (ranked: seq<Candidate>)
    ensures top == [] ==> ranked == []
    ensures top != [] ==> ranked == rank(role, top, roleBudget, topK)
  {
    if top != [] then rank(role, top, roleBudget, topK) else []
  }

  /**
   * `ranked[0] if ranked else (top[0] if top else None)`: the ranker's favourite,
   * else the provider's first, and nothing only when both lists are empty.
   */
  function Choose(ranked: seq<Candidate>, top: seq<Candidate>): (chosen: Option<Candidate>)
    ensures chosen.None? <==> ranked == [] && top == []
    ensures chosen.Some? ==> (ranked != [] && chosen.value == ranked[0]) || (ranked == [] && chosen.value == top[0])
  {
    if ranked != [] then Some(ranked[0]) else if top != [] then Some(top[0]) else None
  }

  // ------------------------------------------------------------- greedy pick

  /** One step of the greedy pick: a free restaurant is taken, a priced one when it still fits. */
  function Take(pick: (seq<Candidate>, real), r: Candidate): (next: (seq<Candidate>, real))
    ensures next.0 == pick.0 + [r] || next.0 == pick.0
    ensures PickPrice(r) == 0.0 ==> next == (pick.0 + [r], pick.1)
    ensures PickPrice(r) != 0.0 ==> (next.0 == pick.0 + [r] <==> PickPrice(r) <= pick.1)
    ensures PickPrice(r) != 0.0 && PickPrice(r) <= pick.1 ==> next.1 == Round2(pick.1 - PickPrice(r))
    ensures next.0 == pick.0 ==> next.1 == pick.1
    ensures pick.1 >= 0.0 ==> next.1 >= 0.0
  {
    var price := PickPrice(r);
    if price == 0.0 then (pick.0 + [r], pick.1)
    else if price <= pick.1 then
      RoundMonotone(0.0, pick.1 - price);
      (pick.0 + [r], Round2(pick.1 - price))
    else pick
  }

  /**
   * The restaurants the greedy pick chooses from `ranked` with the restaurant
   * allocation as its budget, and the budget left.  The choice keeps the
   * ranked order, takes every free restaurant, and never leaves a negative
   * budget from a non-negative one.
   */
  function Greedy(ranked: seq<Candidate>, budget: real): (pick: (seq<Candidate>, real))
    ensures IsSubsequence(pick.0, ranked)
    ensures forall i :: 0 <= i < |ranked| && PickPrice(ranked[i]) == 0.0 ==> ranked[i] in pick.0
    ensures budget >= 0.0 ==> pick.1 >= 0.0
  {
    if ranked == [] then ([], budget)
    else
      var last := ranked[|ranked| - 1];
      var init := ranked[..|ranked| - 1];
      var before := Greedy(init, budget);
      SubsequenceExtend(before.0, init, last);
      assert init + [last] == ranked;
      Take(before, last)
  }

  /**
   * The restaurant at rank `i` is taken exactly when it is free or its price
   * fits the budget left after the ranks before it; when it is not taken
   * nothing changes, and when a priced one is taken the budget drops by its
   * price, rounded to cents.
   */
  lemma GreedyStep(ranked: seq<Candidate>, budget: real, i: nat)
    requires i < |ranked|
    ensures var before, after := Greedy(ranked[..i], budget), Greedy(ranked[..i + 1], budget);
            var price := PickPrice(ranked[i]);
            (after.0 == before.0 + [ranked[i]] <==> price == 0.0 || price <= before.1)
            && (after.0 != before.0 + [ranked[i]] ==> after == before)
            && (price != 0.0 && price <= before.1 ==> after.1 == Round2(before.1 - price))
            && (price == 0.0 ==> after.1 == before.1)
  {
    assert ranked[..i + 1][..i] == ranked[..i];
    assert ranked[..i + 1][i] == ranked[i];
  }

  /** The pick over the first `i` ranks is the start of the pick over all of them. */
  lemma {:induction false} GreedyPrefix(ranked: seq<Candidate>, budget: real, i: nat)
    requires i <= |ranked|
    ensures Greedy(ranked[..i], budget).0 <= Greedy(ranked, budget).0
    decreases |ranked| - i
  {
    if i < |ranked| {
      GreedyStep(ranked, budget, i);
      GreedyPrefix(ranked, budget, i + 1);
      if i + 1 == |ranked| {
        assert ranked[..i + 1] == ranked;
      }
    } else {
      assert ranked[..i] == ranked;
    }
  }

  /** The greedy loop of `plan`. */
  method PickRestaurants(ranked: seq<Candidate>, budget: real) returns (chosen: seq<Candidate>, remaining: real)
    ensures (chosen, remaining) == Greedy(ranked, budget)
  {
    chosen, remaining := [], budget;
    for i := 0 to |ranked|
      invariant (chosen, remaining) == Greedy(ranked[..i], budget)
    {
      assert ranked[..i + 1][..i] == ranked[..i];
      var r := ranked[i];
      var price := PickPrice(r);
      if price == 0.0 {
        chosen := chosen + [r];
        continue;
      }
      if price <= remaining {
        chosen := chosen + [r];
        remaining := Round2(remaining - price);
      }
    }
    assert ranked[..|ranked|] == ranked;
  }

  /** The pick prices of `rs`, added up. */
  function PickSum(rs: seq<Candidate>): real {
    if rs == [] then 0.0 else PickSum(rs[..|rs| - 1]) + PickPrice(rs[|rs| - 1])
  }

  /**
   * With whole-cent prices and budget the rounding is exact, and the budget
   * left is the allocation less the prices of the chosen restaurants.
   */
  lemma {:induction false} GreedyAccounting(ranked: seq<Candidate>, budget: real)
    requires IsCents(budget)
    requires forall i :: 0 <= i < |ranked| ==> IsCents(PickPrice(ranked[i]))
    ensures IsCents(Greedy(ranked, budget).1)
    ensures Greedy(ranked, budget).1 + PickSum(Greedy(ranked, budget).0) == budget
  {
    if ranked != [] {
      var last := ranked[|ranked| - 1];
      var init := ranked[..|ranked| - 1];
      GreedyAccounting(init, budget);
      var before := Greedy(init, budget);
      var price := PickPrice(last);
      assert (before.0 + [last])[..|before.0|] == before.0;
      if price != 0.0 && price <= before.1 {
        CentsArith(before.1, price);
      }
    }
  }

  // ----------------------------------------------------------------- pruning

  /** The order of `sort(key=estimated_price, reverse=True)`: the priciest first. */
  predicate PricierOrSame(a: Candidate, b: Candidate) {
    PrunePrice(a) >= PrunePrice(b)
  }

  lemma PricierOrSameIsTotalPreorder()
    ensures TotalPreorder(PricierOrSame)
  {
  }

  /**
   * The pruning loop: drop the first restaurant and its `estimated_price`
   * while restaurants are left and the subtotal is over the budget.  What is
   * kept is a suffix of the list, and either nothing is kept or the subtotal
   * is within the budget.
   */
  function Prune(rs: seq<Candidate>, subtotal: real, budget: real): (out: (seq<Candidate>, real))
    ensures IsSuffix(out.0, rs)
    ensures out.0 == [] || out.1 <= budget
    ensures subtotal <= budget ==> out == (rs, subtotal)
  {
    if rs != [] && subtotal > budget then
      Prune(rs[1..], Round2(subtotal - PrunePrice(rs[0])), budget)
    else (rs, subtotal)
  }

  /** The while loop of the first relaxation stage. */
  method PruneRestaurants(sorted: seq<Candidate>, subtotal0: real, budget: real) returns (kept: seq<Candidate>, subtotal: real)
    ensures (kept, subtotal) == Prune(sorted, subtotal0, budget)
  {
    kept, subtotal := sorted, subtotal0;
    while kept != [] && subtotal > budget
      invariant Prune(kept, subtotal, budget) == Prune(sorted, subtotal0, budget)
      decreases |kept|
    {
      PruneStep(kept, subtotal, budget);
      var removed := kept[0];
      kept := kept[1..];
      subtotal := Round2(subtotal - PrunePrice(removed));
    }
  }

  /** One turn of the pruning loop: over the budget, the first restaurant goes and its price comes off. */
  lemma PruneStep(rs: seq<Candidate>, subtotal: real, budget: real)
    requires rs != [] && subtotal > budget
    ensures Prune(rs, subtotal, budget) == Prune(rs[1..], Round2(subtotal - PrunePrice(rs[0])), budget)
  {
  }

  /** Every subtotal pruning computes is rounded, so a whole-cent subtotal stays whole cents. */
  lemma {:induction false} PruneCents(rs: seq<Candidate>, subtotal: real, budget: real)
    requires IsCents(subtotal)
    ensures IsCents(Prune(rs, subtotal, budget).1)
    decreases |rs|
  {
    if rs != [] && subtotal > budget {
      var next := Round2(subtotal - PrunePrice(rs[0]));
      RoundIsCents(subtotal - PrunePrice(rs[0]));
      PruneCents(rs[1..], next, budget);
      assert Prune(rs, subtotal, budget) == Prune(rs[1..], next, budget);
    }
  }

  /** The first stage: sort the chosen restaurants priciest first, then prune, when over the budget. */
  function PruneStage(chosen: seq<Candidate>, subtotal: real, budget: real): (seq<Candidate>, real) {
    if subtotal > budget then Prune(SortBy(chosen, PricierOrSame), subtotal, budget) else (chosen, subtotal)
  }

  /**
   * After the first stage either no restaurant is left or the subtotal is
   * within the budget; the kept restaurants are among the chosen ones, and
   * every one removed costs at least as much as every one kept.
   */
  lemma PruneStageSpec(chosen: seq<Candidate>, subtotal: real, budget: real)
    ensures var out := PruneStage(chosen, subtotal, budget);
            && (out.0 == [] || out.1 <= budget)
            && (IsCents(subtotal) ==> IsCents(out.1))
            && multiset(out.0) <= multiset(chosen)
  {
    if subtotal > budget {
      var sorted := SortBy(chosen, PricierOrSame);
      var out := Prune(sorted, subtotal, budget);
      if IsCents(subtotal) {
        PruneCents(sorted, subtotal, budget);
      }
      assert sorted == sorted[..|sorted| - |out.0|] + out.0;
      assert multiset(sorted) == multiset(sorted[..|sorted| - |out.0|]) + multiset(out.0);
    }
  }

  /** The chosen restaurants sorted priciest first are in that order. */
  lemma PricierFirstSorted(chosen: seq<Candidate>)
    ensures SortedBy(SortBy(chosen, PricierOrSame), PricierOrSame)
  {
    PricierOrSameIsTotalPreorder();
    SortBySorted(chosen, PricierOrSame);
  }

  /** Every restaurant pruning removes costs at least as much as every one it keeps. */
  lemma PruneRemovesPriciest(chosen: seq<Candidate>, subtotal: real, budget: real)
    requires subtotal > budget
    ensures var sorted := SortBy(chosen, PricierOrSame);
            var kept := PruneStage(chosen, subtotal, budget).0;
            forall i, j :: 0 <= i < |sorted| - |kept| <= j < |sorted| ==> PrunePrice(sorted[i]) >= PrunePrice(sorted[j])
  {
    PricierFirstSorted(chosen);
  }

  /**
   * With whole-cent amounts each pop lowers the subtotal by exactly the
   * popped restaurant's `estimated_price`: the subtotal left is the one
   * before less the prices of the restaurants removed, which are all but the
   * kept suffix.
   */
  lemma {:induction false} PruneAccounting(rs: seq<Candidate>, subtotal: real, budget: real)
    requires IsCents(subtotal)
    requires forall r :: r in rs ==> IsCents(PrunePrice(r))
    ensures var out := Prune(rs, subtotal, budget);
            out.1 == subtotal - (PruneSum(rs) - PruneSum(out.0))
    decreases |rs|
  {
    if rs != [] && subtotal > budget {
      var price := PrunePrice(rs[0]);
      CentsArith(subtotal, price);
      assert forall r :: r in rs[1..] ==> r in rs;
      PruneAccounting(rs[1..], subtotal - price, budget);
      assert Prune(rs, subtotal, budget) == Prune(rs[1..], subtotal - price, budget);
    }
  }

  // ----------------------------------------------------- hotel and flight stages

  /** What the plan has chosen and what it costs, as the relaxation updates it. */
  datatype Spend = Spend(
    flight: Option<Candidate>, hotel: Option<Candidate>, restaurants: seq<Candidate>,
    flightCost: real, hotelCost: real, restaurantsCost: real, subtotal: real)

  /** `chosen_flight.get("price", 0) if chosen_flight else 0`. */
  function FlightCost(f: Option<Candidate>): real {
    if f.Some? then GetOrZero(f.value.price) else 0.0
  }

  /** `hotel.get("price_per_night", 0) * nights`. */
  function NightlyCost(h: Candidate, nights: nat): real {
    GetOrZero(h.pricePerNight) * nights as real
  }

  function HotelCost(h: Option<Candidate>, nights: nat): real {
    if h.Some? then NightlyCost(h.value, nights) else 0.0
  }

  /**
   * The second stage, when still over the budget: the first hotel of the
   * search at 80% of the cap replaces the chosen one when it costs strictly
   * less over the stay.  The subtotal is recomputed from the restaurant cost
   * of the greedy pick, which pruning did not update.
   */
  function HotelStage(s: Spend, alt: Slot, nights: nat, budget: real): Result<Spend, string> {
    if s.subtotal <= budget then Success(s)
    else match alt
      case Failed => Failure(HotelSearchError)
      case Items(xs) =>
        if xs != [] && NightlyCost(xs[0], nights) < s.hotelCost then
          var cost := NightlyCost(xs[0], nights);
          Success(s.(hotel := Some(xs[0]), hotelCost := cost, subtotal := Round2(s.flightCost + cost + s.restaurantsCost)))
        else Success(s)
  }

  /**
   * The third stage, when still over the budget: the first flight of the
   * search at 90% of the flight allocation replaces the chosen one when it
   * has a price strictly below the current flight cost.
   */
  function FlightStage(s: Spend, alt: Slot, budget: real): Result<Spend, string> {
    if s.subtotal <= budget then Success(s)
    else match alt
      case Failed => Failure(FlightSearchError)
      case Items(xs) =>
        if xs != [] && xs[0].price.Some? && xs[0].price.value < s.flightCost then
          var cost := xs[0].price.value;
          Success(s.(flight := Some(xs[0]), flightCost := cost, subtotal := Round2(cost + s.hotelCost + s.restaurantsCost)))
        else Success(s)
  }

  /**
   * The hotel stage runs only over the budget, fails only when its search
   * raises, never raises the hotel cost, replaces the hotel only with a
   * strictly cheaper one found by the search, and leaves flight and
   * restaurants alone.
   */
  lemma HotelStageSpec(s: Spend, alt: Slot, nights: nat, budget: real)
    ensures s.subtotal <= budget ==> HotelStage(s, alt, nights, budget) == Success(s)
    ensures HotelStage(s, alt, nights, budget).Failure? <==> s.subtotal > budget && alt.Failed?
    ensures HotelStage(s, alt, nights, budget).Success? ==>
              var t := HotelStage(s, alt, nights, budget).value;
              && t.hotelCost <= s.hotelCost
              && (t.hotel != s.hotel ==> t.hotelCost < s.hotelCost && alt.Items? && t.hotel == Some(alt.items[0]))
              && t.flight == s.flight && t.flightCost == s.flightCost
              && t.restaurants == s.restaurants && t.restaurantsCost == s.restaurantsCost
              && (IsCents(s.subtotal) ==> IsCents(t.subtotal))
  {
    if s.subtotal > budget && alt.Items? && alt.items != [] {
      RoundIsCents(s.flightCost + NightlyCost(alt.items[0], nights) + s.restaurantsCost);
    }
  }

  /**
   * The flight stage likewise: it never raises the flight cost and replaces
   * the flight only with the search's first, strictly cheaper, priced flight.
   */
  lemma FlightStageSpec(s: Spend, alt: Slot, budget: real)
    ensures s.subtotal <= budget ==> FlightStage(s, alt, budget) == Success(s)
    ensures FlightStage(s, alt, budget).Failure? <==> s.subtotal > budget && alt.Failed?
    ensures FlightStage(s, alt, budget).Success? ==>
              var t := FlightStage(s, alt, budget).value;
              && t.flightCost <= s.flightCost
              && (t.flight != s.flight ==> t.flightCost < s.flightCost && alt.Items? && t.flight == Some(alt.items[0]))
              && t.hotel == s.hotel && t.hotelCost == s.hotelCost
              && t.restaurants == s.restaurants && t.restaurantsCost == s.restaurantsCost
              && (IsCents(s.subtotal) ==> IsCents(t.subtotal))
  {
    if s.subtotal > budget && alt.Items? && alt.items != [] && alt.items[0].price.Some? {
      RoundIsCents(alt.items[0].price.value + s.hotelCost + s.restaurantsCost);
    }
  }

  // ------------------------------------------------------------------ the plan

  datatype Costs = Costs(flight: real, hotel: real, restaurant: real, subtotal: real, budget: real)

  /** The plan dictionary without its notes and summary text. */
  datatype TripPlan = TripPlan(
    nights: nat, allocation: map<string, real>,
    chosenFlight: Option<Candidate>, chosenHotel: Option<Candidate>, chosenRestaurants: seq<Candidate>,
    costs: Costs, withinTolerance: bool)

  /** The flights, hotels and restaurants the first round of calls offers, cut to 3, 3 and 10. */
  datatype Offers = Offers(flights: seq<Candidate>, hotels: seq<Candidate>, restaurants: seq<Candidate>)

  function FirstOffers(p: Providers, allocation: map<string, real>, cap: real, nights: nat): Offers
    requires allocation.Keys == CategoryKeys
  {
    Offers(Top(p.flights(allocation["flight"]), 3), Top(p.hotels(cap), 3),
           Top(p.restaurants(RestaurantLimit(nights)), 10))
  }

  /** The choices and costs before any relaxation. */
  function Initial(p: Providers, allocation: map<string, real>, offers: Offers, nights: nat): Spend
    requires allocation.Keys == CategoryKeys
  {
    var rankedFlights := RankIfAny(p.rank, "flight", offers.flights, allocation["flight"], 3);
    var rankedHotels := RankIfAny(p.rank, "hotel", offers.hotels, allocation["hotel"], 3);
    var rankedRestaurants := RankIfAny(p.rank, "restaurant", offers.restaurants, allocation["restaurant"], 6);
    var flight := Choose(rankedFlights, offers.flights);
    var hotel := Choose(rankedHotels, offers.hotels);
    var chosen := Greedy(rankedRestaurants, allocation["restaurant"]).0;
    var fc, hc, rc := FlightCost(flight), HotelCost(hotel, nights), CostSum(chosen);
    Spend(flight, hotel, chosen, fc, hc, rc, Round2(fc + hc + rc))
  }

  /** The three relaxation stages. */
  function Relax(p: Providers, allocation: map<string, real>, cap: real, nights: nat, s: Spend, budget: real): Result<Spend, string>
    requires allocation.Keys == CategoryKeys
  {
    var pruned := PruneStage(s.restaurants, s.subtotal, budget);
    match HotelStage(s.(restaurants := pruned.0, subtotal := pruned.1), p.hotels(Round2(cap * 0.8)), nights, budget)
    case Failure(e) => Failure(e)
    case Success(afterHotel) => FlightStage(afterHotel, p.flights(Round2(allocation["flight"] * 0.9)), budget)
  }

  function Assemble(nights: nat, allocation: map<string, real>, s: Spend, budget: real, tolerance: real): TripPlan {
    TripPlan(nights, allocation, s.flight, s.hotel, s.restaurants,
             Costs(Round2(s.flightCost), Round2(s.hotelCost), Round2(s.restaurantsCost), Round2(s.subtotal), Round2(budget)),
             CloseToBudget(s.subtotal, budget, tolerance))
  }

  /** The plan for a trip of `nights > 0` nights once the allocation is known. */
  function PlanWith(req: Request, p: Providers, nights: nat, allocation: map<string, real>): Result<TripPlan, string>
    requires allocation.Keys == CategoryKeys
  {
    var cap := HotelCap(allocation["hotel"], nights);
    var initial := Initial(p, allocation, FirstOffers(p, allocation, cap, nights), nights);
    var final :- Relax(p, allocation, cap, nights, initial, req.budget);
    Success(Assemble(nights, allocation, final, req.budget, req.tolerance))
  }

  /** What `plan` returns, or the error it raises. */
  function PlanSpec(req: Request, p: Providers): Result<TripPlan, string> {
    var nights := NightsBetween(req.startDay, req.endDay);
    if nights == 0 then Failure(NightsError)
    else PlanWith(req, p, nights, Allocate(req.budget, req.allocationOverride))
  }

  /** `plan`, step by step. */
  method Plan(req: Request, p: Providers) returns (r: Result<TripPlan, string>)
    ensures r == PlanSpec(req, p)
  {
    var nights := NightsBetween(req.startDay, req.endDay);
    if nights <= 0 {
      return Failure(NightsError);
    }
    var allocation := AllocateBudget(req.budget, req.allocationOverride);
    var cap := HotelCap(allocation["hotel"], nights);
    var initial := Selection(p, allocation, cap, nights);
    var relaxed := Relaxation(p, allocation, cap, nights, initial, req.budget);
    if relaxed.Failure? {
      return Failure(relaxed.error);
    }
    var final := relaxed.value;
    var withinTolerance := CloseToBudget(final.subtotal, req.budget, req.tolerance);
    r := Success(TripPlan(nights, allocation, final.flight, final.hotel, final.restaurants,
                          Costs(Round2(final.flightCost), Round2(final.hotelCost), Round2(final.restaurantsCost),
                                Round2(final.subtotal), Round2(req.budget)),
                          withinTolerance));
    assert r == Success(Assemble(nights, allocation, final, req.budget, req.tolerance));
  }

  /** The first half of `plan`: the three calls, the ranking, the choices, the greedy pick and the costs. */
  method Selection(p: Providers, allocation: map<string, real>, cap: real, nights: nat) returns (initial: Spend)
    requires allocation.Keys == CategoryKeys
    ensures initial == Initial(p, allocation, FirstOffers(p, allocation, cap, nights), nights)
  {
    var topFlights := Top(p.flights(allocation["flight"]), 3);
    var topHotels := Top(p.hotels(cap), 3);
    var topRestaurants := Top(p.restaurants(RestaurantLimit(nights)), 10);

    var rankedFlights := RankIfAny(p.rank, "flight", topFlights, allocation["flight"], 3);
    var rankedHotels := RankIfAny(p.rank, "hotel", topHotels, allocation["hotel"], 3);
    var rankedRestaurants := RankIfAny(p.rank, "restaurant", topRestaurants, allocation["restaurant"], 6);

    var chosenFlight := Choose(rankedFlights, topFlights);
    var chosenHotel := Choose(rankedHotels, topHotels);
    var chosenRestaurants, _ := PickRestaurants(rankedRestaurants, allocation["restaurant"]);

    var flightCost := FlightCost(chosenFlight);
    var hotelCost := HotelCost(chosenHotel, nights);
    var restaurantsCost := CostSum(chosenRestaurants);
    var subtotal := Round2(flightCost + hotelCost + restaurantsCost);
    initial := Spend(chosenFlight, chosenHotel, chosenRestaurants, flightCost, hotelCost, restaurantsCost, subtotal);
  }

  /** The three relaxation stages of `plan`, each run while the subtotal is over the budget. */
  method Relaxation(p: Providers, allocation: map<string, real>, cap: real, nights: nat, initial: Spend, budget: real)
    returns (r: Result<Spend, string>)
    requires allocation.Keys == CategoryKeys
    ensures r == Relax(p, allocation, cap, nights, initial, budget)
  {
    var chosenRestaurants, subtotal := FewerRestaurants(initial.restaurants, initial.subtotal, budget);
    var pruned := initial.(restaurants := chosenRestaurants, subtotal := subtotal);
    var afterHotel := CheaperHotel(p.hotels, cap, nights, pruned, budget);
    if afterHotel.Failure? {
      r := Failure(afterHotel.error);
    } else {
      r := CheaperFlight(p.flights, allocation["flight"], afterHotel.value, budget);
    }
  }

  /** The first stage: over the budget, sort the chosen restaurants priciest first and prune them. */
  method FewerRestaurants(chosen: seq<Candidate>, subtotal0: real, budget: real) returns (kept: seq<Candidate>, subtotal: real)
    ensures (kept, subtotal) == PruneStage(chosen, subtotal0, budget)
  {
    kept, subtotal := chosen, subtotal0;
    if subtotal > budget {
      kept := SortBy(kept, PricierOrSame);
      kept, subtotal := PruneRestaurants(kept, subtotal, budget);
    }
  }

  /** The second stage: while over the budget, ask for hotels at 80% of the cap and take a cheaper first one. */
  method CheaperHotel(hotels: real -> Slot, cap: real, nights: nat, s: Spend, budget: real) returns (r: Result<Spend, string>)
    ensures r == HotelStage(s, hotels(Round2(cap * 0.8)), nights, budget)
  {
    if s.subtotal <= budget {
      return Success(s);
    }
    var altHotels := hotels(Round2(cap * 0.8));
    if altHotels.Failed? {
      return Failure(HotelSearchError);
    }
    var chosenHotel, hotelCost, subtotal := s.hotel, s.hotelCost, s.subtotal;
    if altHotels.items != [] {
      var altHotel := altHotels.items[0];
      var altCost := NightlyCost(altHotel, nights);
      if altCost < hotelCost {
        chosenHotel := Some(altHotel);
        hotelCost := altCost;
        subtotal := Round2(s.flightCost + hotelCost + s.restaurantsCost);
      }
    }
    r := Success(s.(hotel := chosenHotel, hotelCost := hotelCost, subtotal := subtotal));
  }

  /** The third stage: while over the budget, ask for flights at 90% of the flight allocation and take a cheaper first one. */
  method CheaperFlight(flights: real -> Slot, flightAllocation: real, s: Spend, budget: real) returns (r: Result<Spend, string>)
    ensures r == FlightStage(s, flights(Round2(flightAllocation * 0.9)), budget)
  {
    if s.subtotal <= budget {
      return Success(s);
    }
    var altFlights := flights(Round2(flightAllocation * 0.9));
    if altFlights.Failed? {
      return Failure(FlightSearchError);
    }
    var chosenFlight, flightCost, subtotal := s.flight, s.flightCost, s.subtotal;
    if altFlights.items != [] {
      var altFlight := altFlights.items[0];
      if altFlight.price.Some? && altFlight.price.value < flightCost {
        chosenFlight := Some(altFlight);
        flightCost := altFlight.price.value;
        subtotal := Round2(flightCost + s.hotelCost + s.restaurantsCost);
      }
    }
    r := Success(s.(flight := chosenFlight, flightCost := flightCost, subtotal := subtotal));
  }

  // ------------------------------------------------------------ plan properties

  /** A trip of no nights raises before any provider is asked: the providers do not matter. */
  lemma NoNightsNoPlan(req: Request, p: Providers, q: Providers)
    requires req.endDay <= req.startDay
    ensures PlanSpec(req, p) == Failure(NightsError)
    ensures PlanSpec(req, p) == PlanSpec(req, q)
  {
  }

  /**
   * The plan depends on the providers only through the calls `plan` makes:
   * flights at the flight allocation and at 90% of it, hotels at the cap and
   * at 80% of it, restaurants with the limit, and the ranker.
   */
  lemma QueriedAt(req: Request, p: Providers, q: Providers)
    requires req.startDay < req.endDay
    requires var nights := req.endDay - req.startDay;
             var allocation := Allocate(req.budget, req.allocationOverride);
             var cap := HotelCap(allocation["hotel"], nights);
             && p.flights(allocation["flight"]) == q.flights(allocation["flight"])
             && p.flights(Round2(allocation["flight"] * 0.9)) == q.flights(Round2(allocation["flight"] * 0.9))
             && p.hotels(cap) == q.hotels(cap)
             && p.hotels(Round2(cap * 0.8)) == q.hotels(Round2(cap * 0.8))
             && p.restaurants(RestaurantLimit(nights)) == q.restaurants(RestaurantLimit(nights))
             && p.rank == q.rank
    ensures PlanSpec(req, p) == PlanSpec(req, q)
  {
    var nights := NightsBetween(req.startDay, req.endDay);
    var allocation := Allocate(req.budget, req.allocationOverride);
    assert nights == req.endDay - req.startDay;
    PlanWithQueriedAt(req, p, q, nights, allocation);
    assert PlanSpec(req, p) == PlanWith(req, p, nights, allocation);
    assert PlanSpec(req, q) == PlanWith(req, q, nights, allocation);
  }

  lemma PlanWithQueriedAt(req: Request, p: Providers, q: Providers, nights: nat, allocation: map<string, real>)
    requires allocation.Keys == CategoryKeys
    requires var cap := HotelCap(allocation["hotel"], nights);
             && p.flights(allocation["flight"]) == q.flights(allocation["flight"])
             && p.flights(Round2(allocation["flight"] * 0.9)) == q.flights(Round2(allocation["flight"] * 0.9))
             && p.hotels(cap) == q.hotels(cap)
             && p.hotels(Round2(cap * 0.8)) == q.hotels(Round2(cap * 0.8))
             && p.restaurants(RestaurantLimit(nights)) == q.restaurants(RestaurantLimit(nights))
             && p.rank == q.rank
    ensures PlanWith(req, p, nights, allocation) == PlanWith(req, q, nights, allocation)
  {
    var cap := HotelCap(allocation["hotel"], nights);
    var offers := FirstOffers(p, allocation, cap, nights);
    assert offers == FirstOffers(q, allocation, cap, nights);
    var initial := Initial(p, allocation, offers, nights);
    assert initial == Initial(q, allocation, offers, nights);
    assert Relax(p, allocation, cap, nights, initial, req.budget) == Relax(q, allocation, cap, nights, initial, req.budget);
  }

  /**
   * Before relaxation a flight (and likewise a hotel) is chosen exactly when
   * its provider returned a non-empty list; it is the ranker's first item, or
   * the provider's first when the ranker returns nothing.
   */
  lemma InitialChoice(p: Providers, allocation: map<string, real>, offers: Offers, nights: nat)
    requires allocation.Keys == CategoryKeys
    ensures var s := Initial(p, allocation, offers, nights);
            var ranked := RankIfAny(p.rank, "flight", offers.flights, allocation["flight"], 3);
            && (s.flight.Some? <==> offers.flights != [])
            && (ranked != [] ==> s.flight == Some(ranked[0]))
            && (offers.flights != [] && ranked == [] ==> s.flight == Some(offers.flights[0]))
    ensures var s := Initial(p, allocation, offers, nights);
            var ranked := RankIfAny(p.rank, "hotel", offers.hotels, allocation["hotel"], 3);
            && (s.hotel.Some? <==> offers.hotels != [])
            && (ranked != [] ==> s.hotel == Some(ranked[0]))
            && (offers.hotels != [] && ranked == [] ==> s.hotel == Some(offers.hotels[0]))
  {
  }

  /**
   * The first round of offers: a failed provider gives an empty list, a
   * successful one its first 3 flights, 3 hotels or 10 restaurants.
   */
  lemma OffersShape(p: Providers, allocation: map<string, real>, cap: real, nights: nat)
    requires allocation.Keys == CategoryKeys
    ensures var o := FirstOffers(p, allocation, cap, nights);
            && |o.flights| <= 3 && |o.hotels| <= 3 && |o.restaurants| <= 10
            && (p.flights(allocation["flight"]).Items? ==> IsPrefix(o.flights, p.flights(allocation["flight"]).items))
            && (p.hotels(cap).Items? ==> IsPrefix(o.hotels, p.hotels(cap).items))
            && (p.restaurants(RestaurantLimit(nights)).Items? ==>
                  IsPrefix(o.restaurants, p.restaurants(RestaurantLimit(nights)).items))
            && (p.flights(allocation["flight"]).Failed? ==> o.flights == [])
  {
  }

  predicate IsPrefix(a: seq<Candidate>, b: seq<Candidate>) {
    |a| <= |b| && a == b[..|a|]
  }

  /**
   * Relaxation never raises the flight or hotel cost, keeps only restaurants
   * of the greedy pick, and leaves the restaurant cost at the greedy pick's
   * sum even after pruning removed some of them.
   */
  lemma RelaxSpec(p: Providers, allocation: map<string, real>, cap: real, nights: nat, s: Spend, budget: real)
    requires allocation.Keys == CategoryKeys
    ensures Relax(p, allocation, cap, nights, s, budget).Success? ==>
              var t := Relax(p, allocation, cap, nights, s, budget).value;
              && t.flightCost <= s.flightCost && t.hotelCost <= s.hotelCost
              && t.restaurantsCost == s.restaurantsCost
              && multiset(t.restaurants) <= multiset(s.restaurants)
              && (IsCents(s.subtotal) ==> IsCents(t.subtotal))
    ensures s.subtotal <= budget ==> Relax(p, allocation, cap, nights, s, budget) == Success(s)
  {
    var pruned := PruneStage(s.restaurants, s.subtotal, budget);
    PruneStageSpec(s.restaurants, s.subtotal, budget);
    var ps := s.(restaurants := pruned.0, subtotal := pruned.1);
    var alt := p.hotels(Round2(cap * 0.8));
    HotelStageSpec(ps, alt, nights, budget);
    var h := HotelStage(ps, alt, nights, budget);
    if h.Success? {
      FlightStageSpec(h.value, p.flights(Round2(allocation["flight"] * 0.9)), budget);
    }
  }

  /**
   * A successful plan reports the rounded final costs, flags the tolerance on
   * the final subtotal, and its restaurant cost is that of the greedy pick,
   * whatever pruning removed.
   */
  lemma PlanReport(req: Request, p: Providers)
    requires PlanSpec(req, p).Success?
    ensures var plan := PlanSpec(req, p).value;
            var allocation := Allocate(req.budget, req.allocationOverride);
            var cap := HotelCap(allocation["hotel"], plan.nights);
            var initial := Initial(p, allocation, FirstOffers(p, allocation, cap, plan.nights), plan.nights);
            && plan.nights == req.endDay - req.startDay > 0
            && plan.allocation == allocation
            && plan.costs.restaurant == Round2(CostSum(initial.restaurants))
            && plan.costs.flight <= Round2(initial.flightCost)
            && plan.costs.hotel <= Round2(initial.hotelCost)
            && plan.costs.budget == Round2(req.budget)
            && multiset(plan.chosenRestaurants) <= multiset(initial.restaurants)
            && (initial.subtotal <= req.budget ==> plan.chosenRestaurants == initial.restaurants)
  {
    var nights := NightsBetween(req.startDay, req.endDay);
    var allocation := Allocate(req.budget, req.allocationOverride);
    var cap := HotelCap(allocation["hotel"], nights);
    var initial := Initial(p, allocation, FirstOffers(p, allocation, cap, nights), nights);
    assert PlanSpec(req, p) == PlanWith(req, p, nights, allocation);
    var relaxed := Relax(p, allocation, cap, nights, initial, req.budget);
    assert relaxed.Success?;
    var final := relaxed.value;
    assert PlanSpec(req, p).value == Assemble(nights, allocation, final, req.budget, req.tolerance);
    RelaxSpec(p, allocation, cap, nights, initial, req.budget);
    RoundMonotone(final.flightCost, initial.flightCost);
    RoundMonotone(final.hotelCost, initial.hotelCost);
  }

  /**
   * The tolerance flag is `close_to_budget` of the reported subtotal: every
   * subtotal the plan computes is already a whole number of cents, so the
   * final rounding does not change it.
   */
  lemma ToleranceFlag(req: Request, p: Providers)
    requires PlanSpec(req, p).Success?
    ensures PlanSpec(req, p).value.withinTolerance == CloseToBudget(PlanSpec(req, p).value.costs.subtotal, req.budget, req.tolerance)
  {
    var nights := NightsBetween(req.startDay, req.endDay);
    var allocation := Allocate(req.budget, req.allocationOverride);
    var cap := HotelCap(allocation["hotel"], nights);
    var initial := Initial(p, allocation, FirstOffers(p, allocation, cap, nights), nights);
    assert PlanSpec(req, p) == PlanWith(req, p, nights, allocation);
    var relaxed := Relax(p, allocation, cap, nights, initial, req.budget);
    assert relaxed.Success?;
    assert PlanSpec(req, p).value == Assemble(nights, allocation, relaxed.value, req.budget, req.tolerance);
    RoundIsCents(initial.flightCost + initial.hotelCost + initial.restaurantsCost);
    RelaxSpec(p, allocation, cap, nights, initial, req.budget);
  }

  /**
   * The hotel stage recomputes the subtotal from the restaurant cost of the
   * greedy pick, which pruning left as it was, so a cheaper hotel can still
   * raise the subtotal: flight 500, hotel 400 and a 100 restaurant over a
   * budget of 880 prune to 900, and a 390 hotel then brings it back to 990.
   */
  lemma StaleCostRaisesSubtotal()
    ensures var r := RestaurantRecord("Bistro", "", 100.0, "");
            var s := Spend(None, None, [r], 500.0, 400.0, 100.0, 1000.0);
            var pruned := PruneStage(s.restaurants, s.subtotal, 880.0);
            var h := HotelRecord("Inn", 3, 390.0, 8.0, "");
            && pruned == ([], 900.0)
            && HotelStage(s.(restaurants := pruned.0, subtotal := pruned.1), Items([h]), 1, 880.0).value.subtotal == 990.0
  {
    StalePrune();
    StaleHotel();
  }

  /** The pruning half of StaleCostRaisesSubtotal: the one restaurant goes, and the subtotal drops to 900. */
  lemma StalePrune()
    ensures PruneStage([RestaurantRecord("Bistro", "", 100.0, "")], 1000.0, 880.0) == ([], 900.0)
  {
    var r := RestaurantRecord("Bistro", "", 100.0, "");
    assert SortBy([r], PricierOrSame) == [r];
    assert PrunePrice(r) == 100.0;
    assert Round2(900.0) == 900.0 by {
      CentsOfWhole(90000);
      assert 90000 as real / 100.0 == 900.0;
    }
    assert Prune([r], 1000.0, 880.0) == Prune([], 900.0, 880.0) == ([], 900.0);
  }

  /** The hotel half of StaleCostRaisesSubtotal: the cheaper hotel is taken and the stale cost comes back. */
  lemma StaleHotel()
    ensures var s := Spend(None, None, [], 500.0, 400.0, 100.0, 900.0);
            HotelStage(s, Items([HotelRecord("Inn", 3, 390.0, 8.0, "")]), 1, 880.0).value.subtotal == 990.0
  {
    var h := HotelRecord("Inn", 3, 390.0, 8.0, "");
    assert NightlyCost(h, 1) == 390.0;
    assert Round2(990.0) == 990.0 by {
      CentsOfWhole(99000);
      assert 99000 as real / 100.0 == 990.0;
    }
  }
}
