/** Trip duration, budget allocation and the tolerance test (travel_planner/utils.py). */
module Utils {
  import opened Wrappers
  import opened Money

  /** Nights between two dates, given as day numbers: never negative. */
  function NightsBetween(startDay: int, endDay: int): (nights: nat)
    ensures nights == 0 <==> endDay <= startDay
    ensures nights > 0 ==> startDay + nights == endDay
  {
    if endDay - startDay > 0 then endDay - startDay else 0
  }

  const Categories: seq<string> := ["flight", "hotel", "restaurant"]
  const CategoryKeys: set<string> := {"flight", "hotel", "restaurant"}
  const DefaultPct: map<string, real> := map["flight" := 0.30, "hotel" := 0.40, "restaurant" := 0.30]

  predicate DistinctKeys(d: seq<(string, real)>) {
    forall i, j :: 0 <= i < j < |d| ==> d[i].0 != d[j].0
  }

  /** A Python dictionary from strings to floats, as its items in insertion order. */
  type Dict = d: seq<(string, real)> | DistinctKeys(d)

  /** `d.get(k, default)`. */
  function Lookup(d: seq<(string, real)>, k: string, default: real): real {
    if d == [] then default else if d[0].0 == k then d[0].1 else Lookup(d[1..], k, default)
  }

  /** `sum(d.values())`. */
  function SumValues(d: seq<(string, real)>): real {
    if d == [] then 0.0 else d[0].1 + SumValues(d[1..])
  }

  /** A category's share of an override: its value, or the default share when absent, over the values' sum. */
  function Normalised(d: seq<(string, real)>, k: string, totalPct: real): real
    requires k in CategoryKeys && totalPct > 0.0
  {
    Lookup(d, k, DefaultPct[k]) / totalPct
  }

  /** The shares `allocate_budget` applies: the defaults, or the override's values over their sum. */
  function Percentages(custom: Option<Dict>): (pct: map<string, real>)
    ensures pct.Keys == CategoryKeys
  {
    if custom.None? || custom.value == [] then DefaultPct
    else
      var totalPct := SumValues(custom.value);
      if totalPct <= 0.0 then DefaultPct
      else map k | k in CategoryKeys :: Normalised(custom.value, k, totalPct)
  }

  /** Shares with an entry for every category. */
  predicate CoversCategories(pct: map<string, real>) {
    CategoryKeys <= pct.Keys
  }

  /** `round(total * share, 2)`: one category's amount. */
  function Share(total: real, share: real): real {
    Round2(total * share)
  }

  lemma ShareIsCents(total: real, share: real)
    ensures IsCents(Share(total, share))
  {
    RoundIsCents(total * share);
  }

  /**
   * The allocation for given shares: each category's amount rounded to cents,
   * with the rounding drift added to the restaurant amount.
   */
  function AllocateWith(total: real, pct: map<string, real>): (allocation: map<string, real>)
    requires CoversCategories(pct)
    ensures allocation.Keys == CategoryKeys
  {
    var flight, hotel, restaurant := Share(total, pct["flight"]), Share(total, pct["hotel"]), Share(total, pct["restaurant"]);
    var diff := Round2(total - (flight + hotel + restaurant));
    map["flight" := flight, "hotel" := hotel,
        "restaurant" := if diff != 0.0 then Round2(restaurant + diff) else restaurant]
  }

  /** The allocation `allocate_budget` returns. */
  function Allocate(total: real, custom: Option<Dict>): (allocation: map<string, real>)
    ensures allocation.Keys == CategoryKeys
  {
    AllocateWith(total, Percentages(custom))
  }

  /** The share computation of allocate_budget, with its loop over the three categories. */
  method ComputePercentages(custom: Option<Dict>) returns (pct: map<string, real>)
    ensures pct == Percentages(custom)
  {
    if custom.Some? && custom.value != [] {
      var totalPct := SumValues(custom.value);
      if totalPct <= 0.0 {
        pct := DefaultPct;
      } else {
        pct := map[];
        for i := 0 to |Categories|
          invariant pct.Keys == set k | k in Categories[..i]
          invariant forall k :: k in pct ==> pct[k] == Normalised(custom.value, k, totalPct)
        {
          var k := Categories[i];
          pct := pct[k := Normalised(custom.value, k, totalPct)];
        }
        assert Categories[..3] == Categories;
      }
    } else {
      pct := DefaultPct;
    }
  }

  /** The rounding half of allocate_budget: one comprehension, then the restaurant patch. */
  method RoundAllocation(total: real, pct: map<string, real>) returns (allocation: map<string, real>)
    requires pct.Keys == CategoryKeys
    ensures allocation == AllocateWith(total, pct)
  {
    allocation := map k | k in pct :: Share(total, pct[k]);
    var rounded := map["flight" := Share(total, pct["flight"]), "hotel" := Share(total, pct["hotel"]),
                       "restaurant" := Share(total, pct["restaurant"])];
    assert allocation.Keys == rounded.Keys;
    assert forall k | k in rounded :: allocation[k] == rounded[k];
    assert allocation == rounded;
    var diff := Round2(total - (allocation["flight"] + allocation["hotel"] + allocation["restaurant"]));
    if diff != 0.0 {
      allocation := allocation["restaurant" := Round2(allocation["restaurant"] + diff)];
    }
  }

  /** allocate_budget. */
  method AllocateBudget(total: real, custom: Option<Dict>) returns (allocation: map<string, real>)
    ensures allocation == Allocate(total, custom)
  {
    var pct := ComputePercentages(custom);
    allocation := RoundAllocation(total, pct);
  }

  /** Every amount of any allocation is a whole number of cents. */
  lemma AllocateWithInCents(total: real, pct: map<string, real>)
    requires CoversCategories(pct)
    ensures forall k :: k in AllocateWith(total, pct) ==> IsCents(AllocateWith(total, pct)[k])
  {
    ShareIsCents(total, pct["flight"]);
    ShareIsCents(total, pct["hotel"]);
    ShareIsCents(total, pct["restaurant"]);
    var flight, hotel, restaurant := Share(total, pct["flight"]), Share(total, pct["hotel"]), Share(total, pct["restaurant"]);
    var diff := Round2(total - (flight + hotel + restaurant));
    RoundIsCents(restaurant + diff);
  }

  /** The amounts of any allocation add up to the total rounded to cents. */
  lemma AllocateWithSums(total: real, pct: map<string, real>)
    requires CoversCategories(pct)
    ensures var a := AllocateWith(total, pct); a["flight"] + a["hotel"] + a["restaurant"] == Round2(total)
  {
    ShareIsCents(total, pct["flight"]);
    ShareIsCents(total, pct["hotel"]);
    ShareIsCents(total, pct["restaurant"]);
    Reconcile(total, Share(total, pct["flight"]), Share(total, pct["hotel"]), Share(total, pct["restaurant"]));
  }

  /** Every allocated amount is a whole number of cents. */
  lemma AllocationInCents(total: real, custom: Option<Dict>)
    ensures forall k :: k in Allocate(total, custom) ==> IsCents(Allocate(total, custom)[k])
  {
    AllocateWithInCents(total, Percentages(custom));
  }

  /**
   * The three amounts add up to the budget rounded to cents, whatever the
   * override: the restaurant share absorbs all rounding drift.
   */
  lemma AllocationSumsToBudget(total: real, custom: Option<Dict>)
    ensures var a := Allocate(total, custom); a["flight"] + a["hotel"] + a["restaurant"] == Round2(total)
  {
    AllocateWithSums(total, Percentages(custom));
  }

  /** Without an override the split is 30/40/30. */
  lemma DefaultSplit()
    ensures Allocate(1000.0, None) == map["flight" := 300.0, "hotel" := 400.0, "restaurant" := 300.0]
  {
    CentsOfWhole(30000);
    CentsOfWhole(40000);
    CentsOfWhole(0);
    assert Round2(1000.0 * 0.30) == 300.0;
    assert Round2(1000.0 * 0.40) == 400.0;
    assert Round2(1000.0 - 1000.0) == 0.0;
  }

  /** An override whose values sum to at most zero (or an empty one) is ignored. */
  lemma NonPositiveOverrideIgnored(total: real, d: Dict)
    requires SumValues(d) <= 0.0
    ensures Allocate(total, Some(d)) == Allocate(total, None)
  {
  }

  /** An explicit override that sums to one: 2000 split 25/60/15. */
  lemma FullOverrideSplit()
    ensures Allocate(2000.0, Some([("flight", 0.25), ("hotel", 0.60), ("restaurant", 0.15)]))
            == map["flight" := 500.0, "hotel" := 1200.0, "restaurant" := 300.0]
  {
    var d: Dict := [("flight", 0.25), ("hotel", 0.60), ("restaurant", 0.15)];
    assert SumValues(d) == 1.0;
    assert Percentages(Some(d)) == map["flight" := 0.25, "hotel" := 0.60, "restaurant" := 0.15];
    CentsOfWhole(50000);
    CentsOfWhole(120000);
    CentsOfWhole(30000);
    CentsOfWhole(0);
    assert Share(2000.0, 0.25) == 500.0;
    assert Share(2000.0, 0.60) == 1200.0;
    assert Share(2000.0, 0.15) == 300.0;
    assert Round2(2000.0 - 2000.0) == 0.0;
  }

  /**
   * A partial override is divided by its own sum only, so the shares can add up
   * to more than one and the reconciled restaurant amount can be negative:
   * `{"flight": 0.9}` on a budget of 90 gives 90 / 40 / -40.
   */
  lemma PartialOverrideGoesNegative()
    ensures Allocate(90.0, Some([("flight", 0.9)]))
            == map["flight" := 90.0, "hotel" := 40.0, "restaurant" := -40.0]
  {
    var d: Dict := [("flight", 0.9)];
    assert SumValues(d) == 0.9;
    var pct := Percentages(Some(d));
    assert pct["flight"] == 1.0 && pct["hotel"] == 0.4 / 0.9 && pct["restaurant"] == 0.3 / 0.9;
    CentsOfWhole(9000);
    CentsOfWhole(4000);
    CentsOfWhole(3000);
    CentsOfWhole(-7000);
    CentsOfWhole(-4000);
    assert Share(90.0, pct["flight"]) == 90.0;
    assert Share(90.0, pct["hotel"]) == 40.0;
    assert Share(90.0, pct["restaurant"]) == 30.0;
    assert Round2(90.0 - (90.0 + 40.0 + 30.0)) == -70.0;
    assert Round2(30.0 + -70.0) == -40.0;
  }

  /**
   * `close_to_budget`: the candidate lies within the tolerance band around the
   * target, that is, it differs from the target by at most the fraction
   * `tolerance` of it (and the band is empty when that fraction is negative).
   */
  function CloseToBudget(candidateTotal: real, targetBudget: real, tolerance: real): (close: bool)
    ensures close <==> var slack := targetBudget * tolerance;
                       0.0 <= slack && -slack <= candidateTotal - targetBudget <= slack
  {
    var lower := targetBudget * (1.0 - tolerance);
    var upper := targetBudget * (1.0 + tolerance);
    assert lower == targetBudget - targetBudget * tolerance;
    assert upper == targetBudget + targetBudget * tolerance;
    lower <= candidateTotal <= upper
  }

  /** The source's default tolerance. */
  const DefaultTolerance: real := 0.05

  lemma ScaleMonotone(c: real, x: real, y: real)
    requires 0.0 <= c && x <= y
    ensures c * x <= c * y
  {
    assert c * y - c * x == c * (y - x);
  }

  /** With a non-negative budget and tolerance, spending exactly the budget is close to it. */
  lemma ExactBudgetIsClose(budget: real, tolerance: real)
    requires 0.0 <= budget && 0.0 <= tolerance
    ensures CloseToBudget(budget, budget, tolerance)
  {
    ScaleMonotone(budget, 1.0 - tolerance, 1.0);
    ScaleMonotone(budget, 1.0, 1.0 + tolerance);
  }

  /** Widening the tolerance keeps every close total close (for a non-negative budget). */
  lemma WiderToleranceStaysClose(total: real, budget: real, tol1: real, tol2: real)
    requires 0.0 <= budget && tol1 <= tol2
    requires CloseToBudget(total, budget, tol1)
    ensures CloseToBudget(total, budget, tol2)
  {
    ScaleMonotone(budget, 1.0 - tol2, 1.0 - tol1);
    ScaleMonotone(budget, 1.0 + tol1, 1.0 + tol2);
  }

  /** With a negative budget and a positive tolerance the band is empty: nothing is close. */
  lemma NegativeBudgetNeverClose(total: real, budget: real, tolerance: real)
    requires budget < 0.0 && 0.0 < tolerance
    ensures !CloseToBudget(total, budget, tolerance)
  {
    ScaleMonotone(-budget, 1.0 - tolerance, 1.0 + tolerance);
  }
}
