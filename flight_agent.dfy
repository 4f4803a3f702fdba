/** FlightAgent.search (travel_planner/agents/flight_agent.py): sort by price, then the budget filter. */
module FlightAgent {
  import opened Wrappers
  import opened Records
  import opened Sequences

  /** `f.get("price", inf) <= budget`: a flight with no price is never affordable. */
  predicate Affordable(f: Candidate, budget: real) {
    f.price.Some? && f.price.value <= budget
  }

  /** Python's truthiness of `budget`: neither None nor zero. */
  predicate Truthy(budget: Option<real>) {
    budget.Some? && budget.value != 0.0
  }

  /** `[f for f in flights if f.get("price", inf) <= budget]`. */
  function AffordableOnly(flights: seq<Candidate>, budget: real): seq<Candidate> {
    Filter(flights, f => Affordable(f, budget))
  }

  /** The list `search` returns for the flights the provider produced. */
  function Search(flights: seq<Candidate>, budget: Option<real>): seq<Candidate> {
    var sorted := SortBy(flights, CheaperOrSame);
    if Truthy(budget) then
      var affordable := AffordableOnly(sorted, budget.value);
      if affordable != [] then affordable else sorted
    else sorted
  }

  /** The result is ordered by price, flights without a price last. */
  lemma SearchSorted(flights: seq<Candidate>, budget: Option<real>)
    ensures SortedBy(Search(flights, budget), CheaperOrSame)
  {
    CheaperOrSameIsTotalPreorder();
    var sorted := SortBy(flights, CheaperOrSame);
    SortBySorted(flights, CheaperOrSame);
    if Truthy(budget) {
      var affordable := AffordableOnly(sorted, budget.value);
      FilterIsSubsequence(sorted, f => Affordable(f, budget.value));
      assert IsSubsequence(affordable, sorted);
      SubsequenceSorted(affordable, sorted, CheaperOrSame);
    }
  }

  /** Without a truthy budget the result is every flight, ordered by price. */
  lemma FalsyBudgetKeepsAll(flights: seq<Candidate>, budget: Option<real>)
    requires !Truthy(budget)
    ensures Search(flights, budget) == SortBy(flights, CheaperOrSame)
  {
  }

  /**
   * With a truthy budget the result is exactly the affordable flights, in price
   * order, when there is one; otherwise it is the whole sorted list.
   */
  lemma {:induction false} BudgetFilter(flights: seq<Candidate>, budget: real)
    requires budget != 0.0
    ensures var r := Search(flights, Some(budget));
            (exists f :: f in flights && Affordable(f, budget)) ==>
              (forall f :: f in r ==> Affordable(f, budget)) &&
              (forall f :: f in flights && Affordable(f, budget) ==> f in r)
    ensures (forall f :: f in flights ==> !Affordable(f, budget)) ==>
              Search(flights, Some(budget)) == SortBy(flights, CheaperOrSame)
  {
    var sorted := SortBy(flights, CheaperOrSame);
    MultisetMembers(flights, sorted);
    if exists f :: f in flights && Affordable(f, budget) {
      var f :| f in flights && Affordable(f, budget);
      AffordableKept(sorted, budget, f);
    } else {
      NothingAffordable(sorted, budget);
    }
  }

  /** A flight within the budget survives the filter, and everything that survives is within it. */
  lemma AffordableKept(sorted: seq<Candidate>, budget: real, f: Candidate)
    requires f in sorted && Affordable(f, budget)
    ensures AffordableOnly(sorted, budget) != []
    ensures forall g :: g in AffordableOnly(sorted, budget) ==> Affordable(g, budget)
    ensures forall g :: g in sorted && Affordable(g, budget) ==> g in AffordableOnly(sorted, budget)
  {
    var affordable := AffordableOnly(sorted, budget);
    var i :| 0 <= i < |sorted| && sorted[i] == f;
    assert f in affordable;
    forall g | g in sorted && Affordable(g, budget) ensures g in affordable {
      var j :| 0 <= j < |sorted| && sorted[j] == g;
    }
  }

  /** With no flight within the budget the filter leaves nothing. */
  lemma {:induction false} NothingAffordable(sorted: seq<Candidate>, budget: real)
    requires forall f :: f in sorted ==> !Affordable(f, budget)
    ensures AffordableOnly(sorted, budget) == []
  {
    if sorted != [] {
      assert forall f :: f in sorted[1..] ==> f in sorted;
      NothingAffordable(sorted[1..], budget);
    }
  }

  /**
   * The result only rearranges or drops flights (never invents one), and is
   * empty only when the provider returned nothing.
   */
  lemma SearchContents(flights: seq<Candidate>, budget: Option<real>)
    ensures multiset(Search(flights, budget)) <= multiset(flights)
    ensures Search(flights, budget) == [] <==> flights == []
    ensures !Truthy(budget) ==> multiset(Search(flights, budget)) == multiset(flights)
  {
    var sorted := SortBy(flights, CheaperOrSame);
    if Truthy(budget) {
      FilterMultiset(sorted, f => Affordable(f, budget.value));
      assert multiset(AffordableOnly(sorted, budget.value)) <= multiset(sorted);
    }
  }

  /**
   * Flights with equal prices keep the order the provider gave them, whatever
   * the budget: a price tie leaves the filter all of the tied flights or none.
   */
  lemma SearchStable(flights: seq<Candidate>, budget: Option<real>, c: Candidate)
    ensures var tied := TiedWith(flights, CheaperOrSame, c);
            var r := TiedWith(Search(flights, budget), CheaperOrSame, c);
            if !Truthy(budget) then r == tied
            else if exists f :: f in flights && Affordable(f, budget.value) then
              r == (if Affordable(c, budget.value) then tied else [])
            else r == tied
  {
    CheaperOrSameIsTotalPreorder();
    var sorted := SortBy(flights, CheaperOrSame);
    SortByStable(flights, CheaperOrSame, c);
    if Truthy(budget) {
      TiedAffordable(sorted, budget.value, c);
      if exists f :: f in flights && Affordable(f, budget.value) {
        var f :| f in flights && Affordable(f, budget.value);
        MultisetMembers(flights, sorted);
        AffordableKept(sorted, budget.value, f);
      } else {
        MultisetMembers(flights, sorted);
        NothingAffordable(sorted, budget.value);
      }
    }
  }

  /** Among flights priced like `c`, the filter keeps all of them when `c` is affordable, else none. */
  lemma {:induction false} TiedAffordable(flights: seq<Candidate>, budget: real, c: Candidate)
    ensures TiedWith(AffordableOnly(flights, budget), CheaperOrSame, c)
            == if Affordable(c, budget) then TiedWith(flights, CheaperOrSame, c) else []
  {
    if flights != [] {
      TiedAffordable(flights[1..], budget, c);
      var x := flights[0];
      assert Tied(CheaperOrSame, c, x) ==> (Affordable(x, budget) <==> Affordable(c, budget));
      if Affordable(x, budget) {
        assert AffordableOnly(flights, budget) == [x] + AffordableOnly(flights[1..], budget);
      } else {
        assert AffordableOnly(flights, budget) == AffordableOnly(flights[1..], budget);
      }
    }
  }
}
