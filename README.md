# Travel planner budget engine, in Dafny

This project models the deterministic core of a travel-planning assistant and proves properties of that model:

- `TravelPlannerOrchestrator.plan` works out the trip's nights and splits the budget between flight, hotel and restaurants. It asks three providers for candidates, has them ranked, and picks a flight, a hotel and, greedily, restaurants. When the subtotal is over the budget, it relaxes the choice in three stages: it prunes restaurants, then looks for a cheaper hotel, then for a cheaper flight. Finally it flags whether the subtotal is within a tolerance of the budget.
- The helpers `nights_between`, `allocate_budget` and `close_to_budget`.
- `FlightAgent.search`.
- The provider-side rules of the scraper module:
  - airport-code resolution;
  - normalisation and sorting of Amadeus flight offers;
  - the star and price extractors;
  - the Agoda filter and sort;
  - the TripAdvisor link scan and its mock fallback.
- The heuristic ranker and the reply handling of `rank_items_via_llm`.
- The `search_restaurants` tool.
- From the multi-agent variant: the supervisor's route validator and loop guard, and the budget agent's dollar-amount scanners and arithmetic.

Conventions of the model:

- **Money** is `real`. Python's `round(x, 2)` is `Money.Round2`, which rounds half up on exact reals.
- **Records.** The dictionaries the providers produce are one `Records.Candidate` datatype. It has an optional field per key; `None` stands for a key the dictionary lacks.
- **Provider results.** A provider's result is a `Slot`: a list, or the error a failed call leaves.
- **Inputs.** Providers, the ranker, the Amadeus client, the fetched TripAdvisor page, the chat completion and `json.loads` are all function or datatype parameters.
- **Dates** are given as day numbers.

Modules, one per file:

| module | file | models |
|---|---|---|
| `Wrappers` | wrappers.dfy | `Option` and `Result` |
| `Money` | money.dfy | Round2 and its cent lemmas |
| `PyText` | pytext.dfy | `strip`, `lower`/`upper`, `splitlines`, `float` of decimal text |
| `Sequences` | sequences.dfy | `s[:k]`, comprehensions, stable `sorted` |
| `Records` | records.dfy | candidate records and their falsy-`or` prices |
| `Utils` | utils.dfy | travel_planner/utils.py |
| `FlightAgent` | flight_agent.dfy | travel_planner/agents/flight_agent.py |
| `Scraper` | scraper.dfy | travel_planner/tools/scraper.py |
| `LlmRanker` | llm_ranker.dfy | travel_planner/llm/openai_client.py |
| `RestaurantTool` | restaurant_tool.dfy | travel_planner/tools/restaurant_tool.py |
| `Orchestrator` | orchestrator.dfy | travel_planner/orchestrator.py |
| `Supervisor` | supervisor.dfy | multi_agent_app_test/supervisor.py |
| `BudgetAgent` | budget_agent.dfy | multi_agent_app_test/agents/budget_agent.py |

The loops of the source are methods with loop invariants:

- the greedy pick;
- the pruning `while`;
- the relaxation stages;
- the share loop and restaurant patch of `allocate_budget`;
- the offer loop;
- the TripAdvisor anchor loop with its `seen` set and `break`;
- the heuristic scoring loop.

Each method is proved equal to a specification function, and the lemmas state the properties of that function.

## Behaviour worth knowing

The model follows the code in each of these places.

- **Stale restaurant cost.** Relaxation can raise the subtotal. Pruning lowers `subtotal` but leaves `restaurants_cost` alone. The hotel and flight stages then recompute the subtotal from that stale cost (travel_planner/orchestrator.py:157,169). `Orchestrator.StaleCostRaisesSubtotal` gives an instance where the subtotal goes from 900 back up to 990.
- **Unsorted mock flights.** The flight mock returned without credentials is not in price order (280 before 200). Only `FlightAgent.search`'s own sort orders it.
- **Non-positive TripAdvisor limit.** The TripAdvisor scan tests its length only after appending, so a `limit` of 0 or less still yields one scraped result.
- **Negative mock slice.** The mock fallback `mock[:limit]` counts from the end for a negative limit.
- **Partial override.** An allocation override with only some keys is divided by its own sum alone. The shares can then add up to more than one, and the reconciled restaurant amount can be negative.

## Model

| member | source | states |
|---|---|---|
| Utils.NightsBetween | travel_planner/utils.py:4-8 | nights are never negative, and are 0 exactly when the end day is not after the start; otherwise start + nights = end |
| Utils.Percentages | travel_planner/utils.py:11-22 | the shares used have exactly the keys flight, hotel and restaurant |
| Utils.ComputePercentages | travel_planner/utils.py:11-22 | the loop over the three categories computes the shares of Percentages: the defaults, or `override.get(k, default)/sum` |
| Utils.AllocateWith | travel_planner/utils.py:23-27 | the allocation has exactly the three category keys |
| Utils.Allocate | travel_planner/utils.py:10-28 | allocate_budget's result has exactly the keys flight, hotel and restaurant |
| Utils.RoundAllocation | travel_planner/utils.py:23-27 | the comprehension and the restaurant patch compute AllocateWith |
| Utils.AllocateBudget | travel_planner/utils.py:10-28 | allocate_budget as a method equals Allocate |
| Utils.ShareIsCents | travel_planner/utils.py:23 | each rounded category amount is a whole number of cents |
| Utils.AllocateWithInCents | travel_planner/utils.py:23-27 | for any shares, every amount is a whole number of cents |
| Utils.AllocateWithSums | travel_planner/utils.py:23-27 | for any shares, the three amounts add up to the total rounded to cents |
| Utils.AllocationInCents | travel_planner/utils.py:10-28 | every allocated amount is a whole number of cents |
| Utils.AllocationSumsToBudget | travel_planner/utils.py:23-27 | whatever the override, flight + hotel + restaurant equals the budget rounded to cents |
| Utils.DefaultSplit | travel_planner/utils.py:11-23 | without an override a budget of 1000 splits 300/400/300 |
| Utils.NonPositiveOverrideIgnored | travel_planner/utils.py:13-15 | an override whose values sum to at most zero gives the default allocation |
| Utils.FullOverrideSplit | travel_planner/utils.py:18-20 | an override of 25/60/15 on 2000 gives 500/1200/300 |
| Utils.PartialOverrideGoesNegative | travel_planner/utils.py:18-27 | an override of only `{"flight": 0.9}` on 90 gives 90/40/-40: the restaurant amount goes negative |
| Utils.CloseToBudget | travel_planner/utils.py:30-33 | the total is close exactly when it differs from the budget by at most the fraction `tolerance` of it, and never when that fraction is negative |
| Utils.ExactBudgetIsClose | travel_planner/utils.py:30-33 | with a non-negative budget and tolerance, spending exactly the budget is within tolerance |
| Utils.WiderToleranceStaysClose | travel_planner/utils.py:30-33 | widening the tolerance keeps every close total close |
| Utils.NegativeBudgetNeverClose | travel_planner/utils.py:30-33 | with a negative budget and a positive tolerance no total is close |
| Records.CostPrice | travel_planner/orchestrator.py:131 | `estimated_price or avg_price`: 0 when the pick price is 0, and equal to the pick price whenever it is not 0 |
| Records.PrunePrice | travel_planner/orchestrator.py:140-143 | `estimated_price` alone: when non-zero it agrees with the cost and pick prices |
| Records.CheaperOrSameIsTotalPreorder | travel_planner/agents/flight_agent.py:11 | ordering by price, a missing price counting as infinity, is a total preorder |
| FlightAgent.Search | travel_planner/agents/flight_agent.py:9-15 | the search as a function; SearchSorted, BudgetFilter, FalsyBudgetKeepsAll, SearchContents and SearchStable state its order, filter, contents and stability |
| FlightAgent.AffordableKept | travel_planner/agents/flight_agent.py:13-14 | a flight within the budget survives the filter, everything that survives is within it, and so the filtered list is not empty |
| FlightAgent.NothingAffordable | travel_planner/agents/flight_agent.py:13-14 | with no flight within the budget the filter leaves nothing |
| FlightAgent.SearchSorted | travel_planner/agents/flight_agent.py:11-15 | the result is ordered by price, unpriced flights last |
| FlightAgent.FalsyBudgetKeepsAll | travel_planner/agents/flight_agent.py:12-15 | a None or zero budget returns every flight, sorted |
| FlightAgent.BudgetFilter | travel_planner/agents/flight_agent.py:12-14 | a truthy budget keeps exactly the flights priced within it, and the whole sorted list when none is |
| FlightAgent.SearchContents | travel_planner/agents/flight_agent.py:11-15 | the result is a sub-multiset of the input (the whole of it for a falsy budget), and is empty only when the input is |
| FlightAgent.SearchStable | travel_planner/agents/flight_agent.py:11-15 | flights with equal prices keep the provider's order for any budget; with a truthy budget and an affordable flight, a price tie is kept whole when affordable and dropped whole otherwise |
| FlightAgent.TiedAffordable | travel_planner/agents/flight_agent.py:13 | the budget filter keeps all of the flights priced like a given one, or none of them |
| Scraper.FirstCode | travel_planner/tools/scraper.py:48-50 | the code found is a non-empty entry of the reply, and none is found exactly when every entry is empty |
| Scraper.ResolveToIata | travel_planner/tools/scraper.py:34-53 | the resolution as a function; ResolveRules and ResolvedCodeShape state its cases and the shape of a code |
| Scraper.ResolveRules | travel_planner/tools/scraper.py:34-41 | an empty query gives None; a query stripping to three letters gives them upper-cased whatever the client; anything else without a client gives None |
| Scraper.ResolvedCodeShape | travel_planner/tools/scraper.py:37-50 | a resolved code is never empty, and one taken from the query is three upper-case letters |
| Scraper.OfferPrice | travel_planner/tools/scraper.py:102-123 | the offer's price is missing exactly when its price text is non-empty and `float` rejects it |
| Scraper.OfferRecord | travel_planner/tools/scraper.py:103-127 | the appended record has stops = max(0, segments - 1), the price read, no link and a non-empty airline |
| Scraper.NormaliseOffer | travel_planner/tools/scraper.py:100-129 | a record has stops = max(0, segments - 1), a price, no link and an airline; the offer is skipped exactly when its price text is non-empty and `float` rejects it |
| Scraper.NormalisedAll | travel_planner/tools/scraper.py:97-129 | the loop collects at most one record per offer |
| Scraper.NormaliseOffers | travel_planner/tools/scraper.py:97-129 | the offer loop equals NormalisedAll |
| Scraper.NormalisedAllContents | travel_planner/tools/scraper.py:99-129 | each record comes from one offer, and when every offer parses none is dropped |
| Scraper.NormalisedPriced | travel_planner/tools/scraper.py:123 | every normalised flight has a price |
| Scraper.FlightsSearch | travel_planner/tools/scraper.py:61-134 | the search method equals FlightsSearchSpec: the mocks without credentials or client, the error mocks, the empty-parse mock, else the sorted records |
| Scraper.FlightsSearchSpec | travel_planner/tools/scraper.py:61-134 | the search's outcome as a function; FlightsSearchNonEmpty and UnconfiguredMockUnsorted state its properties |
| Scraper.ReplyFlights | travel_planner/tools/scraper.py:89-134 | the outcome for one client reply; ReplyFlightsNonEmpty and ReplyFlightsSorted state that it is never empty, priced and in price order |
| Scraper.ReplyFlightsNonEmpty | travel_planner/tools/scraper.py:89-134 | whatever the reply, at least one flight comes back and each has a price |
| Scraper.ReplyFlightsSorted | travel_planner/tools/scraper.py:134 | parsed offers come back in price order, as a permutation of the parsed records |
| Scraper.FlightsSearchNonEmpty | travel_planner/tools/scraper.py:61-134 | every outcome of the search is a non-empty list of priced flights |
| Scraper.UnconfiguredMockUnsorted | travel_planner/tools/scraper.py:62-68 | the mock list without credentials is not in price order |
| Scraper.FirstDigit | travel_planner/tools/scraper.py:151 | the first digit of the text, with no digit before it |
| Scraper.DigitPrefix | travel_planner/tools/scraper.py:151 | the leading digits of the text: all digits, maximal |
| Scraper.FirstDigitRun | travel_planner/tools/scraper.py:151 | `\d+` finds nothing exactly when the text holds no digit, and otherwise a non-empty digit run |
| Scraper.ExtractStars | travel_planner/tools/scraper.py:145-153 | a falsy value gives 0, an int itself, a string a non-negative number, any other type 0 |
| Scraper.StarsFromText | travel_planner/tools/scraper.py:150-152 | "4-star" gives 4 |
| Scraper.StarsFromNoDigits | travel_planner/tools/scraper.py:152 | a string without digits gives 0 |
| Scraper.StarsFromOtherTypes | travel_planner/tools/scraper.py:148-153 | `True` gives 1, a float gives 0 |
| Scraper.PriceChars | travel_planner/tools/scraper.py:166 | the kept characters are digits and dots, in their order in the text |
| Scraper.ExtractPrice | travel_planner/tools/scraper.py:156-169 | a non-dict gives (0.0, "USD"); a price is never negative; the currency is the `currency` entry, "USD" by default |
| Scraper.ListPriceChars | travel_planner/tools/scraper.py:166 | a price given as a list keeps exactly the digits and dots of its elements' `repr`, in order |
| Scraper.JoinCommaPriceChars | travel_planner/tools/scraper.py:166 | the `, ` separators of a list's `str` contribute no kept character |
| Scraper.PriceFromList | travel_planner/tools/scraper.py:160-167 | a price `[120]` reads 120 in USD, since `str` shows the list's digits |
| Scraper.PriceFromText | travel_planner/tools/scraper.py:160-167 | "$120" reads 120 in USD |
| Scraper.PriceFromHighest | travel_planner/tools/scraper.py:160-167 | a falsy `lowest` falls back to `highest`, and the currency is kept |
| Scraper.PriceMissing | travel_planner/tools/scraper.py:157-164 | no price gives 0 in USD, and so does a value that is not a dict |
| Scraper.PriceWithTwoDots | travel_planner/tools/scraper.py:166-167 | kept characters with two dots make `float` raise |
| Scraper.BetterOrSameIsTotalPreorder | travel_planner/tools/scraper.py:211 | the key (-rating, price) is a total preorder |
| Scraper.Filtered | travel_planner/tools/scraper.py:207-210 | the two hotel filters, each applied only when its argument is truthy; ArrangeHotelsContents states what passes |
| Scraper.ArrangeHotels | travel_planner/tools/scraper.py:207-211 | the filters then the sort; ArrangeHotelsSorted and ArrangeHotelsContents state its order and contents |
| Scraper.AgodaSearch | travel_planner/tools/scraper.py:137-211 | `agoda_search` over the mock hotels; AgodaUnfiltered and AgodaCapped give its results |
| Scraper.UnderCap | travel_planner/tools/scraper.py:207-208 | keeps exactly the hotels priced within the cap |
| Scraper.AtLeastStars | travel_planner/tools/scraper.py:209-210 | keeps exactly the hotels with at least the stars asked for |
| Scraper.ArrangeHotelsSorted | travel_planner/tools/scraper.py:211 | the result is ordered by rating, best first, ties by price |
| Scraper.ArrangeHotelsContents | travel_planner/tools/scraper.py:207-211 | the result holds exactly the hotels that pass the filters that are switched on, none repeated |
| Scraper.AgodaUnfiltered | travel_planner/tools/scraper.py:138-211 | the three mock hotels come resort, plaza, budget stay |
| Scraper.AgodaCapped | travel_planner/tools/scraper.py:207-208 | a cap of 200 drops the resort |
| Scraper.Scan | travel_planner/tools/scraper.py:229-245 | the anchor scan as a function; ScanExtends, ScanDistinct, ScanFromAnchors and ScanSpec state its properties |
| Scraper.ScanAnchors | travel_planner/tools/scraper.py:227-245 | the anchor loop, with its `seen` set and `break`, equals Scan |
| Scraper.LinksAppend | travel_planner/tools/scraper.py:236 | adding a result adds its link to the seen set |
| Scraper.ScanExtends | travel_planner/tools/scraper.py:229-245 | the scan only appends to the results it already has |
| Scraper.ScanDistinct | travel_planner/tools/scraper.py:230-245 | starting from distinct links below the limit, the links stay distinct and the scan stops at `limit` results (one when `limit` is not positive) |
| Scraper.ScanFromAnchors | travel_planner/tools/scraper.py:231-241 | every result the scan adds is the scraped record of a restaurant anchor of the page |
| Scraper.ScanSpec | travel_planner/tools/scraper.py:229-245 | the scan extends the results only with restaurant anchors, its links are distinct, and it stops at `limit` results (one when `limit` is not positive) |
| Scraper.ScrapedLinkShape | travel_planner/tools/scraper.py:233-241 | a scraped link is a TripAdvisor link without a `#` fragment, and its estimate is 15 |
| Scraper.TripAdvisorSearch | travel_planner/tools/scraper.py:215-256 | the scanned results when there are any, else `mock[:limit]` |
| Scraper.MockFallbackExamples | travel_planner/tools/scraper.py:251-256 | `mock[:limit]` for limits 2, 10, -1 and 0 |
| LlmRanker.HeuristicPrice | travel_planner/llm/openai_client.py:27 | `price` when present, else `price_per_night`, else `estimated_price`, else 0 |
| LlmRanker.HeuristicScore | travel_planner/llm/openai_client.py:27-32 | `round(max(1, 100 - price + rating), 2)`; ScoreBounds states that it is at least 1 and whole cents |
| LlmRanker.ScoreBounds | travel_planner/llm/openai_client.py:30-32 | every heuristic score is at least 1 and a whole number of cents |
| LlmRanker.ScoreAll | travel_planner/llm/openai_client.py:25-33 | one scored copy per candidate, in order |
| LlmRanker.ScoreFirstIsTotalPreorder | travel_planner/llm/openai_client.py:34 | the key `-score` is a total preorder |
| LlmRanker.HeuristicRanking | travel_planner/llm/openai_client.py:34-35 | the sorted, sliced scored copies; HeuristicRankingShape, HeuristicRankingItems, HeuristicTopIsBest and HeuristicRankingStable state its properties |
| LlmRanker.HeuristicRank | travel_planner/llm/openai_client.py:25-35 | the scoring loop, sort and slice equal HeuristicRanking |
| LlmRanker.HeuristicRankingShape | travel_planner/llm/openai_client.py:34-35 | the ranking is ordered by score, best first, has min(top_k, n) items, and is a prefix of the sorted scored copies |
| LlmRanker.HeuristicRankingItems | travel_planner/llm/openai_client.py:31-33 | each ranked item is the scored copy of a candidate, with a score of at least 1 |
| LlmRanker.HeuristicTopIsBest | travel_planner/llm/openai_client.py:34-35 | the first item has the highest score of all candidates |
| LlmRanker.HeuristicRankingStable | travel_planner/llm/openai_client.py:34 | candidates with equal scores keep their input order |
| LlmRanker.StripCodeFences | travel_planner/llm/openai_client.py:67-71 | the fence stripping; StrippedHasNoFenceLine and UnfencedReplyKept state its effect |
| LlmRanker.UnfencedLines | travel_planner/llm/openai_client.py:71 | keeps exactly the lines that do not start with a fence |
| LlmRanker.StrippedHasNoFenceLine | travel_planner/llm/openai_client.py:67-71 | after stripping a fenced reply, no line starts with a fence |
| LlmRanker.UnfencedReplyKept | travel_planner/llm/openai_client.py:67-69 | a reply without an opening fence is only stripped of whitespace |
| LlmRanker.RankItems | travel_planner/llm/openai_client.py:21-91 | no client, a raised call or unparsable JSON give the same heuristic ranking; a parsed list is cut to top_k; any other JSON gives [] |
| RestaurantTool.Matching | travel_planner/tools/restaurant_tool.py:46-55 | the two filters, each applied only when given; MatchingSpec states what they keep |
| RestaurantTool.SearchRestaurants | travel_planner/tools/restaurant_tool.py:42-60 | the tool as a function; SearchOutcome, CityCaseInsensitive and CheapLondon state its answers |
| RestaurantTool.ByCuisine | travel_planner/tools/restaurant_tool.py:49-50 | keeps, in order, exactly the listings whose cuisine contains the query ignoring case |
| RestaurantTool.ByPrice | travel_planner/tools/restaurant_tool.py:53-55 | keeps, in order, exactly the listings with no more price signs than the query |
| RestaurantTool.MatchingSpec | travel_planner/tools/restaurant_tool.py:46-55 | the filters only remove listings and keep their order, and keep exactly those passing every filter that is switched on |
| RestaurantTool.SearchOutcome | travel_planner/tools/restaurant_tool.py:42-60 | unknown city gives the no-data message; a known city gives its filtered listings, or the no-match message exactly when none is left |
| RestaurantTool.CityCaseInsensitive | travel_planner/tools/restaurant_tool.py:42 | cities equal up to case get the same listings |
| RestaurantTool.CheapLondon | travel_planner/tools/restaurant_tool.py:53-55 | London with "$" finds only Tayyabs |
| Orchestrator.HotelCap | travel_planner/orchestrator.py:57 | the per-night cap is a whole number of cents, the hotel amount itself for one night, and never negative for a non-negative amount |
| Orchestrator.RestaurantLimit | travel_planner/orchestrator.py:78 | the limit is the larger of 6 and twice the nights |
| Orchestrator.Top | travel_planner/orchestrator.py:91-93 | a failed call gives []; a list gives its first min(n, len) items |
| Orchestrator.RankIfAny | travel_planner/orchestrator.py:100-106 | the ranker is called only on a non-empty list; an empty one ranks to [] |
| Orchestrator.Choose | travel_planner/orchestrator.py:109-110 | the ranker's first, else the provider's first, and nothing exactly when both lists are empty |
| Orchestrator.Take | travel_planner/orchestrator.py:118-124 | a free restaurant is taken with the budget unchanged; a priced one is taken exactly when its price is within the budget left, which then drops by the price, rounded; a restaurant not taken changes nothing; a non-negative budget stays non-negative |
| Orchestrator.Greedy | travel_planner/orchestrator.py:115-124 | the pick is an in-order subsequence of the ranked list, holds every free restaurant, and a non-negative budget stays non-negative |
| Orchestrator.GreedyStep | travel_planner/orchestrator.py:117-124 | the restaurant at rank i is taken exactly when it is free or its price is within the budget left after the ranks before it; the budget drops by its price only when a priced one is taken |
| Orchestrator.GreedyPrefix | travel_planner/orchestrator.py:117-124 | the pick over the first i ranks is a prefix of the whole pick, so each step's choice stands |
| Orchestrator.PickRestaurants | travel_planner/orchestrator.py:115-124 | the greedy `for` loop equals Greedy |
| Orchestrator.GreedyAccounting | travel_planner/orchestrator.py:118-124 | with whole-cent prices the budget left is the allocation less the prices taken |
| Orchestrator.PricierOrSameIsTotalPreorder | travel_planner/orchestrator.py:140 | descending `estimated_price` is a total preorder |
| Orchestrator.Prune | travel_planner/orchestrator.py:141-143 | keeps a suffix of the sorted list; on exit nothing is left or the subtotal is within budget; within budget nothing changes |
| Orchestrator.PruneStep | travel_planner/orchestrator.py:141-143 | over budget, one pass pops the first restaurant and lowers the subtotal by its `estimated_price`, rounded |
| Orchestrator.PruneCents | travel_planner/orchestrator.py:141-143 | a whole-cent subtotal stays a whole number of cents through the pruning |
| Orchestrator.PruneRestaurants | travel_planner/orchestrator.py:141-143 | the pruning `while` loop equals Prune |
| Orchestrator.PruneStage | travel_planner/orchestrator.py:137-144 | the first relaxation stage as a function; PruneStageSpec, PruneRemovesPriciest and PruneAccounting state its effect |
| Orchestrator.PruneStageSpec | travel_planner/orchestrator.py:137-144 | after the first stage no restaurant is left or the subtotal is within budget; the kept ones are among the chosen |
| Orchestrator.PricierFirstSorted | travel_planner/orchestrator.py:140 | the sort puts the priciest restaurant first |
| Orchestrator.PruneRemovesPriciest | travel_planner/orchestrator.py:140-143 | every restaurant removed costs at least as much as every one kept |
| Orchestrator.PruneAccounting | travel_planner/orchestrator.py:141-143 | with whole-cent prices, the subtotal left is the starting subtotal less the prices of the restaurants removed |
| Orchestrator.HotelStage | travel_planner/orchestrator.py:146-157 | the second stage as a function; HotelStageSpec states it |
| Orchestrator.FlightStage | travel_planner/orchestrator.py:159-169 | the third stage as a function; FlightStageSpec states it |
| Orchestrator.HotelStageSpec | travel_planner/orchestrator.py:146-157 | runs only over budget, fails only when the search raises, never raises the hotel cost, and replaces the hotel only by the strictly cheaper first alternative |
| Orchestrator.FlightStageSpec | travel_planner/orchestrator.py:159-169 | the same for the flight, with the first alternative's price strictly below the current cost |
| Orchestrator.PlanSpec | travel_planner/orchestrator.py:36-196 | what `plan` returns or raises; NoNightsNoPlan, PlanReport, ToleranceFlag and QueriedAt state its properties |
| Orchestrator.PlanWith | travel_planner/orchestrator.py:57-189 | the plan once nights and allocation are known; PlanWithQueriedAt states what it depends on |
| Orchestrator.Initial | travel_planner/orchestrator.py:95-132 | the choices and costs before relaxation; InitialChoice and PlanReport state them |
| Orchestrator.Relax | travel_planner/orchestrator.py:136-169 | the three stages in order; RelaxSpec states that costs never rise and only restaurants are dropped |
| Orchestrator.Assemble | travel_planner/orchestrator.py:173-189 | the plan record with rounded costs; ToleranceFlag states its flag |
| Orchestrator.Plan | travel_planner/orchestrator.py:36-196 | `plan`, step by step, equals PlanSpec |
| Orchestrator.Selection | travel_planner/orchestrator.py:84-132 | the top-N cuts, the ranking, the first choices, the greedy restaurant pick and the initial costs equal Initial of FirstOffers |
| Orchestrator.Relaxation | travel_planner/orchestrator.py:136-169 | the three relaxation stages, run one after the other and stopping when the hotel search fails, equal Relax |
| Orchestrator.FewerRestaurants | travel_planner/orchestrator.py:137-144 | the sort and the pruning loop, run only over budget, equal PruneStage |
| Orchestrator.CheaperHotel | travel_planner/orchestrator.py:146-157 | the hotel stage queries the provider at 80% of the cap, rounded, and equals HotelStage |
| Orchestrator.CheaperFlight | travel_planner/orchestrator.py:159-169 | the flight stage queries the provider at 90% of the flight allocation, rounded, and equals FlightStage |
| Orchestrator.NoNightsNoPlan | travel_planner/orchestrator.py:49-51 | a trip of no nights raises, whatever the providers |
| Orchestrator.QueriedAt | travel_planner/orchestrator.py:54-169 | the plan depends on providers only at the allocation, the cap, 80% and 90% of them, the restaurant limit and the ranker |
| Orchestrator.PlanWithQueriedAt | travel_planner/orchestrator.py:84-169 | for a fixed allocation, providers that agree at the queried amounts and rank alike give the same plan |
| Orchestrator.InitialChoice | travel_planner/orchestrator.py:100-110 | a flight or hotel is chosen exactly when its provider gave a non-empty list: the ranker's first, else the provider's first |
| Orchestrator.OffersShape | travel_planner/orchestrator.py:84-93 | a failed provider gives []; a list its first 3 flights, 3 hotels or 10 restaurants |
| Orchestrator.RelaxSpec | travel_planner/orchestrator.py:136-169 | relaxation never raises the flight or hotel cost, keeps only restaurants of the greedy pick, and does not touch the restaurant cost |
| Orchestrator.PlanReport | travel_planner/orchestrator.py:129-189 | the reported restaurant cost is the greedy pick's sum; flight and hotel costs are no higher than initially; within budget nothing is relaxed |
| Orchestrator.ToleranceFlag | travel_planner/orchestrator.py:173-187 | the flag is `close_to_budget` of the reported subtotal |
| Orchestrator.StaleCostRaisesSubtotal | travel_planner/orchestrator.py:137-157 | pruning to 900 and then a cheaper hotel bring the subtotal back up to 990 |
| Supervisor.ValidateAgent | multi_agent_app_test/supervisor.py:14-25 | accepts exactly the four agents and FINISH, returning the name unchanged |
| Supervisor.LastThree | multi_agent_app_test/supervisor.py:49 | `messages[-3:]`: the last min(3, n) entries |
| Supervisor.DictAgents | multi_agent_app_test/supervisor.py:49 | one entry per dictionary message; all entries are kept exactly when all are dictionaries |
| Supervisor.LoopDetected | multi_agent_app_test/supervisor.py:49-50 | the loop guard; LoopDetectedIff states when it fires |
| Supervisor.SupervisorNode | multi_agent_app_test/supervisor.py:43-58 | the node's route as a function; RouteIsValid, RouteRules and ShortHistoryNeverForced state its rules |
| Supervisor.LoopDetectedIff | multi_agent_app_test/supervisor.py:49-50 | the guard fires exactly when the last three entries are dictionaries naming the proposed agent |
| Supervisor.RouteIsValid | multi_agent_app_test/supervisor.py:43-58 | every route is a valid agent or FINISH, whatever the model replied |
| Supervisor.RouteRules | multi_agent_app_test/supervisor.py:43-58 | a valid proposal is followed unless the guard fires, and then the budget agent is forced; an invalid one or a failed call finishes |
| Supervisor.ShortHistoryNeverForced | multi_agent_app_test/supervisor.py:49-53 | with fewer than three dictionary entries a valid proposal is followed |
| BudgetAgent.RunEnd | multi_agent_app_test/agents/budget_agent.py:17-22 | the end of the digit run starting at a position |
| BudgetAgent.LongRunFrom | multi_agent_app_test/agents/budget_agent.py:17 | the first whole run of at least three digits, and none exactly when three digits never occur in a row |
| BudgetAgent.Limit | multi_agent_app_test/agents/budget_agent.py:17-18 | the limit is never negative |
| BudgetAgent.NoLongRunNoLimit | multi_agent_app_test/agents/budget_agent.py:18 | a first message without three digits in a row gives limit 0 |
| BudgetAgent.LimitExample | multi_agent_app_test/agents/budget_agent.py:17-18 | "for $2000" gives 2000 |
| BudgetAgent.PriceEnd | multi_agent_app_test/agents/budget_agent.py:22 | the match after a `$` is a price text with no `$` inside, and no longer price text starts there: the whole digit run, plus `.dd` when present |
| BudgetAgent.PriceEndIsLongest | multi_agent_app_test/agents/budget_agent.py:22 | the end chosen gives a price text and none reaching past it is one |
| BudgetAgent.NoLongerPrice | multi_agent_app_test/agents/budget_agent.py:22 | a text running past the digit run, or past a taken `.dd`, is not a price |
| BudgetAgent.DollarNotInside | multi_agent_app_test/agents/budget_agent.py:22 | a later `$` lies at or after the end of the match before it |
| BudgetAgent.MatchesFrom | multi_agent_app_test/agents/budget_agent.py:22 | the matches start at `$` and a digit, end where PriceEnd says, and do not overlap |
| BudgetAgent.MatchesCover | multi_agent_app_test/agents/budget_agent.py:22 | every `$` followed by a digit starts a match |
| BudgetAgent.Prices | multi_agent_app_test/agents/budget_agent.py:13-22 | every price found is digits with optional `.dd` |
| BudgetAgent.PriceValue | multi_agent_app_test/agents/budget_agent.py:26 | `float` reads every price found |
| BudgetAgent.PriceSum | multi_agent_app_test/agents/budget_agent.py:26 | the sum of the prices is never negative |
| BudgetAgent.Budget | multi_agent_app_test/agents/budget_agent.py:12-47 | the node's figures as a function; BudgetFigures and NegativeSpendAsWritten state them |
| BudgetAgent.BudgetFigures | multi_agent_app_test/agents/budget_agent.py:12-47 | fails only on an empty history; spend = prices − limit, remaining = 2·limit − prices, the warning exactly when remaining < 0 |
| BudgetAgent.IntendedBudget | multi_agent_app_test/agents/budget_agent.py:24-27 | with the limit removed only when echoed, the node fails only on an empty history, the spend is never negative, and the warning is given exactly when the spend exceeds the limit |
| BudgetAgent.IntendedSpendWithoutEcho | multi_agent_app_test/agents/budget_agent.py:24-26 | without an echoed limit the intended spend is the whole sum of the prices |
| BudgetAgent.NegativeSpendAsWritten | multi_agent_app_test/agents/budget_agent.py:26-47 | for the history "Budget 2000" the stored spend is −2000, where the intended one is 0 |

## Left out

- Network and model calls are inputs, not modelled. These are the Amadeus SDK, `requests` with BeautifulSoup, the OpenAI chat completion, `json.loads`, and the ChatOpenAI calls of the supervisor and the budget agent. The budget agent's summary call and its `:.2f` report text are left out; the model keeps the figures and which closing line is chosen.
- The parallel fan-out thread pool and its timeout: concurrency. Each provider's outcome is a list or a failure.
- Python's binary floats and the half-even `round`: reals with round-half-up stand in. Python's `float` is covered only for decimal text with an optional sign. Exponents, `inf`/`nan` and `_` separators read as text `float` rejects.
- Case mapping, `isalpha` and `\d` cover ASCII letters and digits only; Python's Unicode tables are not modelled.
- Scraper.ExtractPrice: `repr` of a string nested in a list or dict escapes only the control and non-printable Latin-1 characters; other non-printable characters, which Python writes as `\uXXXX` escapes whose digits the price cleaning would keep, are shown as themselves.
- `datetime.fromisoformat`: dates are given as day numbers.
- `get_hotels_by_city` builds a hotel list from SerpApi but is never called.
- The hotel and restaurant agent wrappers: the providers are abstract inputs.
- Logging and `print`, the restaurant tool's JSON output (the model returns the listings), and the scraped `snippet` field. A dictionary key present with the value None is not distinguished from a missing key.
- The ranker's `context` argument: only the role budget and `top_k` reach the ranker. The model's reply is an input, so the prompt text is immaterial.
- Orchestrator.Plan: the plan's `notes` text and the summary the model writes are left out.
- Framework wiring of the multi-agent graph (LangGraph nodes, state types, tool binding), configuration and demo scripts. The supervisor's rejected proposal and its raised call are both one failure branch, as in the source's `except`.

## Findings

| source | as written | input that shows it | evidently intended | confidence | as-written member | corrected member |
|---|---|---|---|---|---|---|
| multi_agent_app_test/agents/budget_agent.py:24-26 | the limit is subtracted from the sum of the `$` amounts whether or not it is among them | a history whose first message is "Budget 2000" (no `$`) gives current_budget −2000 | subtract the limit only when the first amount found is the echoed limit, as the comment beside the line says | medium, not executed | BudgetAgent.NegativeSpendAsWritten | BudgetAgent.IntendedBudget |
