# test-backend-dev core, modelled in Dafny

This project models four pieces of the `test-backend-dev` repository and proves properties about them.

- **Frequent-customer ranking (`ranking.dfy`).** This is `FrequentCustomersAnalyzer` from `Scripts/ranking_customers.ts`. It makes one pass over a stream of transactions and keeps those whose timestamp lies inside an inclusive window. It builds a per-customer count and sum in a JavaScript `Map`. Every `batchSize` transactions it may evict low-frequency customers. At the end it returns the top `limit` customers, ordered by count and then by amount.
  - The map is modelled with its key insertion order, because that is the order in which the map is iterated.
  - The whole pass is the function `Run`. The imperative methods are proved to compute exactly `Run`.
- **Order pricing (`orders.dfy`).** This is `OrderService` from `Api/src/services/OrderService.ts`, which covers:
  - validation;
  - line subtotals;
  - shipping by socio-economic stratum, with a free-shipping threshold;
  - the best of three candidate discounts (volume, total amount and stratum);
  - the total, clamped at zero.

  The service only reads its configuration, so it is a value, and every operation is a function of it. The default configuration of `Api/src/config/environment.ts` is the constant `DefaultService`.
- **Public transport route registry (`routes.dfy`).** This is `PublicTransportRouteSystem` from `Scripts/transport_route_management.ts`. It is a class with three map fields that its methods update in place: routes, stops, and a reverse index from each stop to the ids of the routes serving it. The methods keep an invariant, `Valid`/`Consistent`. It says the reverse index has exactly the registered stops as keys and agrees with every route's stop set in both directions.
- **Request validation middleware (`validation.ts`, modelled in `validation.dfy`).** This is `validateOrderStructure` and `validateJsonBody` from `Api/src/middleware/validation.ts`. The body is a small JSON datatype. Instead of sending an HTTP 400 response or calling `next`, the middleware returns a `Response` value: `Next`, `Reject(code, details)` or `Throws`.

Three supporting files are shared by the modules:
- `wrappers.dfy` holds Option, Outcome and Result.
- `seqs.dfy` holds facts about duplicate-free sequences and about taking elements out of a sequence.
- `sorting.dfy` holds an insertion sort by a comparator. It stands in for `Array.prototype.sort`, and is proved ordered and a permutation.

Amounts and timestamps are reals. `Math.round(x)` is `Floor(x + 1/2)`.

## Model

| member | source | states |
|---|---|---|
| Ranking.Values | Scripts/ranking_customers.ts:154 | `Array.from(map.values())` lists the entries in key insertion order; every one has count at least 1 |
| Ranking.ValuesNoDup | Scripts/ranking_customers.ts:154 | the values of the map are pairwise distinct |
| Ranking.Record | Scripts/ranking_customers.ts:113-123 | bumping an existing entry or inserting a fresh one keeps the map consistent: the id equals the key, the count is at least 1, and keys are duplicate-free |
| Ranking.Aggregate | Scripts/ranking_customers.ts:107-124 | the map of a pass that never evicts; keeps the map consistent; what it holds is stated by Ranking.AggregateIsExact |
| Ranking.AggregateIsExact | Scripts/ranking_customers.ts:107-124 | without eviction the map has an entry for exactly the customers with an in-window transaction, and that entry is their count and sum |
| Ranking.WindowBoundsInclusive | Scripts/ranking_customers.ts:110 | a transaction at either bound is counted; one outside the bounds is not |
| Ranking.RunCounters | Scripts/ranking_customers.ts:98-127 | `processedCount` is the number consumed; `filteredCount` is the number in the window and is at most `processedCount`; the checkpoint counter is `n mod batchSize`, in `[0, batchSize)` |
| Ranking.MinTransactionThreshold | Scripts/ranking_customers.ts:195-200 | no ensures of its own; specified by Ranking.ThresholdIsLowerQuartile |
| Ranking.ThresholdIsLowerQuartile | Scripts/ranking_customers.ts:195-200 | the cutoff is 1 for an empty map, and otherwise one of the counts, hence at least 1; at most a quarter of the counts are below it, and more than a quarter are at or below it |
| Ranking.QuartileOfCounts | Scripts/ranking_customers.ts:195-200 | the element at index `n / 4` of the ascending counts is a count with at most `n / 4` counts below it and more than `n / 4` at or below it |
| Ranking.Evict | Scripts/ranking_customers.ts:170-182 | deleting the entries below the cutoff keeps the map consistent; which entries go is stated by Ranking.EvictRemovesExactlyTheLowOnes |
| Ranking.Optimized | Scripts/ranking_customers.ts:167-193 | `optimizeMemoryUsage` on the map keeps it consistent; its effect is stated by Ranking.MaximumSurvives, Ranking.EvictionKeepsThreeQuarters and Ranking.OptimizeMemoryUsage |
| Ranking.EvictRemovesExactlyTheLowOnes | Scripts/ranking_customers.ts:171-182 | exactly the entries with count below the cutoff are removed; survivors keep their values, so none is below the cutoff |
| Ranking.MaximumSurvives | Scripts/ranking_customers.ts:167-193 | an entry with the largest count survives `optimizeMemoryUsage` unchanged |
| Ranking.EvictionKeepsThreeQuarters | Scripts/ranking_customers.ts:170-182 | one eviction pass removes at most a quarter of the entries |
| Ranking.Consume | Scripts/ranking_customers.ts:107-135 | one loop iteration keeps the map consistent; its counters are stated by Ranking.RunCounters and its entries by Ranking.ConsumeKeepsSuffixAggregates |
| Ranking.Run | Scripts/ranking_customers.ts:97-139 | the whole loop keeps the map consistent; what it computes is stated by Ranking.RunWithoutEvictionIsExact, Ranking.RunEntriesAreSuffixAggregates and Ranking.RunCounters |
| Ranking.RunWithoutEvictionIsExact | Scripts/ranking_customers.ts:107-139 | when spilling is off, or the window holds at most 2,000,000 customers, or at most `memoryThreshold` of them, the pass's map is the exact aggregate |
| Ranking.RunEntriesAreSuffixAggregates | Scripts/ranking_customers.ts:126-135 | with eviction, every entry is the exact aggregate of the transactions from some point of the stream on |
| Ranking.ConsumeKeepsSuffixAggregates | Scripts/ranking_customers.ts:107-135 | one more transaction, with its possible eviction, keeps every entry the exact aggregate of a suffix of the stream |
| Ranking.RunNeverOvercounts | Scripts/ranking_customers.ts:126-135 | with eviction, an entry's count is at least 1 and at most the customer's true in-window count |
| Ranking.RanksAtLeastIsTotalPreorder | Scripts/ranking_customers.ts:156-161 | the comparator (count descending, then amount descending) is total and transitive |
| Ranking.PartialSort | Scripts/ranking_customers.ts:153-165 | no ensures of its own; specified by Ranking.PartialSortSelectsTop and Ranking.PartialSortNoDup |
| Ranking.PartialSortSelectsTop | Scripts/ranking_customers.ts:153-165 | the result has `min(limit, n)` elements (`slice` semantics for a negative limit); it is ordered by the comparator and is a sub-multiset of the input; every kept element ranks at least as high as every element left out |
| Ranking.PartialSortNoDup | Scripts/ranking_customers.ts:153-165 | distinct inputs give a duplicate-free result |
| Ranking.CollectBelow | Scripts/ranking_customers.ts:172-178 | the loop collects exactly the ids whose count is below the threshold |
| Ranking.DeleteAll | Scripts/ranking_customers.ts:180-182 | deleting the collected ids one by one removes exactly those entries and keys, and keeps the order of the rest |
| Ranking.OptimizeMemoryUsage | Scripts/ranking_customers.ts:167-193 | the method computes `Optimized`; at or below 2,000,000 entries it is a no-op |
| Ranking.ResolveOptions | Scripts/ranking_customers.ts:91-95 | each absent option takes its own default (batch size 50000, memory threshold 2,000,000, spilling on) and each given one is kept |
| Ranking.RecordTransaction | Scripts/ranking_customers.ts:113-123 | the in-place update of one entry computes `Record` |
| Ranking.Aggregation | Scripts/ranking_customers.ts:97-139 | the `for await` loop with its checkpoints leaves the map and the three counters of `Run` |
| Ranking.GetTopFrequentCustomersStreaming | Scripts/ranking_customers.ts:80-151 | an absent limit is 10; the result is `partialSort` of the final map: ordered, duplicate-free, `min(limit, size)` long for `limit >= 0`, and every element is the map's entry for its id |
| Ranking.SelectedFromMap | Scripts/ranking_customers.ts:150-165 | returned elements are map entries, and every entry left out ranks no higher than each returned one |
| Ranking.SelectedAreEntries | Scripts/ranking_customers.ts:150-165 | every returned element is the map's entry for its id |
| Ranking.LeftOutRankLower | Scripts/ranking_customers.ts:150-165 | every entry left out ranks no higher than each returned one |
| Ranking.StreamingResultIsExact | Scripts/ranking_customers.ts:80-165 | under the same conditions (spilling off, at most 2,000,000 or at most `memoryThreshold` customers in the window) every returned aggregate is that customer's exact in-window count and sum, and every in-window customer left out ranks no higher |
| Ranking.ScenarioTwoCustomers | Scripts/ranking_customers.ts:80-165 | two transactions of A and one of B with limit 2 give [A(2, 30), B(1, 5)] |
| Ranking.ScenarioTwoCustomersMap | Scripts/ranking_customers.ts:107-124 | after the three transactions the map holds A(2, 30) then B(1, 5) |
| Ranking.ScenarioTwoCustomersTop | Scripts/ranking_customers.ts:153-165 | that map ranked with limit 2 gives [A(2, 30), B(1, 5)] |
| Ranking.ValuesOfTwo | Scripts/ranking_customers.ts:154 | a map of two distinct keys is consistent and lists its values in insertion order |
| Ranking.PartialSortOfTwo | Scripts/ranking_customers.ts:153-165 | two aggregates already in rank order are returned as they are with limit 2 |
| Ranking.ScenarioWindowExcludesAll | Scripts/ranking_customers.ts:110 | a window starting after every timestamp gives an empty result |
| Orders.DefaultServiceIsValid | Api/src/config/environment.ts:52-180 | the default configuration has non-negative costs and multipliers, and percentages between 0 and 50 |
| Orders.Round | Api/src/services/OrderService.ts:111 | `Math.round` gives the integer within half a unit, halves rounded up |
| Orders.ProductError | Api/src/services/OrderService.ts:69-81 | no ensures of its own; its use is specified by Orders.FirstProductErrorIsFirst and Orders.ValidationPasses |
| Orders.FirstProductError | Api/src/services/OrderService.ts:69-81 | no ensures of its own; specified by Orders.FirstProductErrorIsFirst |
| Orders.FirstProductErrorIsFirst | Api/src/services/OrderService.ts:69-81 | none exactly when every product passes; otherwise the error of the first failing product, every earlier one passing |
| Orders.ValidateOrderRequest | Api/src/services/OrderService.ts:56-82 | no ensures of its own; specified by Orders.ValidationPasses and Orders.ValidationOrder |
| Orders.ValidationPasses | Api/src/services/OrderService.ts:56-82 | passes exactly when the list is non-empty, the stratum is not truthy-and-outside 1..6, and every product is valid |
| Orders.ValidationOrder | Api/src/services/OrderService.ts:56-82 | the empty list is reported before the stratum, the stratum before any product, then the first failing product |
| Orders.StratumZeroIsAccepted | Api/src/services/OrderService.ts:61-67 | stratum 0 is falsy and is validated exactly like an absent stratum |
| Orders.CalculateProductSubtotals | Api/src/services/OrderService.ts:84-91 | one line per product, in order, copying its fields, with subtotal `price * quantity` |
| Orders.SubtotalNonNegative | Api/src/services/OrderService.ts:28-32 | valid products give a non-negative order subtotal |
| Orders.Multiplier | Api/src/services/OrderService.ts:98-99 | the configured multiplier of the stratum, or 1.0 when there is none |
| Orders.MultiplierNonNegative | Api/src/services/OrderService.ts:98-99 | with non-negative configured multipliers the looked-up multiplier is non-negative |
| Orders.CalculateShippingCost | Api/src/services/OrderService.ts:94-118 | the base cost and multiplier are always reported; at or above the threshold the final cost is 0, otherwise `round(base * multiplier)` |
| Orders.ShippingNonNegative | Api/src/services/OrderService.ts:94-118 | under a valid configuration shipping is never negative |
| Orders.BestTier | Api/src/services/OrderService.ts:164-194 | no ensures of its own; specified by Orders.BestTierIsHighestReached |
| Orders.GetVolumeDiscount | Api/src/services/OrderService.ts:164-178 | no ensures of its own; specified by Orders.BestTierIsHighestReached, and by Orders.DefaultVolumeTiers for the defaults |
| Orders.GetTotalAmountDiscount | Api/src/services/OrderService.ts:180-194 | no ensures of its own; specified by Orders.BestTierIsHighestReached, and by Orders.DefaultAmountTiers for the defaults |
| Orders.ReachedPercentages | Api/src/services/OrderService.ts:165-166 | the filter keeps exactly the percentages of the tiers whose minimum is met |
| Orders.MaxIsLargest | Api/src/services/OrderService.ts:167 | the head after a descending sort is an element and is at least every element |
| Orders.BestTierIsHighestReached | Api/src/services/OrderService.ts:164-194 | none iff no tier is reached; otherwise the highest percentage among the reached tiers, with the kind and amount 0 |
| Orders.FindStratum | Api/src/services/OrderService.ts:197-199 | no ensures of its own; specified by Orders.FindStratumIsFirst |
| Orders.FindStratumIsFirst | Api/src/services/OrderService.ts:197-199 | `find`: none iff no tier has exactly this stratum; otherwise the first such tier |
| Orders.GetStratumDiscount | Api/src/services/OrderService.ts:196-210 | no ensures of its own; specified by Orders.GetStratumDiscountIsFirst, and by Orders.DefaultStratumTiers for the defaults |
| Orders.GetStratumDiscountIsFirst | Api/src/services/OrderService.ts:196-210 | none iff no tier has this stratum; otherwise the first such tier's percentage, with amount 0 |
| Orders.Candidates | Api/src/services/OrderService.ts:125-147 | no ensures of its own; specified by Orders.CandidatesAtMostHalf, and by Orders.SingleCandidates for one product |
| Orders.KeepBest | Api/src/services/OrderService.ts:154-156 | no ensures of its own; specified by Orders.KeepBestIsFirstMaximum |
| Orders.KeepBestIsFirstMaximum | Api/src/services/OrderService.ts:154-156 | the `reduce` keeps the earliest candidate with the highest percentage |
| Orders.BestIsChosen | Api/src/services/OrderService.ts:154-161 | the chosen discount is the first maximum, priced at its percentage of the subtotal |
| Orders.CalculateDiscount | Api/src/services/OrderService.ts:120-162 | no ensures of its own; specified by Orders.CalculateDiscountIsFirstBest and Orders.ChosenDiscountWithinSubtotal |
| Orders.CalculateDiscountIsFirstBest | Api/src/services/OrderService.ts:120-162 | null iff there is no candidate; otherwise the first candidate (volume, then amount, then stratum) with the highest percentage, with amount `round(subtotal * pct / 100)` |
| Orders.CandidatesAtMostHalf | Api/src/services/OrderService.ts:125-147 | under a valid configuration every pushed candidate has a percentage between 0 and 50 |
| Orders.ChosenDiscountWithinSubtotal | Api/src/services/OrderService.ts:150-161 | under a valid configuration and a non-negative subtotal the discount amount lies between 0 and the subtotal |
| Orders.Clamp | Api/src/services/OrderService.ts:51 | `Math.max(0, total)` is non-negative, at least the total, and is either the total or 0 |
| Orders.CalculateOrder | Api/src/services/OrderService.ts:25-54 | fails iff validation fails, with the same error; otherwise the total is non-negative and the product count is kept |
| Orders.OrderParts | Api/src/services/OrderService.ts:25-54 | a valid request's result, field by field: subtotal, shipping, discount, and the clamped total |
| Orders.DiscountWithinSubtotal | Api/src/services/OrderService.ts:158-161 | a discount of at most 50% lies between 0 and the subtotal |
| Orders.ClampNeverBinds | Api/src/services/OrderService.ts:45-51 | under a valid configuration the total is exactly subtotal + shipping - discount |
| Orders.StratumZeroPricing | Api/src/services/OrderService.ts:34-43 | 0 stays 0 after `?? 4` and gets multiplier 1.0 and no stratum discount; absent becomes 4 |
| Orders.ReachedOfFour | Api/src/services/OrderService.ts:165-166 | over four tiers the filter keeps, in tier order, the percentage of each tier whose minimum is met |
| Orders.TiersByRange | Api/src/services/OrderService.ts:164-177 | four tiers of increasing minimum and percentage: none below the first minimum, otherwise the percentage of the last tier reached |
| Orders.DefaultVolumeTiers | Api/src/config/environment.ts:71-112 | the default volume discount is none below 10 units, then 5, 10, 15, 20% from 10, 25, 50 and 100 units |
| Orders.DefaultAmountTiers | Api/src/config/environment.ts:114-155 | the default total-amount discount is none below 100000, then 5, 10, 15, 20% from 100000, 250000, 500000 and 1000000 |
| Orders.DefaultStratumTiers | Api/src/config/environment.ts:157-179 | the default stratum discount is 10, 8 and 5% for strata 1, 2 and 3 and none otherwise |
| Orders.SingleCandidates | Api/src/services/OrderService.ts:125-147 | for one product the candidate list is the volume, amount and stratum discounts that exist, in that order |
| Orders.SingleOrder | Api/src/services/OrderService.ts:25-54 | a valid one-product order succeeds with subtotal `price * quantity`, its shipping, its discount and the clamped total |
| Orders.SingleOrderWith | Api/src/services/OrderService.ts:25-54 | the same, once the shipping and the discount are known |
| Orders.VolumeWinsTie | Api/src/services/OrderService.ts:154-156 | with 10 to 24 units, a subtotal in [100000, 250000) and no stratum discount, the 5% volume candidate beats the equal amount candidate |
| Orders.AmountTierOnly | Api/src/services/OrderService.ts:120-162 | under 10 units with a subtotal in [100000, 250000) in stratum 4 the discount is the 5% amount tier |
| Orders.StratumOnly | Api/src/services/OrderService.ts:120-162 | under 10 units and 100000 in stratum 1 the discount is the 10% stratum one |
| Orders.NoCandidate | Api/src/services/OrderService.ts:150-152 | under 10 units and 100000 in stratum 4 there is no discount |
| Orders.StratumBeatsAmount | Api/src/services/OrderService.ts:154-156 | under 10 units with a subtotal in [100000, 250000) in stratum 1 the 10% stratum discount beats the 5% amount tier |
| Orders.AmountBeatsVolumeAndStratum | Api/src/services/OrderService.ts:154-156 | 25 to 49 units and at least 1000000 in stratum 1: the 20% amount tier beats the 10% volume and stratum ones |
| Orders.ExampleValidationErrors | Api/src/tests/OrderService.test.ts:12-57 | empty list, stratum 7, negative price and zero quantity are rejected with their errors |
| Orders.ExampleSubtotal | Api/src/tests/OrderService.test.ts:61-75 | two lines, 20000 and 15000, add up to 35000 |
| Orders.ExampleFreeShipping | Api/src/tests/OrderService.test.ts:79-90 | 250000 ships free, with base cost 8000 still reported |
| Orders.ExampleShippingStratum1 | Api/src/tests/OrderService.test.ts:92-104 | stratum 1 ships at 4000 |
| Orders.ExampleShippingStratum6 | Api/src/tests/OrderService.test.ts:106-118 | stratum 6 ships at 12000 |
| Orders.ExampleShippingDefaultStratum | Api/src/tests/OrderService.test.ts:120-132 | no stratum ships at stratum 4's cost |
| Orders.ExampleVolumeDiscount | Api/src/tests/OrderService.test.ts:135-148 | ten units give a 5% discount, and the volume candidate wins the tie |
| Orders.ExampleAmountDiscount | Api/src/tests/OrderService.test.ts:150-163 | 120000 gives the 5% total-amount discount |
| Orders.ExampleStratumDiscount | Api/src/tests/OrderService.test.ts:165-179 | stratum 1 gives the 10% stratum discount |
| Orders.ExampleHighestDiscount | Api/src/tests/OrderService.test.ts:181-198 | 25 units at 100000 in stratum 1: the 20% amount tier beats the 10% ones |
| Orders.ExampleNoDiscount | Api/src/tests/OrderService.test.ts:200-211 | 50000 in stratum 4 has no discount |
| Orders.ExampleTotal | Api/src/tests/OrderService.test.ts:215-230 | 100000 in stratum 1: total 94000 |
| Orders.ExampleSmallTotal | Api/src/tests/OrderService.test.ts:232-248 | 1000 in stratum 1: total 4900 |
| Routes.InsertAt | Scripts/transport_route_management.ts:78-82 | the order grows by one; the new stop sits at the end (no position, or a position at or past the end) or otherwise at index `max(0, position)`; the others keep their relative order |
| Routes.IndexOf | Scripts/transport_route_management.ts:99 | -1 iff absent; otherwise the first index holding the stop |
| Routes.RemoveFirst | Scripts/transport_route_management.ts:99-102 | unchanged when absent; otherwise exactly the first occurrence is spliced out |
| Routes.RemoveUndoesInsert | Scripts/transport_route_management.ts:62-105 | removing a stop that was just inserted (not already on the route) restores the order, at any position |
| Routes.InsertAtElems | Scripts/transport_route_management.ts:76-82 | insertion adds exactly the stop to the elements, and keeps a duplicate-free order duplicate-free |
| Routes.RemoveFirstElems | Scripts/transport_route_management.ts:97-102 | removal keeps every other element; on a duplicate-free order it removes exactly the stop |
| Routes.DemoInsertion | Scripts/transport_route_management.ts:170-173 | P004 at position 2 of [P001, P002, P003] gives [P001, P002, P004, P003] |
| Routes.RepeatedStopOutlivesRemoval | Scripts/transport_route_management.ts:39-44 | a route created with a repeated stop still lists that stop after it is removed |
| Routes.FirstUnregistered | Scripts/transport_route_management.ts:33-37 | none iff every stop is registered; otherwise the first unregistered one |
| Routes.AddToAll | Scripts/transport_route_management.ts:48-50 | the reverse index keeps its keys; its entries are stated by Routes.CreateKeepsConsistent and Routes.PublicTransportRouteSystem.IndexRoute |
| Routes.WithStop | Scripts/transport_route_management.ts:76-82 | the route keeps its id and name, gains the stop in its set and one element in its order; the order is stated by Routes.InsertAt and Routes.InsertAtElems |
| Routes.WithoutStop | Scripts/transport_route_management.ts:97-102 | the route keeps its id and name, loses the stop from its set and, when the stop is on the order, one element of it; the order is stated by Routes.RemoveFirst and Routes.RemoveFirstElems |
| Routes.RegisterKeepsConsistent | Scripts/transport_route_management.ts:21-26 | registering keeps the invariant, whether the stop is new or re-registered |
| Routes.CreateKeepsConsistent | Scripts/transport_route_management.ts:39-50 | a new route's entries in the reverse index keep the invariant; a duplicate-free list keeps every order exact |
| Routes.AddKeepsConsistent | Scripts/transport_route_management.ts:76-84 | adding a stop keeps the invariant and keeps orders exact |
| Routes.RemoveKeepsConsistent | Scripts/transport_route_management.ts:97-104 | removing a stop keeps the invariant and keeps orders exact |
| Routes.PublicTransportRouteSystem.constructor | Scripts/transport_route_management.ts:15-19 | the three maps start empty and valid |
| Routes.PublicTransportRouteSystem.RegisterStop | Scripts/transport_route_management.ts:21-26 | the record is replaced; a new stop gets an empty route set at the end of the iteration order; a known stop keeps its routes |
| Routes.PublicTransportRouteSystem.CreateRoute | Scripts/transport_route_management.ts:28-51 | fails on an existing id, else on the first unregistered stop, and either failure changes nothing; success stores `{stops: set(list), order: list}` and adds the id to every listed stop's route set |
| Routes.PublicTransportRouteSystem.FindUnregistered | Scripts/transport_route_management.ts:33-37 | the validation loop finds the first unregistered stop |
| Routes.PublicTransportRouteSystem.IndexRoute | Scripts/transport_route_management.ts:48-50 | the indexing loop adds the route id to exactly the listed stops' sets |
| Routes.PublicTransportRouteSystem.GetRoutesByStop | Scripts/transport_route_management.ts:53-60 | [] for an unregistered stop; otherwise each route indexed under the stop exactly once, which is every stored route having the stop |
| Routes.PublicTransportRouteSystem.AddStopToRoute | Scripts/transport_route_management.ts:62-85 | fails on an unknown route, then an unknown stop, then a stop already on the route, changing nothing; success adds the stop to the set, to the order at the position, and to the index |
| Routes.PublicTransportRouteSystem.RemoveStopFromRoute | Scripts/transport_route_management.ts:87-105 | fails on an unknown route, then a stop not on the route, changing nothing; success removes the stop from the set, its first occurrence from the order, and the route from the stop's index entry; other routes are unchanged |
| Routes.PublicTransportRouteSystem.GetRoute | Scripts/transport_route_management.ts:107-109 | present iff stored, with the stored route under its own id |
| Routes.PublicTransportRouteSystem.GetRouteStops | Scripts/transport_route_management.ts:111-118 | [] for an unknown route; otherwise the stop records in the route's order |
| Routes.PublicTransportRouteSystem.RouteHasStop | Scripts/transport_route_management.ts:120-123 | false for an unknown route; equals membership in the route's set and, on a valid registry, in the reverse index |
| Routes.PublicTransportRouteSystem.GetStatistics | Scripts/transport_route_management.ts:125-148 | totals are the map sizes; the most connected stop is null iff every route set is empty; otherwise it is the first stop, in iteration order, with the strict maximum count |
| Validation.ValidateJsonBody | Api/src/middleware/validation.ts:5-20 | rejects with INVALID_CONTENT_TYPE iff the request is a POST that is not JSON; otherwise goes on |
| Validation.ProductIssues | Api/src/middleware/validation.ts:60-87 | at most four issues, all numbered with the product's 1-based position; none iff id and name are non-empty strings, price is a number at least 0, and quantity is a number above 0 |
| Validation.ProductIssuesAreFailingFields | Api/src/middleware/validation.ts:63-87 | the issue for id, name, price or quantity is present exactly when that field fails its check |
| Validation.ScanProducts | Api/src/middleware/validation.ts:59-99 | no ensures of its own; specified by Validation.ScanFindsFirstFailure |
| Validation.OrderStructureVerdict | Api/src/middleware/validation.ts:22-119 | no ensures of its own; specified by Validation.GuardOrder, Validation.ProductErrorIsFirstFailure, Validation.StratumCheckedLast and Validation.NextIffAllPass |
| Validation.ValidateOrderStructure | Api/src/middleware/validation.ts:22-119 | the middleware's steps, with the per-product loop, compute `OrderStructureVerdict` |
| Validation.ScanFindsFirstFailure | Api/src/middleware/validation.ts:59-99 | the product loop is clean iff every product passes; otherwise it reports the first failing product and only its issues |
| Validation.GuardOrder | Api/src/middleware/validation.ts:29-57 | MISSING_PRODUCTS, INVALID_PRODUCTS_TYPE and EMPTY_PRODUCTS_ARRAY each arise exactly when the earlier checks pass and their own fails |
| Validation.ProductErrorIsFirstFailure | Api/src/middleware/validation.ts:59-98 | PRODUCT_VALIDATION_ERROR carries 1 to 4 details of the first failing product only; every product before it passes |
| Validation.StratumCheckedLast | Api/src/middleware/validation.ts:101-116 | INVALID_STRATUM arises exactly when every product passes and the stratum is present and not a number in [1, 6]; 0 is refused |
| Validation.NextIffAllPass | Api/src/middleware/validation.ts:22-119 | `next` is reached exactly when every check passes |
| Validation.AllFourIssues | Api/src/middleware/validation.ts:63-87 | a product with no fields yields the four issues in order |

## Left out

- Console output, `performance.now`, `process.memoryUsage`, `Deno.args`, the `global.gc` hint and the `setImmediate`/`setTimeout` yields in `Scripts/ranking_customers.ts` are left out. They do not affect the map or the counters.
- `generateSyntheticDataStream`, `getMemoryUsage`, `analyzePerformanceDetailed` and `main` of `Scripts/ranking_customers.ts` are left out. They use randomness, clocks and process memory.
- The asynchronous stream is a finite sequence of transactions.
- Ranking.Aggregation: the map is a value that the method passes and returns, not an object mutated by reference. Per-entry aliasing of `existing` is not modelled.
- Ranking.PartialSortSelectsTop: the order among customers with equal count and amount is not specified. JavaScript's sort keeps such ties in map order; the contract does not promise any tie order.
- IEEE-754 arithmetic is left out. Amounts are exact reals. So the decimal-price expectation of `Api/src/tests/OrderService.test.ts:270-286`, and NaN or infinite inputs, are not reproduced.
- The large three-product example of `Api/src/tests/OrderService.test.ts:251-268` is not an example lemma. Its properties follow from `Orders.CalculateOrder` and `Orders.OrderParts`.
- Strata are integers. A fractional stratum (which `validateOrderRequest` would let through) is not modelled.
- Reading `process.env` is left out. Only the defaults of `Api/src/config/environment.ts` are represented, as `DefaultService`.
- `getDiscountConfig`/`getShippingConfig` are left out. They only copy configuration, and the model's configuration is an immutable value.
- Error messages are structured error values, not the source's Spanish strings.
- The controller, routes, server wiring, request logger, not-found and error handlers, and timestamps of the API are not part of this model.
- The `main` demonstration of `Scripts/transport_route_management.ts` is left out apart from its insertion step (`Routes.DemoInsertion`). The console output is left out.
- Routes.PublicTransportRouteSystem.GetRoutesByStop: the order of the returned routes is left unspecified. The source returns them in the insertion order of the stop's `Set`, which the model does not track.
- Routes.PublicTransportRouteSystem.GetRoute: the source returns the stored route object itself, so a caller can mutate it. The model returns a value, and aliasing of route objects is not modelled.
- Stop coordinates are carried, but nothing reads them.
- Route positions are integers. A fractional `position` in `addStopToRoute` is not modelled; the source compares it with the length as a number and `splice` then truncates it.
- The default `orderedStops = []` of `createRoute` is not a separate case. A caller that omits the list is modelled as passing `[]`.
- In `validateOrderStructure`, JSON numbers are reals. `NaN` (which passes the price and quantity checks, because `NaN < 0` and `NaN <= 0` are both false) is not modelled.
- `req.is("application/json")` content negotiation is a boolean parameter of `Validation.ValidateJsonBody`.
- `next` being called exactly once corresponds to the single `Next` value returned; the HTTP response object is not modelled.
