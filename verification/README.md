# Verified model of the trading and factory back office

This project models the parts of the repository that carry real algorithms, and proves
what they promise for every input, every run and every interleaving:

- the weighted-average **inventory costing engine** with negative stock at provisional
  cost, its FIFO queue of shortage layers, its exact reversals and its behaviour under
  concurrent first movements;
- the **container planner family**: balanced distribution, rebalancing around locked
  containers, reconciliation with current stock, the stock-and-demand optimizer, bale
  assignment under quotas, packing lists, customer allocations and quota clean-up;
- the sharing of **production bonus** credit among linked workers, rate resolution, the
  day's proposal and the totals over several days;
- the foreign-key **table search and deletion order** of the company wipe script;
- the **per-connection settings cache** of the database pool, down to the characters of
  the signature it compares.

`dafny verify dfyconfig.toml` checks everything.

## How the model is built

Code that works step by step is a method with loops (a `StockRecord` class over one
stored row and its layer table, a `ScopedPool` class over the pooled connections, an
array updated in place for the container totals), proved equal to a specification
function or to a stated property. What the repository promises is then proved about
those functions by lemmas. Interleavings (database transactions, pooled leases) are
state machines over their steps.

Conventions and assumptions:

- *Inventory units.* Quantities count thousandths, values count cents, a stored rate
  counts 1e-7 of the currency, a layer rate 1e-4. Movements are assumed to be whole
  thousandths, so the 0.0005 tolerance of the code means "is zero". A rate in flight is
  an exact real in cents per thousandth, in place of 40 significant decimal digits.
  Rounding is half away from zero. `Times(n, r)` is the product, written as a repeated
  sum, and `TimesIsProduct` says so.
- *Companies.* Settled shortage layers are cleared per company, as
  `server/services/inventory/clearResolvedNegativeLayers.ts` does. The company a stored
  row belongs to is a constant of the record.
- *Concurrency of first movements.* Read-committed transactions with a row lock; one
  call of `adjustInventory` a transaction, with rollbacks at any point.
- *Planner files.* Quantities are whole numbers. `localeCompare` is a parameter `le`,
  any total preorder on strings (where two runs are compared, any total order).
- *Bonus.* Dates are day numbers, a rate is a real number of cents for each extra bale,
  a bonus is in cents. Lists of issue codes are sets of codes. Numbers that are not
  whole are treated like whole numbers out of range: both are invalid counts.
- *Two layers of statement.* A method is proved equal to a specification function where it has
  one; what that function means is then stated without its name, in `InventoryPolicy`,
  `AllocationRequest.Decided`, `BonusEvidence`, `ConnectionSignature.AsAsked`, `DemandNames`,
  `LayoutPhases`, `RebalanceLayout`, `SearchDistance` and beside the functions themselves.
- *Inventory totals.* The variance of a receipt is defined as what was received less what
  the stored value rose by, so `StockPlusCostIsReceipts` and `SubLedgerEqualsLedger` are
  bookkeeping: they hold of any pricing. What ties the variance to the rates is
  `VarianceIsRateDifference`.
- *Connections.* A failed `set_config` statement leaves the session settings as they
  were, nothing else writes them at session level, and the environment of a process
  does not change while it runs. Texts are sequences of Unicode scalar values, so lone
  surrogates do not occur. Company ids are natural numbers.

Where the code and its own comments differ, the model follows the code:

- A reversal keeps the layers equal to the shortage only under a condition that
  `ReversalKeepsMatchIff` states exactly. Stock that is not short clears the moving
  company's layers alone: the layers then match again if and only if all that the
  settlement left belong to that company (`MovementRestoresMatchIff`); another
  company's layer outlives it (`OtherCompanysLayerSurvives`).
- The stored 7dp rate reproduces every value exactly up to 100,000 units in stock and
  for no larger quantity (`DriftLimitIsExact`).
- The wipe script re-queues a table whose condition grew "in case its own children need
  widening", but its edges are marked as visited, so the children's row conditions stay
  as they were. `ConditionsWidenedIff` gives the exact condition under which all are up to
  date: every table with children, other than a root, is discovered after all of its own
  parents. `LateParentIsMissed` says what a child misses otherwise, and
  `LateConditionIsMissed` gives the input: a and b point at r, a also at b, and c at a.
- The script appends "any remaining tables" as a safety measure if a cycle is detected. The
  voucher table refers to itself (`shared/schema/erp/vouchers.ts:68`), so on this schema
  there always is one. What the queue can and cannot place, and when the plan as a whole
  puts children first, is in `TopologicalOrder`, `PlanDeletion` and `SelfKeyHoldsUp`.
- An absent worker in no link is credited with his own output (`AbsentYetCredited`,
  `AbsentCreditIff`); only his bonus is held back.
- Stock rows that repeat an article would all be planned by the preview, while the
  reconciliation reads the last one only (`FreshPlanAgreesIff`). The one loader takes its
  rows from a UNION of article codes
  (`server/routes/factory/stock-allocation-v5/container-planner-source.ts:61-67`), so no
  article repeats, and a fresh plan agrees (`DistinctArticlesAgree`).
- Rebalancing guards against locked plans, missing room and a plan that cannot fit, but
  none of these can occur once every container is within capacity
  (`RebalanceFailsOnlyOverCapacity`).
- Allocation lines are checked one by one, so the accepted list can exceed the plan when a
  request lists an article twice; `AcceptedFitsIff` says exactly when it does. Nothing comes
  of it: the table's unique index (`server/startup/factoryContainerPlannerSchema.ts:138-139`)
  refuses the second row and the save is rolled back (`CommitsIff`,
  `RepeatedArticleIsRefused`), even where the two lines fit together. Whatever commits
  stays within plan and demand.
- A comment in `server/db.ts` describes an unscoped signature `off||` and three
  settings; the code has `unscoped` and twelve settings.

## Model

| member | source | states |
|---|---|---|
| Rounding.Round | server/inventoryHelper.ts:142-169 | the nearest whole number, halves away from zero |
| InventoryCosting.AnchorReproduces | server/inventoryHelper.ts:278-282 | the weighted average of a row holding stock is not negative and gives its value back to the cent, whether it is the stored rate or the exact quotient |
| InventoryCosting.ShareWithin | server/inventoryHelper.ts:367-373 | a pro rata share lies between zero and the value shared |
| InventoryLedger.NewLayer | server/inventoryHelper.ts:175-192 | a shortage layer holds its company and quantity and its rate to within half a 1e-4 count, a negative rate as zero |
| InventoryLedger.StockRecord.SettleNegativeLayers | server/inventoryHelper.ts:218-261 | the loop that deletes or reduces layers in the table leaves exactly the first-in first-out remainder of the queue |
| InventoryLedger.StockRecord.ClearResolvedNegativeLayers | server/services/inventory/clearResolvedNegativeLayers.ts:16-40 | once the quantity is zero or positive the company's layers, and no others, are gone |
| InventoryLedger.StockRecord.AdjustInventory | server/inventoryHelper.ts:419-534 | row, layers and result of a receipt, an issue or a zero movement, with or without a stored row, as the functions `Adjusted` and `AdjustResult` give them; what those are worth, leave and book is stated by the `InventoryPolicy` rows |
| InventoryLedger.StockRecord.ReceiveInventoryAtValue | server/inventoryHelper.ts:537-563 | a receipt at an exact value (negative worth at zero); a non-positive quantity ignores the value |
| InventoryLedger.StockRecord.ReverseInventoryByExactValue | server/inventoryHelper.ts:591-670 | subtracts quantity and value exactly, keeps the cost memory, books only the new shortage; nothing without a row |
| InventoryPolicy.ReceiptPolicy | server/inventoryHelper.ts:332-384 | a receipt adds its quantity; from stock it adds its worth, on an empty row it is its worth, into a shortage the settled part takes back its share of the provisional value and only the rest of the worth is stocked; the rate left is the new average, or the receipt's own where none is in stock |
| InventoryPolicy.ReceiptIsWorth | server/inventoryHelper.ts:444-459 | a receipt is worth its exact value where one is given, else its quantity times the incoming rate, else its quantity times the average of a row in stock or its stored rate, to the nearest cent; a negative worth is zero |
| InventoryPolicy.IssuePolicy | server/inventoryHelper.ts:284-329 | an issue leaves the remaining units at the average, nothing on an emptied row, and a new shortage at the cost memory: the average when there was stock of some value, else the stored rate; it books one layer at the end of the queue for what it adds to the shortage, at that rate |
| InventoryPolicy.ZeroPolicy | server/inventoryHelper.ts:465-475 | a movement of nothing keeps quantity, value and rate; on a missing row it leaves an empty one that remembers the incoming rate |
| InventoryPolicy.ResultPolicy | server/inventoryHelper.ts:386-401 | the result reports the row before and after, the change in value, and as variance what was received less that change |
| InventoryPolicy.ReversalPolicy | server/inventoryHelper.ts:591-632 | a reversal takes off quantity and value, the value to the nearest cent, and leaves the remaining average where quantity and value have one sign, else the stored rate |
| InventoryPolicy.ReversalLayerPolicy | server/inventoryHelper.ts:630-652 | a reversal books a layer at the end of the queue for what it adds to the shortage, to the caller's company or else the row's, at the rate it leaves or else what it takes back per unit; without a company none |
| InventoryRuns.SubLedgerEqualsLedger | server/inventoryHelper.ts:386-401 | bookkeeping: over every mix of movements and reversals the deltas posted to Inventory sum to the change in stored value |
| InventoryRuns.StockPlusCostIsReceipts | server/inventoryHelper.ts:386-401 | bookkeeping: over every run of movements, stock value plus cost of goods sold equals what was received |
| InventoryRuns.ReversalUndoesMovement | server/inventoryHelper.ts:574-590 | a reversal straight after a movement, by its quantity and value delta, restores quantity and value |
| InventoryRuns.IssueKeepsSign | server/inventoryHelper.ts:294-329 | an issue never raises the value and leaves it with the sign of the quantity, zero when empty |
| InventoryRuns.ReceiptKeepsSign | server/inventoryHelper.ts:332-384 | a receipt never lowers the value and leaves it with the sign of the quantity, zero when empty |
| InventoryRuns.MovementKeepsSign | server/inventoryHelper.ts:419-534 | the same for a whole movement on the stored row, and the cost memory stays non-negative |
| InventoryRuns.RunKeepsSign | server/inventoryHelper.ts:93-131 | value has the sign of quantity after every run of movements |
| InventoryRuns.StoredAverageReproduces | server/inventoryHelper.ts:135-136 | up to 100,000 units the average held as a 7dp rate still gives the value back to the cent |
| InventoryRuns.AnchorIsStoredRate | server/inventoryHelper.ts:278-282 | a row that does not drift is issued at its stored rate |
| InventoryRuns.MovementKeepsNoDrift | server/inventoryHelper.ts:98-106 | a receipt within the limit establishes, and an issue keeps, value == quantity times stored rate to the cent |
| InventoryRuns.RunKeepsNoDrift | server/inventoryHelper.ts:98-106 | the same over every run of movements whose receipts stay within the limit |
| InventoryRuns.NoDriftFromMissingRow | server/inventoryHelper.ts:98-106 | no row reachable from a missing one drifts |
| InventoryRuns.ReversalLeavesNoDrift | server/inventoryHelper.ts:620-632 | a reversal that leaves stock of positive value within the limit leaves a row that does not drift |
| InventoryDriftLimit.DriftLimitIsExact | server/inventoryHelper.ts:303-308 | every value survives being held as a 7dp rate if and only if the quantity is at most 100,000 units |
| InventoryDriftLimit.DriftingValue | server/inventoryHelper.ts:303-308 | above the limit there is a value whose stored 7dp rate is worth more than the value |
| InventoryPaths.ProvisionalCostingConverges | server/inventoryHelper.ts:107-120 | issuing short then receiving, against receiving then issuing: same quantity, value and total cost within one cent, whatever the cost memory |
| InventoryPaths.IssueThenReceiveBack | server/inventoryHelper.ts:278-384 | issuing and receiving back the value relieved restores the quantity, the value exactly when stock covered it and within a cent when it went short |
| InventoryPaths.IssuesEndAtTotal | server/inventoryHelper.ts:98-106 | any sequence of issues the stock covers ends in the row of their total, rate untouched, value zero when emptied |
| InventoryPaths.IssuesAreSplitIndependent | server/inventoryHelper.ts:98-106 | two ways of splitting the same total end in the same row |
| InventoryPaths.ShortIssuesAtMemory | server/inventoryHelper.ts:284-328 | an empty or short row relieves every further issue at its stored rate and keeps that rate |
| InventoryPaths.VarianceIsRateDifference | server/inventoryHelper.ts:115-120 | the settlement variance is the settled quantity times receipt rate minus provisional rate, within a cent |
| InventoryShortage.SettleTotal | server/inventoryHelper.ts:218-261 | a settlement takes exactly what it settles, or all there is, and leaves no empty layer |
| InventoryShortage.SettleLeavesSuffix | server/inventoryHelper.ts:235-260 | what is left is a suffix of the old queue with at most its head reduced |
| InventoryShortage.MovementKeepsMatch | server/inventoryHelper.ts:419-534 | a movement keeps the layer total equal to the shortage |
| InventoryShortage.MovementKeepsCover | server/inventoryHelper.ts:419-534 | a movement keeps the layer total at or above the shortage |
| InventoryShortage.ReversalKeepsMatchIff | server/inventoryHelper.ts:630-652 | a reversal keeps the layers equal to the shortage if and only if it does not put stock back into a shortage and a new shortage has a company |
| InventoryShortage.ReversalKeepsCover | server/inventoryHelper.ts:630-652 | any reversal with a known company keeps the layer total at or above the shortage |
| InventoryShortage.RunKeepsMatch | server/inventoryHelper.ts:194-261 | layers equal the shortage over every run of movements and reversals of non-negative quantity |
| InventoryShortage.RunKeepsCover | server/inventoryHelper.ts:194-261 | with reversals of any sign the layers never fall below the shortage |
| InventoryShortage.MovementRestoresMatchIff | server/inventoryHelper.ts:419-534 | from layers that cover the shortage, stale ones included, a movement ends with layers equal to it if and only if they were equal and the row stays short, or every layer the settlement leaves belongs to the moving company |
| InventoryShortage.OtherCompanysLayerSurvives | server/services/inventory/clearResolvedNegativeLayers.ts:23-30 | the input: a layer booked to another company outlives the clearance of non-negative stock, and goes when that company moves the stock |
| InventoryConcurrency.StepIsSound | server/inventoryHelper.ts:430-436 | each step of each transaction keeps what is committed equal to a serial result, one lock owner, at most one retry |
| InventoryConcurrency.RunIsSound | server/inventoryHelper.ts:490-534 | the same for every interleaving, from any stored state, with rollbacks |
| InventoryConcurrency.NoDeadlock | server/inventoryHelper.ts:430-436 | some unfinished call can always take a step |
| InventoryConcurrency.RunsAreShort | server/inventoryHelper.ts:490-515 | n calls take at most 7n steps, so every run ends |
| InventoryConcurrency.ConcurrentFirstMovements | server/inventoryHelper.ts:490-515 | concurrent calls on a missing row end as if run one after another, each movement and layer applied exactly once, each call after at most one retry |
| ContainerPlanner.NormalizeContainerCapacity | shared/containerPlanner.ts:98-101 | the legal capacity nearest to the request, the default when it is not finite |
| ContainerPlanner.LightestAreLightest | shared/containerPlanner.ts:128-136 | the containers chosen for the remainder are distinct, and each comes before every one left out: it is lighter, or as light with a lower index |
| ContainerPlanner.PlaceProduct | shared/containerPlanner.ts:117-136 | the in-place update of the totals array and the allocations of one product |
| ContainerPlanner.ProductIsSpread | shared/containerPlanner.ts:117-136 | a product is placed in full, its containers differ by at most one, one that gets more than another comes before it by weight and index, balanced containers stay balanced |
| ContainerPlanner.DistributeProducts | shared/containerPlanner.ts:103-147 | the loop over all products; nothing for a non-positive container count |
| ContainerPlanner.DistributionIsBalanced | shared/containerPlanner.ts:103-147 | after any products: each allocated in full and evenly, container totals within one of each other and equal to what the plans put in them |
| ContainerPlanner.BalancedWithin | shared/containerPlanner.ts:192-220 | balanced totals that fit together fit one by one |
| ContainerPreview.PlannableTotal | shared/containerPlanner.ts:174-192 | plannable and excluded bales together are all free bales |
| ContainerPreview.BuildPreview | shared/containerPlanner.ts:157-240 | the fewest containers that hold the plannable bales, none over capacity, all balanced; one product for each row with plannable bales, under its name or else its code and for all it has free, in name order; the totals of stock, commitments, loading and shortage |
| ContainerPreview.FiguresNext | shared/containerPlanner.ts:165-172 | each display total grows by its own field of a row, negative figures counting nothing |
| ContainerPreview.PlannableRowsAre | shared/containerPlanner.ts:174-190 | the products are those of the rows with free bales that are not excluded, one a row, each under the row's name or else its code |
| ContainerPreview.StockIsAccountedFor | shared/containerPlanner.ts:165-192 | for loaded rows, stock less commitments and loading is what is planned or excluded, less the shortage |
| ContainerRebalance.TallyMeaning | shared/containerPlanner.ts:255-275 | the maps built over the lines hold each article's total, locked total and last name |
| ContainerRebalance.PlanSums | shared/containerPlanner.ts:258-275 | the tallied totals are the sums over the containers |
| ContainerRebalance.RebalanceUnlocked | shared/containerPlanner.ts:246-316 | the imperative rebalance with all its error exits |
| RebalanceProperties.CannotFitIsUnreachable | shared/containerPlanner.ts:301-304 | the final "cannot fit" error never happens |
| RebalanceProperties.RemainingQty | shared/containerPlanner.ts:277-284 | what is redistributed of an article is what its unlocked containers hold |
| RebalanceOutcome.RemainingTotal | shared/containerPlanner.ts:277-286 | what is redistributed in all is what the unlocked containers hold in all |
| RebalanceOutcome.RebalanceFailsOnlyOverCapacity | shared/containerPlanner.ts:258-304 | a rebalance succeeds if and only if no container is over capacity to begin with, and otherwise names the first that is; the other three errors never happen |
| RebalanceProperties.RebalanceConserves | shared/containerPlanner.ts:242-316 | every article keeps its plan-wide total and its locked total |
| RebalanceProperties.RebalanceWithinCapacity | shared/containerPlanner.ts:246-316 | no container of the new plan exceeds the capacity |
| RebalanceProperties.RebalanceIsIdempotent | shared/containerPlanner.ts:246-316 | rebalancing the rebalanced plan changes nothing when each article has one name |
| RebalanceLayout.ResultInOrder | shared/containerPlanner.ts:251-253 | the result has the unlocked containers, each once, by position and then by id |
| RebalanceLayout.NameIsLast | shared/containerPlanner.ts:264-269 | an article goes by the name its last line in the plan gives it, or else by its code |
| RebalanceLayout.ResultIsEven | shared/containerPlanner.ts:277-316 | each unlocked container gets one line an article, none empty, in name order; loads differ by at most one bale, the fuller ones in front |
| RebalanceLayout.ArticleIsSpread | shared/containerPlanner.ts:301-316 | every article is spread over the unlocked containers to within one bale |
| ContainerReconciliation.BuildReconciliation | shared/containerPlanner.ts:324-425 | each coded article that is planned or plannable is compared once: plan and locked part as summed over the containers, the last row's plannable bales, their difference split into missing and excess, and what locked containers hold beyond it; conflict status if and only if locked containers hold more than there is of some article, in sync if and only if every article's plan equals its plannable stock |
| ContainerReconciliation.ReconciliationBalances | shared/containerPlanner.ts:376-408 | planned plus missing minus excess is the plannable stock, for distinct coded articles |
| ContainerReconciliation.SourceAgainstRows | shared/containerPlanner.ts:333-336 | the row the map keeps stands for all rows of its article if and only if the earlier ones have nothing plannable |
| ContainerReconciliation.FreshHolds | shared/containerPlanner.ts:188-220 | a plan saved from a preview holds of each article exactly its plannable bales |
| ContainerReconciliation.FreshPlanAgreesIff | shared/containerPlanner.ts:318-425 | a plan saved from a fresh preview is in sync with the same rows if and only if no row hides plannable bales of an earlier one |
| ContainerReconciliation.DistinctArticlesAgree | server/routes/factory/stock-allocation-v5/container-planner-source.ts:61-67 | rows that list each article once, as the loader's do: a fresh plan is in sync |
| ContainerReconciliation.RebalanceKeepsComparison | shared/containerPlanner.ts:242-316 | rebalancing changes no article's comparison |
| ContainerPacking.PackLinesIntoContainers | shared/containerOptimizer.ts:101-128 | every pack but the last is exactly full, none is empty or lists an article twice, and of each article the packs hold exactly the lines' bales; where no article is listed twice, unloading the packs in turn gives the lines back bale by bale |
| ContainerDemand.SortedDemandByCustomer | shared/containerOptimizer.ts:130-164 | the grouping loop followed by the ranking |
| ContainerDemand.GroupedIsFaithful | shared/containerOptimizer.ts:136-159 | one entry for each customer with demand, holding his demand for each article, his total and his highest priority |
| ContainerDemand.RankedIsFaithful | shared/containerOptimizer.ts:130-164 | the same after the ranking |
| ContainerDemand.RankedInOrder | shared/containerOptimizer.ts:161-163 | higher priority first, then larger total, then name |
| DemandNames.RankedNamed | shared/containerOptimizer.ts:136-159 | a customer goes by the name of the first row in which it asks for anything; its articles stand in the order they are first asked for, each under the name of that row or else its code |
| ContainerOptimizer.CollectStock | shared/containerOptimizer.ts:177-186 | the stock map holds each article's sum over the rows, under the last name its rows give it or else its code |
| ContainerOptimizer.ServeCustomer | shared/containerOptimizer.ts:196-217 | a customer gets of each article the lesser of demand and stock, line by line in the order of its lines; the stock falls by it, and the rest is reported missing |
| ContainerOptimizer.LayCustomer | shared/containerOptimizer.ts:222-242 | a run of as many containers as his bales fill, holding the first of them in order, the rest to the tails; no bale is lost and nothing of another customer's is reserved |
| ContainerOptimizer.ServeAll | shared/containerOptimizer.ts:196-243 | after all customers: the shelf, the containers in sections customer by customer, what is reserved against what each is served, the tails, the shortfalls, and the count of bales promised |
| ContainerOptimizer.LayFreeRow | shared/containerOptimizer.ts:253-273 | free stock of an article fills quantity divided by capacity containers, each one full line of it; the remainder goes to the tails |
| ContainerOptimizer.LayFreeRows | shared/containerOptimizer.ts:252-273 | the same for all free rows, conserving every article |
| ContainerOptimizer.MergeTails | shared/containerOptimizer.ts:277-288 | tails of one article become one line, conserving every article |
| ContainerOptimizer.LayMixed | shared/containerOptimizer.ts:290-303 | the mixed packs follow the full containers; only the very last container may be open; reservations do not change |
| LayoutPhases.SinglesCount | shared/containerOptimizer.ts:252-273 | the free rows give containers of one full line each, of every article as many as its free bales fill |
| LayoutPhases.SinglesInOrder | shared/containerOptimizer.ts:247-273 | those containers come by quantity, the largest first, then by name |
| LayoutPhases.LayRest | shared/containerOptimizer.ts:245-303 | the last two phases: the full containers of the free rows, then the fewest mixed containers, which unload to the rest in the order of its sizes |
| OptimizationPlan.CountIsCeiling | shared/containerOptimizer.ts:305-327 | with only the last container open: full containers are the quotient of total and capacity, what is left over is the remainder, and one more container holds it |
| OptimizationPlan.BuildOptimizationPlan | shared/containerOptimizer.ts:170-331 | the plan against its input rows, phase by phase. First the customers in rank order: each gets as many containers as his promised bales fill, and they unload to the first of those bales. Then for each article as many containers, one full line each, as its stock beyond all demand fills, the largest surplus first. Then mixed containers, the fewest that hold the rest, which unload to what is left of the stock, one line an article, the largest first. Containers hold exactly the stock of every article, all full but perhaps the last. Of each article, demand less reported shortfalls is the lesser of stock and demand; while a customer is short of an article nobody ranked lower is promised any. Full, unused, left-over and by-kind counts add up |
| ContainerOptimizer.FillsIsQuotient | shared/containerOptimizer.ts:224-227 | the containers a number of bales fills are its quotient by the capacity, rounded down |
| OptimizationPlan.PromisedIsServed | shared/containerOptimizer.ts:193-217 | a customer's demand less the reported shortfall is what the ranking serves him |
| ServingOrder.ServedIsMinimum | shared/containerOptimizer.ts:193-217 | what the ranking serves of an article in all is the lesser of stock and demand |
| ServingOrder.NothingBelowShort | shared/containerOptimizer.ts:193-217 | once a customer is short of an article no lower-ranked one gets any |
| ServingOrder.UnservedAreShortfalls | shared/containerOptimizer.ts:208-216 | the report lists exactly the customers' shortfalls |
| ServingOrder.UnservedShort | shared/containerOptimizer.ts:208-216 | the shortfalls reported of an article, in all and for one customer, add up to what is asked for and not served |
| BaleAssignment.PlanBaleAssignment | shared/containerBaleAssignment.ts:163-254 | the scan loop with its eight reasons for rejection |
| BaleAssignment.InTurn | shared/containerBaleAssignment.ts:173-251 | each request in turn: accepted when it breaks none of the eight rules given what was accepted before it, else rejected under its token for the first rule it breaks in the order they are checked |
| BaleAssignment.AcceptedIsLegal | shared/containerBaleAssignment.ts:163-254 | what is accepted is free, distinct, within every quota and the capacity, and every request is answered |
| BaleAssignment.RejectionsAreTrue | shared/containerBaleAssignment.ts:163-254 | every rejection gives a reason that is true of the plan as it ends |
| BaleAssignment.AcceptedIsLargest | shared/containerBaleAssignment.ts:163-254 | no legal batch of requested bales is larger than the accepted one |
| BaleAssignment.LegalIsAccepted | shared/containerBaleAssignment.ts:163-254 | a legal batch is accepted in full |
| BaleAssignment.SelectAutoAssignmentBales | shared/containerBaleAssignment.ts:260-289 | the picking loop over the candidates in id order |
| BaleAssignment.PickedIsLargest | shared/containerBaleAssignment.ts:260-289 | the pick is legal, as large as any legal batch, and accepted in full by the scan |
| BaleAssignment.LowestIdsFirst | shared/containerBaleAssignment.ts:256-289 | of each article the lowest ids are picked |
| BaleAssignment.PassedOverForQuota | shared/containerBaleAssignment.ts:260-289 | a free candidate passed over for one with a higher id had its quota used up by picks of lower ids |
| QuotaCleanup.SelectOverAssignedBaleIds | shared/containerBaleAssignment.ts:379-405 | exactly the ids above quota in their container and article, in ascending order, each once for distinct assignment ids |
| QuotaCleanup.CleanUpIsExact | shared/containerBaleAssignment.ts:379-405 | afterwards every container and article holds the lesser of plan and previous count, the lowest ids kept |
| QuotaCleanup.SecondCleanUpIsEmpty | shared/containerBaleAssignment.ts:379-405 | a second clean-up releases nothing |
| PackingList.BuildCustomerPackingList | shared/containerCustomerAllocation.ts:394-462 | the customer's lines in each container, containers without any left out |
| PackingList.PackContainer | shared/containerCustomerAllocation.ts:415-441 | the cursor loop gives the customer his slices of each article's bales |
| PackingList.ServedInOrder | shared/containerCustomerAllocation.ts:415-425 | allocations are served by customer number, then by article |
| PackingList.LineHolds | shared/containerCustomerAllocation.ts:426-441 | a line names its article and quantity and lists the bales of the pool from where the allocations before it stopped, as many as are left |
| PackingList.LinesAreMine | shared/containerCustomerAllocation.ts:415-441 | the lines of a container are those of the customer's allocations of something, in that order before they are sorted for display |
| PackingList.ContainersAreMine | shared/containerCustomerAllocation.ts:394-462 | the list has exactly the containers with such a line, in the order given before they are sorted for display |
| PackingList.ListsNeverShareABale | shared/containerCustomerAllocation.ts:386-462 | a bale on one customer's list is on no other customer's |
| PackingList.ListsCoverThePool | shared/containerCustomerAllocation.ts:394-462 | over the whole list, a container's bale of an article is handed to some customer if and only if it is among the first, in code order, as many as are allocated |
| OverAllocation.TrimArticle | shared/containerCustomerAllocation.ts:486-493 | the budget loop over one article's allocations |
| OverAllocation.SelectOverAllocatedIds | shared/containerCustomerAllocation.ts:469-497 | exactly the allocations that lose something and what each keeps, in id order, each once for distinct allocation ids |
| OverAllocation.TrimIsExact | shared/containerCustomerAllocation.ts:464-497 | afterwards each article holds the lesser of plan and previous total, and an allocation keeps something only if all earlier ones are untouched |
| OverAllocation.SecondTrimIsEmpty | shared/containerCustomerAllocation.ts:469-497 | a second trim changes nothing |
| AllocationRequest.ValidateContainerAllocation | shared/containerCustomerAllocation.ts:126-197 | the accepted list is the lines with a code, a whole quantity that is not negative, a planned article, and a quantity that together with the other customers' part stays within the plan and together with the customer's part elsewhere within the order; the others are rejected for the first of these they miss; both in the order of the request |
| AllocationRequest.CollectAllocated | server/routes/factory/stock-allocation-v5/container-plan-allocations.ts:283-304 | the three maps hold the sums on this container, of this customer here, and of this customer elsewhere |
| AllocationRequest.DecidedOnRecord | shared/containerCustomerAllocation.ts:126-197 | the same over the allocations on record: the other customers' part is their sum in the container, the part elsewhere the customer's sum in other containers, and what the customer had here, which the request replaces, does not count |
| AllocationRequest.SaveAllocation | server/routes/factory/stock-allocation-v5/container-plan-allocations.ts:276-363 | what the allocations on record admit is saved and the rest reported with its reason; the customer's allocation on the container is replaced by what was accepted; nothing changes when nothing was accepted or a row is refused; plan, signs and unique keys are kept |
| AllocationRequest.CommitsIff | server/startup/factoryContainerPlannerSchema.ts:138-139 | a save commits if and only if a line is accepted and no article has two positive accepted lines; it then holds the other rows and the accepted ones |
| AllocationRequest.SaveStaysWithinPlan | shared/containerCustomerAllocation.ts:121-197 | no save of any request allocates more than is planned in the container |
| AllocationRequest.SaveStaysWithinDemand | shared/containerCustomerAllocation.ts:179-191 | nor does one that commits take more, over all containers, than the order needs |
| AllocationRequest.AcceptedFitsIff | shared/containerCustomerAllocation.ts:126-197 | the accepted list fits as a whole if and only if, of each article, the lines that pass alone come to no more than the room left |
| AllocationRequest.RepeatedArticleIsRefused | server/routes/factory/stock-allocation-v5/container-plan-allocations.ts:334-363 | the input: two lines of one article, each within bounds, are both accepted, exceed the plan together, and are not stored |
| BonusCredit.FindConflicts | shared/factoryProductionTargetBonusCore.ts:129-137 | the conflicting ids are exactly those named by more than one link |
| BonusCredit.JudgeLink | shared/factoryProductionTargetBonusCore.ts:140-164 | a team's output, its credits and its issues, as `TeamOutput`, `Payouts` and `LinkIssues` give them; what those are on the evidence is stated by the `BonusEvidence` rows |
| BonusCredit.GroupBales | shared/factoryProductionTargetBonusCore.ts:115-191 | every worker's share, the day's output and exactly the warnings that apply, as the functions give them; see `BonusEvidence.TotalIsRecorded` and `MemberCredit` |
| BonusEvidence.TeamOutputIs | shared/factoryProductionTargetBonusCore.ts:140-154 | a team's output is what any one member's record says if every member has a record, none is named by two links and the records repeat one valid count; otherwise it is zero |
| BonusEvidence.TotalIsRecorded | shared/factoryProductionTargetBonusCore.ts:115-191 | the day's output is one member's record for every such team plus the own valid count of every worker in no link |
| BonusEvidence.MemberCredit | shared/factoryProductionTargetBonusCore.ts:155-166 | the k-th member at work, by number, is credited an even share of what the record says and one bale more while the remainder lasts; nothing if the evidence cannot be trusted |
| BonusEvidence.LinkIssuesAre | shared/factoryProductionTargetBonusCore.ts:150-167 | each issue of a link by the evidence that raises it: a member without a record, a member in two links, counts that are not valid or differ, output with nobody at work, an uneven split |
| BonusEvidence.OwnIssuesAre | shared/factoryProductionTargetBonusCore.ts:180-190 | a worker in no link has his own count, or nothing and an invalid-production issue if it is not valid |
| BonusEvidence.CleanIffGood | shared/factoryProductionTargetBonusCore.ts:115-191 | nothing but an uneven split is warned of if and only if every team can be trusted and had somebody at work if it produced, and every other worker has a valid count |
| BonusEvidence.ShareNamesLink | shared/factoryProductionTargetBonusCore.ts:170-178 | a worker in one link is shown with its number, the other members in ascending order, and its issues |
| BonusProperties.LinkedCredit | shared/factoryProductionTargetBonusCore.ts:139-178 | a linked worker's credit is what any one of his links gives him and what all of them give together |
| BonusProperties.CreditsAndLosses | shared/factoryProductionTargetBonusCore.ts:115-191 | for distinct worker ids, credits plus the output of wholly absent teams are the day's output |
| BonusProperties.CreditsConservedIff | shared/factoryProductionTargetBonusCore.ts:155-158 | credits equal the output if and only if every team that produced had somebody present |
| BonusProperties.ReadyDayConserves | shared/factoryProductionTargetBonusCore.ts:245-254 | on a day ready for payout no output is lost |
| BonusProperties.RecipientCredit | shared/factoryProductionTargetBonusCore.ts:160-165 | the k-th present member gets the even share, and one more while the remainder lasts |
| BonusProperties.TeamMatesEven | shared/factoryProductionTargetBonusCore.ts:157-165 | present team mates differ by at most one bale, the lower id never having less |
| BonusProperties.AbsentCreditIff | shared/factoryProductionTargetBonusCore.ts:155-190 | an absent worker is credited nothing if and only if he is linked or has no valid output of his own |
| BonusProperties.AbsentYetCredited | shared/factoryProductionTargetBonusCore.ts:180-190 | an absent worker in no link is credited with his own output |
| BonusProperties.ShareIgnoresOrder | shared/factoryProductionTargetBonusCore.ts:115-191 | rearranging workers and links changes no credit; a worker in one link at most keeps his whole share, one in several is held up either way |
| BonusProperties.TotalsIgnoreOrder | shared/factoryProductionTargetBonusCore.ts:115-191 | nor the day's output or the sum of credits |
| BonusProperties.WarningsIgnoreOrder | shared/factoryProductionTargetBonusCore.ts:115-191 | nor the warnings |
| BonusRate.ResolvedOutranksAll | shared/factoryProductionTargetBonusCore.ts:93-113 | the rate found is in force on the day for the company or the worker himself, and comes before every other such version: own before company, then the later date, then the higher id; none only if there is none in force |
| BonusRate.RateIgnoresOrder | shared/factoryProductionTargetBonusCore.ts:93-113 | the rate does not depend on the order of versions with distinct ids |
| BonusDay.CalculateDay | shared/factoryProductionTargetBonusCore.ts:198-266 | the rows, totals and warnings of a day; the output as recorded; ready for payout if and only if it is final, has workers and its evidence is good, and then the credits sum to the output |
| BonusDay.RowIs | shared/factoryProductionTargetBonusCore.ts:203-243 | a row shows the worker's share, the rate that applies, and as extra what is credited beyond a target there is |
| BonusDay.RowIssuesAre | shared/factoryProductionTargetBonusCore.ts:206-212 | the issues a row adds to those of the share, each with its reason; only an uneven split asks for a review |
| BonusDay.RowsInOrder | shared/factoryProductionTargetBonusCore.ts:263 | one row a worker, by name and then by number |
| BonusDay.BonusIsEarned | shared/factoryProductionTargetBonusCore.ts:206-242 | a row is eligible if and only if the day is final, the worker present, the target real and exceeded, the rate enabled and positive, and nothing else wrong; the bonus is the rounded product, and zero otherwise |
| BonusDay.PreviewIgnoresOrder | shared/factoryProductionTargetBonusCore.ts:203-243 | no figure of a row depends on the order of workers, links or rates |
| BonusDay.DaySumIgnoresOrder | shared/factoryProductionTargetBonusCore.ts:256-265 | no sum over a day does |
| BonusDay.ReadinessIgnoresOrder | shared/factoryProductionTargetBonusCore.ts:245-254 | nor does readiness for payout |
| BonusSummary.SummarizeDays | shared/factoryProductionTargetBonusCore.ts:268-301 | one line a worker under the name of his first row, each figure the sum over his rows of all days |
| BonusSummary.LinesAddUpToDays | shared/factoryProductionTargetBonusCore.ts:268-301 | the workers' bonuses sum to the days' bonuses |
| BonusSummary.LineIgnoresOrder | shared/factoryProductionTargetBonusCore.ts:268-301 | a worker's line does not depend on the order of workers, links or rates in any day |
| TableSearch.ExpandTable | scripts/wipe-company12-data.ts:78-101 | a table's turn follows every key into it, adds the children not yet found in order, queues what is new or has grown, and changes nothing when the table was taken before |
| TableSearch.SearchTables | scripts/wipe-company12-data.ts:67-103 | the search ends and finds exactly the tables reachable from the roots, in breadth-first order; roots are wiped by company only, others along every key into a table found and no other, each condition holding those of its parent's that came from tables found before it |
| SearchDistance.NearerFirst | scripts/wipe-company12-data.ts:73-103 | breadth first: a table found no later than another is no more foreign keys away from the roots |
| ConditionWidening.ConditionsWidenedIff | scripts/wipe-company12-data.ts:90-99 | every condition holds all its parent's if and only if each table with children, other than a root, is discovered after all of its own parents |
| ConditionWidening.LateParentIsMissed | scripts/wipe-company12-data.ts:83-85 | where a table has a parent found no earlier than itself, its rows are wiped along that key and none of its children's conditions reaches them |
| ConditionWidening.LateConditionIsMissed | scripts/wipe-company12-data.ts:83-99 | the input: a and b point at r, a also at b, c at a; the condition of c is out of date |
| DeletionOrder.BuildGraph | scripts/wipe-company12-data.ts:115-122 | in-degrees and adjacency count every key, several between the same pair included |
| DeletionOrder.TopologicalOrder | scripts/wipe-company12-data.ts:114-137 | first exactly the tables from which no cycle can be reached downwards, each after all its children; then the others in order of discovery |
| DeletionOrder.PlacedIff | scripts/wipe-company12-data.ts:123-134 | with the queue worked off, a table is placed if and only if it is over no cycle |
| DeletionOrder.SafeIff | scripts/wipe-company12-data.ts:105-137 | children stand before the other tables they point at if and only if they do among the tables held up |
| DeletionOrder.SelfKeyHoldsUp | scripts/wipe-company12-data.ts:115-137 | a table that points at itself is deleted after any table it points at that is discovered before it |
| DeletionOrder.StuckIsOverCycle | scripts/wipe-company12-data.ts:135-137 | where every remaining table waits for a child, each is over a cycle |
| DeletionOrder.PlanDeletion | scripts/wipe-company12-data.ts:67-137 | search and order together: each reachable table once, those over no cycle of foreign keys after all their children, then the others in order of discovery; children first throughout if and only if those others are discovered children first |
| DeletionOrder.AcyclicIsSafe | scripts/wipe-company12-data.ts:105-137 | without a cycle nothing is held up |
| DeletionOrder.SafeHasOnlySelfKeys | scripts/wipe-company12-data.ts:105-137 | where any safe order exists, every cycle of foreign keys stays at one table |
| ConnectionSignature.QuotedReadsBack | server/services/audit/auditActorContext.ts:130-143 | a JSON string literal determines its text and where it ends |
| ConnectionSignature.SignatureReadsBack | server/db.ts:92-153 | equal signatures agree on the scope's and the actor's settings and on the writer's part |
| ConnectionSignature.EqualSignaturesEqualSettings | server/db.ts:92-153 | equal signatures mean equal settings: within the one environment a cache lives in, and from an unambiguous environment to any other |
| ConnectionSignature.NeverClashesIff | server/db.ts:147-153 | an environment shares a signature with none of other settings if and only if it is not a LAN site, or no bar stands in its site id or its epoch |
| ConnectionSignature.ValuesAreAsked | server/db.ts:92-153 | the settings one by one: row security off for maintenance alone; the company id empty unless the scope is a tenant, and a numeral of its id; the authorized ids empty unless the mode asks for them, and then read back as the list; the six actor values each in place, all empty without an actor; the writer's three by mode |
| ConnectionSignature.JoinReads | server/db.ts:111-112 | a list of ids joined by commas reads back as that list |
| ConnectionScope.ScopedPool.EnsureDatabaseClientScope | server/db.ts:136-181 | leaves the connection with exactly the settings of the context, each as `AsAsked` says, as an unconditional write would, or untouched when the write fails |
| ConnectionScope.ScopedPool.ScopedPoolConnect | server/db.ts:183-192 | a lease hands over a connection in scope, or returns it to the pool |
| ConnectionScope.ScopedPool.ScopedPoolQuery | server/db.ts:194-212 | a query runs under the context's settings or not at all, and the connection goes back |
| ConnectionScope.StepKeepsInv | server/db.ts:80-181 | every step of every task keeps connections exclusive, the cache honest, and holders in their own scope |
| ConnectionScope.RunKeepsInv | server/db.ts:80-212 | the same for every interleaving of leases, writes, failures, losses, releases and context changes |
| ConnectionScope.HandedOverInScope | server/db.ts:80-212 | whenever a connection is handed over it carries exactly the settings its caller's current context asks for, each as `AsAsked` says |
| ConnectionScope.CacheRefinesAlwaysWriting | server/db.ts:80-181 | every run with the cache ends in the same state as a run that always writes |
| ConnectionScope.OnlyWritesAdded | server/db.ts:154 | that run differs by nothing but the writes the cache saved |

## Left out

- Quantities finer than a thousandth of a unit, and the 40-digit rounding of rates in flight.
- The branch of `issueOutcome` its own comment calls unreachable, and the log lines of the costing engine.
- Other statements of the transactions that call `adjustInventory`: one call a transaction is modelled.
- InventoryShortage.RunKeepsMatch: reversals of negative quantity are excluded because they leave stale layers; `RunKeepsCover` covers them.
- Fill percentages, averages per container, weights in kilograms, labels and message texts.
- ContainerPreview.BuildPreview: leaves out the average per container, the quotient of two figures it states.
- ContainerReconciliation.BuildReconciliation: leaves out product names and the order the comparisons are displayed in.
- Fractional and non-finite quantities in the planner files: quantities are whole numbers.
- Name fallbacks for customers, and the display order of shortfalls, packing-list lines and containers, and comparisons.
- OptimizationPlan.BuildOptimizationPlan: does not say which of several names of an article a line of a mixed container carries, nor the order of left-over lines of equal quantity and equally ranked names.
- ContainerPacking.PackLinesIntoContainers: requires a positive capacity, which the planner's normalisation always gives; with capacity zero the original loop would not end.
- `buildPlanAssignmentSummary`, `buildPlanAllocationSummary`, bale token parsing: display summaries and input cleaning.
- The trimming of article codes and the route's checks of plan, order and customer before an allocation is saved.
- Employee code and category of a worker, the order of issue codes, and the sort of the summary by name.
- The 20-digit rounding of a bonus before it is rounded to cents.
- The text of the wipe script's row conditions (a condition is the key it came through and the parent's conditions at that time) and the deletions themselves.
- DeletionOrder.PlanDeletion: says nothing of the deletions succeeding; whether a table held up may go before its children depends on its rows.
- The pool's own waiting queue, timeouts and statistics: a lease may be granted any free connection.
- Truncation of actor texts before they enter the context, and the construction of a tenant scope from untrusted values.
- Everything else in the repository: HTTP routes, authentication, accounting screens, spreadsheets, the desktop shell, start-up and the dated repair scripts.
