# Lodging manager core in Dafny

This project models the rule-bearing core of a Flask lodging manager, in the
system's own terms: rooms, stays, supplies and the records of supply use.

- **Rooms** have a tier, either Queen/King or Económica…Suite.
- **Stays** are 'Activa', 'Pendiente de Cierre' or 'Finalizada'.
- **Supplies** have a current and a minimum stock.
- **Supply-usage records** note what a stay or a manual withdrawal took off a shelf.

The model covers these parts:

- **Booking search**: the two availability engines.
  - The yield-management engine does perfect matches, split stays, "goodwill" reallocation of a Queen guest to a King room, and a ranking capped at 8.
  - The four-tier engine does direct availability, flexible dates, upgrades, a midpoint split, early check-in / late check-out and price notes, and a ranking capped at 10.
- **Supply deduction and reconciliation**: the in-place updates of stock and usage records.
  - A room's package is applied when a stay opens.
  - Recorded use is reconciled against actual use when the stay closes.
  - The legacy all-or-nothing deduction and the legacy close-out.
  - The stock routes: add / subtract / set, with their refusals.
- **Classifiers**: the stock and inventory classifiers, usage variance and cost, the cash-closure overdue rule, the stay status transitions and the notification rules.
- **Pure helpers**: phone cleaning, the availability grid, form validators and the friendly-date template filters.

## How the model is shaped

- Dates are day numbers. "Today" and "now" are parameters.
- `int()` on text strips surrounding whitespace, as Python's does (`Common.ParseIntIgnoresSpaces`).
- Money, confidences and thresholds are `real`, so the decimal constants are exact.
- Stock and quantities are `int`.
- The database the routes change in place is one class, `Store.Db`.
  - Its fields are maps for rooms, stays and supplies, and sequences for usage records and package rows.
  - Each route is a method with `modifies db`.
  - Each route states its whole new state.
  - Each route keeps `Db.Valid()`: every stay's room exists, every usage names an existing supply, and package keys are unique.
- Loops are methods proved against a specification function of the prefix they have processed.
- Searches that only build a list are functions, with lemmas for soundness, completeness, bounds and ordering.
- Conservation is stated by `Store.Conserves`: for every supply, stock on hand plus recorded use is the same before and after. Adjustment ('Ajuste') records are left out of the total, because they restate a change already written into the record they adjust.
- "No shelf is driven below zero" is stated by `Store.NoNewNegative`.

## Model

| member | source | states |
|---|---|---|
| Ledger.SameDayTurnover | app/yield_management.py:297-312 | overlap is half-open: a stay that checks out on the first day of the interval, or checks in on its last day, does not overlap it |
| Ledger.TierRank | app/models.py:101-104 | the tier rank is in 0..2: 1 exactly for Queen, 2 exactly for King, 0 for anything else |
| Ledger.TierDisplay | app/models.py:86-92 | the displayed tier is one icon, a space and the tier name; the queen icon exactly for Queen, the crown exactly for King |
| Ledger.UpgradeIsBetter | app/models.py:95-110 | an allowed upgrade (Queen to King only) always lands in a room that is better and not worse; "better" is irreflexive and transitive |
| YieldEngine.OccupiedRoomsMembers | app/yield_management.py:297-312 | a room id is listed as occupied iff some stay in that room blocks the interval |
| YieldEngine.OccupiedExactly | app/yield_management.py:297-312 | a room is occupied for [a, b) iff a stay in it that is not Finalizada checks in before b and has no check-out or checks out after a |
| YieldEngine.ExcludeOnlyThatStay | app/yield_management.py:308-309 | with a stay excluded, a room is occupied iff some other stay blocks it; excluding a stay only ever frees rooms |
| YieldEngine.RoomPriceRules | app/yield_management.py:314-330 | a night costs 2500 in a Queen room, 4000 in a King room and 3000 otherwise, so King is dearest and Queen cheapest; cutting a stay at any day leaves one room's price unchanged |
| YieldEngine.PerfectCandidatesMembers | app/yield_management.py:99-106 | the rooms considered for a perfect match are exactly the free rooms of the preferred tier, or all free rooms when there is no preference |
| YieldEngine.FindPerfectMatches | app/yield_management.py:94-147 | the loop over free rooms returns exactly the perfect-match list the specification function defines |
| YieldEngine.PerfectMatchCandidate | app/yield_management.py:108-145 | the loop body for one room adds a solution exactly when the specification does |
| YieldEngine.PerfectMatchSound | app/yield_management.py:99-143 | each perfect match is a free room of the preferred tier within budget, priced base × nights, with confidence 0.95 and priority EXCELLENT when a tier is preferred or the room is King, GOOD otherwise |
| YieldEngine.PerfectMatchComplete | app/yield_management.py:99-113 | every free room of the preferred tier whose price is within budget is offered as a perfect match |
| YieldEngine.FindSplitStays | app/yield_management.py:149-225 | the nested loops over split days and room pairs return exactly the split list of the specification |
| YieldEngine.CombineHalves | app/yield_management.py:171-223 | the loop over first-half rooms returns the splits the specification lists for that split day |
| YieldEngine.SplitRow | app/yield_management.py:172-223 | the loop over second-half rooms returns the splits the specification lists for one first-half room |
| YieldEngine.SplitCandidate | app/yield_management.py:173-223 | one room pair yields a split exactly when the specification does |
| YieldEngine.SplitForShape | app/yield_management.py:173-221 | a split pairs two distinct rooms over [in, in+d) and [in+d, out), the part nights are d and nights − d, price is the sum of the part prices within budget, confidence is 0.8, and priority is GOOD iff either room is King |
| YieldEngine.SplitStaySound | app/yield_management.py:152-221 | every split comes from a stay of at least 3 nights, with split day in [1, nights−1], two distinct rooms each free for its own part, part nights adding up to the request, and the split price and priority rules |
| YieldEngine.SplitDayBound | app/yield_management.py:171-172 | with at most 3 candidates per half, one split day yields at most 9 splits |
| YieldEngine.FreeKingsMembers | app/yield_management.py:244-251 | the King rooms offered to a mover are exactly the King rooms free over the guest's clipped interval, with the mover's own stay excluded |
| YieldEngine.MoversMembers | app/yield_management.py:232-236 | the stays considered for reallocation are exactly the Activa stays with check-in ≤ the request's check-out and a check-out ≥ its check-in (an open-ended stay is not considered) |
| YieldEngine.FindReallocations | app/yield_management.py:227-295 | the loops over movers and King rooms return exactly the reallocation list of the specification |
| YieldEngine.ReallocateMover | app/yield_management.py:238-293 | one mover yields the proposals the specification lists for it |
| YieldEngine.ProposeMoves | app/yield_management.py:253-293 | the loop over free King rooms yields the proposals the specification lists for one mover |
| YieldEngine.ReallocationSound | app/yield_management.py:232-291 | every proposal comes from an active stay in a Queen room, moves it to a King room free for the guest's clipped interval, frees the Queen room for the request (the mover excluded), is within budget, and has priority GOOD, confidence 0.75 and requires guest approval |
| YieldEngine.ScoreAheadIsStrictWeakOrder | app/yield_management.py:341-350 | ranking by descending score is a strict weak order, so the sort is well defined |
| YieldEngine.PriorityDominates | app/yield_management.py:334-348 | with confidences at most 0.95, a higher priority weight always gives a strictly higher score |
| YieldEngine.FindBookingSolutions | app/yield_management.py:70-92 | the search returns exactly the ranked and capped candidate list of the specification |
| YieldEngine.PerfectKind | app/yield_management.py:124-143 | every element of the perfect-match list is a perfect match with confidence 0.95 |
| YieldEngine.SplitKind | app/yield_management.py:191-221 | every element of the split list is a split stay |
| YieldEngine.ReallocationKind | app/yield_management.py:265-291 | every element of the reallocation list is a reallocation that requires the guest's approval |
| YieldEngine.CandidateConfidence | app/yield_management.py:138-286 | every candidate has confidence between 0.75 and 0.95 |
| YieldEngine.CandidateNotSplit | app/yield_management.py:81-83 | when a perfect match exists, no candidate is a split stay |
| YieldEngine.BookingSolutionsRanked | app/yield_management.py:89-92 | at most 8 solutions are returned, all drawn from the candidates; scores are non-increasing, and so are priority weights |
| YieldEngine.BookingSolutionsKeepTheTop | app/yield_management.py:89-92 | exactly min(8, number of candidates) solutions are kept, and no candidate cut by the cap scores above a kept one |
| YieldEngine.NoSplitWhenPerfect | app/yield_management.py:80-83 | the split search contributes nothing when a perfect match exists |
| YieldEngine.RankStable | app/yield_management.py:350 | the ranking is stable: solutions with equal scores keep their original order |
| AvailabilityEngine.OccupiedRoomsMembers | app/intelligence.py:471-482 | a room id is occupied iff some stay in it, Activa or Pendiente de Cierre, overlaps the interval |
| AvailabilityEngine.OpenRoomsMembers | app/intelligence.py:124-132 | the rooms searched are exactly the unoccupied rooms, restricted to the preferred tier when one is given |
| AvailabilityEngine.LongStayDiscount | app/intelligence.py:507-511 | 7 or more nights take 10% off the rate; the 15% branch for 14 or more nights is never taken; under 7 nights there is no discount |
| AvailabilityEngine.HighSeasonSurcharge | app/intelligence.py:513-515 | a start month in {12, 1, 2, 7, 8} multiplies the rate by 1.2, and any other month leaves it unchanged |
| AvailabilityEngine.RecentStays | app/intelligence.py:523-527 | the count is exactly the number of the room's stays that began at most 90 days before now, and so at most the number of stays |
| AvailabilityEngine.RoomConfidence | app/intelligence.py:519-544 | the confidence always lies in [0.2, 1.0] |
| AvailabilityEngine.CalculateConfidence | app/intelligence.py:519-544 | the step-by-step computation (base 0.5, history, status, package, cap at 1.0) equals the confidence function |
| AvailabilityEngine.CleanRoomsFirst | app/intelligence.py:534-538 | a Limpia room scores at least as high as the same room in any other status, and an Ocupada room at most as high |
| AvailabilityEngine.CheckDirectAvailability | app/intelligence.py:120-162 | the loop over free rooms returns exactly the direct suggestions of the specification |
| AvailabilityEngine.DirectCandidate | app/intelligence.py:134-160 | one room yields a direct suggestion exactly when the specification does |
| AvailabilityEngine.DirectSound | app/intelligence.py:120-162 | each direct suggestion is a free room of the preferred tier within budget, AVAILABLE_ROOM with priority HIGH, priced by the estimator, with the room's confidence |
| AvailabilityEngine.DirectComplete | app/intelligence.py:120-162 | every free room of the preferred tier within budget is suggested directly |
| AvailabilityEngine.FindFlexibleDateAlternatives | app/intelligence.py:164-225 | the loop over offsets returns exactly the flexible-date suggestions of the specification |
| AvailabilityEngine.ShiftStep | app/intelligence.py:170-223 | one offset extends the suggestions for the offsets below it |
| AvailabilityEngine.ShiftSuggestions | app/intelligence.py:194-223 | the loop over the first 3 free rooms of one offset returns that offset's suggestions |
| AvailabilityEngine.ShiftCandidate | app/intelligence.py:195-223 | one room at one offset yields a suggestion exactly when the specification does |
| AvailabilityEngine.ShiftShape | app/intelligence.py:195-223 | a shifted suggestion moves both dates by the offset, is priced for the shifted dates within budget, has priority MEDIUM and has confidence reduced by 0.1·abs(offset) |
| AvailabilityEngine.ShiftRoomFree | app/intelligence.py:187-194 | a room offered at an offset is free for the shifted interval and of the preferred tier, and at most 3 rooms are offered per offset |
| AvailabilityEngine.FlexibleSound | app/intelligence.py:164-225 | every flexible suggestion has a non-zero offset within the window, keeps the requested number of nights, uses a room free for the shifted dates, and follows the price, budget and confidence rules |
| AvailabilityEngine.HierarchyIndex | app/intelligence.py:231-240 | the index of a tier in Económica < Estándar < Superior < Suite, and none exactly for a tier outside the hierarchy |
| AvailabilityEngine.UpgradeRoomsMembers | app/intelligence.py:243-247 | the rooms tried at an upgrade level are exactly the free rooms of that tier |
| AvailabilityEngine.FindUpgradeOpportunities | app/intelligence.py:227-280 | the loops over higher tiers and their free rooms return exactly the upgrade suggestions of the specification |
| AvailabilityEngine.UpgradeSuggestions | app/intelligence.py:249-278 | the loop over one tier's free rooms returns that tier's upgrade suggestions |
| AvailabilityEngine.UpgradeCandidate | app/intelligence.py:251-278 | one room yields an upgrade suggestion exactly when the specification does |
| AvailabilityEngine.UpgradeShape | app/intelligence.py:251-278 | an upgrade costs the room's price minus its price as the preferred tier, records the number of levels climbed, and has confidence increased by 0.05 per level |
| AvailabilityEngine.UpgradeSound | app/intelligence.py:227-280 | upgrades are produced only when the preferred tier is in the hierarchy, only for strictly higher tiers and free rooms, within budget, with the cost and confidence rules |
| AvailabilityEngine.UpgradeCostNonNegative | app/intelligence.py:250-252 | pricing a room at a higher tier never costs less than pricing it at a lower one |
| AvailabilityEngine.FindSplitStayOptions | app/intelligence.py:282-343 | the nested loops over first- and second-half rooms return exactly the split suggestions of the specification |
| AvailabilityEngine.SplitGrid | app/intelligence.py:308-341 | the loop over first-half rooms returns the splits of the specification |
| AvailabilityEngine.SplitRow | app/intelligence.py:309-341 | the loop over second-half rooms returns the splits for one first-half room |
| AvailabilityEngine.SplitCandidate | app/intelligence.py:310-341 | one room pair yields a split exactly when the specification does |
| AvailabilityEngine.SplitShape | app/intelligence.py:310-341 | a split pairs distinct rooms at the midpoint, is priced as the sum of the halves within budget, has priority LOW, and has confidence equal to the mean of the two confidences minus 0.2 |
| AvailabilityEngine.HalfRoomsFree | app/intelligence.py:293-309 | each half's rooms are free for that half and of the preferred tier, and at most 3 are tried per half |
| AvailabilityEngine.SplitSound | app/intelligence.py:282-343 | splits exist only for 3 or more nights, at the single midpoint check_in + nights / 2; the two parts add up to the nights, the rooms are distinct and free for their halves, and the price and confidence rules hold |
| AvailabilityEngine.SplitOptionsBound | app/intelligence.py:308-309 | at most 9 split suggestions are produced |
| AvailabilityEngine.FindTimingOptimizations | app/intelligence.py:345-415 | the early check-in and late check-out loops return exactly the timing suggestions of the specification |
| AvailabilityEngine.EarlyCheckins | app/intelligence.py:359-382 | the early check-in loop returns one suggestion per probed room |
| AvailabilityEngine.EarlyOffer | app/intelligence.py:360-382 | the loop body builds the early check-in suggestion of the specification |
| AvailabilityEngine.LateCheckouts | app/intelligence.py:392-413 | the late check-out loop returns one suggestion per probed room |
| AvailabilityEngine.LateOffer | app/intelligence.py:393-413 | the loop body builds the late check-out suggestion of the specification |
| AvailabilityEngine.EarlyOver | app/intelligence.py:359-382 | one early check-in suggestion with priority LOW per probed room |
| AvailabilityEngine.LateOver | app/intelligence.py:392-413 | one late check-out suggestion with priority LOW per probed room |
| AvailabilityEngine.EarlySound | app/intelligence.py:350-382 | early check-in probes [in−1, out), offers at most 2 rooms, has confidence reduced by 0.1, and is priced as the stay plus one extra night |
| AvailabilityEngine.LateSound | app/intelligence.py:382-413 | late check-out probes [in, out+1), offers at most 2 rooms, has confidence reduced by 0.1, and is priced as the stay plus one extra night |
| AvailabilityEngine.TimingSound | app/intelligence.py:345-415 | at most 4 timing suggestions are made, each an early check-in or a late check-out with priority LOW |
| AvailabilityEngine.FindPriceOptimizations | app/intelligence.py:417-467 | the loop over existing suggestions returns exactly the price notes of the specification |
| AvailabilityEngine.PriceOptimizationSound | app/intelligence.py:417-467 | notes are made only for a known client with paid history, only for AVAILABLE_ROOM suggestions priced more than 30% below the client's average; each note saves abs(diff) × nights at confidence 0.8 |
| AvailabilityEngine.RealAbs | app/intelligence.py:441-445 | the absolute value of a price difference is non-negative and equal to the difference or its negation |
| AvailabilityEngine.ScoreAheadIsStrictWeakOrder | app/intelligence.py:578-593 | ranking by 2·weight + confidence, descending, is a strict weak order |
| AvailabilityEngine.RankStable | app/intelligence.py:593 | suggestions with equal scores keep their original order |
| AvailabilityEngine.AnalyzeAvailability | app/intelligence.py:81-118 | the analysis returns exactly the ranked, capped list of the specification |
| AvailabilityEngine.AnalysisRanked | app/intelligence.py:112-118 | at most 10 suggestions, all drawn from the strategies and the price notes, in non-increasing score order |
| AvailabilityEngine.AnalysisKeepsTheTop | app/intelligence.py:112-118 | exactly min(10, number of suggestions) are kept, and no suggestion cut by the cap scores above a kept one |
| AvailabilityEngine.DirectKind | app/intelligence.py:145-160 | direct suggestions are all AVAILABLE_ROOM |
| AvailabilityEngine.FlexibleKind | app/intelligence.py:207-223 | flexible suggestions are all ALTERNATIVE_DATES |
| AvailabilityEngine.UpgradeKind | app/intelligence.py:261-278 | upgrade suggestions are all ROOM_UPGRADE |
| AvailabilityEngine.SplitKind | app/intelligence.py:324-341 | split suggestions are all SPLIT_STAY |
| AvailabilityEngine.TimingKind | app/intelligence.py:365-413 | timing suggestions are all EARLY_CHECKIN or LATE_CHECKOUT |
| AvailabilityEngine.NoteKind | app/intelligence.py:449-465 | price notes are all PRICE_OPTIMIZATION |
| AvailabilityEngine.GatheredOrigin | app/intelligence.py:91-109 | anything other than an AVAILABLE_ROOM suggestion is gathered only when the direct search found no available room, and alternative dates only when dates are flexible |
| AvailabilityEngine.AnalysisFrom | app/intelligence.py:111-118 | every suggestion returned was gathered or is a price note about a gathered suggestion |
| AvailabilityEngine.AlternativesOnlyAsFallback | app/intelligence.py:91-108 | when a room is directly available only AVAILABLE_ROOM suggestions and price notes are returned; without flexible dates no alternative dates are returned |
| Supplies.StockStatusAgreesWithLowStock | app/models.py:468-479 | "Stock Normal" iff not low (for a non-negative minimum); "Stock Bajo" only for low, non-zero stock; zero stock is "Agotado" even when it is not low |
| Supplies.AlertLevelOf | app/models.py:491-512 | critical iff stock ≤ minimum; warning iff minimum < stock ≤ 1.5·minimum |
| Supplies.GetInventoryStatus | app/models.py:483-520 | the loop's counters are the numbers of critical and warning alerts, and the alert list is their sort |
| Supplies.AlertCounts | app/models.py:491-512 | the counters equal the numbers of supplies in each class; each supply yields at most one alert |
| Supplies.AlertsOfMembers | app/models.py:491-512 | an alert exists exactly for each supply with a level, carrying its id, name, category, stock, minimum and level |
| Supplies.AlertAheadIsStrictWeakOrder | app/models.py:514 | the sort key (warning, current stock) is a strict weak order |
| Supplies.InventoryAlertsOrdered | app/models.py:514 | sorted alerts put every critical alert before every warning, and ascending stock within a class |
| Supplies.CostIsLinear | app/models.py:632-638 | the cost is linear in the quantity used (per-unit cost, else the supply's price, else 0) and zero for no use |
| Supplies.VarianceSigns | app/models.py:640-659 | with an expected quantity, over- and under-expected follow the sign of used − expected; without one, neither holds; never both |
| Supplies.SupplyPackageFrom | app/models.py:119-128 | every row of a room's package names an existing supply and comes from a package item of that room |
| Supplies.PackageSuppliesDistinct | app/models.py:9-11 | with the composite key unique, a room's package never lists a supply twice |
| Supplies.CalculatePackageCost | app/models.py:145-152 | the accumulating loop returns the package cost: the sum of quantity × (price or 0) |
| Supplies.PackageCostNonNegative | app/models.py:145-152 | with non-negative quantities and prices the cost is non-negative, and positive only if some item has a quantity and a price |
| Supplies.CreateFromPackage | app/models.py:676-691 | the record uses and expects the package quantity, costs the row cost, stores no room, and has zero variance |
| Supplies.DueDate | app/models.py:553-563 | a closure for a valid month has a due date: day 5 of the next month, with December rolling over to January of the next year; there is none exactly where `date` would raise |
| Supplies.NotOverdueWithinItsMonth | app/models.py:553-563 | an undelivered closure is never overdue on any day of its own month |
| PackageApplier.UsageQuantity | app/routes/ajax_routes.py:638-656 | the full requirement when the shelf covers it, otherwise all that remains, which is less than required |
| PackageApplier.PackageUsage | app/routes/ajax_routes.py:659-669 | the automatic record of the stay: it expects the package quantity, uses what was taken, and stores the room only in the corrected variant |
| PackageApplier.ApplyRoomPackageToStay | app/routes/ajax_routes.py:587-705 | stock, records and report after the route are those of the specification applied to the room's mandatory package; rooms, stays and the package table are unchanged |
| PackageApplier.ApplyWith | app/routes/ajax_routes.py:607-705 | the missing-room and empty-package exits plus the loop over package items equal the specification |
| PackageApplier.ApplyItem | app/routes/ajax_routes.py:619-690 | one loop iteration changes stock, records and report exactly as the specification's step does |
| PackageApplier.WithSummary | app/routes/ajax_routes.py:695-705 | a summary is added iff something was applied; it counts the applied items, totals their cost and averages it |
| PackageApplier.ItemReportSound | app/routes/ajax_routes.py:627-690 | one iteration keeps the report invariant: the applied count equals the applied list, no item uses more than expected or leaves negative stock, and each shortage is required − available > 0 |
| PackageApplier.ApplyReportSound | app/routes/ajax_routes.py:618-690 | the report invariant holds after the whole loop, with no more items accounted for than rows |
| PackageApplier.NothingToApply | app/routes/ajax_routes.py:607-616 | with no room or an empty package nothing changes, nothing is applied, and there is exactly one message: an error iff the room is missing |
| PackageApplier.ItemBalanced | app/routes/ajax_routes.py:638-675 | one iteration conserves stock plus recorded use and never drives a shelf below zero |
| PackageApplier.ApplyBalanced | app/routes/ajax_routes.py:618-690 | the whole application conserves stock plus recorded use and never drives a shelf below zero |
| PackageApplier.ReapplyingDeductsTwice | app/routes/ajax_routes.py:621-625 | as written, applying a package twice deducts it twice, because the duplicate check looks for the room the record never stores |
| PackageApplier.ApplyRoomPackageToStayCorrected | app/routes/ajax_routes.py:621-625 | the route with the record carrying the stay's room, against the same specification |
| PackageApplier.CorrectedReapplicationChangesNothing | app/routes/ajax_routes.py:621-629 | with the record carrying the room, a second application changes neither stock nor records |
| PackageApplier.FirstRunSettles | app/routes/ajax_routes.py:621-629 | after one corrected application, no package item would be taken again |
| Reconciliation.EntryRoundTrip | app/routes/main_routes.py:525-532 | every 'usage_id:new_quantity' element the form sends parses back to that entry |
| Common.ParseIntIgnoresSpaces | app/routes/main_routes.py:531-532 | `int()` of a number with whitespace on either side reads the same as the bare number |
| Reconciliation.PaddedEntryRoundTrip | app/routes/main_routes.py:525-532 | whitespace around either number does not change the entry read, as `int()` strips it |
| Reconciliation.AdjustmentRecord | app/routes/main_routes.py:581-594 | the 'Ajuste' record names the usage's supply and the stay, uses the delta, is confirmed, and keeps the original cost per unit |
| Reconciliation.AdjustOne | app/routes/main_routes.py:520-594 | an entry keeps usage records linked to existing supplies and never removes a record or a supply |
| Reconciliation.AdjustAll | app/routes/main_routes.py:520-594 | the same holds after all entries |
| Reconciliation.ProcessSupplyAdjustments | app/routes/main_routes.py:509-597 | the loop over entries leaves stock and records as the specification of all entries does |
| Reconciliation.AdjustUsage | app/routes/main_routes.py:520-594 | one entry changes stock and records as the specification's step does |
| Reconciliation.AdjustOneEffect | app/routes/main_routes.py:542-594 | delta 0 only confirms the usage; a positive delta that stock cannot cover changes nothing; otherwise stock moves by −delta (staying ≥ 0 when delta > 0), the usage becomes 'Verificado' with the new quantity, and one 'Ajuste' record with the delta is appended; every other usage record and every other supply is unchanged, and the named supply changes only its stock |
| Reconciliation.AdjustOneBalanced | app/routes/main_routes.py:553-594 | one adjustment naming a record that is not an 'Ajuste' record conserves stock plus recorded use and never drives a shelf below zero |
| Reconciliation.AdjustAllBalanced | app/routes/main_routes.py:520-594 | a whole reconciliation whose entries name records that are not 'Ajuste' records conserves stock plus recorded use and never drives a shelf below zero |
| Reconciliation.RetargetingAnAuditRecordBreaksBalance | app/routes/main_routes.py:537-584 | an entry naming one of the stay's own 'Ajuste' records is accepted and breaks the balance: 10 on the shelf and a 2-unit audit record retargeted to 5 leave 7 on the shelf and 5 recorded |
| Reconciliation.CloseStay | app/routes/main_routes.py:370-406 | 'close' finalises the stay and marks the room 'Por Limpiar'; 'pending' sets Pendiente de Cierre; a missing check-out is filled with today; supplies are reconciled only when asked and the stay has usage; an unknown stay changes nothing |
| Reconciliation.AutomaticUsagesOf | app/models.py:284-286 | the automatic usages of a stay are exactly its usage records of type 'Automático' |
| Reconciliation.VerificationRecord | app/routes_backup.py:928-936 | the legacy record names the supply, carries the difference and is 'Verificado' |
| Reconciliation.VerifyOne | app/routes_backup.py:920-947 | one legacy verification keeps the supplies and the link of records to supplies |
| Reconciliation.VerifyAll | app/routes_backup.py:915-948 | the same holds after every automatic usage |
| Reconciliation.NoteRecord | app/routes_backup.py:954-965 | the legacy note record names a supply, uses nothing and is 'Manual' |
| Reconciliation.LegacyCloseStay | app/routes_backup.py:900-985 | refused unless the stay can be closed; otherwise every automatic usage is verified, a note is recorded when given, and the stay is finalised; a failure changes nothing |
| Reconciliation.VerifyUsages | app/routes_backup.py:915-948 | the legacy loop over automatic usages equals the specification, and counts the sum of abs(differences) |
| Reconciliation.VerifyUsage | app/routes_backup.py:920-947 | one legacy verification changes stock and records as specified and counts abs(real − used) |
| Reconciliation.VerifyAllConserves | app/routes_backup.py:915-948 | the legacy close-out conserves stock plus recorded use |
| Reconciliation.LegacyCloseOutCanDriveStockNegative | app/routes_backup.py:940-944 | the legacy close-out has no floor check: reporting more use than the shelf holds drives its stock negative |
| Reconciliation.SetStayPending | app/routes_backup.py:993-999 | only an Activa stay moves to Pendiente de Cierre; any other status is refused and nothing changes |
| StockRoutes.AjaxUpdateStock | app/routes/ajax_routes.py:452-490 | refuses a missing supply, a missing action or a quantity ≤ 0; 'add' adds; 'subtract' requires enough stock; any other action is refused; no other outcome occurs; only the supply's stock changes, and never below zero |
| StockRoutes.UpdateStock | app/routes/main_routes.py:155-190 | as written the route never updates: its form has no action or quantity field |
| StockRoutes.UpdateStockCorrected | app/routes/main_routes.py:166-178 | with the intended form, 'add' adds, 'subtract' requires enough stock, and anything else sets the stock; a non-negative quantity is accepted |
| StockRoutes.UpdateStockAjax | app/routes.py:385-401 | the stock moves by the signed change and is refused, unchanged, when it would go negative |
| StockRoutes.UpdateRoomStatus | app/routes.py:787-796 | only Limpia, Sucia, Mantenimiento and Ocupada are accepted; otherwise the room is unchanged |
| LegacySupplies.RoomItems | app/routes_backup.py:175-182 | exactly the package items of the stay's room |
| LegacySupplies.AutomaticUsage | app/routes_backup.py:192-198 | the unconfirmed automatic record of the stay uses the package quantity |
| LegacySupplies.DeductAutomaticSupplies | app/routes_backup.py:171-215 | the loop over the room's package items leaves stock and records as the specification does |
| LegacySupplies.DeductItemAllOrNothing | app/routes_backup.py:188-211 | an item is either skipped with nothing changed, or deducted in full from stock that covers it, with exactly its record appended |
| LegacySupplies.DeductAllBalanced | app/routes_backup.py:171-215 | the legacy deduction conserves stock plus recorded use and never drives a shelf below zero |
| LegacySupplies.ManualUsage | app/routes_backup.py:1315-1322 | a manual record of the supply with no stay |
| LegacySupplies.AddManualSupplyUsage | app/routes_backup.py:1299-1330 | refuses an unknown supply or too little stock and then changes nothing; otherwise the books become the manual use of the quantity |
| LegacySupplies.ManualUseBalanced | app/routes_backup.py:1308-1326 | a manual use the shelf covers conserves stock plus recorded use and takes no supply below zero |
| LegacySupplies.ManualUseLinked | app/routes_backup.py:1308-1326 | the record of a manual use names an existing supply, so the records stay linked |
| LegacySupplies.PostUpdateStatus | app/routes_backup.py:1620-1634 | the status after an update is critical iff new ≤ minimum, and warning iff minimum < new ≤ 1.5·minimum, the same rule as the inventory classifier |
| LegacySupplies.QuickActionOf | app/routes_backup.py:1577-1604 | the action is 'add', 'use' or 'adjust' exactly when the request's text is that word |
| LegacySupplies.QuickChangeEffect | app/routes_backup.py:1577-1609 | only the one stock moves, up by the quantity for 'add', down for 'use', to it for 'adjust'; a covered 'use' keeps the books balanced and takes nothing below zero; 'add' and 'adjust' write no record and so keep the books balanced only when the stock is left as it was |
| LegacySupplies.QuickInventoryUpdate | app/routes_backup.py:1554-1640 | refuses a zero id or quantity, an unknown supply, an unknown action and a 'use' the shelf does not cover, each changing nothing; otherwise the books become the quick change of the action and the reported status is the class of the new stock; no other outcome occurs |
| LegacyRoutes.Digits | app/routes_backup.py:119-124 | the digits of a string, all digits and no longer than it |
| LegacyRoutes.DigitsCounts | app/routes_backup.py:119-124 | every digit of the input is kept exactly as often as it occurs |
| LegacyRoutes.DigitsOfNonDigits | app/routes_backup.py:119-124 | a string without digits cleans to "" |
| LegacyRoutes.DigitsIgnoresSeparators | app/routes.py:150-155 | removing a run of non-digits from anywhere in the input leaves the cleaning unchanged |
| LegacyRoutes.CleanPhone | app/routes_backup.py:119-124 | an empty or missing phone cleans to ""; otherwise the result holds only digits, and each digit of the phone exactly as often as it occurs |
| LegacyRoutes.DigitsAppend | app/routes.py:150-155 | cleaning distributes over concatenation, so the input's digits are kept in order; with `DigitsOfNonDigits` the result is exactly the input's digits in order |
| LegacyRoutes.DigitsOfDigits | app/routes.py:150-155 | a string of digits cleans to itself |
| LegacyRoutes.CleanPhoneIdempotent | app/routes.py:150-155 | cleaning twice is cleaning once |
| LegacyRoutes.OverlappingRooms | app/routes/ajax_routes.py:34-48 | the list has at most one room id per stay |
| LegacyRoutes.CheckRoomAvailability | app/routes.py:157-171 | a missing date gives the empty list |
| LegacyRoutes.OverlappingRoomsMembers | app/routes/ajax_routes.py:34-48 | a room id is listed iff some stay in it, of any status, overlaps the interval |
| LegacyRoutes.LegacyQueryBlocksMore | app/routes.py:157-171 | every room the engines consider occupied is unavailable here too, and a finalised stay blocks a room here but not in the engines |
| LegacyRoutes.FreeRooms | app/routes.py:180-181 | exactly the rooms not in the unavailable list |
| LegacyRoutes.FindBookingSolutions | app/routes.py:173-200 | at least one option is always returned |
| LegacyRoutes.BookingSolutionsShape | app/routes.py:173-200 | 'split_needed' appears iff every room is overlapped, and then alone; each 'single' option is a free room with total nights = out − in |
| LegacyRoutes.BookingSolutionsComplete | app/routes.py:173-196 | without 'split_needed', the options are exactly one 'single' per free room, in room order; every room with no overlapping stay is offered |
| LegacyRoutes.GetRoomAvailability | app/routes.py:246-285 | refused unless both dates are given and check-in < check-out; otherwise one entry per room, in order |
| LegacyRoutes.RoomAvailableIff | app/routes.py:269-276 | a room is flagged available iff none of its stays overlaps the interval |
| LegacyRoutes.CoveringStay | app/routes_backup.py:1056-1065 | the first stay of the room covering the day, or none iff no stay covers it |
| LegacyRoutes.CellClassification | app/routes_backup.py:1056-1115 | Mantenimiento overrides everything; otherwise the cell is available iff no active or pending stay covers the day; a check-in cell is a covering stay's first day; a check-out cell is its check-out day |
| LegacyRoutes.GetAvailabilityGrid | app/routes_backup.py:1009-1115 | the nested loops build one row of 30 cells per room, each the classification of that room and day |
| Notifications.PriorityWeight | app/intelligence_notifications.py:89-98 | the weight is in 1..5: 5 exactly for CRITICAL and 1 exactly for INFO |
| Notifications.WeightsOrdered | app/intelligence_notifications.py:89-98 | CRITICAL > HIGH > MEDIUM > LOW > INFO, and distinct priorities weigh differently |
| Notifications.AheadIsStrictWeakOrder | app/intelligence_notifications.py:81-84 | ordering by (weight, key time), descending, is a strict weak order |
| Notifications.Stamped | app/intelligence_notifications.py:81-84 | each notification keeps its place and is keyed by its creation time, or by the clock reading taken for it when that is unset |
| Notifications.GatheredMembers | app/intelligence_notifications.py:71-78 | the gathered list holds exactly the notifications of the analyzers that did not fail |
| Notifications.GenerateNotifications | app/intelligence_notifications.py:65-87 | the feed is the stable sort of the gathered notifications, each keyed with its own clock reading, cut to 20 |
| Notifications.FeedRanked | app/intelligence_notifications.py:81-87 | the feed has at most 20 entries, exactly 20 when there are that many, and is ordered by descending key |
| Notifications.FeedFromAnalyzers | app/intelligence_notifications.py:71-87 | every notification in the feed came from an analyzer that did not fail |
| Notifications.FeedKeepsTheTop | app/intelligence_notifications.py:81-87 | no notification left out of the feed ranks ahead of one kept |
| Notifications.BucketOf | app/intelligence_notifications.py:584-592 | CRITICAL goes to the critical bucket whatever its type; otherwise business opportunities and revenue go to opportunities and operational alerts to operational |
| Notifications.GetNotificationsForDashboard | app/intelligence_notifications.py:569-599 | the loop fills each bucket with its notifications in feed order; the total is the feed size and each count is its bucket's size |
| Notifications.BucketsPartition | app/intelligence_notifications.py:584-592 | every notification is in exactly one bucket, and the bucket sizes add up to the feed |
| Notifications.AtZero | app/intelligence_notifications.py:323-324 | exactly the low-stock supplies with zero stock |
| Notifications.AboveZero | app/intelligence_notifications.py:323-324 | exactly the low-stock supplies with positive stock |
| Notifications.LowStock | app/intelligence_notifications.py:319-321 | exactly the supplies at or below their minimum |
| Notifications.LowStockSplit | app/intelligence_notifications.py:315-349 | zero and positive stock partition the low-stock supplies whose stock is not negative, and a negative stock is in neither; the critical notice fires iff some supply is at zero with a minimum of 0 or more (so that it is low), the warning iff some supply is positive and at or below its minimum |
| Notifications.AnalyzeExcessiveUsage | app/intelligence_notifications.py:363-377 | a supply is flagged iff it has at least 2 usages above 1.5 × expected; each supply is flagged once; flagged supplies come in the order of their first excessive usage |
| Notifications.GroupExcessive | app/intelligence_notifications.py:369-374 | the dict of groups holds exactly the supplies with an excessive usage, each with its count of them, and its key order lists each once, in order of first excessive usage |
| Notifications.GroupStep | app/intelligence_notifications.py:370-374 | adding one usage to the groups keeps the grouping invariant: membership, counts, distinct keys and first-appearance order |
| Notifications.Regroup | app/intelligence_notifications.py:372-374 | an excessive usage adds its supply name to the keys; any other usage leaves them as they were |
| Notifications.Reorder | app/intelligence_notifications.py:372-373 | the key order grows by one name exactly when an excessive usage names a supply not yet grouped, and keeps its earlier keys in place |
| Notifications.ExcessiveUsageNotifications | app/intelligence_notifications.py:377-388 | one MEDIUM notice per flagged supply |
| Notifications.OccupancyRate | app/intelligence_notifications.py:235-237 | the rate is non-negative, and 0 with no rooms |
| Notifications.OccupancyThresholds | app/intelligence_notifications.py:235-258 | a high-occupancy notice iff active/total > 85%; a low-occupancy notice iff below 30% or there are no rooms; otherwise none |
| Notifications.PercentCompare | app/intelligence_notifications.py:237-249 | comparing the percentage with a threshold is comparing active × 100 with rooms × threshold |
| Notifications.RevenueThresholds | app/intelligence_notifications.py:135-159 | the decline notice fires iff last month > 0 and revenue fell more than 15%; the growth notice iff it rose more than 20%; nothing fires without revenue last month |
| Insights.ValidateSuggestRequest | app/routes/intelligence_routes.py:36-63 | a request passes iff both dates are present and well formed, check-in is not before today, and check-out is after check-in |
| Insights.ValidationOrder | app/routes/intelligence_routes.py:36-63 | a missing date is reported as such before anything else, and dates in the wrong order are reported as such |
| Insights.QuickPrice | app/routes/intelligence_routes.py:172-177 | the quick price is the tier's base rate times the nights, at least 2000 a night |
| Insights.QuickPriceAgreesWithEngine | app/routes/intelligence_routes.py:172-177 | for stays under 7 nights outside high season, the quick price equals the availability engine's estimate |
| Insights.QuickCheckRooms | app/routes/intelligence_routes.py:150-194 | with no rooms the check fails on the occupancy division; otherwise the listed rooms are exactly those with no holding stay overlapping the dates, each priced at base rate × nights |
| Insights.PricingAvailability | app/routes/intelligence_routes.py:272-294 | 30 entries; day d is available iff no active or pending stay of the room has check-in ≤ d and no check-out or check-out > d |
| Insights.DayAvailableIsOneNight | app/routes/intelligence_routes.py:277-285 | a day is available iff the room is free for the one night [d, d+1) in the engines' sense |
| Insights.ArgMax | app/routes/intelligence_routes.py:460-469 | the first index holding the maximum |
| Insights.Occurrences | app/routes/intelligence_routes.py:347-353 | a key has a positive count iff it occurs |
| Insights.FirstAppearances | app/routes/intelligence_routes.py:347-353 | the keys in order of first appearance, each once |
| Insights.MostFrequent | app/routes/intelligence_routes.py:360-364 | there is a preferred value iff there is at least one key |
| Insights.MostFrequentIsMode | app/routes/intelligence_routes.py:360-364 | the preferred value occurs at least as often as any other, and is the first such value in order of first appearance |
| Insights.CountKeys | app/routes/intelligence_routes.py:347-353 | the counting loop's dictionary holds exactly the occurring keys with their counts, in first-appearance order |
| Insights.ChannelKeys | app/routes/intelligence_routes.py:352-353 | one channel key per recent stay |
| Insights.Recommendations | app/routes/intelligence_routes.py:370-379 | the tier recommendation fires iff there is a preferred tier, the long-stay one iff the average stay > 5 nights, the VIP one iff total spent > 50000 |
| Insights.ClientInsights | app/routes/intelligence_routes.py:338-379 | the insight's average per stay (0 with no stays), preferences, average duration and recommendations are those of the specification |
| Insights.DemandBookings | app/routes/intelligence_routes.py:460-463 | one booking count per tier |
| Insights.Profitability | app/routes/intelligence_routes.py:464-469 | one profitability figure per tier |
| Insights.GenerateBusinessInsights | app/routes/intelligence_routes.py:432-470 | no insights iff there are no rooms (the division raises) |
| Insights.PercentOf | app/routes/intelligence_routes.py:439-443 | comparing the occupancy percentage with a threshold is comparing active × 100 with rooms × threshold |
| Insights.ScaledAverage | app/routes/intelligence_routes.py:446-457 | comparing with a multiple of the monthly average is comparing month × count with the total |
| Insights.OccupancyRule | app/routes/intelligence_routes.py:439-443 | the high-occupancy message fires iff occupancy > 80%, the low one iff < 30% |
| Insights.SeasonMessageRule | app/routes/intelligence_routes.py:446-457 | the season message is "high" above 1.2 × average and "low" below 0.8 × average |
| Insights.SeasonRule | app/routes/intelligence_routes.py:446-457 | the same thresholds, stated on the current month's bookings × months against the total |
| Insights.TierRule | app/routes/intelligence_routes.py:460-469 | the top-demand tier has the most bookings and the most profitable tier the largest payment × bookings; with no tiers there are no tier messages |
| Insights.BusinessInsightParts | app/routes/intelligence_routes.py:432-470 | each kind of message comes only from its own rule |
| SupplyRoutes.ItemCostIsRowCost | app/routes/supply_routes.py:177 | the reported cost, quantity × (unit price or 0), is the package row's cost |
| SupplyRoutes.AjaxAddItem | app/routes/supply_routes.py:123-183 | refuses missing ids, unknown rooms or supplies and an existing pair; otherwise appends one row and reports its cost; unique keys are kept and nothing else changes |
| SupplyRoutes.AddKeepsKeysUnique | app/routes/supply_routes.py:145-168 | inserting a pair not yet present keeps the package keys unique |
| SupplyRoutes.AddedItemInPackage | app/routes/supply_routes.py:156-167 | after the insert the room's package lists the supply once, with the given quantity |
| SupplyRoutes.AvailableSupplies | app/routes/supply_routes.py:53-55 | no more supplies than the catalogue |
| SupplyRoutes.AvailableSuppliesMembers | app/routes/supply_routes.py:53-55 | a supply is available iff it is in the catalogue and not in the package |
| SupplyRoutes.AvailableSuppliesAppend | app/routes/supply_routes.py:53-55 | the filter distributes over concatenation, so the catalogue's order is kept |
| SupplyRoutes.RoomPackageFailsWithItems | app/routes/supply_routes.py:53-55 | with one item in the package the route as written fails, while the intended filter returns the other supply |
| SupplyRoutes.RoomPackageAgreesWhenEmpty | app/routes/supply_routes.py:53-55 | for an empty package both return the whole catalogue |
| SupplyRoutes.AvailableNothingExcluded | app/routes/supply_routes.py:53-55 | with an empty package every supply is available |
| SupplyRoutes.CostAheadIsStrictWeakOrder | app/routes/supply_routes.py:99 | descending cost is a strict weak order |
| SupplyRoutes.RoomCosts | app/routes/supply_routes.py:88-99 | the loop keeps the rooms with a package cost > 0, with their displayed tier, and sorts them by cost |
| SupplyRoutes.CostedRoomsMembers | app/routes/supply_routes.py:88-98 | a room is costed iff its package cost is positive |
| SupplyRoutes.RoomCostsRanked | app/routes/supply_routes.py:88-99 | the result holds exactly the rooms with positive cost, in non-increasing cost order, ties kept in room order |
| SupplyRoutes.Coverage | app/routes/supply_routes.py:111 | coverage is non-negative, 0 with no rooms, and 0 only with no rooms or no package items |
| Forms.StockFieldRejectsZero | app/forms.py:64-73 | as written, a stock field accepts exactly the positive values, so 0 is refused |
| Forms.StockFieldIntendedAddsZero | app/forms.py:64-73 | the intended rule accepts what the written one does and also 0, and only non-negative counts |
| Forms.CheckOutValidity | app/forms.py:157-160 | a missing date passes; with both dates, check-out must be after check-in |
| Forms.PaymentAmountRule | app/forms.py:133-164 | the amount passes iff present and ≥ 0.01, which also satisfies the "> 0" check |
| Forms.UnitPriceRule | app/forms.py:66 | the unit price passes iff it is missing or at least 0, so 0.0 is accepted, unlike the stock fields |
| Forms.DeliveredAmountRule | app/forms.py:179 | the delivered amount passes iff it is present and positive, so 0.0 is refused although the range admits it |
| Forms.PeriodRange | app/forms.py:168-190 | a period passes iff month is in 1..12 and year in 2020..2030 |
| FriendlyDate.Label | app/__init__.py:59-88 | no date iff missing; 0, 1, −1, 2, −2 days give Hoy, Mañana, Ayer, Pasado mañana, Anteayer; −7..−3 and 3..7 give relative counts; beyond a week the date is printed |
| FriendlyDate.LabelDeterminesDate | app/__init__.py:68-88 | within a week the label determines the offset; beyond it the label carries the date |
| FriendlyDate.RelativeTextCount | app/__init__.py:81-84 | "Hace n días" / "En n días" spell the distance from today, which reads back as that number |
| FriendlyDate.Clock | app/__init__.py:97 | HH:MM: five characters with a colon in the middle |
| FriendlyDate.ClockReadsBack | app/__init__.py:97 | the clock text reads back as the hour and the minute |
| FriendlyDate.DateTimeAlwaysHasTime | app/__init__.py:90-102 | every datetime gets the date text, a space and the clock time, whatever its label |

## Left out

- Persistence is left out: SQLAlchemy queries, sessions, commits, rollbacks and transactions. The database is in-memory maps and sequences, and a refused route simply leaves them unchanged.
- Concurrency is left out. The code has no locking, so two requests booking a room or drawing stock at once are not modelled.
- Floating point is modelled with exact `real` arithmetic, so no rounding is modelled.
- Clocks are parameters: `datetime.now()` and `date.today()`.
- Calendar formatting (`strftime`) is a parameter of the friendly-date filter, `formatDay`. The datetime-to-date conversion is a `Moment` with a day and a minute.
- Timestamps, free-text notes and messages written beside a stock change are not modelled. These include a supply's `last_updated` and `notes`, and the quick update's action description.
- Form and JSON parsing, templates, `flash`, login and permission checks are not part of this model.
- Text is ASCII: Python's `isdigit` and `\d` also accept non-ASCII digits, which this model does not.
- Common.ParseInt: it refuses the single underscores between digits that Python's `int()` accepts (`"1_000"`), and it strips only ASCII whitespace.
- Ledger.Overlaps, YieldEngine.Blocks, LegacyRoutes.OverlappingRooms, LegacyRoutes.Covers and Insights.DayAvailable compare whole days. In the code, stay check-in and check-out are datetimes (app/models.py:259-260) and carry a time of day, for example from the stay form or `datetime.now()` at close-out, while the query bounds are dates at midnight. So the boundary day differs. A stay checking out at 11:00 on day D overlaps a request starting on D in the code but not in the model. A stay checking in at 14:00 on D leaves D free in `optimize_pricing` but not in the model.
- Reconciliation.AdjustAllBalanced and Reconciliation.AdjustOneBalanced hold only for entries naming records that are not 'Ajuste' records. The route also accepts an entry naming one of the stay's own 'Ajuste' records, and then stock plus recorded use is not conserved (Reconciliation.RetargetingAnAuditRecordBreaksBalance).
- The `_priority_weight` default of 1 for an unknown priority is left out, because the priority type has only the five values.
- A usage record's id is its position in the record list.
- `analyze_client_spending_patterns`, `BookingPatternAnalyzer`, `predict_optimal_pricing` and the reorder-point suggestions are not part of this model. The client's average spending reaches the price notes as a parameter.
- The pattern queries feeding `generate_business_insights` (seasonal patterns, tier demand) are inputs.
- In `analytics`, the supply usage statistics and recent-usage queries are left out. The coverage bound of at most 100% is not proved.
- These broken paths are not modelled:
  - the template routes using the undefined `RoomSupplyDefault`;
  - `Stay.apply_room_package`, which calls `create_from_package` with a keyword it lacks;
  - the two-argument call of `deduct_automatic_supplies`;
  - the error handler reading `package_item.supply`.
- The `ajax_update_item` and `ajax_remove_item` stubs have no behaviour to model.
- Reconciliation.LegacyCloseStay: the closure note goes on the first automatic usage's supply, as in the code. When the stay has no automatic usage, the code writes the note with no supply. The non-null `supply_id` column (app/models.py:591) then makes the commit fail and roll back, and the model returns that failure without modelling the database error itself.
- AvailabilityEngine.LongStayDiscount: the 15% branch for 14 or more nights is unreachable in the code, and the model keeps it unreachable.
- Insights.GenerateBusinessInsights: with no rooms the code raises on a division by zero; the model returns no result instead.
- LegacyRoutes.CheckRoomAvailability: its contract states only the missing-date case; the membership rule is stated by LegacyRoutes.OverlappingRoomsMembers.
- Insights.QuickCheckRooms: of the response it states the room list and its prices; the counts, the rounded occupancy rate and the per-room display fields (`tier_display`, `has_package`) are not stated.
- Insights.QuickPrice: its contract gives only a lower bound; the agreement with the engine is stated by Insights.QuickPriceAgreesWithEngine and the listing by Insights.QuickCheckRooms.

## Findings

| source | as written | input that shows it | evidently intended | confidence | as-written member | corrected member |
|---|---|---|---|---|---|---|
| app/routes/ajax_routes.py:621-625 | the duplicate check looks for a usage with the stay's room, but `create_from_package` (app/models.py:682) stores none | applying a 2-unit package to a stay twice with 10 in stock leaves 6 and two records | a second application finds the first record and skips | not executed | PackageApplier.ReapplyingDeductsTwice | PackageApplier.CorrectedReapplicationChangesNothing |
| app/routes/main_routes.py:166-178 | the route reads `form.action` and `form.quantity`, which `UpdateStockForm` (app/forms.py:71-75) does not define | any valid submission of the form | add, subtract or set the stock by the submitted quantity | not executed | StockRoutes.UpdateStock | StockRoutes.UpdateStockCorrected |
| app/forms.py:64-73 | `DataRequired` refuses the value 0 before `NumberRange(min=0)` is checked | a stock field with value 0 | stock fields accept every value ≥ 0 | not executed | Forms.StockFieldRejectsZero | Forms.StockFieldIntendedAddsZero |
| app/routes/supply_routes.py:53-55 | the filter reads `item.supply_id`, which the package rows (app/models.py:122-128) do not carry | a room whose package holds one item | the catalogue minus the package's supplies, in order | not executed | SupplyRoutes.RoomPackageFailsWithItems | SupplyRoutes.AvailableSuppliesMembers |
