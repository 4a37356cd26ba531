# Billing core of the model gateway: a verified model

This project models the prepaid billing core of the gateway and its request throttles, and proves
what they keep over every input and every run. Quantities and money are exact rationals (`real`);
wherever the program prints a value with thirty fraction digits the model rounds explicitly
(`Rounding.Round30`).

The parts, in the order in which a request meets them:

- **Decimal text** (`Numerals`, `DecimalText`, `DecimalLaws`, `NumeralTexts`): the parser and normaliser of prices and
  quantities and the two printers, over `string`. `PriceTexts` and `PriceLists` model how a published
  price list is validated, rewritten in normal form and merged with overrides; `ReportTexts` has signed amounts.
- **Meters** (`Meters`, `CodeTexts`, `Metering`, `MeteringLaws`): codes and their texts, the hierarchy of overlapping meters and the in-place
  passes (`Metering.UsageMap`) that make a usage map disjoint. `Metering.Normalized` is those passes as a
  function of the map; the laws are about that function.
- **Charge** (`Tiers`, `TierLaws`, `Charging`, `ChargeLaws`, `PriceInheritance`, `LineLaws`, `FlatPrices`, `Surcharges`,
  `ConservationLaws`, `StoredPrices`): price inheritance, graduated and context tiers, lines, minimum and multiplier; what the lines
  carry of a report and when a breakdown of totals changes the amount.
- **Quotes** (`Intake`, `IntakeLaws`, `CounterLaws`, `Quotes`, `QuoteLaws`, `HoldLaws`, `ItemizedEstimates`, `Itemization`,
  `SettlementLaws`, `MediaLaws`, `MediaHolds`): the amount that a reservation holds and the amount that a settlement charges for the same request.
- **Ledger** (`Ledger`, `LedgerService`, `LedgerBooks`, `LedgerAudit`, `LedgerRuns`, `StepLaws`, `ReaperLaws`, `FairRuns`): one
  step function for each database transaction, a class whose methods carry those steps out on tables, and
  theorems over every interleaving of steps. Settlement amounts are the calculator's, so the last module
  states what calculator and ledger guarantee together.
- **Throttles** (`Throttles`, `ThrottleLaws`): the per-subject row of attempts and its three update rules.

`Results`, `Rounding` and `Sums` are shared vocabulary.

A transaction that fails leaves its store as it was, so each step function returns the old store with
its error. Any interleaving of transactions is a sequence of events (`Ledger.Run`); the reaper is a read
followed by one event for each id, with other events in between (`ReaperLaws.Schedule`).

## Where the obvious claim is false

The model follows the code; these lemmas give the exact boundary.

- The top-up account grows with administrator debits too (`internal/billing/service.go:593`): its balance is
  the gross of its lines and equals debits less credits only until the first such debit
  (`LedgerAudit.TopupIsNetIff`, `LedgerAudit.TopupExample`).
- A usage key that carries a tier suffix is looked up under its base code, and the selected code is stripped once
  more before its quantity is read (`internal/billing/metering.go:352`). A quantity therefore stands on as many lines
  as there are billable codes that strip to its code (`LineLaws.BilledTimes`). Every billable code is charged for its
  own entry exactly if each key strips completely or has no positive entry at what it strips to
  (`LineLaws.OwnQuantitiesIff`, `ConservationLaws.OwnEntriesChargedIff`). Nothing is free exactly if no positive entry
  has a suffixed key, and then everything is billed exactly once (`LineLaws.NothingFreeIff`,
  `ConservationLaws.EntriesChargedIff`). `LineLaws.DoubleSuffixFree` has an entry that is selected and yet free,
  `LineLaws.DoubleSuffixTwice` a quantity that is billed twice.
- The lines carry at least the total of each family, and more than that exactly if a billable suffixed code strips to
  one of its meters with something to bill (`ConservationLaws.ChargeConservesReport`).
- Under flat prices breaking a total down changes nothing exactly if all meters of the family cost the same, where a
  meter also costs what suffixed codes bill on it again (`Itemization.ItemizationIsFreeIff`); without prices of their
  own for sub-meters, keys that strip completely suffice (`Itemization.CleanItemizationIsFree`).
  `Itemization.UncleanExample` has two reports of one token that cost three and one.
- Stripping suffixes is idempotent exactly on codes whose suffixes stand in the reverse of the order in which
  they are tried (`Meters.BaseCodeIdempotentIff`).
- A release checks the status of a hold and not its expiry: a hold extended after the reaper's read is still
  expired (`ReaperLaws.ExpiresEarlyIff`, `ReaperLaws.ExtendedHoldStillExpires`).
- Context tiers can run out of a price, graduated tiers cannot: a stored list prices a report exactly if
  nothing that is left to bill lacks a published price and no context lies beyond a bounded last tier
  (`StoredPrices.StoredListPricesIff`). `StoredPrices.ContextRunsOutAtSettlement` has a hold that succeeds and
  a settlement that does not.
- A total synthesised from its details can outgrow thirty integer digits and fail the next validation: exactly
  if a total, reported or summed up, does not fit (`IntakeLaws.NormalizedAcceptedIff`,
  `IntakeLaws.SettlementNormalizesOnce`; `IntakeLaws.HugeDetailsRefused` is such a report).
- An amount set aside covers every settlement within given totals exactly if it covers the report of these
  totals without details (`ItemizedEstimates.HoldCoversIff`). A hold quoted on an itemized estimate need not
  (`ItemizedEstimates.ItemizedHoldFallsShort`, and with concrete prices `ItemizedEstimates.ExampleFallsShort`).
- The report printer agrees with the normaliser exactly on texts without an exponent
  (`DecimalLaws.ReportAgreesIff`, `DecimalLaws.ReportKeepsExponent`).
- With a maximum of one failure the first failure does not lock, because the row is inserted without a lock
  (`ThrottleLaws.ShutOutIff`).

## Model

| member | source | states |
|---|---|---|
| NumeralTexts.ParsesIff | internal/billing/metering_sql.go:150-187 | the decimals are exactly the texts that are, blanks around them aside, digits, perhaps a point and digits, perhaps an e or E with a signed power from -100 to 100 |
| NumeralTexts.WrittenWorth | internal/billing/metering_sql.go:150-187 | and each is worth its digits shifted by its point and its power |
| NumeralTexts.TrimmedOfBlanks | internal/billing/metering_sql.go:151-154 | only the six ASCII blanks are dropped in front and behind, and none are left there |
| DecimalLaws.CanonicalDecimalValue | internal/billing/metering_sql.go:150-222 | an accepted text comes back in normal form with exactly its value, exponents included |
| DecimalLaws.CanonicalDecimalAcceptsIff | internal/billing/metering_sql.go:150-222 | accepted are exactly the well-formed texts whose value is below 10^maxInteger and a multiple of 10^-maxFraction, however they spell it |
| DecimalLaws.SameTextIffSameValue | internal/billing/metering_sql.go:147-222 | two accepted texts have the same normal form if and only if they have the same value |
| DecimalLaws.CanonicalDecimalIdempotent | internal/billing/metering_sql.go:150-222 | normalising a normal form under the same bounds gives it back |
| DecimalLaws.CanonicalUnique | internal/billing/metering_sql.go:188-221 | a value has one normal text: canonical texts of equal value are equal |
| DecimalLaws.RatDecimalLaw | internal/billing/metering.go:681-687 | for every rational the printer writes the normal text of the magnitude rounded to thirty decimals, behind a sign exactly if the rounded value is negative |
| DecimalLaws.PrintParsedRoundTrip | internal/billing/metering.go:681-687 | parsing an accepted text and printing its value gives its normal form |
| DecimalLaws.ReportAgreesIff | internal/billing/reporting.go:359-385 | for accepted texts the report printer shows the normal form exactly if the text has no exponent |
| DecimalLaws.ReportKeepsExponent | internal/billing/reporting.go:359-385 | the example: "1e2" normalises to "100" and the report printer shows something else |
| ReportTexts.SignedReport | internal/billing/reporting.go:359-385 | a sign is kept in front of what is printed without it, and zero is printed without one |
| ReportTexts.SignedReportValue | internal/billing/reporting.go:359-385 | a negative column text is shown as the normal form of its magnitude behind a sign exactly if it is not zero |
| ReportTexts.PrintedAmountReported | internal/billing/reporting.go:359-385 | whatever the printer writes for a rational, negative ones included, reports show unchanged |
| PriceTexts.AcceptedTextIff | internal/billing/metering_sql.go:60-62 | the digit bounds of a price or quantity text are the numeric bounds of its value |
| PriceTexts.TierTextAcceptedIff | internal/billing/metering_sql.go:72-81 | the text checks on a tier are the value checks on what the tier reads as |
| PriceTexts.NormalTierMeansTheSame | internal/billing/metering_sql.go:118-123 | a rewritten tier is accepted again, reads as before and is its own normal form |
| PriceTexts.NormalizeTiers | internal/billing/metering_sql.go:118-123 | rewriting the tiers of a component in place keeps what they mean and leaves normal forms only |
| PriceTexts.NormalizePriceComponents | internal/billing/metering_sql.go:101-129 | a list is stored exactly if it is acceptable; the stored list reads as the published one and every text in it is in normal form |
| PriceLists.MergePriceComponentInputs | internal/billing/service.go:3712-3728 | one entry for each non-blank code, in order of first occurrence, each the last one written |
| PriceLists.MergedResolves | internal/billing/service.go:3712-3728 | a merged list of well-formed entries has no duplicate code and resolves every code to its override, else to its base entry |
| PriceLists.LegacyFillsGaps | internal/billing/metering_sql.go:251-266 | a published component wins over the legacy price of its code, legacy prices fill in for the token meters that have one, zeros of details excepted, and nothing else is priced |
| Tiers.ValidatePriceComponents | internal/billing/metering_sql.go:53-99 | accepts exactly the lists with valid distinct codes, units and prices and with strictly growing tier bounds of which only the last may be missing |
| StoredPrices.AcceptedComponentIff | internal/billing/metering_sql.go:53-99 | what that means for one component: a unit of 1 to 64 characters, prices below 10^24, bounds positive, below 10^30 and pairwise increasing, none but the last missing |
| Tiers.ValidateBounds | internal/billing/metering_sql.go:82-95 | the moving bound accepts exactly strictly increasing bounds |
| Tiers.TieredAmount | internal/billing/metering.go:589-665 | the loop with early exits computes the tier amount, the effective price and the failure of its recursive specification |
| TierLaws.GraduatedNeverFails | internal/billing/metering.go:624-664 | for every stored tier list and every quantity a graduated price exists and is the area under the marginal price, the last price extended past the last bound |
| TierLaws.AreaMonotone | internal/billing/metering.go:624-664 | more usage never costs less |
| TierLaws.AreaSubadditive | internal/billing/metering.go:624-664 | with prices that do not rise, one request costs at most its parts charged separately |
| TierLaws.GraduatedRate | internal/billing/metering.go:624-664 | the rate shown is the price of the tier in which the quantity ends, the base price for no quantity |
| TierLaws.ContextComponentCharge | internal/billing/metering.go:603-622 | a context component charges the whole quantity at the price of the first tier whose bound covers the context |
| TierLaws.GraduatedRefused | internal/billing/metering.go:627-651 | a graduated list that was never checked is refused at the first tier it reaches that is malformed, does not grow, or is unbounded before the last |
| TierLaws.ContextRefused | internal/billing/metering.go:605-618 | a context list that was never checked is refused at the first malformed tier it reaches |
| TierLaws.ContextComponentPricedIff | internal/billing/metering.go:603-622 | a stored context component has a price if and only if its last tier is unbounded or covers the context |
| CodeTexts.OneCodePerText | internal/billing/metering.go:463-472 | a proper code stands for exactly one text and every text for one proper code, so looking up codes is looking up texts |
| CodeTexts.BaseCodeText | internal/billing/metering.go:394-399 | stripping a code is trimming each tier suffix once from its text, priority first |
| CodeTexts.ValidTextIff | internal/billing/metering.go:272-286 | a text names a valid code exactly if it passes the identifier guard |
| Meters.StripsCompletelyIff | internal/billing/metering.go:394-399 | all suffixes are stripped exactly if batches stand before flex before priority, none twice |
| Meters.BaseCodeIdempotentIff | internal/billing/metering.go:394-399 | stripping twice equals stripping once exactly if the suffixes stand in that order; a double suffix out of order is stripped of one |
| Metering.UsageMap.EnsureParentMetric | internal/billing/metering.go:241-252 | fills in a missing parent with the exact sum of its children, in place |
| Metering.UsageMap.LimitChildrenToParent | internal/billing/metering.go:254-267 | cuts children back to their parent in list order, in place |
| Metering.UsageMap.NormalizeRelationships | internal/billing/metering.go:215-239 | the two rounds of passes compute the normalized map |
| MeteringLaws.ClampShares | internal/billing/metering.go:254-267 | which part each child keeps: the children laid end to end in list order and cut off at the parent |
| MeteringLaws.ClampTotal | internal/billing/metering.go:254-267 | together the children keep the smaller of their sum and the parent; if they fit nothing changes |
| MeteringLaws.NormalizedIsDisjoint | internal/billing/metering.go:215-239 | after normalization every meter holds at least what its sub-meters hold together, whatever was reported |
| MeteringLaws.NormalizedFixpointIff | internal/billing/metering.go:215-239 | the maps that normalization leaves alone are exactly the disjoint ones |
| MeteringLaws.NormalizeIdempotent | internal/billing/metering.go:191-239 | normalizing again changes nothing |
| MeteringLaws.FamilyTotals | internal/billing/metering.go:215-252 | the total that is billed is the reported one, or else the sum of what its details imply through all levels |
| MeteringLaws.NormalizedShares | internal/billing/metering.go:215-267 | what every detail keeps after both rounds of passes: the details of a meter, each with what it reported or its own details imply, laid end to end in list order and cut off at what the meter itself keeps |
| MeteringLaws.EffectiveExact | internal/billing/metering.go:513-580 | on a disjoint map an effective quantity is the exact remainder, never negative: the "below zero" branches are dead |
| MeteringLaws.FamilyConserved | internal/billing/metering.go:513-580 | the effective quantities of a family add up to its total, none negative |
| MeteringLaws.InputFamily | internal/billing/metering.go:515-572 | the input family is these eleven meters |
| MeteringLaws.OutputFamily | internal/billing/metering.go:537-549 | the output family is these five meters |
| Charging.NormalizeMeteredUsage | internal/billing/metering.go:191-209 | refuses invalid entries, else normalizes |
| CounterLaws.UsageRefusedIff | internal/billing/metering.go:191-209 | refused is exactly a key that is no meter text or a quantity that is negative or has more than thirty digits on either side of the point |
| Charging.SelectMeteredComponents | internal/billing/metering.go:429-461 | fails exactly if a billable code resolves to no price, and returns all billable codes otherwise |
| ChargeLaws.NearestPrice | internal/billing/metering.go:463-500 | a meter resolves to the nearest price published on its inheritance chain, and to none exactly if the chain has none |
| PriceInheritance.TierPriceFirst | internal/billing/metering.go:463-472 | the price published for the tier wins over the price of the code, and either wins over anything inherited |
| PriceInheritance.TierCodeText | internal/billing/metering.go:464-468 | a tier's price is published under the text of the code followed by the tier's suffix |
| PriceInheritance.FallbackPrices | internal/billing/metering.go:474-500 | each of the eighteen codes without a price of its own resolves like the one meter named there: for instance one-hour cache creation like cache creation, cached audio like input audio |
| PriceInheritance.NoOtherFallback | internal/billing/metering.go:474-500 | no other code without a price of its own has one |
| PriceInheritance.PriceChains | internal/billing/metering.go:474-500 | the whole inheritance chains, up to input_tokens or output_tokens |
| PriceInheritance.FallsBackOnContainer | internal/billing/metering.go:474-500 | every sub-meter falls back on the meter whose total contains it, except one-hour cache creation, which falls back on its sibling |
| ChargeLaws.SuffixedKeyUnbilled | internal/billing/metering.go:442-448 | a report of one key with one tier suffix bills nothing and is not refused, whatever the meter |
| Charging.ChargeLines | internal/billing/metering.go:351-370 | one line for each billable code whose code, stripped once more, has a quantity to charge, with that quantity, and no other line; the amount is the sum of the exact amounts of all billable codes; fails exactly if one of them cannot be priced |
| Charging.CalculateMeteredCharge | internal/billing/metering.go:337-377 | the charge and the failure of the specification, with those lines |
| LineLaws.BilledTimes | internal/billing/metering.go:351-367 | a quantity that is left to bill stands on exactly as many lines as there are billable codes that strip to its code |
| LineLaws.OwnQuantitiesIff | internal/billing/metering.go:351-352 | every billable code is charged for its own entry exactly if every key strips completely or has no positive entry at what it strips to |
| LineLaws.NothingFreeIff | internal/billing/metering.go:351-367 | every entry with something to bill stands on a line exactly if no positive entry has a suffixed key, and then every quantity stands on exactly one |
| LineLaws.DoubleSuffixFree | internal/billing/metering.go:351-367 | the first way to go wrong: a suffixed entry that another key strips to is selected, gets no line and costs nothing |
| LineLaws.DoubleSuffixTwice | internal/billing/metering.go:351-367 | the second: beside a plain entry the same two keys bill the plain quantity on two lines and the suffixed entry on none |
| LineLaws.LinesConserveTotals | internal/billing/metering.go:351-367 | on a disjoint map the lines carry at least each family's total, and exactly that if and only if no billable suffixed code strips to one of its meters with something to bill |
| ConservationLaws.UnpricedChargeIff | internal/billing/metering.go:429-500 | a charge fails for want of a price exactly if some usage key, stripped, has something to bill and no published price on its chain |
| ConservationLaws.EntriesChargedIff | internal/billing/metering.go:337-377 | a successful charge has a line for everything with something to bill exactly if the report has no positive entry under a suffixed key; then everything is billed exactly once |
| ConservationLaws.OwnEntriesChargedIff | internal/billing/metering.go:337-377 | for every acceptable report every billable code is charged for its own entry exactly if the report's keys strip completely or have no positive entry at what they strip to |
| ConservationLaws.ChargeConservesReport | internal/billing/metering.go:337-377 | the lines of a successful charge carry at least the total that was reported or implied, and exactly that if and only if no billable suffixed code strips to a meter of the family with something to bill |
| StoredPrices.StoredListCharges | internal/billing/metering.go:351-377 | with a stored list a charge fails for want of a published price, or else because a context lies beyond a bounded last tier, and in no other way |
| StoredPrices.StoredListPricesIff | internal/billing/metering.go:337-377 | a stored list prices an acceptable report if and only if neither happens |
| StoredPrices.ContextRunsOutAtSettlement | internal/billing/metering.go:603-622 | the concrete case: one token is held for, two are used, and the settlement finds no price |
| ChargeLaws.LinesNearAmount | internal/billing/metering.go:351-376 | of a successful charge whose lines reach the minimum, n printed lines miss the printed amount by at most (n + 1) half units of the thirtieth decimal |
| ChargeLaws.FactoredLinesNearAmount | internal/billing/metering.go:693-717 | a multiplier f stretches that to at most (f + 1)(n + 1) half units |
| ChargeLaws.FactoredLine | internal/billing/metering.go:693-717 | each line keeps its code, unit and quantity and has its amount and its rate multiplied and printed |
| Charging.MultiplyCharge | internal/billing/metering.go:693-717 | multiplies and prints amount, lines and prices; a negative multiplier is refused |
| Surcharges.FlatTotal | internal/billing/metering.go:351-370 | a flat charge before rounding is each meter's quantity at its own rate plus the rates at which suffixed codes bill it again, and the amounts for unrelated quantities |
| Surcharges.NeutralCharge | internal/billing/metering.go:337-377 | if all members of each family cost the same, or something unrelated lacks a price, the charge of a normalized map depends on the family totals and the unrelated meters alone |
| Itemization.ItemizationIsFree | internal/billing/metering.go:337-580 | the same for reports: with the same totals, given or implied, and the same unrelated entries they cost the same under every minimum, error included |
| Itemization.CleanItemizationIsFree | internal/billing/metering.go:463-580 | in particular without published sub-meter prices and with keys that strip completely or have no positive entry at what they strip to |
| Itemization.ItemizationIsFreeIff | internal/billing/metering.go:337-580 | the converse: beside given unrelated entries, no two reports with the same totals cost differently if and only if the members of each family all cost the same or something unrelated lacks a price |
| Itemization.UncleanKeyIsNotFree | internal/billing/metering.go:351-352 | a key that does not strip completely, with a positive, priced entry at what it strips to, makes some breakdown cost something unless such keys lead to every meter of the family |
| Itemization.UncleanExample | internal/billing/metering.go:351-352 | the concrete case: one token costs three, the same token reported as cached costs one, at equal prices |
| FlatPrices.CoveredCharge | internal/billing/metering.go:337-377 | with sub-meters no dearer than what contains them, splitting totals never raises a charge above that of the unsplit totals |
| IntakeLaws.SettlementNormalizesOnce | internal/billing/service.go:2393-2398 | a settlement works on the report merged once and normalized once, however often it is repeated, and is refused exactly if an entry is not acceptable or a merged total, reported or summed up, does not fit thirty integer digits |
| CounterLaws.MergedEntries | internal/billing/service.go:3546-3568 | a metric that is there and not zero stands, otherwise a positive counter takes its place, otherwise nothing changes; all other entries are the reported ones |
| CounterLaws.SettledTotals | internal/billing/service.go:3540-3592 | a settlement starts from the merged or implied totals, cached and reasoning tokens cut off at them, and from the other meters as reported |
| CounterLaws.CountersAreBilled | internal/billing/service.go:3540-3592 | a report of counters alone is billed for exactly its counters: input less cached, cached, output less reasoning, reasoning |
| CounterLaws.CountersFollowMetrics | internal/billing/service.go:3569-3592 | each counter becomes its normalized metric if that is a positive 64-bit integer; cached and reasoning stay within their totals |
| IntakeLaws.NormalizedAcceptedIff | internal/billing/metering.go:191-252 | an acceptable report stays acceptable when it is normalized exactly if both totals fit thirty integer digits |
| IntakeLaws.HugeDetailsRefused | internal/billing/service.go:2393-2398 | the concrete case: two details just below the limit, each acceptable, and a settlement refused |
| IntakeLaws.FirstDetailSurvives | internal/billing/service.go:3541-3591 | a cached or reasoning quantity vanishes in normalization only together with its total |
| Quotes.BuildPriceComponents | internal/billing/metering_sql.go:251-266 | published components first, legacy prices only for codes without one |
| Quotes.PrepareReservationMetrics | internal/billing/metering.go:761-799 | filters the estimate to what can be priced and normalizes again |
| QuoteLaws.KeptIff | internal/billing/metering.go:782-794 | a plain entry is kept exactly if its meter has a price, a suffixed one exactly if what it strips to has a price and something to bill |
| QuoteLaws.IndexedIff | internal/billing/metering.go:770-780 | a price list is usable exactly if every entry has a valid code and a unit and no code occurs twice |
| QuoteLaws.PreparedAlwaysPriced | internal/billing/metering.go:756-799 | pricing a prepared estimate never fails for want of a price, rebuilt parents included |
| QuoteLaws.PartNormalized | internal/billing/metering.go:761-799 | what is left of a disjoint map normalizes without cutting anything, and a rebuilt total has nothing of its own to bill |
| Quotes.CalculateQuote | internal/billing/service.go:1435-1457 | the amount a reservation holds and the estimate stored with it |
| Quotes.CalculateQuoteAgain | internal/billing/service.go:2967-3001 | the hold after moving to another model |
| Quotes.CalculateSettlement | internal/billing/service.go:2551-2579 | the amount a settlement charges |
| SettlementLaws.SnapshotTierStands | internal/billing/service.go:2131-2136 | with a tier in the snapshot the reported tier makes no difference to the settlement |
| SettlementLaws.ReportedTierCounts | internal/billing/service.go:2131-2136 | without one the reported tier is charged like a snapshot of it |
| SettlementLaws.TierExample | internal/billing/service.go:2131-2136 | the tiers do differ: one token snapshotted at priority settles at four whatever is reported, and without a snapshot at one when flex is reported |
| SettlementLaws.MultiplierScales | internal/billing/service.go:2563-2579 | a settlement is the printed product of the multiplier and the settlement at multiplier one; a negative multiplier is refused |
| SettlementLaws.NoUsageRefusedIff | internal/billing/service.go:2107-2129 | a token settlement is refused for want of usage exactly if no total and no other entry is positive and neither a minimum nor a per-request price of the tier charges for the request |
| HoldLaws.HoldCoversSettlement | internal/billing/service.go:1439-1457 | flat prices, no sub-meter dearer than its parent, same tier, totals within a plain estimate: the settlement is at most the hold plus half a unit of the thirtieth decimal, however usage is itemized |
| ItemizedEstimates.PlainReportIsDearest | internal/billing/service.go:2563-2579 | of all reports with the same totals the one without details costs most |
| ItemizedEstimates.HoldCoversIff | internal/billing/service.go:1439-1457 | any amount set aside covers every report within given totals if and only if it covers the report of these totals without details |
| ItemizedEstimates.ItemizedHoldFallsShort | internal/billing/service.go:1439-1457 | with cached tokens cheaper, an estimate that counts a token as cached holds less than that token costs uncached |
| ItemizedEstimates.ExampleFallsShort | internal/billing/service.go:1439-1457 | the concrete case: input at two, cached input at one, output at three; one token estimated as cached holds one and settles at two |
| MediaLaws.MediaSettlement | internal/billing/metering.go:67-156 | a media group settles on the reported media quantity, else the estimated one, at its unit price alone, and is refused exactly if there is neither |
| MediaLaws.MediaCustomer | internal/billing/metering.go:67-97 | in a media mode every other meter is dropped and the media quantity is the one reported |
| MediaHolds.MediaHold | internal/billing/service.go:1429-1457 | a media group holds the estimated media quantity at the unit price times the multiplier and stores that quantity alone; it refuses without a usable unit price |
| MediaHolds.MediaHoldAgain | internal/billing/service.go:2946-3001 | a rebind quotes the stored media quantity at the unit price again |
| MediaHolds.MediaHoldCovers | internal/billing/service.go:2551-2579 | the settlement of such a hold is the quantity used, else the one estimated, at the unit price, within half a unit of the hold when no more was used than estimated |
| MediaHolds.MediaWithoutUnitPrice | internal/billing/service.go:2551-2579 | without a unit price in the snapshot media settle and requote like a token request that reports nothing but the media quantity |
| LedgerService.Service.Credit | internal/billing/service.go:428-613 | the credit step on the tables: both balances, one transaction, two lines, or nothing |
| LedgerService.Service.OpenAmount | internal/billing/service.go:1621-1629 | sums the holds of a token's held and pending reservations |
| LedgerService.Service.CheckTokenSpendLimit | internal/billing/service.go:1612-1640 | allows exactly what keeps spending, open holds and the new hold within a non-zero limit |
| LedgerService.Service.Reserve | internal/billing/service.go:1360-1610 | the reserve step on the tables, each refusal in the order of the code |
| LedgerService.Service.MarkSettlementPending | internal/billing/service.go:1955-2056 | the pending step on the tables |
| LedgerService.Service.Settle | internal/billing/service.go:2379-2766 | the settle step on the tables: token, account, revenue, transaction, lines, reservation and request together |
| LedgerService.Service.SettleByModelRequest | internal/billing/service.go:2061-2091 | reconciliation settles only what is pending |
| LedgerService.Service.RebindReservationChannel | internal/billing/service.go:2825-3087 | the rebind step on the tables |
| LedgerService.Service.ExtendReservation | internal/billing/service.go:3089-3112 | the extend step on the tables: an expiry only ever moves forward |
| LedgerService.Service.ReleaseReservation | internal/billing/service.go:3118-3194 | the release step on the tables |
| LedgerService.Service.DueReservations | internal/billing/service.go:3200-3223 | the reaper's read: due holds only, none twice, earliest first, at most the batch, none left out that expires before a listed one |
| LedgerService.Service.ReleaseListed | internal/billing/service.go:3224-3234 | the reaper's releases, what is skipped, what ends the pass and what is counted |
| LedgerService.Service.ExpireReservations | internal/billing/service.go:3196-3235 | one uninterrupted pass |
| LedgerBooks.BooksBalance | internal/billing/service.go:539-599 | the invariant holds after every run: balances, open holds, lines, revenue, token spending, statuses and the journal agree |
| StepLaws.FailureChangesNothing | internal/billing/service.go:1384-1391 | a transaction that fails leaves every table as it was |
| StepLaws.CreditSucceedsIff | internal/billing/service.go:428-613 | an adjustment succeeds exactly with a new key, a positive amount within thirty digits, a known tenant and its currency |
| StepLaws.CreditEffect | internal/billing/service.go:428-613 | what it does to each balance, to the journal and to nothing else |
| StepLaws.ReserveSucceedsIff | internal/billing/service.go:1360-1610 | a reservation succeeds exactly with a new key and identity, a usable token, a price, room below the spend limit and the money |
| StepLaws.ReserveEffect | internal/billing/service.go:1360-1610 | it takes just the quoted hold out of the balance and opens one row for ten minutes |
| StepLaws.MultiplierIff | internal/billing/service.go:3734-3751 | a multiplier is admissible exactly as a positive number of millionths up to a thousand |
| StepLaws.MarkPendingOutcome | internal/billing/service.go:1955-2056 | marking keeps hold and money; settled rows are left alone, refunded ones refused |
| StepLaws.SettleSucceedsIff | internal/billing/service.go:2379-2766 | when a settlement takes effect; on a settled row it does nothing |
| StepLaws.SettleEffect | internal/billing/service.go:2379-2766 | the account gets back the hold and pays the amount, token and revenue grow by it, one transaction has the two lines unless it is zero |
| StepLaws.RebindSucceedsIff | internal/billing/service.go:2825-3087 | a rebind to another model needs an open row, a price, and the money for a larger hold |
| StepLaws.RebindEffect | internal/billing/service.go:2825-3087 | it replaces the hold by the new quote and moves just the difference |
| StepLaws.ExtendOutcome | internal/billing/service.go:3089-3112 | an expiry moves forward to now plus the extension and never back, for open rows and at most a day |
| StepLaws.ReleaseOutcome | internal/billing/service.go:3118-3194 | a release pays a held row back in full and leaves every other row as it is |
| StepLaws.ReconcileSettlesPending | internal/billing/service.go:2061-2091 | any change that reconciliation makes is the settlement of a pending row with the given request; on a held row it answers that the settlement is not pending |
| StepLaws.ReconcileNeverCharges | internal/billing/service.go:2061-2091 | over every run a row touched only by reserving, extending and reconciling is held and its request uncharged |
| LedgerAudit.AccountsReconcile | internal/billing/service.go:2646-2700 | after every run from a fresh store prepaid balances plus open holds are credits less debits, revenue is the sum of settled charges and of its lines, and a token has spent its settled charges |
| LedgerAudit.JournalReconciles | internal/billing/service.go:539-599 | every line belongs to a transaction of exactly two lines of the same positive amount that cancel |
| LedgerAudit.LedgerCancels | internal/billing/service.go:539-599 | the whole ledger sums to zero change in every run |
| LedgerAudit.RowsReconcile | internal/billing/service.go:2731-2758 | reservation and request status move in lockstep, and a closed hold is split into charge and release exactly |
| LedgerAudit.TopupIsNetIff | internal/billing/service.go:593 | the top-up balance is the gross of its lines, and debits less credits exactly while no administrator debit is booked |
| LedgerAudit.TopupExample | internal/billing/service.go:428-613 | ten credited and four debited leave six on the tenant and fourteen on top-up |
| LedgerAudit.OpenIsUncharged | internal/billing/service.go:2669-2672 | an open reservation was never charged; only an administrator's credit can have taken its charge key |
| LedgerRuns.RunFollows | internal/billing/service.go:1987-1995 | in every run identity is fixed, closed rows are final and pending can only become settled |
| LedgerRuns.ClosesOnce | internal/billing/service.go:2451-2456 | a reservation closes at most once, retries included |
| LedgerRuns.ChargedOnce | internal/billing/service.go:2669-2672 | a model request is charged by at most one transaction, only by settling its reservation and with exactly the settled amount |
| LedgerRuns.KeysWorkOnce | internal/billing/service.go:1391-1402 | under one idempotency key at most one credit and at most one reservation take effect in any run |
| LedgerRuns.SpendLimitHolds | internal/billing/service.go:1404-1460 | under every order of requests spending plus open holds stays within the limit plus settlements above their hold and rebind increases |
| LedgerRuns.BalanceFloor | internal/billing/service.go:2641-2650 | a prepaid balance falls below zero by no more than settlement overshoots and administrator debits |
| LedgerRuns.NegativeBlocks | internal/billing/service.go:1536-1549 | while a balance is negative no reservation from it succeeds, and a rebind that moves its money leaves it at zero or above |
| ReaperLaws.ReleaseRefundsHeldOnly | internal/billing/service.go:3155-3183 | a release takes effect exactly on a held row, pays back its whole current hold and touches nothing else |
| ReaperLaws.RefundedOnce | internal/billing/service.go:3118-3194 | over every run a reservation that ends released or expired was paid back exactly once with the recorded amount, and one that ends held, pending or settled never |
| ReaperLaws.PassLeavesNoHold | internal/billing/service.go:3196-3235 | whatever steps interleave, after a pass no listed reservation is held |
| ReaperLaws.ListedExpiresIffHeld | internal/billing/service.go:3155-3160 | a listed hold expires at its turn exactly if it is still held, and gets back its current amount |
| ReaperLaws.ExpiresEarlyIff | internal/billing/service.go:3155-3160 | a release expires a hold that is not due exactly if it is held and its expiry lies ahead |
| ReaperLaws.ExtendedHoldStillExpires | internal/billing/service.go:3155-3160 | extending a due hold between read and release does not save it |
| ReaperLaws.PassIsRun | internal/billing/service.go:3224-3234 | on sound books a pass never stops early and is a run of releases |
| ReaperLaws.PassClearsDue | internal/billing/service.go:3196-3235 | an uninterrupted pass expires what it listed and nothing else, and unless the batch was full nothing due is left |
| ReaperLaws.PassCounts | internal/billing/service.go:3224-3234 | the number a pass reports: every listed id that is there and not pending |
| ReaperLaws.ReconcileReadIsStable | internal/billing/service.go:2069-2090 | reading a pending row first and settling later is the same as doing both at once |
| FairRuns.CoveredSettlement | internal/billing/service.go:2563-2579 | a hold quoted for a plain estimate covers a fair report up to half a unit of the thirtieth decimal |
| FairRuns.RebindCovers | internal/billing/service.go:2967-3001 | moving covered holds to a model with a fair price requotes them so that they stay covered |
| FairRuns.FairRunsStayFunded | internal/billing/service.go:2641-2650 | from a fresh store, under every interleaving of fair steps, moves to other models included, no prepaid balance falls below zero by more than half a unit of the thirtieth decimal a step, and no token passes its limit by more than that and the rebind increases |
| Throttles.RequestThrottle.Allow | internal/auth/request_throttle.go:53-111 | the quota rule on the table; other subjects are untouched |
| Throttles.NewRequestThrottle | internal/auth/request_throttle.go:24-32 | refuses exactly the invalid limits |
| ThrottleLaws.GrantsBetweenResets | internal/auth/request_throttle.go:81-111 | from the call that starts a window to the next start at most the maximum is granted |
| ThrottleLaws.AnyWindowGrants | internal/auth/request_throttle.go:53-111 | after any history an interval no longer than the window lets at most twice the maximum less one through |
| ThrottleLaws.WindowBoundIsTight | internal/auth/request_throttle.go:53-111 | that bound is reached, for every maximum and window |
| ThrottleLaws.LockDenies | internal/auth/request_throttle.go:78-80 | until a lock ends every call is denied and the row stays |
| ThrottleLaws.DenialLocks | internal/auth/request_throttle.go:92-101 | a denial without an active lock means the quota is spent, and starts a whole lock period without a grant |
| ThrottleLaws.PauseRestores | internal/auth/request_throttle.go:53-111 | after a pause longer than the window and as long as a lock the next call is granted |
| Throttles.LoginThrottle.RecordFailure | internal/auth/login.go:377-402 | the single update with three CASE columns over the old row |
| Throttles.LoginThrottle.IsThrottled | internal/auth/login.go:361-375 | true exactly while a lock lies ahead |
| Throttles.StepUpThrottle.RecordStepUpFailure | internal/mfa/enrollment.go:362-392 | the locked read-modify-write with its three updates |
| ThrottleLaws.RecordersAgreeIff | internal/mfa/enrollment.go:362-397 | with equal limits both recorders keep the same row through every run of failures and clears exactly from rows without an unearned lock, in particular from none |
| ThrottleLaws.ShutOutIff | internal/auth/login.go:377-402 | failures within one window shut a subject out exactly if they reached the maximum, were at least two, and the lock after the last is not over |
| ThrottleLaws.ShutOutNeedsFailures | internal/auth/login.go:377-409 | nobody is shut out with fewer than the maximum of failures since the last success |
| ThrottleLaws.StepUpLocks | internal/mfa/enrollment.go:29-31 | the second factor is locked for a quarter of an hour exactly from the fifth failure within a quarter of an hour on |

## Left out

- Charging.ChargeLines: lines are specified up to order, one for each code, while the program sorts them by code; and which of several unpriceable lines is reported is not stated, because only the message depends on it.
- Spaces around codes and blank usage entries: keys are taken as trimmed and entries as present.
- Non-ASCII spaces and digits in decimal texts, and number texts that only the rational parser accepts (signs, fractions); a price or bound that is no decimal reads as negative, which the same branches refuse.
- Invalid JSON in tiers and metadata; component metadata other than the context basis.
- The texts of error messages.
- Database column scale and rounding, and database errors: numeric is exact and a failed step changes nothing.
- The group multiplier is a plain decimal: a text such as 1e-7, which is accepted and printed as zero, is not modelled.
- Upstream cost estimates: a step takes as input whether they could be computed; they move no balance.
- Field validation of requests that no amount depends on, and the request's free-text and reporting columns.
- Price resolution by scope and date, publishing with effective dates, and official price imports: a step takes the price that resolves, if any.
- Price snapshots as JSON: only the tier, the metering mode, the unit price, the multiplier and the price that settlement reads back are kept, and an official price is taken to keep the reservation's currency.
- Creation of tenants, tokens and empty accounts, changes of token limits, and the free-request paths, which post nothing.
- Reservations and their model requests are one row, because both are inserted together and request ids are unique.
- The reaper's clock, ids and times are inputs; times are whole units.
- Subject digests are opaque distinct keys; the length limits on throttle subjects are not modelled.
- HTTP, streaming, sessions, mail, relay, payment, users, dashboards and reports other than the decimal printer: plumbing or read-only aggregation.
