# Fee revenue engine and report cleaning rules, in Dafny

This project models the core of an operations-analysis repository for a payment
processor. Its centre is the fee engine (`src/calc_fee_revenue.py`). The engine
normalises the transaction columns and tiers each row by its own amount. It then
resolves a fee rate from a fixed tariff schedule (free channels, Link credit-only,
non-Link D0/Nitro, non-Link tiered D1) and computes `fee_revenue = amount × rate`.
It logs the Link+debit rows and sums revenue by payment method, by anticipation
method and, for credit rows only, by installments.

Around the engine, five sibling scripts re-implement the same cleaning rules with
small differences. They lower-case and trim labels, overwrite the payment method
on pix and bank-slip rows, and coerce numbers with defaults. They also compute
`agg_basic` averages with a zero guard, shares of a total, mixes, and a rule-based
list of hypotheses. These scripts are modelled too.

Modules, one per component or source file:

- `Tiers` (tiers.dfy): one bucket index with the fee engine's labels and the report's labels.
- `Rates` (rates.dfy): the four rate tables as exact `real` maps, and `FeeRateForRow`.
- `FeeEngine` (fee_engine.dfy): the normaliser, the per-row resolution, the batch over an
  `array` of rows (`ResolveAll`, `Summarise`, `Run`), the anomaly log and the aggregates.
- `Text` (text.dfy): Python's `strip`, `lower`, `replace(" ", "_")` and `replace(" ", "")`.
- `Aggregates` (aggregates.dfy): `groupby(...).sum()` (one row per distinct key, listed in
  first-seen order, where pandas sorts the keys), column sums, and `sort_values` as a stable
  insertion sort.
- `Frames` (frames.dfy): a pandas frame as a class with a column set and an `array` of
  records. `Assign` models `df[c] = ...` and `AssignWhere` models `df.loc[mask, c] = ...`,
  both in place.
- `Floats` (floats.dfy): float division by zero (±inf, NaN), `fillna`,
  `replace([inf])`, and truncating `astype(int)`.
- `Reporting` (reporting.dfy): the shared cleaning and aggregation helpers of the
  report scripts.
- `AnswersReport`, `BuildKpis`, `FixPaymentMethod`, `BuildLookerDataset`,
  `LowestTierAnalysis`: one module per sibling script.

Rates and amounts are exact reals, so 0.0279 is exactly 279/10000. Where the
fee engine and a report script disagree, the model follows each script's own
code. The fee engine defaults missing installments to 1, and `answers_report.py`
defaults them to 0. The fee engine removes every space from the anticipation
method and keeps its case. The report scripts lower-case it and turn spaces into
`_`.

## Model

| member | source | states |
|---|---|---|
| `Tiers.Bucket` | src/calc_fee_revenue.py:20-24 | every amount gets one of four buckets; a bucket below 3 has the amount at or under its inclusive upper bound (20000, 40000, 80000), and a bucket above 0 has it over the previous bound |
| `Tiers.BucketMonotone` | src/calc_fee_revenue.py:20-24 | a larger amount never lands in a lower bucket |
| `Tiers.TierFunctionsUseBucket` | src/answers_report.py:29-33 | `tier_for_amount` and the report's `tier` are the same bucket index printed through two label tables |
| `Tiers.LabelsIdentifyBuckets` | src/calc_fee_revenue.py:20-24 | each label table has four distinct labels, so a label gives back its bucket |
| `Tiers.TiersAgree` | src/answers_report.py:29-33 | both tier functions put every amount in the same bucket, and two amounts share a fee tier exactly when they share a report tier |
| `Tiers.TierBoundaries` | src/calc_fee_revenue.py:20-24 | 20000 goes to "<=20000", 20000.01 to "20001-40000", 80000 to "40001-80000" and 80000.01 to ">80000"; the report's labels follow the same bounds |
| `Tiers.LabelIndex` | src/calc_fee_revenue.py:20-24 | a tier label is read back as an index below 4 in either label table: one of the first three labels gives its own position, anything else the last bucket |
| `Rates.LinkTablesShape` | src/calc_fee_revenue.py:40-47 | both Link tables are keyed exactly by installments 1 to 12, and every rate in them is in (0, 0.1879] |
| `Rates.D0NonLinkShape` | src/calc_fee_revenue.py:31-37 | the D0/Nitro non-Link table has exactly debit×1 and credit×1..12 as keys, with rates in (0, 0.1879] |
| `Rates.D1NonLinkShape` | src/calc_fee_revenue.py:51-80 | each of the four tier sub-tables has the same keys as the D0 table, with rates in (0, 0.1879] |
| `Rates.D1NonLinkTiers` | src/calc_fee_revenue.py:51-80 | the tiered table's keys are exactly the four labels of `tier_for_amount` |
| `Rates.TierLabelsAreScheduled` | src/calc_fee_revenue.py:131 | every tier a row can get selects a sub-table, so the `{}` fallback is never reached |
| `Rates.LookupsInRange` | src/calc_fee_revenue.py:120-133 | every `.get(key, 0.0)` on the schedule gives 0 or a rate in (0, 0.1879] |
| `Rates.FeeRateForRow` | src/calc_fee_revenue.py:106-133 | the resolved rate is always within [0, 0.1879], a subset of [0, 1] |
| `Rates.FreeChannelIsFree` | src/calc_fee_revenue.py:114-115 | pix or bank_slip in the payment method or the product gives exactly 0, whatever the other fields are |
| `Rates.LinkCreditRate` | src/calc_fee_revenue.py:118-120 | Link credit uses LINK_D0 under exactly "D0/Nitro" and LINK_D1 under any other spelling; the tier is ignored; the rate is positive exactly for installments 1 to 12 |
| `Rates.LinkWithoutCreditIsZero` | src/calc_fee_revenue.py:121-122 | Link with any method other than credit gives 0 |
| `Rates.NitroNonLinkRate` | src/calc_fee_revenue.py:125-128 | non-Link under exactly "D0/Nitro" uses the tier-agnostic table with debit looked up as one installment; debit always gives 0.0279 |
| `Rates.TieredNonLinkRate` | src/calc_fee_revenue.py:129-133 | non-Link under any other anticipation spelling uses the sub-table of the row's amount tier, with the same key shape |
| `Rates.PricedExactly` | src/calc_fee_revenue.py:106-133 | a row gets a positive rate exactly when neither column is a free channel and it is credit in 1 to 12 installments, or debit on a product other than Link |
| `Rates.TieredRateNonIncreasing` | src/calc_fee_revenue.py:51-80 | under D1 a higher tier never charges more for the same key |
| `Rates.NitroCostsAtLeastD1` | src/calc_fee_revenue.py:31-80 | off Link, the D0/Nitro rate of a scheduled key is at least its D1 rate in every tier |
| `Rates.LinkNitroCostsAtLeastD1` | src/calc_fee_revenue.py:40-47 | on Link with credit, the D0/Nitro rate is at least the D1 rate for every installment count from 1 to 12 |
| `Rates.ScheduleExamples` | src/calc_fee_revenue.py:31-133 | pos/debit/D0 gives 0.0279; link/credit/D1/3x gives 0.0701; pos/credit/D1/2x at 15000 gives 0.0557; link/debit gives 0; tap/credit/D0/12x gives the maximum |
| `FeeEngine.NormalisePaymentMethod` | src/calc_fee_revenue.py:88-98 | the payment method comes out lower case and trimmed, and is never "bank slip" (that spelling becomes "bank_slip") |
| `FeeEngine.NormaliseProduct` | src/calc_fee_revenue.py:89 | the product comes out lower case and trimmed |
| `FeeEngine.NormaliseAnticipation` | src/calc_fee_revenue.py:90 | the anticipation method has no spaces and is trimmed; text already in that form is kept, case included |
| `FeeEngine.Normalise` | src/calc_fee_revenue.py:88-98 | missing installments become 1, others are truncated; the amount, day and entity are passed through |
| `FeeEngine.NormalisationIdempotent` | src/calc_fee_revenue.py:88-98 | normalising any column twice is normalising it once |
| `FeeEngine.NormalFormsAreFixed` | src/calc_fee_revenue.py:88-98 | text already lower case and trimmed is left as it is by each column's normalisation |
| `FeeEngine.NormaliseOfNormalRow` | src/calc_fee_revenue.py:88-98 | a row whose labels are already normal keeps them |
| `FeeEngine.NormalisationExamples` | src/calc_fee_revenue.py:88-98 | "D0 / Nitro" becomes "D0/Nitro", " Bank Slip" becomes "bank_slip" and "POS " becomes "pos" |
| `FeeEngine.Resolve` | src/calc_fee_revenue.py:101-136 | a row keeps its fields, is tiered by its own amount, and gets a rate within [0, 0.1879] |
| `FeeEngine.RevenueBounds` | src/calc_fee_revenue.py:137 | on a non-negative amount, the revenue (amount × rate) lies between 0 and amount × 0.1879 |
| `FeeEngine.ResolveRows` | src/calc_fee_revenue.py:136-137 | the detailed table has one row per input row |
| `FeeEngine.ResolveRowsAt` | src/calc_fee_revenue.py:136-137 | row i of the detailed table is input row i, normalised and resolved |
| `FeeEngine.ResolveAll` | src/calc_fee_revenue.py:88-137 | the loop fills a fresh array with the detailed table of the input array, row for row and in order |
| `FeeEngine.Summarise` | src/calc_fee_revenue.py:142-170 | one pass gives the anomaly log and the total; the aggregates are the grouped sums by payment method and by anticipation method (descending revenue) and by installments over credit rows (ascending) |
| `FeeEngine.Run` | src/calc_fee_revenue.py:85-170 | the whole batch: the detailed table, the anomaly log, the total and the three aggregates |
| `FeeEngine.AppendStep` | src/calc_fee_revenue.py:142-170 | how the anomaly log, the total and each aggregate's input grow when one row is added |
| `FeeEngine.AnomaliesAreLinkDebit` | src/calc_fee_revenue.py:142-145 | the anomaly log holds exactly the Link+debit rows of the detailed table, each with rate and revenue 0 |
| `FeeEngine.OtherFallbacksAreSilent` | src/calc_fee_revenue.py:118-142 | Link credit in 13 installments and Link "uninformed" earn 0 but are not logged |
| `FeeEngine.PaymentMethodTable` | src/calc_fee_revenue.py:156-161 | the per-payment-method table adds up to the total revenue, is a permutation of the grouped sums, and is ordered by descending revenue |
| `FeeEngine.RevenueColumnSum` | src/calc_fee_revenue.py:156-161 | the (method, revenue) column sums to the total revenue |
| `FeeEngine.InstallmentsTable` | src/calc_fee_revenue.py:167-170 | the installments table is ascending by installments, every key comes from a credit row, and it adds up to the credit rows' revenue |
| `FeeEngine.CreditPairsFromCreditRows` | src/calc_fee_revenue.py:167-168 | the credit (installments, revenue) pairs come from credit rows only and sum to their revenue |
| `FeeEngine.NitroDebitExample` | src/calc_fee_revenue.py:125-137 | pos/debit/D0/1x/1000 gives rate 0.0279 and revenue 27.90 |
| `FeeEngine.LinkCreditExample` | src/calc_fee_revenue.py:118-137 | link/credit/D1/3x/5000 gives rate 0.0701 and revenue 350.50 |
| `FeeEngine.TieredCreditExample` | src/calc_fee_revenue.py:101-137 | pos/credit/D1/2x/15000 is in the lowest tier and gives rate 0.0557 and revenue 835.50 |
| `FeeEngine.LinkDebitExample` | src/calc_fee_revenue.py:121-142 | link/debit/D0/1x/100 gives rate 0 and is an anomaly |
| `Text.Trim` | src/answers_report.py:18-19 | `strip()` yields text with no white space at either end |
| `Text.TrimMeaning` | src/answers_report.py:18-19 | what `strip()` keeps is an infix of the input, and everything cut from either end is white space |
| `Text.TrimUnique` | src/answers_report.py:18-19 | white space, then a trimmed core, then white space, strips to that core |
| `Text.TrimIdempotent` | src/answers_report.py:18-19 | stripping twice is stripping once |
| `Text.Lower` | src/answers_report.py:18 | `lower()` keeps the length and lowers each character |
| `Text.LowerOfLower` | src/answers_report.py:18 | text with no upper-case letter is left as it is by `lower()` |
| `Text.StripLowerCommute` | src/calc_fee_revenue.py:88-89 | lowering then stripping equals stripping then lowering |
| `Text.Underscored` | src/answers_report.py:18 | `replace(" ", "_")` keeps the length and turns every space into `_` |
| `Text.WithoutSpaces` | src/calc_fee_revenue.py:90 | `replace(" ", "")` leaves no space and keeps text without spaces as it is |
| `Text.WithoutSpacesAppend` | src/calc_fee_revenue.py:90 | removing spaces works piece by piece over concatenation |
| `Aggregates.GroupSumMeaning` | src/calc_fee_revenue.py:159-160 | `groupby().sum()` has one row per key present, each key once, holding the sum of that key's values |
| `Aggregates.GroupSumTotal` | src/calc_fee_revenue.py:156-161 | the group sums add up to the column sum |
| `Aggregates.UpsertGroupSum` | src/calc_fee_revenue.py:159-160 | adding one row to a running grouped table gives the grouped table of the longer input |
| `Aggregates.GroupAndSum` | src/calc_fee_revenue.py:159-170 | the one-pass accumulation returns exactly the grouped sums |
| `Aggregates.SortBy` | src/calc_fee_revenue.py:160 | `sort_values` keeps length and multiset |
| `Aggregates.SortBySorted` | src/calc_fee_revenue.py:160 | the sorted table is ordered by its key |
| `Aggregates.SortByKeepsSum` | src/calc_fee_revenue.py:160 | sorting does not change a column sum |
| `Aggregates.SortByDistinct` | src/q12_lowest_tier_analysis.py:65 | sorting keeps distinct keys distinct |
| `Aggregates.SortedEnds` | src/q12_lowest_tier_analysis.py:31-33 | in a sorted table the first element has the smallest key and the last the largest |
| `Frames.Set` | src/answers_report.py:19-22 | writing one cell of a row makes that cell the new value |
| `Frames.SetKeepsOthers` | src/answers_report.py:19-22 | writing one cell leaves every other cell as it was |
| `Frames.ToNumber` | src/answers_report.py:11-13 | `to_numeric(errors="coerce").fillna(0)`: a number stays, and a missing or unreadable value becomes 0 |
| `Frames.Where` | src/answers_report.py:114 | a boolean mask selects exactly the rows that meet it |
| `Frames.CountWhereMeaning` | src/fix_payment_method.py:34 | `mask.sum()` is the number of rows the mask selects; a mask and its complement share all rows |
| `Frames.Frame.Assign` | src/answers_report.py:19-22 | `df[c] = f(df)` in place: column c of every row becomes f of that row, nothing else changes |
| `Frames.Frame.AssignWhere` | src/answers_report.py:25-26 | `df.loc[mask, c] = ...` in place: only masked rows get a new cell c |
| `Frames.Frame.Count` | src/fix_payment_method.py:34 | the loop counts the rows the mask selects |
| `Floats.Div` | src/build_looker_dataset.py:26 | float division: exact when the divisor is not 0, else +inf, -inf or NaN by the sign of the dividend |
| `Floats.FillNaN` | src/build_looker_dataset.py:26 | `fillna` removes NaN and keeps every other value |
| `Floats.ReplacePosInf` | src/build_looker_dataset.py:26 | `replace([inf], x)` removes +inf only |
| `Floats.TruncZero` | src/build_looker_dataset.py:20 | `astype(int)` rounds toward zero: the result is within one of the value, on the value's side of zero (the fee engine's installments use it too) |
| `Floats.TruncZeroMeaning` | src/build_looker_dataset.py:20 | truncation keeps whole numbers and never moves a value away from zero |
| `Reporting.CoerceColumnsMeaning` | src/answers_report.py:11-13 | the coerced columns hold numbers (0 for missing or unreadable), and no other column changes |
| `Reporting.CoercedRow` | src/answers_report.py:11-13 | coercing the three numeric columns rewrites exactly those three cells |
| `Reporting.PresentColumnsMeaning` | src/build_kpis.py:11-12 | the columns coerced are the listed ones the file has |
| `Reporting.CoercePresent` | src/build_kpis.py:10-13 | the loop coerces, in place, each listed column the file has |
| `Reporting.CoerceColumnsOnlyNumeric` | src/build_kpis.py:10-13 | coercion changes only numeric columns |
| `Reporting.CoerceColumnsKeepsLabels` | src/q12_lowest_tier_analysis.py:11-14 | coercion leaves every label and date cell as it was |
| `Reporting.NormLabel` | src/answers_report.py:18 | `norm` yields lower-case, trimmed text with no spaces |
| `Reporting.NormLabelSourceOrder` | src/answers_report.py:18 | the model's order equals the script's order: strip, lower, then replace |
| `Reporting.NormLabelIdempotent` | src/answers_report.py:18 | applying `norm` twice is applying it once |
| `Reporting.FillBlank` | src/answers_report.py:18-19 | `fillna("")` removes missing cells and keeps the others |
| `Reporting.NormCell` | src/build_kpis.py:18-19 | `.str` normalisation keeps text as text and turns anything else into NaN |
| `Reporting.NormCellShape` | src/build_kpis.py:18-19 | a normalised cell is NaN or lower-case trimmed text without spaces |
| `Reporting.NormCellIdempotent` | src/build_kpis.py:18-19 | normalising a cell twice is normalising it once |
| `Reporting.StripCell` | src/build_kpis.py:21 | `.str.strip()` keeps text as text |
| `Reporting.StripCellKeepsCase` | src/answers_report.py:19 | the stripped entity is a trimmed infix of the original, case kept |
| `Reporting.LowerStripCell` | src/build_kpis.py:20 | `.str.strip().str.lower()` keeps text as text |
| `Reporting.LowerStripSourceOrder` | src/build_kpis.py:20 | the product is stripped and lowered in the script's order, and comes out trimmed and lower case |
| `Reporting.PixFixMeaning` | src/answers_report.py:25-26 | pix and bank_slip rows take the anticipation method as payment method; other rows and other columns are unchanged; a second pass changes nothing |
| `Reporting.FixFreeChannels` | src/build_kpis.py:24-25 | the masked overwrite applied in place to every row |
| `Reporting.MakeBasic` | src/answers_report.py:47 | the average ticket times the transactions gives the amount when transactions are not 0, and is 0 otherwise |
| `Reporting.AggBasic` | src/build_kpis.py:28-35 | `agg_basic` sums the amount and the transactions, and guards the average ticket against a zero count |
| `Reporting.Pairs` | src/answers_report.py:83 | the (key, value) column pair read by a groupby has one entry per row |
| `Reporting.SumIfIsGroupSum` | src/answers_report.py:83 | a group's sum is the sum over exactly the rows with its key |
| `Reporting.PairsTotal` | src/answers_report.py:83 | the value column of the pairs sums to the source column |
| `Reporting.GroupBasicMeaning` | src/build_kpis.py:38 | `groupby().apply(agg_basic)` has one group per key, each is `agg_basic` of that key's rows, and the amounts add up to the whole |
| `Reporting.CreditInstallmentsIgnoreOthers` | src/answers_report.py:114-115 | adding a non-credit row leaves the installment breakdown unchanged |
| `Reporting.CreditInstallmentsMeaning` | src/answers_report.py:114-115 | each installment group is `agg_basic` of the credit rows with that count, and the groups add up to the credit amount |
| `Reporting.Shares` | src/answers_report.py:84 | the share table keeps each key and TPV |
| `Reporting.SharesSumToOne` | src/answers_report.py:84 | with a non-zero total every share is finite and the shares sum to 1 |
| `AnswersReport.AvgTicketRowGuard` | src/answers_report.py:37-38 | the row average ticket times a positive count gives the amount; a zero or negative count gives 0 |
| `AnswersReport.CleanRowLabels` | src/answers_report.py:18-26 | entity only stripped; product and both methods normalised after `fillna("")`; payment method replaced on pix and bank_slip rows |
| `AnswersReport.CleanRowNumbers` | src/answers_report.py:11-13 | amount, quantity and installments are coerced, with 0 for an empty or unreadable cell (so installments default to 0); untouched columns keep their cells |
| `AnswersReport.CleanRowDerived` | src/answers_report.py:34-38 | the tier and the row average ticket come from the row's own coerced values |
| `AnswersReport.CleanRowTier` | src/answers_report.py:29-34 | the report tier of a cleaned row is in the same bucket as the fee engine's tier for that amount |
| `AnswersReport.CleanRowIdempotent` | src/answers_report.py:11-38 | cleaning a cleaned row changes nothing |
| `AnswersReport.PaymentMethodSharesMeaning` | src/answers_report.py:83-84 | one row per payment method holding its TPV; with a non-zero total the shares are finite and sum to 1 |
| `AnswersReport.CoerceNumeric` | src/answers_report.py:11-13 | the loop coerces the three numeric columns in place, on a frame that has all three |
| `AnswersReport.RelabelFrame` | src/answers_report.py:19-22 | the four label columns rewritten in place |
| `AnswersReport.DeriveFrame` | src/answers_report.py:34-38 | `monthly_tier` and `avg_ticket_row` added in place |
| `AnswersReport.Clean` | src/answers_report.py:10-38 | the cleaning pass in place; a file without an indexed label column or without one of the three numeric columns (whose `df.get(c, 0)` default has no `fillna`) stops it and leaves the frame as it was |
| `BuildKpis.CleanRowLabels` | src/build_kpis.py:18-25 | both methods normalised, product only stripped and lowered, entity only stripped, missing labels stay missing, payment method overwritten on pix and bank_slip rows |
| `BuildKpis.CleanRowNumbers` | src/build_kpis.py:10-13 | a numeric column is coerced only when the file has it |
| `BuildKpis.ProductKeepsSpaces` | src/build_kpis.py:20 | a clean product name keeps its inner spaces |
| `BuildKpis.RelabelFrame` | src/build_kpis.py:18-21 | the label columns rewritten in place |
| `BuildKpis.Clean` | src/build_kpis.py:8-25 | the cleaning pass in place; a file without one of the five columns lines 8-25 index stops it |
| `BuildKpis.CreditInstallmentsKpiMeaning` | src/build_kpis.py:42-43 | the installment KPI is ascending by installments, holds the credit groups, adds up to the credit amount and ignores non-credit rows |
| `BuildKpis.PriceTierKpi` | src/build_kpis.py:47-50 | the price-tier KPI exists exactly when the file has a `price_tier` column, and then adds up to the whole amount |
| `BuildKpis.WeekdayRank` | src/build_kpis.py:53-55 | a weekday ranks by its position Monday..Sunday; anything else ranks last |
| `BuildKpis.WeekdayKpiOrdered` | src/build_kpis.py:53-56 | the weekday KPI runs Monday to Sunday, then unknown days, and adds up to the whole amount |
| `BuildKpis.KpisMeaning` | src/build_kpis.py:37-61 | KPIs 1, 3, 4 and 5 add up to the whole amount, KPI 2 is ascending by installments and adds up to the credit amount, and KPI 3 exists exactly when the file has `price_tier` |
| `BuildKpis.Run` | src/build_kpis.py:8-61 | the whole script: clean in place, then the five tables; a file without the five label and date columns, or without `amount_transacted`, `quantity_transactions` or `installments` (read by `agg_basic` and KPI 2's `groupby`), stops it and leaves the frame as it was |
| `FixPaymentMethod.CanonCases` | src/fix_payment_method.py:24-30 | `canon` returns "Pix" exactly for spellings of pix, "Bank slip" exactly for the four bank-slip spellings, and the unstripped input otherwise |
| `FixPaymentMethod.CanonOfPix` | src/fix_payment_method.py:25-27 | the canonical "Pix" is itself a spelling the pix branch recognises |
| `FixPaymentMethod.CanonOfBankSlip` | src/fix_payment_method.py:28-29 | the canonical "Bank slip" is itself one of the bank-slip spellings |
| `FixPaymentMethod.PaddedNamesAreTrimmed` | src/fix_payment_method.py:26-29 | the two canonical names have no surrounding white space |
| `FixPaymentMethod.CanonIdempotent` | src/fix_payment_method.py:24-30 | `canon(canon(x)) == canon(x)` |
| `FixPaymentMethod.MaskedSpellingsAreCanonical` | src/fix_payment_method.py:21-30 | every spelling the mask selects is one `canon` recognises |
| `FixPaymentMethod.FixRowMeaning` | src/fix_payment_method.py:16-32 | masked rows get exactly "Pix" or "Bank slip"; other rows keep their stripped payment method; no other column changes |
| `FixPaymentMethod.FixRowIdempotent` | src/fix_payment_method.py:16-32 | running the fix on its own output changes nothing |
| `FixPaymentMethod.Fix` | src/fix_payment_method.py:16-34 | the script in place; the update count equals the number of masked rows; a missing column stops it |
| `FixPaymentMethod.FixFrame` | src/fix_payment_method.py:16-32 | strip then rewrite, in place |
| `FixPaymentMethod.StripFrame` | src/fix_payment_method.py:16-17 | both columns get `fillna("")` and strip, in place |
| `FixPaymentMethod.RewriteFrame` | src/fix_payment_method.py:32 | only masked rows get their payment method rewritten, in place |
| `BuildLookerDataset.FixUninformedMeaning` | src/build_looker_dataset.py:11-13 | exactly "uninformed" is replaced by the anticipation method; other values and columns are unchanged; idempotent |
| `BuildLookerDataset.IntCell` | src/build_looker_dataset.py:18-20 | a missing installments cell becomes 1, a number its integer part, a non-integer text stops the script; the result is a whole number |
| `BuildLookerDataset.EffectiveRate` | src/build_looker_dataset.py:26 | the take rate times the amount gives the fee when the amount is not 0, and is 0 otherwise |
| `BuildLookerDataset.EffectiveRateAsWrittenKeepsNegInf` | src/build_looker_dataset.py:26 | the expression as written gives -inf exactly for a negative fee over a zero amount, and the intended rate everywhere else |
| `BuildLookerDataset.ProjectMeaning` | src/build_looker_dataset.py:29-31 | an output line holds exactly the ten listed columns, in the listed order |
| `BuildLookerDataset.LookerRowMeaning` | src/build_looker_dataset.py:11-31 | each output line holds the patched payment method, integer installments, coerced money columns and the guarded take rate; the other cells are the file's own |
| `BuildLookerDataset.FixUninformedFrame` | src/build_looker_dataset.py:11-13 | the masked overwrite in place |
| `BuildLookerDataset.InstallmentsConvert` | src/build_looker_dataset.py:20 | the loop reports whether every installments value converts |
| `BuildLookerDataset.ConvertInstallments` | src/build_looker_dataset.py:18-20 | the column is converted in place when every row converts, and left as it was otherwise |
| `BuildLookerDataset.PatchFrame` | src/build_looker_dataset.py:11-20 | the payment-method fix and the installments conversion, in place |
| `BuildLookerDataset.PrepareFrame` | src/build_looker_dataset.py:11-26 | the whole in-place preparation, row by row |
| `BuildLookerDataset.Build` | src/build_looker_dataset.py:8-31 | the extract has one line per row, or nothing when a column is missing or an installments value does not convert |
| `LowestTierAnalysis.NormOfBlank` | src/q12_lowest_tier_analysis.py:19 | a missing label normalises to "" |
| `LowestTierAnalysis.NormColumnDiscrepancy` | src/q12_lowest_tier_analysis.py:19-23 | with the column present, the code as written and the intended `norm` agree; with it absent, the code as written stops and the intended one gives "" in every row |
| `LowestTierAnalysis.NormDefaultShape` | src/q12_lowest_tier_analysis.py:19-23 | every label the intended `norm` gives is text, trimmed, lower case and without spaces |
| `LowestTierAnalysis.CleanRowCounts` | src/q12_lowest_tier_analysis.py:11-14 | a count column is coerced exactly when the file has it |
| `LowestTierAnalysis.CleanRowLabels` | src/q12_lowest_tier_analysis.py:16-27 | labels normalised; payment method overwritten on pix and bank_slip rows; weekday named from the parsed day |
| `LowestTierAnalysis.DateFrame` | src/q12_lowest_tier_analysis.py:16-17 | day and weekday columns written in place |
| `LowestTierAnalysis.NormTierAndProduct` | src/q12_lowest_tier_analysis.py:20-21 | price tier and product normalised in place |
| `LowestTierAnalysis.NormMethods` | src/q12_lowest_tier_analysis.py:22-23 | both method columns normalised in place |
| `LowestTierAnalysis.NormFrame` | src/q12_lowest_tier_analysis.py:19-23 | all four label columns normalised in place |
| `LowestTierAnalysis.Clean` | src/q12_lowest_tier_analysis.py:10-27 | the cleaning pass in place; a file without `day` stops it |
| `LowestTierAnalysis.TpvByKeys` | src/q12_lowest_tier_analysis.py:30 | TPV by key has each present key once and is empty exactly when no row has the key |
| `LowestTierAnalysis.TpvBySums` | src/q12_lowest_tier_analysis.py:30 | each entry holds the TPV of the rows with its key |
| `LowestTierAnalysis.TpvByTotal` | src/q12_lowest_tier_analysis.py:30 | the entries add up to the TPV of the keyed rows |
| `LowestTierAnalysis.TierExtremes` | src/q12_lowest_tier_analysis.py:30-33 | the lowest tier has the smallest TPV and the top tier the largest; both are "" when there are no tiers |
| `LowestTierAnalysis.TierTotal` | src/q12_lowest_tier_analysis.py:30-34 | once every row has a tier, the tier table adds up to the overall TPV |
| `LowestTierAnalysis.KpisOf` | src/q12_lowest_tier_analysis.py:46-51 | `kpis` gives the sums, merchants only when the column exists, and a zero-guarded average ticket |
| `LowestTierAnalysis.ShareTable` | src/q12_lowest_tier_analysis.py:60-64 | the share table has one line per group |
| `LowestTierAnalysis.ShareTableSumsToOne` | src/q12_lowest_tier_analysis.py:60-62 | with a positive total the shares sum to 1 |
| `LowestTierAnalysis.ShareTableMeaning` | src/q12_lowest_tier_analysis.py:60-64 | each share times a positive total gives the group's TPV; with a total that is not positive every share is 0 |
| `LowestTierAnalysis.ShareTableMember` | src/q12_lowest_tier_analysis.py:60-64 | the same, stated for any line of the table |
| `LowestTierAnalysis.MixTableKeys` | src/q12_lowest_tier_analysis.py:58-59 | the mix has one line per present key, each key once |
| `LowestTierAnalysis.MixTableSums` | src/q12_lowest_tier_analysis.py:58-59 | each mix line holds the TPV of its key's rows |
| `LowestTierAnalysis.MixMeaning` | src/q12_lowest_tier_analysis.py:57-65 | `mix` has one line per present key, holding that key's TPV, sorted by share descending |
| `LowestTierAnalysis.MixSharesSum` | src/q12_lowest_tier_analysis.py:60-65 | with positive TPV the mix's shares sum to 1 |
| `LowestTierAnalysis.MixLines` | src/q12_lowest_tier_analysis.py:65 | sorting the mix keeps its lines |
| `LowestTierAnalysis.CreditInstallmentsMixIgnoresOthers` | src/q12_lowest_tier_analysis.py:70 | a non-credit row does not change the installments mix |
| `LowestTierAnalysis.CreditInstallmentsMixMeaning` | src/q12_lowest_tier_analysis.py:70 | each installments line holds the TPV of the credit rows with that count |
| `LowestTierAnalysis.TopShareIsLargest` | src/q12_lowest_tier_analysis.py:101-102 | `top_share` gives ("—", 0) on an empty mix, and otherwise a line of the mix with the largest share |
| `LowestTierAnalysis.AnalyseTiers` | src/q12_lowest_tier_analysis.py:43-54 | the lowest tier's TPV is the smallest tier TPV and the top tier's the largest; both are 0 with no tiers |
| `LowestTierAnalysis.AppendIfFires` | src/q12_lowest_tier_analysis.py:113-123 | a rule's hypothesis is appended exactly when it fires, keeping rule order |
| `LowestTierAnalysis.Hypotheses` | src/q12_lowest_tier_analysis.py:112-126 | the list is never empty; it holds exactly the rules that fire, in order, or only the fallback when none fires |
| `LowestTierAnalysis.Run` | src/q12_lowest_tier_analysis.py:10-126 | the whole analysis: clean in place, compare tiers, and list exactly the hypotheses that fire, in rule order, with the fallback present exactly when none fires and then alone; a file without `day`, `amount_transacted`, `quantity_transactions` or `installments` stops it (a file without a label column does not: the intended `norm` is used, see Findings) |

## Left out

- Reading and writing CSV files, the file backup, directory creation and all printing are left out. Rows are in-memory arrays or sequences, and results are returned values.
- Parsing text as a number is left out. It is a parameter (`parse`, `parseInt`) of the members that coerce. A number that is already parsed arrives as a `Number` cell.
- Date parsing and weekday naming are left out. In the lowest-tier analysis they are parameters (`toDate`, `dayName`). `answers_report.py` and `build_kpis.py` derive `day`, `month` and `weekday`, and the model does not (`BuildKpis.WeekdayKpi` groups whatever weekday cells the rows hold). The `day` conversion in `build_looker_dataset.py` is left out too, so `day` passes through unchanged.
- `Text.Lower`: lowers only the ASCII letters A-Z. Python's `str.lower()` also lowers the rest of Unicode.
- IEEE floating point is left out. Rates, amounts and sums are exact reals, so rounding drift is not modelled. Division by zero, NaN and ±inf appear only where a script guards them (`Floats`).
- `Aggregates.GroupSum`: lists the groups in first-seen key order. pandas' `groupby` sorts its keys (`sort=True` by default). The same holds for `Reporting.GroupBasic`, `Aggregates.GroupAndSum` and every table built on them. So the row order of a table that the script does not sort afterwards is not modelled: KPIs 1, 3 and 5 of `build_kpis.py`, and the grouped tables of `answers_report.py`. The contracts state which rows such a table holds, not their order.
- `sort_values` is modelled as a stable insertion sort over the first-seen groups. pandas' default sort is not stable and it sorts groups that arrive in key order, so rows with equal sort values can come out in another order. Where the script then reads one end of a sorted table, a tie is broken differently. This affects `LowestTierAnalysis.LowestTier`, `LowestTierAnalysis.TopTier`, `LowestTierAnalysis.TopShare` and the OfflineProducts rule (`lo_prod.iloc[0]`, line 120). `LowestTierAnalysis.TierExtremes` and `LowestTierAnalysis.TopShareIsLargest` promise only what holds for any tie-break: a tier or line with the smallest or largest value. Which of several tied keys is picked is not modelled. The OfflineProducts rule reads the first line in the model's order, so it can differ from the script only when two products tie for the largest share. For example, tiers "b" then "a" in the file with equal TPV give "b" in the model, while pandas sorts the groups first.
- Fee engine text cells: a missing cell is read as "". In pandas it is NaN. Both give the same rate on every branch. One difference remains: pandas' `groupby` drops NaN keys, while the model keeps "" as a key.
- `FeeEngine.Normalise`: assumes installments and amount are already numeric. A non-numeric value would make `astype` raise, and that failure is not modelled.
- In `answers_report.py`, sections 1-3, 5-8, 15-18 and 21 are left out: per-entity and per-product rankings, mean/median/mode statistics, month and decile breakdowns, and the formatted report lines. They are group-by, sort and print code with no rule beyond the `Reporting` helpers. The installments `share_tpv` column of line 116 is also printed only, and left out.
- `AnswersReport.PaymentMethodSharesMeaning`: the script groups by payment method in two steps, first by (entity, product, payment_method), and then re-sums those groups by payment method (lines 50, 71, 83). The model groups the rows by payment method in one step. That the two give the same sums is not proved.
- In `q12_lowest_tier_analysis.py`, the text of the hypothesis lines, the money/percent formatting and the CSV file names are left out. The hypotheses are an enumeration.
- `LowestTierAnalysis.Clean`: models the intended `norm` of lines 20-23, which gives "" for a column the file lacks. The code as written stops in that case (see Findings).
- `LowestTierAnalysis.Run`: inherits the intended `norm` from `Clean`, so its `ok` holds for a file without `price_tier`, `product`, `payment_method` or `anticipation_method`, where lines 20-23 as written stop the script (see Findings).
- `BuildLookerDataset.Build`: uses the intended take rate. The expression as written leaves -inf for a negative fee over a zero amount (see Findings).
- A schema error (a missing required column) is modelled as a `false` result that leaves the frame as it was. In `build_kpis.py` the amount and count columns are required even for a file with no rows, where pandas might never call `agg_basic`; the model treats that file as failing too. In Python it is a KeyError (or, for a numeric column of `answers_report.py`, an AttributeError) raised at that point, possibly after earlier columns were already rewritten.

## Findings

| source | as written | input that shows it | evidently intended | confidence | as-written member | corrected member |
|---|---|---|---|---|---|---|
| src/build_looker_dataset.py:26 | `.replace([float("inf")], 0.0)` replaces only +inf | fee_revenue = -1.0, amount_transacted = 0 gives -inf | a "safe" take rate of 0 whenever the amount is 0 | medium, not executed | `BuildLookerDataset.EffectiveRateAsWrittenKeepsNegInf` | `BuildLookerDataset.EffectiveRate` |
| src/q12_lowest_tier_analysis.py:20-23 | `norm(df.get(c, ""))` on a file without column c passes the string "", which has no `.fillna` | a file with no `price_tier` column raises AttributeError | a column of "" labels, the same as a column of missing labels | high, not executed | `LowestTierAnalysis.NormColumnDiscrepancy` | `LowestTierAnalysis.NormDefaultShape` |
