# IRRBB risk engine — a Dafny model

This project models the risk engine of a small simulator of interest-rate risk in the banking book (IRRBB). The source is a single Python file, `irrbb_model.py`. The model covers:

- **Behavioural adjustment** (module `Instruments`). Each position gets an adjusted maturity, a duration and a repricing beta. A demand deposit gets the behavioural maturity (36 months by default) and the deposit beta (0.40). Every other instrument keeps its contractual maturity and a beta of 1. Duration is always `(maturity / 12) * 0.85`.
- **Bucketing** (module `Buckets`). Maturities are cut right-inclusively over the bin edges `[-1, 1, 3, 6, 12, 120]` into the labels `0-1M, 1-3M, 3-6M, 6-12M, 12M+`. A maturity outside `(-1, 120]` gets a missing bucket.
- **The frame** (module `Frame`). One row per instrument. The engine adds two columns, `Bucket` and `Dollar_Duration`, and changes nothing else.
- **The gap report and NII sensitivity** (module `GapReport`):
  - amounts are summed per bucket and side, zero-filled, in fixed label order;
  - `Gap = Asset - Liability`, and `Cum_Gap` is its running total;
  - `NII_Impact = Gap * shock * weight / 12`, with weights `0.5, 2, 4.5, 9, 18`, plus the total.
- **EVE sensitivity** (module `Eve`):
  - each row's dollar duration is `amount * duration * beta`;
  - these are summed per side, giving `delta_eve = -(asset_dd - liab_dd) * shock`;
  - the ratio of that to bank capital.
- **The engine run** (module `Engine`). This is the imperative form of `run_irrbb_engine`. Its input is the frame as an `array<Row>`. The two new columns are filled in place by loops. Every reduction is a loop proved equal to the recursive definition it computes, and those definitions carry the proved properties.

The module-level constants (capital, shock, deposit beta, behavioural maturity) are fields of a `Config` value passed in explicitly. `DEFAULT_CONFIG` holds the source's values. Amounts, weights, betas and the 0.85 factor are exact `real`s. Maturities are integer months, as in the source's columns.

The code signals no errors, and the model follows it:

- **Missing bucket.** A stricter engine would raise an error when a maturity is outside `(-1, 120]`. This code raises none: the cut yields a missing value and the grouping drops the row. The model gives such a row `bucket == None`. It is left out of the gap report, but its dollar duration still counts in EVE, as it does in the code (`Eve.UnbucketedRowStillMovesEve`).
- **Unknown category and bad capital.** A stricter engine would also reject an unknown category and a non-positive capital. This code rejects neither. Categories are an enumeration here. A positive capital is a precondition of the engine, because the source's capital is a fixed positive constant.

## Model

| member | source | states |
|---|---|---|
| `Instruments.DurationOf` | irrbb_model.py:56-57 | duration is positive exactly for a positive maturity and zero exactly for a zero maturity |
| `Instruments.DurationMonotone` | irrbb_model.py:56-57 | a longer adjusted maturity never gives a shorter duration |
| `Instruments.Adjust` | irrbb_model.py:50-64 | keeps every raw field; demand deposit ⇒ behavioural maturity and deposit beta, otherwise contractual maturity and beta 1.0; duration derived from the adjusted maturity |
| `Instruments.AdjustedIsDetermined` | irrbb_model.py:50-64 | an instrument satisfying the adjustment invariant is exactly the adjustment of its raw fields |
| `Instruments.DemandDepositOverride` | irrbb_model.py:51-64 | a demand deposit's adjusted maturity and duration do not depend on its contractual maturity; beta is the deposit beta |
| `Instruments.DefaultDemandDeposit` | irrbb_model.py:50-64 | with the source's constants a demand deposit gets 36 months, duration 2.55 years, beta 0.40 |
| `Instruments.AdjustAll` | irrbb_model.py:50-64 | the whole-column adjustment keeps length and order, and every row keeps its raw fields and satisfies the invariant |
| `Instruments.GeneratedAdjustment` | irrbb_model.py:30-54 | generated positions have positive amounts; non-deposits keep a maturity in [0, 60]; demand deposits are liabilities |
| `Buckets.CutFrom` | irrbb_model.py:79 | the search returns a bin whose interval (left-open, right-closed) holds m, and finds none exactly when m exceeds the last edge |
| `Buckets.Cut` | irrbb_model.py:79 | right-inclusive cut: the index k with bins[k] < m <= bins[k+1], missing exactly when m is outside (first edge, last edge] |
| `Buckets.CutUnique` | irrbb_model.py:79 | with strictly increasing edges, a value lies in at most one bin: the cut returns that bin |
| `Buckets.BinsIncreasing` | irrbb_model.py:76 | the bin edges are strictly increasing, so every maturity falls in at most one bin |
| `Buckets.BinsMatchLabels` | irrbb_model.py:76-77 | the edge list and the per-label interval table agree label by label |
| `Buckets.BucketOf` | irrbb_model.py:76-79 | the bucket returned holds m; no bucket exactly when m <= -1 or m > 120 |
| `Buckets.BucketsDisjoint` | irrbb_model.py:76 | the five intervals are pairwise disjoint |
| `Buckets.BucketOfExact` | irrbb_model.py:76-79 | m gets bucket b if and only if m lies in b's interval: exactly one bucket for every m in (-1, 120] |
| `Buckets.BucketBoundaries` | irrbb_model.py:76-79 | 0 and 1 map to 0-1M, 12 to 6-12M, 13, 36 and 120 to 12M+; -1 and 121 get no bucket |
| `Frame.BalanceSheet` | irrbb_model.py:28-67 | the built frame has one row per position, in order, each adjusted from that position |
| `Frame.DollarDuration` | irrbb_model.py:109-113 | the dollar duration is positive when amount, duration and beta are; non-negative when they are non-negative; zero when duration or beta is zero |
| `Frame.AnnotateAll` | irrbb_model.py:79-113 | filling both engine columns keeps every instrument, and each row's columns agree with its instrument |
| `Frame.GeneratedRowsBucketed` | irrbb_model.py:36-79 | when the behavioural maturity is in [0, 120], every generated position gets a bucket |
| `GapReport.SumOfFive` | irrbb_model.py:106 | the total of a five-entry column is its five entries added together |
| `GapReport.SumScale` | irrbb_model.py:102-106 | multiplying every entry of a column by a factor multiplies its total by that factor |
| `GapReport.CumSum` | irrbb_model.py:89 | the running total has one entry per entry of the column |
| `GapReport.CumSumIsPrefixSum` | irrbb_model.py:89 | entry i of the running sum is the sum of entries 0..i |
| `GapReport.SideAmount` | irrbb_model.py:82 | the per-bucket, per-side sum is non-negative when all amounts are |
| `GapReport.SideAmountAppend` | irrbb_model.py:82 | aggregating two parts of the frame and adding equals aggregating the whole (partial sums merge) |
| `GapReport.SideAmountAbsent` | irrbb_model.py:82-85 | a bucket with no instrument of a side gets 0 for that side, never a missing value |
| `GapReport.SideAmountColumns` | irrbb_model.py:82 | frames agreeing row by row on Bucket, Side and Amount give the same aggregate, whatever their other fields (maturity, duration, beta, Dollar_Duration) |
| `GapReport.RowCountedOnce` | irrbb_model.py:82 | a bucketed row contributes its amount to exactly one (bucket, side) cell; an unbucketed row to none |
| `GapReport.PartitionByBucketAndSide` | irrbb_model.py:82-85 | the ten (bucket, side) cells together hold exactly the amount of the bucketed rows |
| `GapReport.FullyBucketed` | irrbb_model.py:79-82 | when every row has a bucket, the bucketed amount is the total amount |
| `GapReport.SideSums` | irrbb_model.py:82-86 | the Asset and Liability columns have exactly one entry per label (their contents, in label order, are stated by `GapReport.GapRowAt`) |
| `GapReport.Tabulate` | irrbb_model.py:88-104 | the built report has one row per label |
| `GapReport.GapTable` | irrbb_model.py:82-104 | the gap report always has exactly five rows |
| `GapReport.NiiImpactLinear` | irrbb_model.py:102-104 | a bucket's NII impact is the shock times its impact under a unit shock |
| `GapReport.TabulateAt` | irrbb_model.py:88-104 | row k: label k, Gap = Asset − Liability, Cum_Gap = sum of the Gap column up to k, NII from the gap |
| `GapReport.TabulateNii` | irrbb_model.py:102-104 | entry k of the NII_Impact column is the NII impact of the gap asset[k] − liability[k] in bucket k |
| `GapReport.GapRowAt` | irrbb_model.py:82-104 | row k holds label k in fixed order, its bucket's asset and liability sums, Gap = Asset − Liability, Cum_Gap = sum of Gap[0..k], NII = Gap·shock·w/12 |
| `GapReport.GapTableRow` | irrbb_model.py:88-104 | row k's Cum_Gap is the previous row's Cum_Gap (0 for the first) plus its own Gap |
| `GapReport.LastCumGapIsTotalGap` | irrbb_model.py:89 | the last Cum_Gap equals the total gap over all buckets |
| `GapReport.Conservation` | irrbb_model.py:82-85 | the sums of the Asset and Liability columns together equal the amount of all bucketed rows |
| `GapReport.UnbucketedCellUnchanged` | irrbb_model.py:79-82 | inserting a row with no bucket anywhere in the frame leaves every (bucket, side) cell unchanged |
| `GapReport.UnbucketedRowIgnored` | irrbb_model.py:79-82 | a row with no bucket, inserted anywhere in the frame, leaves the whole gap report unchanged |
| `GapReport.GapTableColumns` | irrbb_model.py:82-104 | the report depends only on the Bucket, Side and Amount columns: frames agreeing on those give the same report |
| `GapReport.NiiColumnScales` | irrbb_model.py:102-104 | every NII_Impact entry is the shock times its entry under a unit shock |
| `GapReport.NiiLinearInShock` | irrbb_model.py:94-106 | total NII is the shock times a shock-independent weighted gap |
| `GapReport.NiiScalesWithShock` | irrbb_model.py:102-106 | scaling the shock by a factor scales total NII by the same factor (doubling doubles it) |
| `GapReport.WorkedExample` | irrbb_model.py:82-106 | asset 1,000,000 and liability 400,000 at 6 months, shock 0.02: Gap[3-6M] = 600,000, NII[3-6M] = 4,500 = total NII, last Cum_Gap = 600,000 |
| `Eve.SideDollarDuration` | irrbb_model.py:115-116 | the per-side dollar-duration sum is non-negative when every row's dollar duration is |
| `Eve.SideDollarDurationAppend` | irrbb_model.py:115-116 | per-side sums over two parts of the frame add up to the sum over the whole |
| `Eve.SideDollarDurationAbsent` | irrbb_model.py:115-116 | a side with no rows sums to 0 |
| `Eve.SideDollarDurationPositive` | irrbb_model.py:115-116 | a non-empty side whose rows all have positive dollar duration sums to a positive value |
| `Eve.EveRatio` | irrbb_model.py:119 | ratio × capital = delta EVE; the ratio is negative or positive exactly when delta EVE is |
| `Eve.DeltaEveSign` | irrbb_model.py:118 | under a positive shock EVE falls exactly when asset dollar duration exceeds liability dollar duration, and rises exactly when it is smaller |
| `Eve.SingleAssetEve` | irrbb_model.py:109-118 | one asset: delta EVE = −amount·duration·beta·shock, negative for a positive shock when all factors are positive |
| `Eve.AssetOnlyEveNegative` | irrbb_model.py:115-118 | only assets, each with positive dollar duration, and a positive shock ⇒ delta EVE < 0 |
| `Eve.DeltaEveScalesWithShock` | irrbb_model.py:118 | delta EVE is linear in the shock |
| `Eve.DeltaEveAdditive` | irrbb_model.py:118 | delta EVE of summed dollar durations is the sum of the deltas |
| `Eve.DeltaEveMerge` | irrbb_model.py:115-118 | delta EVE of two parts of the frame adds up, in either order |
| `Eve.UnbucketedRowStillMovesEve` | irrbb_model.py:79-118 | an out-of-range asset row leaves the gap report unchanged but lowers EVE under a positive shock |
| `Engine.AssignBuckets` | irrbb_model.py:79 | each row's Bucket becomes the bucket of its adjusted maturity; every other field is unchanged |
| `Engine.AssignDollarDurations` | irrbb_model.py:109-113 | each row's Dollar_Duration becomes amount·duration·beta; every other field is unchanged |
| `Engine.SumAmount` | irrbb_model.py:82 | the loop's sum is the per-bucket, per-side aggregate of the frame |
| `Engine.BuildGapTable` | irrbb_model.py:82-104 | the table built bucket by bucket, with the running gap carried along, equals the gap report of the frame |
| `Engine.SumNii` | irrbb_model.py:106 | the loop's sum is the total of the NII_Impact column |
| `Engine.SumDollarDuration` | irrbb_model.py:115-116 | the loop's sum is the per-side dollar-duration sum of the frame |
| `Engine.RunEngine` | irrbb_model.py:73-121 | every row gains its Bucket and Dollar_Duration and keeps its instrument; the result is the gap report, total NII, delta EVE and EVE ratio of the filled frame |
| `Engine.GeneratedBalanceSheetConserved` | irrbb_model.py:28-106 | for generated positions, the report's Asset and Liability columns together hold the full amount of the balance sheet |

## Left out

- Random generation of the portfolio (irrbb_model.py:30-48) is not modelled. Positions are inputs. The predicate `Instruments.Generated` states the domain they are drawn from: a side-consistent category, an amount in [50,000, 1,000,000] and a maturity in {0, 1, 3, 6, 12, 24, 60}. `N_ROWS` is therefore not used either.
- The script part of the file is not modelled: execution, timing and printed output (irrbb_model.py:124-138). This includes the absolute value taken when the EVE ratio is printed.
- Floating-point rounding is not modelled. All amounts, weights and factors are exact reals.
- The pandas calls are modelled by the values they produce, not by their mechanics. The grouping is assumed to list every bucket category, even one with no rows, and its missing cells are filled with 0. So the report always has five rows in label order. A pandas configuration that drops unobserved categories would omit empty buckets. The model does not capture that.
- The gap report is built in one loop over the five buckets, each bucket's Asset and Liability totals taken by a pass over the frame (ten passes in all). The source does one grouping and then builds the report column by column. Both give the same table.
- The `Rate` field is carried in every record and never read, as in the source.
- Vectorised or parallel execution is not modelled. The engine is a sequential fold. The merge lemmas (`GapReport.SideAmountAppend`, `Eve.DeltaEveMerge`) state why partial sums can be combined.
