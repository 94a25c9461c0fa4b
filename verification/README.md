# Wallet credit scoring, modelled in Dafny

`generate_wallet_scores.py` scores lending-protocol wallets in four steps:

1. It reads a list of transaction records, each with `userWallet`, `timestamp`, `action` and `actionData`.
2. It builds one feature row per wallet:
   - amount sums per action;
   - first and last timestamp;
   - transaction count;
   - distinct active days;
   - transactions per active day;
   - net position.
3. It clusters the wallets into five groups with KMeans.
4. It ranks the clusters by a rounded "score metric" and gives every wallet the credit score of its cluster's rank (1000, 750, 500, 250 or 100).

This project models that pipeline as pure Dafny functions and methods and proves what each step guarantees. One module per stage:

- `Transactions`: the records, the amount-annotated rows and the errors that end a run.
- `Amounts`: line 19, where `float(actionData.get('amount', 0)) / 1e18` is applied, and 0 for a non-object.
- `Pivot`: the action pivot with `fill_value=0` and the net position.
- `Activity`: per-wallet time aggregates and `avg_tx_per_day`.
- `Features`: the merged feature table and the seven clustered columns.
- `Rounding`: `.round(2)`, as exact round-half-to-even on hundredths.
- `Ranking`:
  - the cluster summary and its metric;
  - `rank(ascending=False, method='min')`;
  - the rank-to-score table;
  - the per-wallet lookup.
- `Pipeline`: the whole run, with the scaler and KMeans passed in as a function.

Amounts are exact rationals (`real`). A timestamp's calendar day is `timestamp / 86400`, rounded down, which is the UTC date `pandas` derives.

Three details of the model:

- **Malformed amounts raise.** Missing or non-object `actionData` counts as 0. An `amount` string that `float()` rejects raises `ValueError` and ends the run. The model returns `BadAmount` with the index of the first such record, rather than treating the amount as zero.
- **`active_days` is never zero.** Every wallet in the pivot has at least one record, so the division at line 41 is never by zero. `Activity.DaysBounds` and `Features.BuildFeatures` prove that `1 <= active_days <= tx_count`, so no policy for a zero day count is needed.
- **Missing columns are an error, not a precondition.** When one of `deposit`, `repay`, `borrow` or `liquidationcall` never occurs, the column selection at lines 55-58 raises `KeyError`. The model returns `MissingColumns` with the absent names.

## Model

| member | source | states |
|---|---|---|
| Transactions.DistinctWallets | generate_wallet_scores.py:22-28 | The pivot's wallet index: every wallet of the input exactly once and nothing else |
| Amounts.ParseDecimal | generate_wallet_scores.py:19 | `float()` of a string succeeds exactly on signed decimal text; without a minus sign the value is non-negative |
| Amounts.ToFloat | generate_wallet_scores.py:19 | `float()` of a JSON value: a number is itself; `true` and `false` are 1.0 and 0.0; null, lists and objects raise; a string is converted by `ParseDecimal` and succeeds exactly when it is decimal text |
| Amounts.AmountOf | generate_wallet_scores.py:19 | A non-object `actionData`, or one without `amount`, gives 0; otherwise the result times 10^18 is `float(amount)`, and it fails exactly when `float()` does |
| Amounts.DigitsRoundTrip | generate_wallet_scores.py:19 | Reading back the decimal digits of a natural number gives the number |
| Amounts.ParseNatText | generate_wallet_scores.py:19 | The decimal text of n base units parses to n |
| Amounts.ParseNegativeText | generate_wallet_scores.py:19 | The text "-n" parses to -n |
| Amounts.PadDigits | generate_wallet_scores.py:19 | The k-digit, zero-padded text of b < 10^k reads back as b |
| Amounts.ParseUnsignedText | generate_wallet_scores.py:19 | Unsigned decimal text parses to its value; after a leading '-' to the negated value, after a leading '+' to the same value |
| Amounts.ParsePointText | generate_wallet_scores.py:19 | Digit strings d and f joined by a point, as in "12.05", parse to d + f / 10^(length of f) |
| Amounts.PointText | generate_wallet_scores.py:19 | The text "a.f", with f the k-digit zero-padded text of b, is unsigned decimal text worth a + b / 10^k |
| Amounts.AmountOfBaseUnits | generate_wallet_scores.py:19 | An `amount` written as the text of n base units becomes n / 10^18 tokens, whatever other fields `actionData` has |
| Amounts.OneTokenScenario | generate_wallet_scores.py:19 | The text "1000000000000000000" becomes exactly 1.0 |
| Amounts.AmountColumn | generate_wallet_scores.py:19 | The `amount` column succeeds exactly when every record's conversion does, keeping each record's wallet, time and action; on failure it names the first record whose conversion raises |
| Pivot.SumWithoutRows | generate_wallet_scores.py:22-28 | A wallet/action pair with no records has sum 0 (`fill_value=0`) |
| Pivot.AccumulateStep | generate_wallet_scores.py:22-28 | Adding one row to its own (wallet, action) cell keeps every cell equal to the reference sum over the rows seen |
| Pivot.FillGrid | generate_wallet_scores.py:22-28 | The filled grid has one row per wallet; each row has every action that occurs as a column, holding the wallet's sum for that action |
| Pivot.PivotTable | generate_wallet_scores.py:22-28 | `pivot_table(aggfunc='sum', fill_value=0)`: keys are exactly the wallets; each row's columns are exactly the actions that occur; each cell is the wallet's amount sum for that action |
| Pivot.NetPosition | generate_wallet_scores.py:47-52 | A pivot row with none of the columns `deposit`, `repay`, `borrow` and `redeemUnderlying` has net position 0, since each missing column reads as 0 |
| Pivot.NetPositionOtherColumns | generate_wallet_scores.py:47-52 | Changing a column other than those four, such as `liquidationcall`, leaves the net position unchanged |
| Pivot.ColumnIsSum | generate_wallet_scores.py:47-51 | `features_df.get(a, 0)` reads the wallet's sum for `a`, also when the action never occurs |
| Pivot.NetPositionOfRecords | generate_wallet_scores.py:47-52 | The net position equals deposit + repay - borrow - redeemUnderlying summed over the wallet's records |
| Activity.Day | generate_wallet_scores.py:32-33 | The day number d of timestamp t is the one with d * 86400 <= t < (d + 1) * 86400, the UTC date of `pd.to_datetime(unit='s')` |
| Activity.TimestampsOfPresent | generate_wallet_scores.py:34-37 | Every wallet of the input has at least one timestamp |
| Activity.TimestampsOfAbsent | generate_wallet_scores.py:34-37 | A wallet absent from the input has no timestamps |
| Activity.DaysBounds | generate_wallet_scores.py:32-38 | A non-empty list of timestamps falls on at least one and at most as many distinct days as timestamps |
| Activity.TallyStep | generate_wallet_scores.py:34-39 | Scanning one more row keeps the running count, day set, minimum and maximum of every wallet exact |
| Activity.WalletTimes | generate_wallet_scores.py:34-39 | One entry per wallet. `first_tx` and `last_tx` are the minimum and maximum timestamps, `tx_count` is the record count and `active_days` the number of distinct days; `first_tx <= last_tx` and `1 <= active_days <= tx_count` |
| Activity.AvgTxPerDay | generate_wallet_scores.py:41 | `avg_tx_per_day` times `active_days` is `tx_count`; it is at least 1 when there are no more days than records |
| Features.MergeRow | generate_wallet_scores.py:44-52 | A merged row carries the wallet's pivot sums, time aggregates, average and net position, each as defined over the records |
| Features.BuildFeatures | generate_wallet_scores.py:43-52 | The left merge and net position yield a table with every wallet exactly once, each row describing its own wallet |
| Features.ExtractFeatures | generate_wallet_scores.py:13-52 | An empty input fails with `EmptyInput`; an amount that `float()` rejects stops the run with that error; otherwise the result is the feature table, with the actions that occur as its columns |
| Features.ModelFeatures | generate_wallet_scores.py:55-58 | The selection fails exactly when one of the four clustered actions is not a column, naming the missing ones (never none); otherwise it gives one row per wallet with the seven columns, absent sums as 0 |
| Features.SelectedRowDescribes | generate_wallet_scores.py:55-58 | The seven selected values of a feature row are the wallet's sums, net position, active days and average over its records |
| Features.SelectedSums | generate_wallet_scores.py:55-56 | The four selected action columns of a feature row are the wallet's sums, 0 for an action it never performed |
| Features.TableSize | generate_wallet_scores.py:44 | The feature table has exactly as many rows as there are distinct wallets |
| Features.SingleDepositRow | generate_wallet_scores.py:19-52 | A wallet whose one record is a deposit of 1.0 has deposit 1.0, `tx_count` 1, `active_days` 1, `avg_tx_per_day` 1.0 and net position 1.0 |
| Features.SingleDepositScenario | generate_wallet_scores.py:19-52 | An input of one such deposit gives a one-row table with those values |
| Rounding.RoundHalfEven | generate_wallet_scores.py:83 | The nearest integer, within 0.5; an exact half goes to the even neighbour |
| Rounding.RoundHalfEvenMonotone | generate_wallet_scores.py:83 | Rounding to an integer preserves order |
| Rounding.Round2 | generate_wallet_scores.py:83 | `.round(2)` lies within 0.005 of the value and is a whole number of hundredths; a value exactly halfway between two hundredths goes to the even one |
| Rounding.Round2Monotone | generate_wallet_scores.py:83 | `.round(2)` preserves order |
| Rounding.Round2Merges | generate_wallet_scores.py:83-85 | Distinct metrics 0.001 and 0.004 both round to the same value, 0.0 |
| Rounding.Round2TiesToEven | generate_wallet_scores.py:83 | 0.125 rounds to 0.12 and 0.375 to 0.38 |
| Ranking.ClustersFromSound | generate_wallet_scores.py:69 | Every group listed from label c up is a label in c..4 that occurs |
| Ranking.ClustersFromComplete | generate_wallet_scores.py:69 | Every label in c..4 that occurs is listed |
| Ranking.ClustersFromAscending | generate_wallet_scores.py:69 | The groups are listed strictly ascending, each at most once |
| Ranking.ClustersFacts | generate_wallet_scores.py:69 | `groupby("cluster")` has at most five groups, in ascending order; a label is a group exactly when some wallet carries it |
| Ranking.MetricIsMemberSum | generate_wallet_scores.py:69-83 | Combining the five per-cluster column sums equals summing each member's deposit + repay - borrow - liquidationcall + net position |
| Ranking.Summarize | generate_wallet_scores.py:69-83 | A summary row's metric is the rounded sum of its members' contributions |
| Ranking.CountAboveStrict | generate_wallet_scores.py:85 | A present value above a threshold has fewer values above it than the threshold has |
| Ranking.RankMin | generate_wallet_scores.py:85 | Descending `min` ranking. Each rank is 1 + the count of strictly greater metrics, in 1..n; equal metrics share a rank; a greater metric gets a strictly smaller rank; some metric has rank 1 |
| Ranking.ScoreForRank | generate_wallet_scores.py:88-94 | `rank_to_score` has a score exactly for ranks 1..5, and each score is one of the five bands |
| Ranking.RankInRange | generate_wallet_scores.py:85 | A cluster that occurs has rank in 1..(number of clusters), so at most 5 |
| Ranking.LookupNeverMisses | generate_wallet_scores.py:95-99 | `rank_to_score[cluster_to_rank[c]]` never raises `KeyError` for any wallet |
| Ranking.RankStrictlyMonotone | generate_wallet_scores.py:85 | A cluster with a strictly greater rounded metric ranks strictly better |
| Ranking.RankMonotone | generate_wallet_scores.py:77-85 | A cluster whose unrounded total is at least another's never ranks behind it |
| Ranking.WalletScoreStrictlyMonotone | generate_wallet_scores.py:85-99 | A wallet in a cluster with a strictly greater rounded metric gets a strictly higher credit score |
| Ranking.WalletScoreTies | generate_wallet_scores.py:85-99 | Wallets in clusters with equal rounded metrics, in particular in one cluster, get equal scores |
| Ranking.WalletScoreMonotone | generate_wallet_scores.py:77-99 | A wallet in a cluster with an unrounded total at least another's never gets a lower score |
| Ranking.RankOneOccupied | generate_wallet_scores.py:85 | Some wallet belongs to a cluster of rank 1 |
| Ranking.TopScoreAwarded | generate_wallet_scores.py:85-99 | Some wallet receives the top score 1000 |
| Ranking.RankTable | generate_wallet_scores.py:95 | `cluster_to_rank` maps each listed cluster to its rank and has no other keys |
| Ranking.LookupScores | generate_wallet_scores.py:97-99 | Each wallet's score is the table entry for its cluster's rank |
| Ranking.SummaryMetrics | generate_wallet_scores.py:69-83 | The `score_metric` column holds, in group order, each cluster's rounded member total |
| Ranking.RankClusters | generate_wallet_scores.py:85 | The `rank` column holds each group's reference rank, 1 + the number of clusters with a greater metric |
| Ranking.RankTableEntry | generate_wallet_scores.py:95 | A table built from the rank column covers every label that occurs, with its reference rank in 1..5 |
| Ranking.ClusterRanks | generate_wallet_scores.py:69-95 | The keys of `cluster_to_rank` are exactly the labels that occur; each maps to its reference rank, which lies in 1..5 |
| Ranking.AssignScores | generate_wallet_scores.py:69-99 | One score per wallet. Each is one of the five bands and is the table score for the reference rank of the wallet's cluster |
| Pipeline.ScoreTable | generate_wallet_scores.py:97-102 | The output rows keep the wallets of the clustered rows in order, carry each wallet's cluster label and the score of its cluster's rank |
| Pipeline.ModelRowsDescribe | generate_wallet_scores.py:55-58 | `model_features` has one row per wallet, indexed by that wallet, and each row holds the wallet's sums, net position, active days and average over its records |
| Pipeline.ScoreFeatures | generate_wallet_scores.py:55-102 | A missing clustered action gives `MissingColumns`, fewer than five wallets give `TooFewWallets`, and otherwise each wallet is scored |
| Pipeline.Run | generate_wallet_scores.py:9-103 | The run fails on empty input, on a rejected amount, on a missing clustered action and with fewer than five wallets. Otherwise every input wallet appears exactly once, with its selected features, the label KMeans gives it from the wallet-indexed rows, and one of the five scores, given by its cluster's rank |

## Left out

- Reading the JSON file, writing the CSV, and printing the counts and head (lines 9-11, 101-108). The model starts from the decoded records and ends with the output rows.
- The two plots and the per-score feature means (lines 110-141). They have no effect on the scores.
- `MinMaxScaler` and `KMeans(n_clusters=5, random_state=42, n_init=10)` (lines 60-66). They are a function parameter that returns one label in 0..4 per wallet. The fitting itself is not modelled. Scaling only feeds KMeans, so it is inside that parameter. The `ValueError` KMeans raises with fewer samples than clusters is modelled as `TooFewWallets`.
- Floating-point arithmetic. Sums, the division by `1e18`, `avg_tx_per_day` and the score metric are exact rationals. Results that differ only by IEEE-754 rounding are not modelled, including ties or near-ties that floating point would break differently.
- Amounts.ParseDecimal: accepts only an optional sign, digits and one decimal point. Other text `float()` accepts is treated as a conversion error: exponents, surrounding whitespace, underscores, `inf`, `nan`, and decimal digits outside ASCII, such as Arabic-Indic digits.
- Wallet order. `pivot_table` sorts wallets by their string value, while the model lists them in order of first appearance. KMeans with a fixed `random_state` depends on the order of its input rows. So the clustering parameter receives every row together with its wallet (`Pipeline.Keyed`), and a clustering that first sorts by wallet, as the script's does, is one of the functions the parameter ranges over. Every proved property holds for every such function. The model does not compute the sorted order, and the row order of the written CSV is not modelled.
- The `datetime` form of `first_tx` and `last_tx`. They are kept as epoch seconds, and only the day number (`timestamp / 86400`) is derived.
- Non-integral or out-of-range timestamps. Timestamps are whole epoch seconds.
- Records with a missing field. Every record carries all four fields. A record without `actionData` would give `NaN` in pandas, which counts 0 like any non-object.
- The `OverflowError` that `float()` raises on an integer too large for a double. Numbers are exact.
