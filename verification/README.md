# Biased matrix factorisation trained by stochastic gradient descent

This project models the training engine of `Stochastic`, a recommender that
learns a latent-factor model with user and item baseline biases. It is a
Dafny model over exact `real` arithmetic. The engine:

1. **Scans the dimensions.** It sizes the user and item index spaces from the
   largest ids in the training and test streams.
2. **Reads the training lines.** They go into an insertion-ordered rating
   table (user → item → score). At the same time it accumulates the global
   mean and each user's and item's mean deviation from it.
3. **Trains.** It runs `iteration` epochs. Each epoch applies one SGD step per
   table entry, in table order. After every epoch it computes the training
   "cost" and the clamped test prediction error.

The modules follow the source's structure:

| file | module | models |
|---|---|---|
| `common.dfy` | `Common` | `Option`, and Java's division that yields NaN on a zero count |
| `ratings.dfy` | `Ratings` | parsed lines and `setUserNumberAndItemNumber` |
| `linked_map.dfy` | `LinkedMaps` | the `LinkedHashMap` behaviour the table relies on |
| `rating_table.dfy` | `RatingTable` | the `rates` table built by `readIntoMemory` |
| `baseline.dfy` | `Baseline` | the mean and bias estimation of `readIntoMemory` |
| `factor_model.dfy` | `FactorModel` | configuration, factor matrices, column dot product |
| `sgd.dfy` | `Sgd` | `stochasticGradientDescent` |
| `evaluation.dfy` | `Evaluation` | `costFunction` and `predict` |
| `training.dfy` | `Training` | `init` and `doGradientDescent` |

Modelling choices:

- **Exact arithmetic.** `double` is modelled as exact `real`, with no IEEE-754
  rounding.
- **NaN on a zero count.** Java's `x / 0` on a zero count yields NaN. The
  model writes this as `Quotient.NaN`. This covers the global mean of an
  empty training file, the cost of an empty table, and the error of an empty
  test file. The source survives all three, so the model has no non-empty
  precondition for them.
- **Column products.** Jama's `getMatrix`/`transpose`/`times` 1×1 product is
  replaced by `Dot`, the explicit sum over factor indices 0..factor-1.
  `new Matrix(user)` wraps the array without copying, so `costFunction` sees
  the current factors. The model therefore reads the current `Model`.
- **Positive factor count.** The SGD step requires `factor > 0`. With
  `factor == 0`, Jama's constructor reads row 0 of an empty array and throws.
- **Integer rating range.** `rangeMin` and `rangeMax` are integers, as in the
  source. The clamp is two ifs in sequence, so when `rangeMin > rangeMax` the
  result is always `rangeMax`.
- **The cost is not a loss.** `costFunction` averages the raw column
  products and ignores the scores. Nothing is squared.

**The SGD step updates in place and in sequence.** Unlike textbook SGD,
where every update reads the values from before the step, the code writes
each value back before the next update reads it:

- Within pass `f`, `item[f][i]` is moved with the `user[f][u]` just
  written.
- After the factor loop, `userAvg[u]` moves first. `itemAvg[i]` then moves
  with an error term that reads the new `userAvg[u]`.
- The column product `d` is fixed once, before the loop.
- The error term in the loop is re-read every pass. It is nonetheless the
  same on every pass, because the biases do not change inside the loop.

`Sgd.StepExample` pins this down. From user `[1, 0]`, item `[0, 1]`,
alpha 0.1, lambda 0, score 4 and zero biases, the result is:

- user `[1, 0.4]` and item `[0.4, 1.16]`;
- user bias 0.4 and item bias 0.36.

Updates that all read the values from before the step would give the item
`[0.4, 1]` and the item bias 0.4.

**A zero `iteration` is logged and a negative one is silently accepted;
neither is refused.** `doGradientDescent` logs only `iteration == 0`, and
then carries on. For any `iteration` up to 0 the loop runs no epoch, which
`Training.ZeroIterations` states. A zero `factor` with a non-empty table
stops the run at the first step's `new Matrix(user)` (line 223). A zero
`factor` with an empty table, and a missing test file, are paths the model
leaves out (see "## Left out").

## Model

| member | source | states |
|---|---|---|
| Common.Divide | src/main/java/com/recommendation/LatentFactor/Stochastic.java:163 | dividing by a zero count gives NaN and only then; otherwise the quotient times the count is the total |
| Ratings.ScanIds | src/main/java/com/recommendation/LatentFactor/Stochastic.java:106-113 | the running maxima end at least at their start values and at every id seen, and each is its start value or an id that occurs |
| Ratings.ScanDimensions | src/main/java/com/recommendation/LatentFactor/Stochastic.java:98-125 | both counts are at least 1, exceed every id of either stream, are exactly one more than the largest id (or 1 when none is positive), and make every non-negative id a valid index |
| Ratings.ScanExample | src/main/java/com/recommendation/LatentFactor/Stochastic.java:98-125 | user ids 1, 7 (train) and 5 (test) give 8 users; item ids 3, 2 and 1 give 4 items |
| LinkedMaps.Get | src/main/java/com/recommendation/LatentFactor/Stochastic.java:152-153 | the lookup finds nothing exactly when the key is absent, and what it finds is a binding of the map |
| LinkedMaps.Put | src/main/java/com/recommendation/LatentFactor/Stochastic.java:154-159 | a new key is appended to the iteration order and a known key keeps its place; the key then maps to the new value, every other key keeps its value, and distinct keys stay distinct |
| LinkedMaps.GetIffBinding | src/main/java/com/recommendation/LatentFactor/Stochastic.java:152-153 | with distinct keys, the lookup returns v exactly when (k, v) is a binding |
| RatingTable.Insert | src/main/java/com/recommendation/LatentFactor/Stochastic.java:152-160 | reading one line binds its (user, item) pair to its score and leaves every other pair's lookup unchanged; a new user is appended to the user order, a new item to that user's item order, and every other user's item order is unchanged |
| RatingTable.BuildTable | src/main/java/com/recommendation/LatentFactor/Stochastic.java:138-161 | the table has a row exactly for the users of the training lines; its order and contents are stated by TableUserOrder, TableItemOrder and TableLookup |
| RatingTable.TableUserOrder | src/main/java/com/recommendation/LatentFactor/Stochastic.java:138-160 | the users of the table are iterated in the order of their first training line, each once |
| RatingTable.DedupOrder | src/main/java/com/recommendation/LatentFactor/Stochastic.java:152-160 | the first-appearance order: the distinct ids keep the relative order of their first occurrences |
| RatingTable.TableItemOrder | src/main/java/com/recommendation/LatentFactor/Stochastic.java:152-160 | within every user's row the items are iterated in the order of their first line for that user, each once |
| RatingTable.TableLookup | src/main/java/com/recommendation/LatentFactor/Stochastic.java:152-160 | `rates[u][i]` is the score of the last training line for (u, i), and absent when there is none |
| RatingTable.TableWellFormed | src/main/java/com/recommendation/LatentFactor/Stochastic.java:152-160 | both levels of the table have distinct keys |
| RatingTable.EntriesMembership | src/main/java/com/recommendation/LatentFactor/Stochastic.java:248-252 | a triple is visited by the nested iteration exactly when its user has a row that binds its item to its score |
| RatingTable.TableEntries | src/main/java/com/recommendation/LatentFactor/Stochastic.java:146-160 | the visited triples are exactly the training lines that carry the last score for their (user, item) pair |
| RatingTable.TableInRange | src/main/java/com/recommendation/LatentFactor/Stochastic.java:146-160 | ids valid for the training lines are valid for every table entry |
| RatingTable.DuplicateExample | src/main/java/com/recommendation/LatentFactor/Stochastic.java:152-155 | two lines for the same pair leave one entry, with the later score |
| Baseline.Accumulate | src/main/java/com/recommendation/LatentFactor/Stochastic.java:134-151 | the accumulators have one cell per user and per item |
| Baseline.AccumulateUserSums | src/main/java/com/recommendation/LatentFactor/Stochastic.java:146-151 | each user accumulator holds the score sum and the count of exactly that user's lines, duplicates included, and the totals are over all lines |
| Baseline.AccumulateItemSums | src/main/java/com/recommendation/LatentFactor/Stochastic.java:146-151 | each item accumulator holds the score sum and the count of exactly that item's lines, duplicates included |
| Baseline.Finalize | src/main/java/com/recommendation/LatentFactor/Stochastic.java:166-177 | an entity with lines and a defined mean gets the value that, with the mean added back and multiplied by its count, gives its score sum; any other keeps its accumulated sum |
| Baseline.Estimate | src/main/java/com/recommendation/LatentFactor/Stochastic.java:146-177 | the global mean is the score total over the line count (NaN for none); an entity with lines gets its mean score minus the global mean, one without keeps 0 |
| Baseline.EmptyTrainingSet | src/main/java/com/recommendation/LatentFactor/Stochastic.java:163-177 | with no training lines the mean is NaN and every bias stays 0 |
| Baseline.EstimateExample | src/main/java/com/recommendation/LatentFactor/Stochastic.java:146-177 | scores 5, 3 for user 0 and 1 for user 1 give mean 3, user biases 1 and -2, item biases 0 and 0 |
| Baseline.DuplicateLinesExample | src/main/java/com/recommendation/LatentFactor/Stochastic.java:146-160 | a repeated pair counts twice in the biases while the table keeps only its last score |
| FactorModel.Dot | src/main/java/com/recommendation/LatentFactor/Stochastic.java:229 | no contract of its own: the sum of the coordinate products in increasing factor order, the 1x1 product of a transposed column with a column; its meaning for the model is carried by AffinityLocal and StepFormula |
| FactorModel.Affinity | src/main/java/com/recommendation/LatentFactor/Stochastic.java:226-229 | no contract of its own: the product of user u's column with item i's column; AffinityLocal states that it depends on those two columns only |
| FactorModel.AffinityLocal | src/main/java/com/recommendation/LatentFactor/Stochastic.java:226-230 | the column product depends on user u's and item i's columns only |
| Sgd.Pass | src/main/java/com/recommendation/LatentFactor/Stochastic.java:233-234 | one pass of the factor loop keeps the matrix shapes |
| Sgd.FactorPasses | src/main/java/com/recommendation/LatentFactor/Stochastic.java:232-235 | the factor loop keeps the matrix shapes and does not touch the bias vectors |
| Sgd.PassFrame | src/main/java/com/recommendation/LatentFactor/Stochastic.java:233-234 | pass f writes only user[f][u] and item[f][i], and the item coordinate reads the user coordinate just written |
| Sgd.LaterRowsUntouched | src/main/java/com/recommendation/LatentFactor/Stochastic.java:232-235 | after k passes the factor rows from k on are unchanged |
| Sgd.OtherColumnsUntouched | src/main/java/com/recommendation/LatentFactor/Stochastic.java:232-235 | the factor loop changes no column except user u's and item i's |
| Sgd.PassedRowUpdated | src/main/java/com/recommendation/LatentFactor/Stochastic.java:229-235 | after the loop passes row f, that row holds the update computed from its own old values and the error of the old biases, the item coordinate using the new user coordinate |
| Sgd.Step | src/main/java/com/recommendation/LatentFactor/Stochastic.java:222-241 | one step keeps every dimension |
| Sgd.StepFrame | src/main/java/com/recommendation/LatentFactor/Stochastic.java:222-241 | one step changes nothing but user u's column, item i's column, userAvg[u] and itemAvg[i] |
| Sgd.StepFormula | src/main/java/com/recommendation/LatentFactor/Stochastic.java:229-237 | the closed form of a step: factor moves against e times the old item coordinate and the new user coordinate respectively, the user bias against e, the item bias against the error recomputed with the new user bias |
| Sgd.StepExample | src/main/java/com/recommendation/LatentFactor/Stochastic.java:222-241 | user [1, 0], item [0, 1], alpha 0.1, lambda 0, score 4 give user [1, 0.4], item [0.4, 1.16], biases 0.4 and 0.36 |
| Evaluation.RowCost | src/main/java/com/recommendation/LatentFactor/Stochastic.java:250-258 | the inner loop adds one to the count per row entry |
| Evaluation.TableCost | src/main/java/com/recommendation/LatentFactor/Stochastic.java:248-260 | the outer loop never lowers the count |
| Evaluation.RowCostSpec | src/main/java/com/recommendation/LatentFactor/Stochastic.java:250-258 | the inner loop adds the column products of the row's entries to the total and their number to the count |
| Evaluation.TableCostSpec | src/main/java/com/recommendation/LatentFactor/Stochastic.java:248-260 | the outer loop adds the column products of every table entry to the total and the number of entries to the count |
| Evaluation.CostIsMeanAffinity | src/main/java/com/recommendation/LatentFactor/Stochastic.java:244-261 | the cost is the mean of the raw column products over the table entries, unsquared and ignoring the scores; NaN for an empty table |
| Evaluation.Cost | src/main/java/com/recommendation/LatentFactor/Stochastic.java:244-261 | no contract of its own: CostIsMeanAffinity states that it is the mean of the raw column products over the table entries, NaN for an empty table |
| Evaluation.Clamp | src/main/java/com/recommendation/LatentFactor/Stochastic.java:283-288 | the result lies in the range when the range is non-empty, is the input when the input is in range, is the bound the input crosses, and is always the maximum when the range is empty |
| Evaluation.PredictionInRange | src/main/java/com/recommendation/LatentFactor/Stochastic.java:278-288 | the prediction lies in [rangeMin, rangeMax] when that range is non-empty, and equals the product plus both biases when that is already in range |
| Evaluation.SquaredErrors | src/main/java/com/recommendation/LatentFactor/Stochastic.java:272-290 | the accumulated squared error is non-negative and zero exactly when every clamped prediction equals its score |
| Evaluation.MeanSquaredError | src/main/java/com/recommendation/LatentFactor/Stochastic.java:272-292 | the value under the square root is NaN exactly for an empty test stream; otherwise it is non-negative and zero exactly when every clamped prediction equals its score |
| Evaluation.ClampExample | src/main/java/com/recommendation/LatentFactor/Stochastic.java:286-288 | a raw prediction of 6.7 against range [1, 5] is scored as 5 |
| Evaluation.RawPrediction | src/main/java/com/recommendation/LatentFactor/Stochastic.java:278-282 | no contract of its own: the column product plus the user and item biases; PredictionInRange relates it to the clamped prediction |
| Evaluation.Prediction | src/main/java/com/recommendation/LatentFactor/Stochastic.java:278-288 | no contract of its own: PredictionInRange states that it lies in a non-empty rating range and equals the raw prediction when that is in range |
| Training.ApplySteps | src/main/java/com/recommendation/LatentFactor/Stochastic.java:305-311 | a sequence of steps keeps every dimension |
| Training.RowSteps | src/main/java/com/recommendation/LatentFactor/Stochastic.java:307-311 | the inner loop of an epoch keeps every dimension |
| Training.Epoch | src/main/java/com/recommendation/LatentFactor/Stochastic.java:305-312 | an epoch keeps every dimension |
| Training.ApplyStepsAppend | src/main/java/com/recommendation/LatentFactor/Stochastic.java:305-312 | steps over two line sequences back to back are the steps over the first, then over the second |
| Training.RowStepsInOrder | src/main/java/com/recommendation/LatentFactor/Stochastic.java:307-311 | the inner loop applies one step per row entry, in row order |
| Training.EpochInTableOrder | src/main/java/com/recommendation/LatentFactor/Stochastic.java:305-312 | an epoch applies exactly one step per table entry, in the table's iteration order |
| Training.ApplyStepsKeepsUnrated | src/main/java/com/recommendation/LatentFactor/Stochastic.java:305-312 | a user (item) on none of the stepped lines keeps its factor column and its bias |
| Training.States | src/main/java/com/recommendation/LatentFactor/Stochastic.java:303-313 | n rounds leave n states, the last of the starting shape |
| Training.StatesShape | src/main/java/com/recommendation/LatentFactor/Stochastic.java:303-313 | every state of a run has the starting shape |
| Training.Train | src/main/java/com/recommendation/LatentFactor/Stochastic.java:303-323 | the loop keeps every dimension and logs one report per round |
| Training.Evaluate | src/main/java/com/recommendation/LatentFactor/Stochastic.java:314-318 | no contract of its own: the `costFunction()` and `predict()` pair (before the square root) on one state; LogReportsEachEpoch states that log line k is this pair for the state after k + 1 epochs |
| Training.ZeroIterations | src/main/java/com/recommendation/LatentFactor/Stochastic.java:296-303 | with zero or negative `iteration` the loop changes nothing and logs nothing |
| Training.NextRound | src/main/java/com/recommendation/LatentFactor/Stochastic.java:303-312 | round n + 1 applies one step per table entry, in table order, to the state round n left |
| Training.StatesPrefix | src/main/java/com/recommendation/LatentFactor/Stochastic.java:303-313 | the first k states of a longer run are those of a k-round run |
| Training.LogReportsEachEpoch | src/main/java/com/recommendation/LatentFactor/Stochastic.java:303-322 | log line k holds the cost and the test error of the state after exactly k + 1 epochs |
| Training.StatesCompose | src/main/java/com/recommendation/LatentFactor/Stochastic.java:303-313 | a + b rounds are a rounds followed by b rounds from the state they leave |
| Training.RunsCompose | src/main/java/com/recommendation/LatentFactor/Stochastic.java:303-323 | training a + b rounds is training a and then b more from the result; the logs concatenate |
| Training.DoGradientDescent | src/main/java/com/recommendation/LatentFactor/Stochastic.java:295-324 | the run keeps every dimension and logs one report per epoch, none for `iteration` up to 0; ZeroIterations and LogReportsEachEpoch state what the log holds |
| Training.InitAndTrain | src/main/java/com/recommendation/LatentFactor/Stochastic.java:182-324 | after `init` and `doGradientDescent` the matrices and bias vectors have the scanned dimensions and the log has one report per epoch; UnratedKeepInitialState states what happens to an entity without training lines |
| Training.EpochsKeepUnrated | src/main/java/com/recommendation/LatentFactor/Stochastic.java:303-312 | a user (item) with no table entry keeps its factor column and bias through any number of epochs |
| Training.Init | src/main/java/com/recommendation/LatentFactor/Stochastic.java:182-219 | the dimensions are the scan of both streams, the table is the one built from the training lines, the bias vectors are the estimated ones and the factor matrices are the initial ones; the bias vectors have the scanned dimensions, and with a positive factor count the state is ready to train |
| Baseline.NoLinesOfUser | src/main/java/com/recommendation/LatentFactor/Stochastic.java:166-170 | a user that no training line mentions has no lines, so its count stays 0 |
| Baseline.NoLinesOfItem | src/main/java/com/recommendation/LatentFactor/Stochastic.java:173-177 | an item that no training line mentions has no lines, so its count stays 0 |
| Training.UnratedKeepInitialState | src/main/java/com/recommendation/LatentFactor/Stochastic.java:166-177 | a user (item) with no training line, one seen only in the test stream say, ends training with its initial factor column and a bias of 0 |

## Left out

Line numbers below are those of `Stochastic.java`.

- **File reading and `Scanner` parsing.** The model takes parsed
  `(user, item, score)` sequences instead. This includes the discarded
  timestamp field and the opening and closing of streams.
- **The unreadable-file exception paths.** These are the exceptions that
  `init` catches and then continues past. One of them is a missing test
  file: opening it at line 114 throws before lines 124-125 set the
  dimensions, so `init` goes on with arrays of size 0. The first training
  line, if there is one, then throws at line 146, which leaves `rates` empty, and every
  `predict` throws `FileNotFoundException`, which `doGradientDescent` catches
  at line 319. The model takes both streams as sequences of parsed lines and
  has no such path.
- **The early return on an empty training path** in
  `setUserNumberAndItemNumber`. It is file handling.
- **Random initialisation with `1/Math.sqrt(factor)` scaling.** The initial
  factor matrices are parameters of `Training.Init`.
- **The final `Math.sqrt` of `predict`.** The model states its properties
  about the mean squared error under the root.
- **IEEE-754 rounding, overflow and NaN propagation.** Arithmetic is exact
  `real`; NaN appears only as the result of a division by a zero count.
- **Logging, the setters, the Spring component wiring and the commented-out
  `main`.** They carry no behaviour of the engine.
- **Jama's `Matrix` objects.** `userMatrix` and `itemMatrix` alias `user` and
  `item`, so they are not modelled separately.
- Ratings.ScanDimensions: does not model the 32-bit overflow of `maxId + 1`
  when an id is `Integer.MAX_VALUE`, because ids are unbounded integers here.
- Training.Init: requires non-negative ids, and the exception paths of a
  negative id are not modelled. In `readIntoMemory` a negative training
  user id throws `ArrayIndexOutOfBoundsException` at line 146. A negative
  item id with a non-negative user id throws at line 148, after lines
  146-147 have already added the line to that user's sum and count. `init`
  catches either at line 214. The final loops at lines 166-177 then never
  run, so `userAvg` and `itemAvg` keep the raw sums of the lines read so
  far. A negative id that occurs only in the test stream throws in
  `predict`, at line 280 (line 282 when `factor` is 0). Nothing catches
  that one, since line 319 catches only `FileNotFoundException`, so
  `doGradientDescent` stops after the first epoch's steps.
- Training.Init: requires matrices of the scanned shape, in place of the
  arrays that `init` allocates.
- Sgd.Step: requires `factor > 0`. With `factor == 0`, `new Matrix(user)` at
  line 223 reads row 0 of an array with no rows and throws. Nothing catches
  it, since line 319 catches only `FileNotFoundException`. So with a
  non-empty table the source stops at the first step. With an empty table
  the step is never called and the source's loop still runs, logging NaN
  costs. The model's loop requires `factor > 0` and does not cover that run.
