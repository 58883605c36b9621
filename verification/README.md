# D2G.Iris.ML data preparation, modelled in Dafny

This project models the data-preparation engine of D2G.Iris.ML, a
configuration-driven ML.NET training tool. The part modelled runs between
loading the rows and training a model:

- **Data balancing.** SMOTE and ADASYN make synthetic minority rows by
  interpolating between a minority row and one of its k nearest minority
  neighbours, after undersampling the majority class with a Fisher–Yates
  shuffle. A pass-through balancer and a factory complete the set.
- **Feature selection.**
  - The correlation selector ranks features by absolute Pearson
    correlation with the target and greedily drops multicollinear ones.
  - Forward selection grows the feature set while a scorer improves by at
    least a minimum step.
  - A no-op selector and a factory complete the set.
- **Orchestration.** The data processor runs the two stages in the
  configured order and assembles the final rows and feature matrix.
- **Checks.** The configuration checks, the checks on loaded data, and the
  conversion of one database record into a row.

A data row is a `map<string, Value>`. `Value` is the set of boxed values the
pipeline stores: float, boolean, unsigned integer and null. A thrown .NET
exception becomes an `Err`/`Fail` naming the exception type, and the message
where the source fixes one. An exception thrown inside `Parallel.For` reaches
the caller as an `AggregateException` wrapping it.

Randomness is modelled as follows:

- `System.Random` is the class `Rand.Random` over a sample stream in [0, 1).
  Each `NextDouble`/`Next` call consumes one sample, and `Next(n)` is
  `floor(sample × n)`.
- The stream of `new Random(seed)` is a parameter `streams(seed)`.
- All random results are therefore stated as functions of the stream and
  the position of each draw.

Distances are squared Euclidean distances. The square root is monotone, so
every neighbour search orders rows the same way.

Modules follow the source files: `BaseDataBalancer`, `SmoteDataBalancer`,
`AdasynDataBalancer`, `NoDataBalancer`, `DataBalancerFactory`,
`BaseFeatureSelector`, `CorrelationFeatureSelector`, `ForwardFeatureSelector`,
`NoFeatureSelector`, `FeatureSelectorFactory`, `DataProcessor`,
`ConfigManager` and `DataLoader`. Five helper modules support them:

- `Values`: rows, errors and the .NET conversion rules.
- `Models`: the configuration records.
- `Seqs`: sums, stable sort, `Take`, `Distinct`.
- `Rand`: the random generator.
- `NearestNeighbors`: the k-nearest search and its properties.

Each stateful operation comes in two parts:

- A method mirrors the source's loops. It works on arrays where the source
  shuffles or normalises in place, and it is a class whose report field is
  updated where the selectors append to their report.
- The method is proved equal to a specification function. The lemmas state
  what the source promises about that function.

Three behaviours of the code that its names do not suggest:

- **ADASYN ratios.** `CalculateRValues` counts how many of the k smallest
  distances to majority rows exist and divides by k. A density ratio would
  count the majority rows among each row's neighbours. The code's ratio is
  the same for every minority row, so after normalisation the base rows are
  drawn uniformly (`AdasynDataBalancer.NormalizedRValues`).
- **ADASYN with no synthetic rows needed.** ADASYN returns its input
  unchanged, while SMOTE returns the undersampled majority plus the
  minority.
- **Execution order.**
  - `FeatureEngineeringConfig` in the source declares no `ExecutionOrder`,
    but the data processor reads one. The model's configuration record
    carries it.
  - `ProcessedData` in the source lacks the two execution-order fields that
    the data processor sets. The model's record has them.

## Model

| member | source | states |
|---|---|---|
| Values.ToBoolean | D2G.Iris.ML/DataBalancing/BaseDataBalancer.cs:37 | specification; see `DataLoader.BoolLabels`, `BaseDataBalancer.WithLabel` |
| Values.ToSingle | D2G.Iris.ML/DataBalancing/BaseDataBalancer.cs:75 | specification; see `BaseDataBalancer.ConvertToFeatureArrays`, `BaseFeatureSelector.ConvertToFeatureMatrix` |
| Values.RoundHalfEven | D2G.Iris.ML/Data/DataLoader.cs:56 | the rounding of a float to an integer lies within one half of it, and a value exactly halfway between two integers goes to the even one |
| Values.ToUInt32 | D2G.Iris.ML/Data/DataLoader.cs:89 | `Convert.ToUInt32` turns a boolean into 1 or 0, keeps an unsigned value and turns null into 0; a float succeeds exactly when its half-to-even rounding lies in [0, 2^32), giving that rounding, and otherwise overflows |
| Values.Record | D2G.Iris.ML/Data/DataProcessor.cs:151-162 | a row built name by name and then keyed by the target has exactly the names and the target as keys; the target holds its value; each other name holds the value at its last occurrence |
| Rand.Scale | D2G.Iris.ML/DataBalancing/BaseDataBalancer.cs:60 | `Next(maxValue)` lies in [0, maxValue), and is 0 when maxValue is 0 |
| Rand.Random.constructor | D2G.Iris.ML/DataBalancing/SmoteDataBalancer.cs:31 | a new generator is at the start of its seed's stream |
| Rand.Random.NextDouble | D2G.Iris.ML/DataBalancing/BaseDataBalancer.cs:111 | returns the next sample, which lies in [0, 1), and advances by one draw |
| Rand.Random.Next | D2G.Iris.ML/DataBalancing/BaseDataBalancer.cs:60 | returns the next sample scaled into [0, maxValue), and advances by one draw |
| Rand.Random.NextUnbounded | D2G.Iris.ML/DataBalancing/SmoteDataBalancer.cs:129 | `Next()` returns a non-negative integer below `int.MaxValue` from the next sample |
| NearestNeighbors.SquaredDistanceNonNegative | D2G.Iris.ML/DataBalancing/BaseDataBalancer.cs:97-106 | the sum of squared differences is never negative |
| NearestNeighbors.SquaredDistanceSymmetric | D2G.Iris.ML/DataBalancing/BaseDataBalancer.cs:97-106 | the distance from a to b equals the distance from b to a |
| NearestNeighbors.DistancesTo | D2G.Iris.ML/DataBalancing/BaseDataBalancer.cs:84-88 | one distance per row, each the distance from that row to the query |
| NearestNeighbors.SortedCandidates | D2G.Iris.ML/DataBalancing/BaseDataBalancer.cs:90 | the stable sort orders candidates by distance, ties by index, and holds exactly the considered rows with their distances |
| NearestNeighbors.KNearest | D2G.Iris.ML/DataBalancing/BaseDataBalancer.cs:90-93 | specification; see `NearestNeighbors.KNearestRows`, `KNearestOrdered`, `KNearestOmitted` |
| NearestNeighbors.KNearestRows | D2G.Iris.ML/DataBalancing/BaseDataBalancer.cs:90-93 | the search returns min(k, considered) distinct rows, none of them the excluded one |
| NearestNeighbors.KNearestOrdered | D2G.Iris.ML/DataBalancing/BaseDataBalancer.cs:90-93 | returned rows come by non-decreasing distance, equal distances in index order |
| NearestNeighbors.KNearestOmitted | D2G.Iris.ML/DataBalancing/BaseDataBalancer.cs:90-93 | a considered row is left out only when k rows were returned, and it is no nearer than the last one returned |
| BaseDataBalancer.ValidateBalancingParameters | D2G.Iris.ML/DataBalancing/BaseDataBalancer.cs:21-31 | passes exactly when both ratios are in (0, 1] and k ≥ 1; otherwise fails with the first failing check's argument error |
| BaseDataBalancer.WithLabel | D2G.Iris.ML/DataBalancing/BaseDataBalancer.cs:37 | one class is at most the data, and every row in it has that label |
| BaseDataBalancer.WithLabelPartition | D2G.Iris.ML/DataBalancing/BaseDataBalancer.cs:37 | the two classes together hold every row exactly as often as the data does |
| BaseDataBalancer.WithLabelEmpty | D2G.Iris.ML/DataBalancing/BaseDataBalancer.cs:37 | a class is empty exactly when no row has its label |
| BaseDataBalancer.WithLabelOrder | D2G.Iris.ML/DataBalancing/BaseDataBalancer.cs:37 | a class keeps the input order of its rows |
| BaseDataBalancer.GroupByLabel | D2G.Iris.ML/DataBalancing/BaseDataBalancer.cs:37-39 | specification; see `BaseDataBalancer.GroupByLabelShape` |
| BaseDataBalancer.GroupByLabelShape | D2G.Iris.ML/DataBalancing/BaseDataBalancer.cs:37-39 | there are two groups exactly when two labels occur; the smaller group comes first, and the first-seen class wins a tie |
| BaseDataBalancer.SplitDataByClass | D2G.Iris.ML/DataBalancing/BaseDataBalancer.cs:34-45 | fails with `KeyNotFoundException` when a row lacks the target and with an argument error unless there are two classes; otherwise it returns (minority, majority) |
| BaseDataBalancer.Counts | D2G.Iris.ML/DataBalancing/SmoteDataBalancer.cs:45-50 | the kept majority count is floor(majority × UndersamplingRatio) and the target floor(kept × MinorityToMajorityRatio), so at most the majority and at most the kept count; the synthetic count is max(0, target − minority) |
| BaseDataBalancer.FloorScaled | D2G.Iris.ML/DataBalancing/SmoteDataBalancer.cs:45 | `(int)(n * ratio)` is the floor of the product, between 0 and n |
| BaseDataBalancer.CountsExample | D2G.Iris.ML/DataBalancing/SmoteDataBalancer.cs:45-50 | 100 majority and 10 minority rows at ratios 0.5 and 1.0 keep 50 majority rows and make 40 synthetic rows, 100 in all |
| BaseDataBalancer.FisherYates | D2G.Iris.ML/DataBalancing/BaseDataBalancer.cs:58-62 | specification; see `BaseDataBalancer.FisherYatesPermutes` |
| BaseDataBalancer.Shuffled | D2G.Iris.ML/DataBalancing/BaseDataBalancer.cs:53-62 | specification; see `BaseDataBalancer.ShuffledPermutes`, `BaseDataBalancer.ShuffleIndices` |
| BaseDataBalancer.Undersampled | D2G.Iris.ML/DataBalancing/SmoteDataBalancer.cs:45-46 | specification; see `BaseDataBalancer.ShuffleMajorityClass`, `SmoteDataBalancer.SmoteBalancedRows` |
| BaseDataBalancer.FisherYatesPermutes | D2G.Iris.ML/DataBalancing/BaseDataBalancer.cs:58-62 | every Fisher–Yates step is a swap, so the shuffle is a permutation |
| BaseDataBalancer.ShuffledPermutes | D2G.Iris.ML/DataBalancing/BaseDataBalancer.cs:58-62 | the whole shuffle of the rows is a permutation of them |
| BaseDataBalancer.SelectFisherYates | D2G.Iris.ML/DataBalancing/BaseDataBalancer.cs:58-65 | shuffling indices and looking them up equals shuffling the rows themselves |
| BaseDataBalancer.SelectShuffledIndices | D2G.Iris.ML/DataBalancing/BaseDataBalancer.cs:53-65 | the rows at the shuffled index array are the shuffled rows |
| BaseDataBalancer.ShuffleMajorityClass | D2G.Iris.ML/DataBalancing/BaseDataBalancer.cs:48-67 | uses n - 1 draws and returns the first min(targetCount, n) shuffled rows, a sub-multiset of the input |
| BaseDataBalancer.IndexArray | D2G.Iris.ML/DataBalancing/BaseDataBalancer.cs:53-55 | a fresh array holding 0 .. n-1 |
| BaseDataBalancer.ShuffleIndices | D2G.Iris.ML/DataBalancing/BaseDataBalancer.cs:58-62 | the in-place loop leaves the Fisher–Yates permutation of the old array and uses one draw per step |
| BaseDataBalancer.ShuffleStep | D2G.Iris.ML/DataBalancing/BaseDataBalancer.cs:60-61 | one step swaps position i with the position `Next(i + 1)` draws |
| BaseDataBalancer.ConvertToFeatureArrays | D2G.Iris.ML/DataBalancing/BaseDataBalancer.cs:70-77 | succeeds exactly when every row has every name, and then entry [i][j] is row i's field j as a float; otherwise `KeyNotFoundException` |
| BaseDataBalancer.SquaredEuclideanDistance | D2G.Iris.ML/DataBalancing/BaseDataBalancer.cs:97-106 | the loop's running sum is the squared distance, which is non-negative |
| BaseDataBalancer.FindKNearestNeighbors | D2G.Iris.ML/DataBalancing/BaseDataBalancer.cs:80-94 | the loop returns the stable-sorted k nearest rows other than the excluded one |
| BaseDataBalancer.FindKNearestNeighborsSound | D2G.Iris.ML/DataBalancing/BaseDataBalancer.cs:80-94 | min(k, considered) distinct rows, never the excluded one, by non-decreasing distance; every row left out is no nearer than the last one returned |
| BaseDataBalancer.NeighborsInRange | D2G.Iris.ML/DataBalancing/SmoteDataBalancer.cs:119-123 | a row's neighbour list has min(k, rows - 1) entries, all of them valid rows |
| BaseDataBalancer.AllNeighborsInRange | D2G.Iris.ML/DataBalancing/SmoteDataBalancer.cs:119-123 | the same holds for every row's neighbour list |
| BaseDataBalancer.Interpolate | D2G.Iris.ML/DataBalancing/BaseDataBalancer.cs:112-117 | the interpolated vector is as long as the base vector |
| BaseDataBalancer.InterpolateAt | D2G.Iris.ML/DataBalancing/BaseDataBalancer.cs:116 | coordinate i is a[i] + ratio × (b[i] - a[i]) |
| BaseDataBalancer.InterpolateBetween | D2G.Iris.ML/DataBalancing/BaseDataBalancer.cs:109-120 | with a ratio in [0, 1], every coordinate lies between the two rows' coordinates |
| BaseDataBalancer.InterpolateFeatures | D2G.Iris.ML/DataBalancing/BaseDataBalancer.cs:109-120 | draws one ratio in [0, 1) and interpolates every coordinate with it |
| BaseDataBalancer.CreateSyntheticSample | D2G.Iris.ML/DataBalancing/BaseDataBalancer.cs:123-135 | the sample's keys are the names plus "Label"; "Label" holds the label; each name holds its boxed feature |
| BaseDataBalancer.Normalized | D2G.Iris.ML/DataBalancing/BaseDataBalancer.cs:138-157 | normalising keeps the length |
| BaseDataBalancer.NormalizedSumsToOne | D2G.Iris.ML/DataBalancing/BaseDataBalancer.cs:138-157 | normalised non-empty weights sum to 1 |
| BaseDataBalancer.NormalizedPositive | D2G.Iris.ML/DataBalancing/BaseDataBalancer.cs:141-148 | with a positive total, every weight is divided by the total: ratios are kept and the sum is 1 |
| BaseDataBalancer.NormalizedFallback | D2G.Iris.ML/DataBalancing/BaseDataBalancer.cs:149-156 | with a non-positive total, the 1/n fallback still sums to 1 |
| BaseDataBalancer.NormalizedUniform | D2G.Iris.ML/DataBalancing/BaseDataBalancer.cs:138-157 | equal positive weights normalise to 1/n each |
| BaseDataBalancer.NormalizeArray | D2G.Iris.ML/DataBalancing/BaseDataBalancer.cs:138-157 | the in-place loops leave the normalised weights of the old array |
| BaseDataBalancer.FirstReachingFrom | D2G.Iris.ML/DataBalancing/BaseDataBalancer.cs:164-171 | returns the first index from i whose running total reaches u, or the last index |
| BaseDataBalancer.FirstReaching | D2G.Iris.ML/DataBalancing/BaseDataBalancer.cs:159-172 | -1 for an empty distribution; otherwise an index before which no running total reaches u and which reaches u unless it is the last |
| BaseDataBalancer.FirstReachingInterval | D2G.Iris.ML/DataBalancing/BaseDataBalancer.cs:162-171 | when the total reaches u, the chosen index's slice of the running total holds u, so an index is chosen with probability equal to its weight |
| BaseDataBalancer.FirstReachingIs | D2G.Iris.ML/DataBalancing/BaseDataBalancer.cs:164-171 | any index meeting the first-reaching description is the one returned |
| BaseDataBalancer.SelectIndexBasedOnDistribution | D2G.Iris.ML/DataBalancing/BaseDataBalancer.cs:159-172 | one draw u, then the first index whose running total reaches u |
| SmoteDataBalancer.SmoteProvenance | D2G.Iris.ML/DataBalancing/SmoteDataBalancer.cs:133-138 | iteration j of base row i interpolates from row i towards a valid row |
| SmoteDataBalancer.SmoteRowSynthetic | D2G.Iris.ML/DataBalancing/SmoteDataBalancer.cs:133-142 | each row the inner loop adds lies between its base row and one of that row's k nearest, by a ratio in [0, 1), and carries the label |
| SmoteDataBalancer.BlockRow | D2G.Iris.ML/DataBalancing/SmoteDataBalancer.cs:133-142 | row j of base row i's block is the row of iteration (i, j) |
| SmoteDataBalancer.PlanFor | D2G.Iris.ML/DataBalancing/SmoteDataBalancer.cs:110-123 | the generation plan has one vector per minority row, all as wide as the names, and a neighbour list per row |
| SmoteDataBalancer.PlanForNearest | D2G.Iris.ML/DataBalancing/SmoteDataBalancer.cs:119-123 | the plan's list for row i is row i's k nearest other rows |
| SmoteDataBalancer.GeneratedSamples | D2G.Iris.ML/DataBalancing/SmoteDataBalancer.cs:102-147 | specification; see `SmoteDataBalancer.GeneratedSamplesSound`, `GeneratedRowSynthetic` |
| SmoteDataBalancer.GeneratedSamplesSound | D2G.Iris.ML/DataBalancing/SmoteDataBalancer.cs:102-147 | succeeds exactly when every row has every feature, there are at least 2 rows and the first has "Label"; then it makes exactly `count` rows, and row i·perInstance + j is synthesised from base row i towards one of its k nearest; the one-row and missing-"Label" failures come wrapped in an `AggregateException` |
| SmoteDataBalancer.GeneratedRowSynthetic | D2G.Iris.ML/DataBalancing/SmoteDataBalancer.cs:102-147 | every generated row is synthetic: an interpolation towards a k-nearest minority neighbour, labelled with the first minority row's label |
| SmoteDataBalancer.PlanRowSynthetic | D2G.Iris.ML/DataBalancing/SmoteDataBalancer.cs:127-146 | every row of the plan's first `count` rows is synthetic |
| SmoteDataBalancer.PlanRowAt | D2G.Iris.ML/DataBalancing/SmoteDataBalancer.cs:127-146 | the row at i·perInstance + j of the cut rows is the row of iteration (i, j) |
| SmoteDataBalancer.NeighborLists | D2G.Iris.ML/DataBalancing/SmoteDataBalancer.cs:119-123 | one list per row, each that row's k nearest other rows |
| SmoteDataBalancer.SmoteRowIs | D2G.Iris.ML/DataBalancing/SmoteDataBalancer.cs:135-141 | the row the loop builds from iteration j's two draws is the plan's row (i, j) |
| SmoteDataBalancer.SynthesizeOne | D2G.Iris.ML/DataBalancing/SmoteDataBalancer.cs:133-142 | one iteration uses two local draws and yields the plan's row, or fails the way the first row fails |
| SmoteDataBalancer.SynthesizeFromRow | D2G.Iris.ML/DataBalancing/SmoteDataBalancer.cs:127-143 | one base row extends the rows so far to the plan's first `count` rows up to that base row; only base row 0 can fail |
| SmoteDataBalancer.SynthesizeRows | D2G.Iris.ML/DataBalancing/SmoteDataBalancer.cs:127-146 | the loop over base rows, each seeding its local generator from the shared one, yields the plan's first `count` rows |
| SmoteDataBalancer.GenerateSyntheticSamples | D2G.Iris.ML/DataBalancing/SmoteDataBalancer.cs:102-147 | the method returns the specified generation and uses one shared draw per minority row |
| SmoteDataBalancer.BalanceDataset | D2G.Iris.ML/DataBalancing/SmoteDataBalancer.cs:14-79 | the method returns the specified balanced dataset |
| SmoteDataBalancer.SyntheticPart | D2G.Iris.ML/DataBalancing/SmoteDataBalancer.cs:52-62 | specification; see `SmoteDataBalancer.SyntheticPartSound` |
| SmoteDataBalancer.SmoteBalanced | D2G.Iris.ML/DataBalancing/SmoteDataBalancer.cs:14-79 | specification; see `SmoteDataBalancer.SmoteBalancedFails`, `SmoteBalancedParts`, `SmoteBalancedRows`, `SmoteBalancedSynthetic` |
| SmoteDataBalancer.SyntheticPartSound | D2G.Iris.ML/DataBalancing/SmoteDataBalancer.cs:52-62 | generation fails exactly when rows are needed and a feature, a second row or "Label" is missing; otherwise the minority plus synthetic rows number max(minority, target) |
| SmoteDataBalancer.SmoteBalancedFails | D2G.Iris.ML/DataBalancing/SmoteDataBalancer.cs:14-79 | fails exactly on a bad parameter (checked first), a missing target, other than two classes, or a failing generation |
| SmoteDataBalancer.SmoteBalancedParts | D2G.Iris.ML/DataBalancing/SmoteDataBalancer.cs:52-66 | a success is the undersampled majority, then the minority, then the synthetic rows |
| SmoteDataBalancer.SmoteBalancedRows | D2G.Iris.ML/DataBalancing/SmoteDataBalancer.cs:45-66 | the result has undersampled + max(minority, target) rows; the kept majority rows are majority rows; the minority is unchanged in the middle |
| SmoteDataBalancer.SmoteBalancedSynthetic | D2G.Iris.ML/DataBalancing/SmoteDataBalancer.cs:52-66 | every row after the minority is synthetic, made from a minority row towards one of its k nearest, with the first minority row's label |
| AdasynDataBalancer.RValues | D2G.Iris.ML/DataBalancing/AdasynDataBalancer.cs:85-117 | one ratio per minority row |
| AdasynDataBalancer.CalculateRValues | D2G.Iris.ML/DataBalancing/AdasynDataBalancer.cs:85-117 | the loops fill a fresh array with each row's count of k nearest majority distances over k |
| AdasynDataBalancer.NormalizedRValues | D2G.Iris.ML/DataBalancing/AdasynDataBalancer.cs:50-51 | the normalised ratios are 1/n for every minority row |
| AdasynDataBalancer.UniformWeights | D2G.Iris.ML/DataBalancing/AdasynDataBalancer.cs:51 | n weights |
| AdasynDataBalancer.UniformChoice | D2G.Iris.ML/DataBalancing/AdasynDataBalancer.cs:142 | under weights 1/n, the draw u picks the row whose slice (r/n, (r+1)/n] holds u: each row gets an equal share of [0, 1) |
| AdasynDataBalancer.AdasynProvenance | D2G.Iris.ML/DataBalancing/AdasynDataBalancer.cs:142-149 | synthetic row t's base row and neighbour are valid rows |
| AdasynDataBalancer.AdasynRows | D2G.Iris.ML/DataBalancing/AdasynDataBalancer.cs:134-160 | the first `count` rows of the plan number `count` |
| AdasynDataBalancer.RowMaker | D2G.Iris.ML/DataBalancing/AdasynDataBalancer.cs:139-157 | the row function yields plan row t for every t ≥ 0 |
| AdasynDataBalancer.RowsExtended | D2G.Iris.ML/DataBalancing/AdasynDataBalancer.cs:139-157 | appending plan row n to its first n rows gives its first n + 1 |
| AdasynDataBalancer.AdasynRowsStep | D2G.Iris.ML/DataBalancing/AdasynDataBalancer.cs:139-157 | the first n + 1 rows are the first n followed by row n |
| AdasynDataBalancer.AdasynRowSynthetic | D2G.Iris.ML/DataBalancing/AdasynDataBalancer.cs:142-152 | row t's base row is the weighted choice of draw 3t, and the row interpolates towards one of that row's k nearest with a ratio in [0, 1) |
| AdasynDataBalancer.PlanFor | D2G.Iris.ML/DataBalancing/AdasynDataBalancer.cs:119-136 | the plan holds the given vectors, weights, names, k and stream, and the first row's label |
| AdasynDataBalancer.PlanForNearest | D2G.Iris.ML/DataBalancing/AdasynDataBalancer.cs:144-145 | the plan's list for row i is row i's k nearest other rows |
| AdasynDataBalancer.GeneratedSamples | D2G.Iris.ML/DataBalancing/AdasynDataBalancer.cs:119-166 | specification; see `AdasynDataBalancer.GeneratedSamplesSound`, `GeneratedRowSynthetic` |
| AdasynDataBalancer.GeneratedSamplesSound | D2G.Iris.ML/DataBalancing/AdasynDataBalancer.cs:119-166 | succeeds exactly with at least 2 minority rows and a first row with "Label"; then makes `count` rows, row t from the weighted base of draw 3t towards a k-nearest neighbour; its failures come wrapped in an `AggregateException` |
| AdasynDataBalancer.PlanRowSynthetic | D2G.Iris.ML/DataBalancing/AdasynDataBalancer.cs:142-152 | every plan row of a valid generation is synthetic, with the weighted base of its draw |
| AdasynDataBalancer.CacheInsert | D2G.Iris.ML/DataBalancing/AdasynDataBalancer.cs:144-145 | caching a row's true neighbour list keeps every cached list correct |
| AdasynDataBalancer.CachedNeighbors | D2G.Iris.ML/DataBalancing/AdasynDataBalancer.cs:144-145 | `GetOrAdd` returns the row's neighbour list and keeps the cache correct, now holding that row |
| AdasynDataBalancer.DrawBase | D2G.Iris.ML/DataBalancing/AdasynDataBalancer.cs:142 | one draw picks a base row by weight |
| AdasynDataBalancer.DrawPartner | D2G.Iris.ML/DataBalancing/AdasynDataBalancer.cs:144-147 | one draw picks a position in the base row's neighbour list; this fails exactly with fewer than 2 rows |
| AdasynDataBalancer.DrawNeighbor | D2G.Iris.ML/DataBalancing/AdasynDataBalancer.cs:142-147 | the first two draws of iteration t give plan row t's base row and neighbour |
| AdasynDataBalancer.DrawnProvenance | D2G.Iris.ML/DataBalancing/AdasynDataBalancer.cs:142-147 | draws taken as the loop takes them agree with row t's provenance |
| AdasynDataBalancer.GenerateOne | D2G.Iris.ML/DataBalancing/AdasynDataBalancer.cs:140-155 | one iteration uses three draws and yields plan row t, or fails the way the first row fails |
| AdasynDataBalancer.InterpolateDrawn | D2G.Iris.ML/DataBalancing/AdasynDataBalancer.cs:149 | the third draw interpolates between row t's base row and neighbour by row t's ratio |
| AdasynDataBalancer.GenerateSyntheticSamples | D2G.Iris.ML/DataBalancing/AdasynDataBalancer.cs:119-166 | the batched loops return the specified generation with 3 draws per row, however the rows are cut into batches |
| AdasynDataBalancer.GenerateBatch | D2G.Iris.ML/DataBalancing/AdasynDataBalancer.cs:136-157 | one batch extends the rows made so far by `size` plan rows |
| AdasynDataBalancer.BalanceDataset | D2G.Iris.ML/DataBalancing/AdasynDataBalancer.cs:16-83 | the method returns the specified balanced dataset |
| AdasynDataBalancer.SyntheticSamples | D2G.Iris.ML/DataBalancing/AdasynDataBalancer.cs:47-63 | the conversion, weights and generation return the specified synthetic part |
| AdasynDataBalancer.SyntheticPart | D2G.Iris.ML/DataBalancing/AdasynDataBalancer.cs:47-63 | specification; see `AdasynDataBalancer.SyntheticPartSound` |
| AdasynDataBalancer.AdasynBalanced | D2G.Iris.ML/DataBalancing/AdasynDataBalancer.cs:16-83 | specification; see `AdasynDataBalancer.AdasynBalancedFails`, `AdasynBalancedParts`, `AdasynBalancedRows`, `AdasynBalancedSynthetic` |
| AdasynDataBalancer.SyntheticPartSound | D2G.Iris.ML/DataBalancing/AdasynDataBalancer.cs:47-63 | fails exactly when a row of either class lacks a feature, or there is one minority row, or "Label" is missing; otherwise minority plus synthetic rows reach the target exactly |
| AdasynDataBalancer.GeneratedRowSynthetic | D2G.Iris.ML/DataBalancing/AdasynDataBalancer.cs:149-152 | every generated row is synthetic, with the first minority row's label |
| AdasynDataBalancer.AdasynBalancedFails | D2G.Iris.ML/DataBalancing/AdasynDataBalancer.cs:16-83 | fails exactly on a bad parameter (checked first), a missing target, other than two classes, or a failing generation when rows are needed |
| AdasynDataBalancer.AdasynBalancedParts | D2G.Iris.ML/DataBalancing/AdasynDataBalancer.cs:40-69 | with no rows needed the data comes back unchanged; otherwise the result is the minority, the undersampled majority, then the synthetic rows |
| AdasynDataBalancer.AdasynBalancedRows | D2G.Iris.ML/DataBalancing/AdasynDataBalancer.cs:33-69 | a result with synthetic rows has target + undersampled rows, starts with the minority, and its kept majority rows are majority rows |
| AdasynDataBalancer.AdasynBalancedSynthetic | D2G.Iris.ML/DataBalancing/AdasynDataBalancer.cs:55-69 | every row after the minority and the kept majority is synthetic, with the first minority row's label |
| NoDataBalancer.BalanceDataset | D2G.Iris.ML/DataBalancing/NoDataBalancer.cs:11-19 | always succeeds with the input rows unchanged |
| DataBalancerFactory.CreateBalancer | D2G.Iris.ML/DataBalancing/DataBalancerFactory.cs:11-21 | succeeds exactly for a declared method and returns the balancer of that method; otherwise an argument error |
| DataBalancerFactory.CreateMethodOf | D2G.Iris.ML/DataBalancing/DataBalancerFactory.cs:13-20 | every balancer is the one the factory makes for its method |
| DataBalancerFactory.BalanceDataset | D2G.Iris.ML/DataBalancing/DataBalancerFactory.cs:13-20 | dispatches to the made balancer; the pass-through balancer returns the data |
| BaseFeatureSelector.Listing | D2G.Iris.ML/FeatureEngineering/NoFeatureSelector.cs:28-29 | one report line per name, in order |
| BaseFeatureSelector.FilterTargetField | D2G.Iris.ML/FeatureEngineering/BaseFeatureSelector.cs:32-35 | a name is kept exactly when it is a candidate other than the target |
| BaseFeatureSelector.FilterAppend | D2G.Iris.ML/FeatureEngineering/BaseFeatureSelector.cs:32-35 | filtering keeps relative order: it distributes over concatenation |
| BaseFeatureSelector.FilterCounts | D2G.Iris.ML/FeatureEngineering/BaseFeatureSelector.cs:32-35 | every occurrence of the target is removed and each other name is kept as often as it occurs |
| BaseFeatureSelector.FilterIdempotent | D2G.Iris.ML/FeatureEngineering/BaseFeatureSelector.cs:32-35 | filtering twice is filtering once |
| BaseFeatureSelector.RowValues | D2G.Iris.ML/FeatureEngineering/BaseFeatureSelector.cs:61 | one value per name, each the field read as a number with null as 0 |
| BaseFeatureSelector.ConvertToFeatureMatrix | D2G.Iris.ML/FeatureEngineering/BaseFeatureSelector.cs:37-43 | succeeds exactly when every row has every feature, with entry [i][j] row i's feature j as a float; otherwise `KeyNotFoundException` |
| BaseFeatureSelector.NonNullValues | D2G.Iris.ML/FeatureEngineering/BaseFeatureSelector.cs:46-52 | at most one value per row, and one per row exactly when no row's field is null |
| BaseFeatureSelector.NonNullValuesAll | D2G.Iris.ML/FeatureEngineering/BaseFeatureSelector.cs:46-52 | with no nulls, the values are every row's field in row order |
| BaseFeatureSelector.ExtractTargetValues | D2G.Iris.ML/FeatureEngineering/BaseFeatureSelector.cs:46-52 | succeeds exactly when every row has the target; at most one value per row, one for every row exactly when no target is null (which values, in which order: `ExtractTargetValuesOne`, `ExtractTargetValuesAppend`) |
| BaseFeatureSelector.ExtractTargetValuesOne | D2G.Iris.ML/FeatureEngineering/BaseFeatureSelector.cs:46-52 | one row contributes its target converted to a float, or nothing when the target is null |
| BaseFeatureSelector.ExtractTargetValuesAppend | D2G.Iris.ML/FeatureEngineering/BaseFeatureSelector.cs:46-52 | the targets of two runs of rows are those of the first followed by those of the second; with the one-row case, the result is exactly the non-null targets in row order |
| BaseFeatureSelector.Column | D2G.Iris.ML/FeatureEngineering/BaseFeatureSelector.cs:60-61 | one entry per row, each that row's field with null as 0 |
| BaseFeatureSelector.FeatureColumns | D2G.Iris.ML/FeatureEngineering/BaseFeatureSelector.cs:55-65 | succeeds exactly when every row has every name, with one column per name |
| BaseFeatureSelector.ExtractFeatureValues | D2G.Iris.ML/FeatureEngineering/BaseFeatureSelector.cs:55-65 | the loop returns the specified columns, each with one entry per row |
| BaseFeatureSelector.ColumnsTranspose | D2G.Iris.ML/FeatureEngineering/BaseFeatureSelector.cs:37-65 | the columns are the transpose of the feature matrix, and the two fail together |
| BaseFeatureSelector.DistancesBy | D2G.Iris.ML/FeatureEngineering/BaseFeatureSelector.cs:116-120 | one distance per row, by the given distance function |
| BaseFeatureSelector.FindKNearestNeighbors | D2G.Iris.ML/FeatureEngineering/BaseFeatureSelector.cs:107-127 | the generic search returns the stable-sorted k nearest rows other than the excluded one |
| BaseFeatureSelector.FindKNearestNeighborsSound | D2G.Iris.ML/FeatureEngineering/BaseFeatureSelector.cs:107-127 | min(k, considered) distinct rows, by non-decreasing distance, and every row left out no nearer than the last returned |
| CorrelationFeatureSelector.Keys | D2G.Iris.ML/FeatureEngineering/CorrelationFeatureSelector.cs:39-44 | the dictionary's keys in order |
| CorrelationFeatureSelector.Put | D2G.Iris.ML/FeatureEngineering/CorrelationFeatureSelector.cs:43 | dictionary assignment keeps keys distinct, overwrites an existing key in place or appends a new one, and changes nothing else |
| CorrelationFeatureSelector.TargetCorrelationsUpTo | D2G.Iris.ML/FeatureEngineering/CorrelationFeatureSelector.cs:39-44 | the dictionary fails exactly when a column and the target differ in length; otherwise its keys are distinct |
| CorrelationFeatureSelector.TargetCorrelationKeys | D2G.Iris.ML/FeatureEngineering/CorrelationFeatureSelector.cs:39-44 | the keys are the distinct features in order of first appearance |
| CorrelationFeatureSelector.PutKeys | D2G.Iris.ML/FeatureEngineering/CorrelationFeatureSelector.cs:43 | one assignment extends the key order as `Distinct` does |
| CorrelationFeatureSelector.Pearson | D2G.Iris.ML/FeatureEngineering/CorrelationFeatureSelector.cs:41-43 | specification; see `CorrelationFeatureSelector.TargetCorrelationScores`, `MatrixHoldsCorrelations`; the library correlation itself is a parameter |
| CorrelationFeatureSelector.TargetCorrelationScores | D2G.Iris.ML/FeatureEngineering/CorrelationFeatureSelector.cs:39-44 | each key holds the absolute correlation of its column with the target |
| CorrelationFeatureSelector.PutScores | D2G.Iris.ML/FeatureEngineering/CorrelationFeatureSelector.cs:43 | assigning a feature's score keeps every score correct |
| CorrelationFeatureSelector.AddCorrelation | D2G.Iris.ML/FeatureEngineering/CorrelationFeatureSelector.cs:41-44 | one iteration extends the dictionary by one feature, or its error is the loop's outcome |
| CorrelationFeatureSelector.TargetCorrelations | D2G.Iris.ML/FeatureEngineering/CorrelationFeatureSelector.cs:39-44 | the loop returns the specified dictionary |
| CorrelationFeatureSelector.CorrelationMatrix | D2G.Iris.ML/FeatureEngineering/CorrelationFeatureSelector.cs:46-60 | an n × n matrix whose entry [i][j] is the correlation of columns i and j |
| CorrelationFeatureSelector.RankedOrder | D2G.Iris.ML/FeatureEngineering/CorrelationFeatureSelector.cs:62-66 | the ranking is a permutation of the dictionary, with scores non-increasing |
| CorrelationFeatureSelector.RankedEntries | D2G.Iris.ML/FeatureEngineering/CorrelationFeatureSelector.cs:62-66 | the ranking has distinct names, the same names, and each name's score |
| CorrelationFeatureSelector.GreedyUpTo | D2G.Iris.ML/FeatureEngineering/CorrelationFeatureSelector.cs:75-96 | every kept feature is a field of every row |
| CorrelationFeatureSelector.GreedyInOrder | D2G.Iris.ML/FeatureEngineering/CorrelationFeatureSelector.cs:75-96 | kept features are taken from the ranking at increasing positions |
| CorrelationFeatureSelector.GreedyBound | D2G.Iris.ML/FeatureEngineering/CorrelationFeatureSelector.cs:77 | at most `MaxFeatures` are kept, none when it is not positive |
| CorrelationFeatureSelector.GreedyPairwise | D2G.Iris.ML/FeatureEngineering/CorrelationFeatureSelector.cs:80-95 | no kept feature is correlated beyond the threshold with one kept before it |
| CorrelationFeatureSelector.GreedyPrefix | D2G.Iris.ML/FeatureEngineering/CorrelationFeatureSelector.cs:75-96 | a shorter walk's kept features are a prefix of a longer walk's; after the cap nothing is added |
| CorrelationFeatureSelector.CorrelatedWithPrefix | D2G.Iris.ML/FeatureEngineering/CorrelationFeatureSelector.cs:80-90 | correlation with a kept feature survives keeping more features |
| CorrelationFeatureSelector.MaximalStep | D2G.Iris.ML/FeatureEngineering/CorrelationFeatureSelector.cs:75-96 | one step of the walk keeps every passed-over feature passed over for a reason |
| CorrelationFeatureSelector.GreedyMaximal | D2G.Iris.ML/FeatureEngineering/CorrelationFeatureSelector.cs:75-96 | a ranked feature is left out only because the cap was reached or it is correlated beyond the threshold with a kept one |
| CorrelationFeatureSelector.RankAndWalk | D2G.Iris.ML/FeatureEngineering/CorrelationFeatureSelector.cs:62-96 | returns the ranking and the walk's kept features |
| CorrelationFeatureSelector.IsHighlyCorrelated | D2G.Iris.ML/FeatureEngineering/CorrelationFeatureSelector.cs:80-90 | the matrix lookup loop says whether some kept feature exceeds the threshold with f |
| CorrelationFeatureSelector.SelectUncorrelated | D2G.Iris.ML/FeatureEngineering/CorrelationFeatureSelector.cs:75-96 | the outer loop returns exactly the greedy walk's kept features |
| CorrelationFeatureSelector.ScoreLines | D2G.Iris.ML/FeatureEngineering/CorrelationFeatureSelector.cs:68-72 | one report line per ranked feature, with its score |
| CorrelationFeatureSelector.CorrelationErrors | D2G.Iris.ML/FeatureEngineering/CorrelationFeatureSelector.cs:106-110 | the selection fails, empty, exactly when a row lacks the target or a candidate, or a null target shortens the target values while there is a candidate |
| CorrelationFeatureSelector.CorrelationSelection | D2G.Iris.ML/FeatureEngineering/CorrelationFeatureSelector.cs:22-111 | specification; see `CorrelationFeatureSelector.CorrelationErrors`, `CorrelationSucceeds`, `CorrelationSelected`, `CorrelationSelectedOrder`, `CorrelationSelectedMaximal` |
| CorrelationFeatureSelector.RankedSelection | D2G.Iris.ML/FeatureEngineering/CorrelationFeatureSelector.cs:62-104 | specification; see `CorrelationFeatureSelector.RankedSelectionSound` |
| CorrelationFeatureSelector.CorrelationSucceeds | D2G.Iris.ML/FeatureEngineering/CorrelationFeatureSelector.cs:35-44 | a selection that does not fail reads the target values, fills a dictionary with correct scores and distinct keys, then ranks and walks |
| CorrelationFeatureSelector.RankedSelectionSound | D2G.Iris.ML/FeatureEngineering/CorrelationFeatureSelector.cs:62-104 | the kept names are the greedy walk of the ranking, whose scores are right and non-increasing, and the matrix holds their values |
| CorrelationFeatureSelector.CorrelationSelected | D2G.Iris.ML/FeatureEngineering/CorrelationFeatureSelector.cs:22-111 | at most `MaxFeatures` distinct candidates, never the target, pairwise below the threshold, with a matrix of their values row by row |
| CorrelationFeatureSelector.CorrelationSelectedOrder | D2G.Iris.ML/FeatureEngineering/CorrelationFeatureSelector.cs:62-96 | kept features come in non-increasing order of target correlation |
| CorrelationFeatureSelector.CorrelationSelectedMaximal | D2G.Iris.ML/FeatureEngineering/CorrelationFeatureSelector.cs:75-96 | every candidate left out was left out for the cap or for correlation with a kept feature |
| CorrelationFeatureSelector.MatrixHoldsCorrelations | D2G.Iris.ML/FeatureEngineering/CorrelationFeatureSelector.cs:46-60 | the matrix entry for features i and j is their columns' correlation |
| CorrelationFeatureSelector.CorrelationSelector.constructor | D2G.Iris.ML/FeatureEngineering/BaseFeatureSelector.cs:18-22 | a new selector has an empty report |
| CorrelationFeatureSelector.CorrelationSelector.SelectFeatures | D2G.Iris.ML/FeatureEngineering/CorrelationFeatureSelector.cs:22-111 | returns the specified selection, and the report field holds its report |
| CorrelationFeatureSelector.CorrelationSelector.ReportRanking | D2G.Iris.ML/FeatureEngineering/CorrelationFeatureSelector.cs:68-72 | appends one scored line per ranked feature to the report |
| CorrelationFeatureSelector.CorrelationSelector.Conclude | D2G.Iris.ML/FeatureEngineering/CorrelationFeatureSelector.cs:98-104 | reports the ranking and summary, then reads the kept features' matrix |
| CorrelationFeatureSelector.CorrelationSelector.SelectRanked | D2G.Iris.ML/FeatureEngineering/CorrelationFeatureSelector.cs:62-104 | ranking, walk, summary and matrix give the specified selection |
| ForwardFeatureSelector.EvaluateFeatures | D2G.Iris.ML/FeatureEngineering/ForwardFeatureSelector.cs:86-111 | the scorer's metric for a supported model type; 0 for an unsupported type or a failing scorer |
| ForwardFeatureSelector.BestUpTo | D2G.Iris.ML/FeatureEngineering/ForwardFeatureSelector.cs:40-53 | the round's best score is at least the current score, and its feature is empty or a remaining one |
| ForwardFeatureSelector.BestWinner | D2G.Iris.ML/FeatureEngineering/ForwardFeatureSelector.cs:40-53 | the best beats every trial, and it is the first strictly highest candidate, or empty at the current score |
| ForwardFeatureSelector.Trial | D2G.Iris.ML/FeatureEngineering/ForwardFeatureSelector.cs:44-45 | specification; see `ForwardFeatureSelector.BestWinner`, `SearchStops` |
| ForwardFeatureSelector.BestCandidate | D2G.Iris.ML/FeatureEngineering/ForwardFeatureSelector.cs:40-53 | the inner loop returns the round's specified best |
| ForwardFeatureSelector.Search | D2G.Iris.ML/FeatureEngineering/ForwardFeatureSelector.cs:38-65 | specification; see `ForwardFeatureSelector.SearchSound`, `SearchStops` |
| ForwardFeatureSelector.ForwardSearch | D2G.Iris.ML/FeatureEngineering/ForwardFeatureSelector.cs:38-65 | the outer loop ends at the search's specified stopping state |
| ForwardFeatureSelector.ClimbStep | D2G.Iris.ML/FeatureEngineering/ForwardFeatureSelector.cs:55-64 | admitting a feature that improves by at least `MinImprovement` keeps the climb |
| ForwardFeatureSelector.SearchSound | D2G.Iris.ML/FeatureEngineering/ForwardFeatureSelector.cs:38-65 | at most `maxFeatures` are kept, kept plus remaining are the offered candidates, and each kept feature raised the score by the minimum (the stopping rule: `SearchStops`) |
| ForwardFeatureSelector.SearchStops | D2G.Iris.ML/FeatureEngineering/ForwardFeatureSelector.cs:38-64 | a search that ends with candidates left below `maxFeatures` ended because the round's best is not admitted, and then when none is named "", no remaining candidate raises the score by at least the minimum |
| ForwardFeatureSelector.ForwardSelection | D2G.Iris.ML/FeatureEngineering/ForwardFeatureSelector.cs:20-84 | specification; see `ForwardFeatureSelector.ForwardKept`, `ForwardStops`, `ForwardErrors` |
| ForwardFeatureSelector.ForwardKept | D2G.Iris.ML/FeatureEngineering/ForwardFeatureSelector.cs:20-65 | at most `MaxFeatures` filtered candidates, never the target, distinct when the candidates are, each improving by the minimum; the candidates left are the filtered ones not kept; a stop below the cap leaves no candidate that gains the minimum, when none is named "" |
| ForwardFeatureSelector.ForwardStops | D2G.Iris.ML/FeatureEngineering/ForwardFeatureSelector.cs:38-64 | when the selection stops below `MaxFeatures` with candidates left, adding any one of them would not raise the score by `MinImprovement`, when no candidate is named "" (the source takes a winner named "" for no winner) |
| ForwardFeatureSelector.ForwardErrors | D2G.Iris.ML/FeatureEngineering/ForwardFeatureSelector.cs:76-83 | fails, empty, exactly when a kept feature is missing from a row; otherwise returns the kept features with a matrix row per data row |
| ForwardFeatureSelector.ForwardSelector.constructor | D2G.Iris.ML/FeatureEngineering/BaseFeatureSelector.cs:18-22 | a new selector has an empty report |
| ForwardFeatureSelector.ForwardSelector.ReportOrder | D2G.Iris.ML/FeatureEngineering/ForwardFeatureSelector.cs:67-74 | appends one line per kept feature, in the order kept |
| ForwardFeatureSelector.ForwardSelector.SelectFeatures | D2G.Iris.ML/FeatureEngineering/ForwardFeatureSelector.cs:20-84 | returns the specified selection, and the report field holds its report |
| NoFeatureSelector.NoSelectionReport | D2G.Iris.ML/FeatureEngineering/NoFeatureSelector.cs:23-31 | specification; see `NoFeatureSelector.NoSelector.SelectFeatures` |
| NoFeatureSelector.NoSelection | D2G.Iris.ML/FeatureEngineering/NoFeatureSelector.cs:16-37 | specification; see `NoFeatureSelector.NoSelectionSound` |
| NoFeatureSelector.NoSelectionSound | D2G.Iris.ML/FeatureEngineering/NoFeatureSelector.cs:16-37 | keeps exactly the filtered candidates, in their order and as often as given, the target removed; fails with `KeyNotFoundException` exactly when one is missing; the matrix holds each row's values; the report has 2 + candidates lines |
| NoFeatureSelector.NoSelector.constructor | D2G.Iris.ML/FeatureEngineering/BaseFeatureSelector.cs:18-22 | a new selector has an empty report |
| NoFeatureSelector.NoSelector.SelectFeatures | D2G.Iris.ML/FeatureEngineering/NoFeatureSelector.cs:16-37 | returns the specified selection; the report is written before the matrix is read |
| FeatureSelectorFactory.CreateSelector | D2G.Iris.ML/FeatureEngineering/FeatureSelectorFactory.cs:18-28 | succeeds exactly for a declared method, returning that method's selector; otherwise an argument error |
| FeatureSelectorFactory.CreateMethodOf | D2G.Iris.ML/FeatureEngineering/FeatureSelectorFactory.cs:20-27 | every selector is the one the factory makes for its method |
| FeatureSelectorFactory.SelectFeatures | D2G.Iris.ML/FeatureEngineering/FeatureSelectorFactory.cs:20-27 | dispatches to the made selector; the correlation and forward selectors never throw |
| DataProcessor.Balance | D2G.Iris.ML/Data/DataProcessor.cs:43-57 | runs the factory's balancer on the rows |
| DataProcessor.Select | D2G.Iris.ML/Data/DataProcessor.cs:60-77 | runs the factory's selector on the rows |
| DataProcessor.DefaultMatrix | D2G.Iris.ML/Data/DataProcessor.cs:78-87 | one row per data row, each holding every name's value, 0 where the row lacks it |
| DataProcessor.Kept | D2G.Iris.ML/Data/DataProcessor.cs:106-118 | one value per selected name |
| DataProcessor.FillRow | D2G.Iris.ML/Data/DataProcessor.cs:154-158 | the name-by-name loop builds the dictionary in which later names overwrite earlier ones |
| DataProcessor.Narrowed | D2G.Iris.ML/Data/DataProcessor.cs:106-118 | specification; see `DataProcessor.NarrowedSound` |
| DataProcessor.NarrowedSound | D2G.Iris.ML/Data/DataProcessor.cs:106-118 | fails exactly when a raw row lacks the target; otherwise each row holds exactly the selected names and the target, with raw values or 0 |
| DataProcessor.NarrowRow | D2G.Iris.ML/Data/DataProcessor.cs:109-116 | one raw row becomes its specified intermediate row |
| DataProcessor.NarrowRows | D2G.Iris.ML/Data/DataProcessor.cs:106-118 | the loop returns the specified intermediate rows |
| DataProcessor.FinalRows | D2G.Iris.ML/Data/DataProcessor.cs:151-162 | one final-row result per matrix row |
| DataProcessor.FinalRow | D2G.Iris.ML/Data/DataProcessor.cs:153-161 | specification; see `DataProcessor.FinalRowSound` |
| DataProcessor.FinalRowSound | D2G.Iris.ML/Data/DataProcessor.cs:153-161 | final row i exists exactly when its matrix row is long enough and balanced row i exists with the target, and then has the final shape |
| DataProcessor.AssembledSound | D2G.Iris.ML/Data/DataProcessor.cs:151-162 | the final rows exist exactly when every matrix row can be assembled; then there is one per matrix row, each of the final shape |
| DataProcessor.BuildFinalRow | D2G.Iris.ML/Data/DataProcessor.cs:153-161 | one iteration builds the specified final row |
| DataProcessor.AssembleRows | D2G.Iris.ML/Data/DataProcessor.cs:151-162 | the loop returns the specified final rows |
| DataProcessor.ProcessData | D2G.Iris.ML/Data/DataProcessor.cs:16-195 | the method returns the specified processing result |
| DataProcessor.BalancingFirst | D2G.Iris.ML/Data/DataProcessor.cs:25 | specification; see `DataProcessor.BalanceThenSelectStages`, `SelectThenBalanceStages` |
| DataProcessor.BalanceThenSelect | D2G.Iris.ML/Data/DataProcessor.cs:41-88 | specification; see `DataProcessor.BalanceThenSelectStages`, `BalancingDisabled`, `SelectionDisabled` |
| DataProcessor.SelectThenBalance | D2G.Iris.ML/Data/DataProcessor.cs:89-149 | specification; see `DataProcessor.SelectThenBalanceStages`, `SelectionFirst` |
| DataProcessor.Processing | D2G.Iris.ML/Data/DataProcessor.cs:16-195 | specification; see `DataProcessor.ProcessingSound`, `ProcessingFails`, `UnbalancedCounts` |
| DataProcessor.BalanceThenSelectStages | D2G.Iris.ML/Data/DataProcessor.cs:41-88 | the balancing-first branch returns its specified stages |
| DataProcessor.SelectThenBalanceStages | D2G.Iris.ML/Data/DataProcessor.cs:89-149 | the selection-first branch returns its specified stages |
| DataProcessor.ProcessingSound | D2G.Iris.ML/Data/DataProcessor.cs:16-195 | a missing selection config throws; a success has the raw and balanced counts and final rows of the final shape, and saves exactly when an output table is named |
| DataProcessor.ProcessingFails | D2G.Iris.ML/Data/DataProcessor.cs:16-195 | fails exactly when the selection config is missing, a stage fails, a matrix row cannot be assembled, or the database config is missing |
| DataProcessor.BalancingDisabled | D2G.Iris.ML/Data/DataProcessor.cs:41-149 | with balancing off, the rows are the raw rows, or the narrowed raw rows when selection runs first |
| DataProcessor.SelectionDisabled | D2G.Iris.ML/Data/DataProcessor.cs:78-87 | with selection off, the names are the enabled fields and the matrix reads them with 0 for a missing one; the disabled note appears on the balancing-first path only |
| DataProcessor.SelectionFirst | D2G.Iris.ML/Data/DataProcessor.cs:89-125 | names and report come from the selector on the raw rows; without balancing each row holds exactly the selected names and the target |
| DataProcessor.UnbalancedCounts | D2G.Iris.ML/Data/DataProcessor.cs:182-194 | without balancing the balanced count equals the original count |
| ConfigManager.ValidateFeatureEngineeringConfig | D2G.Iris.ML/Configuration/ConfigManager.cs:63-86 | passes exactly when the config is absent or its method's settings are valid; a failure is an argument error |
| ConfigManager.ValidateConfiguration | D2G.Iris.ML/Configuration/ConfigManager.cs:46-61 | passes exactly on a configuration with database, table, training parameters, algorithm and valid selection settings |
| ConfigManager.ValidationOrder | D2G.Iris.ML/Configuration/ConfigManager.cs:46-86 | the checks run in order, and the first failing one decides the exception and message |
| ConfigManager.ValidationIgnores | D2G.Iris.ML/Configuration/ConfigManager.cs:46-61 | the balancing settings, model type and target field never change the outcome |
| DataLoader.CellToInt64 | D2G.Iris.ML/Data/DataLoader.cs:54 | a null cannot be cast; a bit is 1 or 0; an integer, or a number rounded half to even, succeeds exactly inside the 64-bit range with that value, and otherwise overflows |
| DataLoader.CellToUInt32 | D2G.Iris.ML/Data/DataLoader.cs:55 | a null cannot be cast; a bit is 1 or 0; an integer, or a number rounded half to even, succeeds exactly inside [0, 2^32) with that value, and otherwise overflows |
| DataLoader.FieldValue | D2G.Iris.ML/Data/DataLoader.cs:48-49 | a feature column is stored as a float |
| DataLoader.FieldValues | D2G.Iris.ML/Data/DataLoader.cs:46-50 | one stored value per field |
| DataLoader.CoerceTarget | D2G.Iris.ML/Data/DataLoader.cs:52-59 | binary (and unknown) types store whether the 64-bit value is non-zero, multiclass the unsigned 32-bit value, regression the float with null as 0; out-of-range values overflow and a null fails except for regression |
| DataLoader.Coerced | D2G.Iris.ML/Data/DataLoader.cs:44-59 | specification; see `DataLoader.CoercedSound` |
| DataLoader.CoercedSound | D2G.Iris.ML/Data/DataLoader.cs:44-59 | a record becomes a row exactly when all columns exist and the target converts; the row has exactly the fields and the target, with the converted target winning |
| DataLoader.LoadRecord | D2G.Iris.ML/Data/DataLoader.cs:44-59 | the loop builds the specified row |
| DataLoader.BoolLabels | D2G.Iris.ML/Data/DataLoader.cs:80 | every row's "Label" converted to a boolean |
| DataLoader.UIntLabels | D2G.Iris.ML/Data/DataLoader.cs:89 | succeeds exactly when each row has a convertible "Label", giving the converted labels in row order |
| DataLoader.ValidateLoadedData | D2G.Iris.ML/Data/DataLoader.cs:72-106 | empty data fails with the no-data error; an unknown model type passes any data |
| DataLoader.TwoBooleans | D2G.Iris.ML/Data/DataLoader.cs:80-81 | two distinct booleans are exactly true and false |
| DataLoader.BinaryValidation | D2G.Iris.ML/Data/DataLoader.cs:79-86 | binary data passes exactly when non-empty, labelled, and both true and false occur |
| DataLoader.ConsecutiveLabels | D2G.Iris.ML/Data/DataLoader.cs:89-90 | the sorted distinct labels are 0 .. m-1 exactly when their set is that of some range 0 .. m-1 |
| DataLoader.MulticlassValidation | D2G.Iris.ML/Data/DataLoader.cs:88-96 | multiclass data passes exactly when non-empty, every label converts, and the labels are 0 .. m-1 for some m |
| DataLoader.LabelKeyRead | D2G.Iris.ML/Data/DataLoader.cs:80 | when the first row lacks "Label", every known model type fails with `KeyNotFoundException` |
| DataLoader.FirstLabelMissing | D2G.Iris.ML/Data/DataLoader.cs:89 | converting labels fails with `KeyNotFoundException` when the first row lacks "Label" |

## Left out

- Console output is left out: `LogBalancingResults`, SMOTE's `LogResults`, the progress lines of every stage, and `FormatSelectionSummary` (the model keeps the summary as report lines, not text).
- Square roots in `EuclideanDistance` (both balancers and the feature selector's `double` and `float` overloads) are dropped. The model compares squared distances, which order rows the same way.
- Floating point is modelled as exact reals. `float`/`double` rounding, NaN and infinity are not modelled, nor are the `(float)` casts of ratios and distances.
- DataLoader.ValidateLoadedData: the regression branch checks only that every row has "Label". Its NaN/infinity test cannot fail on reals.
- DataLoader.ValidateLoadedData: the multiclass check compares the set of distinct labels with 0 .. m-1 rather than sorting them. For distinct labels the two are equivalent (`DataLoader.ConsecutiveLabels`).
- SMOTE's `Parallel.For` and `ConcurrentBag` run sequentially here. Base row i's rows appear in row order, and the row count check is not raced. The real bag order and the exact count under concurrency are nondeterministic.
- AdasynDataBalancer.GenerateSyntheticSamples: each thread's own `Random(42)` is modelled as one shared generator, and the parallel batches run in order. Rows drawn on different threads are not modelled.
- `System.Random`'s algorithm is not modelled. A generator is a stream of samples in [0, 1) for its seed, so results are stated for every possible stream.
- Pearson correlation (`Correlation.Pearson` from MathNet) is a function parameter. Its only modelled behaviour is rejecting series of different lengths.
- ML.NET training and metrics behind the forward selector's `Evaluate*` helpers are a scorer function parameter that may fail.
- The PCA selector is not modelled. It is an opaque oracle in the selector factory.
- SQL access (`DataLoader.LoadData`'s connection and reader, `SqlHandler`), JSON loading in `ConfigManager.LoadConfiguration` and file I/O are not modelled. A database record is a map from column name to cell, and saving becomes a returned save request.
- The save call's own exceptions, which `ProcessData` catches and prints, are not modelled.
- `BalancingFirst` reads `DataBalancing.ExecutionOrder` without a null check. The model's configuration always has balancing settings, so a null `DataBalancing` is not modelled.
- Exception messages that embed runtime values (the enum names in the factories, label counts, found values) are reduced to the fixed part of the message.
- SMOTE's private copies of `ShuffleMajorityClass`, `FindKNearestNeighbors`, `EuclideanDistance`, `InterpolateFeatures` and `CreateSyntheticSample` behave exactly like the base ones, so the model uses the base definitions.
- Conversions of values the pipeline never stores in a row (strings, dates, decimals) are not modelled. Cells are null, bit, integer or float.
