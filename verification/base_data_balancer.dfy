/** The helpers every balancer shares: parameter validation, the split into
    minority and majority class, seeded Fisher–Yates undersampling, feature
    extraction, the nearest-neighbour search, interpolation, synthetic-row
    assembly, weight normalisation and cumulative-probability sampling. */
module BaseDataBalancer {
  import opened Values
  import opened Models
  import opened Seqs
  import opened Rand
  import opened NearestNeighbors

  const UndersamplingRatioMessage := "Undersampling ratio must be between 0 and 1"
  const MinorityRatioMessage := "Minority to majority ratio must be between 0 and 1"
  const KNeighborsMessage := "K should be greater than 0"
  const TwoClassesMessage := "Data balancing requires exactly two classes"

  predicate InUnitInterval(x: real)
  {
    0.0 < x <= 1.0
  }

  predicate ValidBalancingParameters(config: DataBalancingConfig)
  {
    InUnitInterval(config.undersamplingRatio)
    && InUnitInterval(config.minorityToMajorityRatio)
    && config.kNeighbors >= 1
  }

  /** The three checks, in the order the source makes them: the first
      failing one decides the error. */
  function ValidateBalancingParameters(config: DataBalancingConfig): (r: Outcome)
    ensures r.Pass? <==> ValidBalancingParameters(config)
    ensures !InUnitInterval(config.undersamplingRatio) ==>
      r == Fail(ArgumentException(UndersamplingRatioMessage))
    ensures InUnitInterval(config.undersamplingRatio) && !InUnitInterval(config.minorityToMajorityRatio) ==>
      r == Fail(ArgumentException(MinorityRatioMessage))
    ensures (InUnitInterval(config.undersamplingRatio) && InUnitInterval(config.minorityToMajorityRatio)
             && config.kNeighbors < 1) ==> r == Fail(ArgumentException(KNeighborsMessage))
  {
    if config.undersamplingRatio <= 0.0 || config.undersamplingRatio > 1.0 then
      Fail(ArgumentException(UndersamplingRatioMessage))
    else if config.minorityToMajorityRatio <= 0.0 || config.minorityToMajorityRatio > 1.0 then
      Fail(ArgumentException(MinorityRatioMessage))
    else if config.kNeighbors < 1 then
      Fail(ArgumentException(KNeighborsMessage))
    else
      Pass
  }

  // ----- splitting by class -----

  /** The class of a row: its target value converted to a boolean. */
  function LabelOf(row: Row, targetField: string): bool
    requires targetField in row
  {
    ToBoolean(row[targetField])
  }

  /** The rows of one class, in input order (one group of `GroupBy`). */
  function WithLabel(data: seq<Row>, targetField: string, classLabel: bool): (r: seq<Row>)
    requires HasKey(data, targetField)
    ensures |r| <= |data|
    ensures forall i :: 0 <= i < |r| ==> targetField in r[i] && LabelOf(r[i], targetField) == classLabel
    decreases |data|
  {
    if data == [] then []
    else
      var rest := WithLabel(data[1..], targetField, classLabel);
      if LabelOf(data[0], targetField) == classLabel then [data[0]] + rest else rest
  }

  lemma {:induction false} WithLabelPartition(data: seq<Row>, targetField: string, classLabel: bool)
    requires HasKey(data, targetField)
    ensures multiset(WithLabel(data, targetField, classLabel)) + multiset(WithLabel(data, targetField, !classLabel))
      == multiset(data)
    decreases |data|
  {
    if data != [] {
      WithLabelPartition(data[1..], targetField, classLabel);
      assert data == [data[0]] + data[1..];
    }
  }

  lemma {:induction false} WithLabelEmpty(data: seq<Row>, targetField: string, classLabel: bool)
    requires HasKey(data, targetField)
    ensures WithLabel(data, targetField, classLabel) == [] <==>
      forall i :: 0 <= i < |data| ==> LabelOf(data[i], targetField) != classLabel
    decreases |data|
  {
    if data != [] {
      WithLabelEmpty(data[1..], targetField, classLabel);
      assert forall i :: 1 <= i < |data| ==> data[i] == data[1..][i - 1];
    }
  }

  /** A class keeps the input order of its rows. */
  lemma {:induction false} WithLabelOrder(data: seq<Row>, targetField: string, classLabel: bool)
    requires HasKey(data, targetField)
    ensures IsSubsequence(WithLabel(data, targetField, classLabel), data)
    decreases |data|
  {
    if data != [] {
      var r := WithLabel(data, targetField, classLabel);
      WithLabelOrder(data[1..], targetField, classLabel);
      if LabelOf(data[0], targetField) == classLabel {
        assert r[0] == data[0] && r[1..] == WithLabel(data[1..], targetField, classLabel);
      } else if r != [] {
        assert r == WithLabel(data[1..], targetField, classLabel);
      }
    }
  }

  /** Some row's class differs from the first row's. */
  predicate TwoLabels(data: seq<Row>, targetField: string)
    requires HasKey(data, targetField)
  {
    exists i :: 0 <= i < |data| && LabelOf(data[i], targetField) != LabelOf(data[0], targetField)
  }

  /** `GroupBy(label).OrderBy(Count)`: groups in order of first appearance,
      then stably by size, so on a tie the first-seen class comes first. */
  function GroupByLabel(data: seq<Row>, targetField: string): (groups: seq<seq<Row>>)
    requires HasKey(data, targetField)
  {
    if data == [] then []
    else
      var first := WithLabel(data, targetField, LabelOf(data[0], targetField));
      var second := WithLabel(data, targetField, !LabelOf(data[0], targetField));
      if second == [] then [first]
      else if |second| < |first| then [second, first]
      else [first, second]
  }

  /** `SplitDataByClass` (and the same grouping written out in the SMOTE
      balancer, which throws with its own message). Reading the target of a
      row without it throws `KeyNotFoundException`; fewer or more than two
      classes throw `ArgumentException`. Otherwise (minority, majority):
      the two classes, each in input order, the smaller first. */
  function SplitDataByClass(data: seq<Row>, targetField: string, message: string): (r: Result<(seq<Row>, seq<Row>)>)
    ensures r.Err? <==> !HasKey(data, targetField) || !TwoLabels(data, targetField)
    ensures !HasKey(data, targetField) ==> r == Err(KeyNotFoundException)
    ensures HasKey(data, targetField) && !TwoLabels(data, targetField) ==> r == Err(ArgumentException(message))
    ensures r.Ok? ==> HasKey(data, targetField) && 0 < |data| && IsSplit(data, targetField, r.value.0, r.value.1)
  {
    if !HasKey(data, targetField) then Err(KeyNotFoundException)
    else
      var groups := GroupByLabel(data, targetField);
      GroupByLabelShape(data, targetField);
      if |groups| != 2 then Err(ArgumentException(message))
      else Ok((groups[0], groups[1]))
  }

  /** The two classes of a non-empty dataset, the smaller first: the class
      of the first row unless the other class is strictly smaller. Both keep
      input order and together they hold every row. */
  predicate IsSplit(data: seq<Row>, targetField: string, minority: seq<Row>, majority: seq<Row>)
    requires HasKey(data, targetField) && 0 < |data|
  {
    var first := LabelOf(data[0], targetField);
    && 0 < |minority| <= |majority|
    && multiset(minority) + multiset(majority) == multiset(data)
    && ((minority == WithLabel(data, targetField, first) && majority == WithLabel(data, targetField, !first))
        || (|minority| < |majority|
            && minority == WithLabel(data, targetField, !first) && majority == WithLabel(data, targetField, first)))
  }

  lemma GroupByLabelShape(data: seq<Row>, targetField: string)
    requires HasKey(data, targetField)
    ensures var groups := GroupByLabel(data, targetField);
      && (|groups| == 2 <==> TwoLabels(data, targetField))
      && (|groups| == 2 ==> 0 < |data| && IsSplit(data, targetField, groups[0], groups[1]))
  {
    if data != [] {
      var first := LabelOf(data[0], targetField);
      WithLabelEmpty(data, targetField, first);
      WithLabelEmpty(data, targetField, !first);
      WithLabelPartition(data, targetField, first);
      WithLabelPartition(data, targetField, !first);
    }
  }

  // ----- counts -----

  datatype BalanceCounts = BalanceCounts(undersampled: int, target: int, synthetic: int)

  /** The majority is cut to floor(|majority| × UndersamplingRatio), the
      minority target is floor(that × MinorityToMajorityRatio), and the
      minority is topped up to the target with synthetic rows. */
  function Counts(minorityCount: nat, majorityCount: nat, config: DataBalancingConfig): (c: BalanceCounts)
    requires InUnitInterval(config.undersamplingRatio) && InUnitInterval(config.minorityToMajorityRatio)
    ensures 0 <= c.undersampled <= majorityCount
    ensures 0 <= c.target <= c.undersampled
    ensures c.synthetic >= 0 && minorityCount + c.synthetic >= c.target
    ensures c.synthetic > 0 ==> minorityCount + c.synthetic == c.target
    ensures c.undersampled as real <= majorityCount as real * config.undersamplingRatio < c.undersampled as real + 1.0
    ensures c.target as real <= c.undersampled as real * config.minorityToMajorityRatio < c.target as real + 1.0
    ensures c.synthetic == if c.target > minorityCount then c.target - minorityCount else 0
  {
    var undersampled := FloorScaled(majorityCount, config.undersamplingRatio);
    var target := FloorScaled(undersampled, config.minorityToMajorityRatio);
    BalanceCounts(undersampled, target, Max(0, target - minorityCount))
  }

  /** `(int)(n * ratio)` for a ratio in (0, 1]: the truncation of a
      non-negative product, so the floor, between 0 and n. */
  function FloorScaled(n: nat, ratio: real): (r: nat)
    requires InUnitInterval(ratio)
    ensures r <= n
    ensures r as real <= n as real * ratio < r as real + 1.0
  {
    var scaled := n as real * ratio;
    ScaledDown(n as real, ratio);
    assert scaled.Floor as real <= scaled <= n as real;
    scaled.Floor
  }

  lemma ScaledDown(x: real, ratio: real)
    requires 0.0 <= x && 0.0 <= ratio <= 1.0
    ensures 0.0 <= x * ratio <= x && x * ratio == ratio * x
  {
    assert x * ratio + x * (1.0 - ratio) == x;
    ProductNonNegative(x, ratio);
    ProductNonNegative(x, 1.0 - ratio);
  }

  /** ratio × d lies between 0 and d. */
  lemma ProductBetween(ratio: real, d: real)
    requires 0.0 <= ratio <= 1.0
    ensures d >= 0.0 ==> 0.0 <= ratio * d <= d
    ensures d < 0.0 ==> d <= ratio * d <= 0.0
  {
    if d >= 0.0 {
      ScaledDown(d, ratio);
    } else {
      ScaledDown(-d, ratio);
      NegatedProduct(ratio, d);
    }
  }

  lemma NegatedProduct(x: real, y: real)
    ensures x * y == -(x * (-y))
  {
  }

  lemma ProductNonNegative(x: real, y: real)
    requires 0.0 <= x && 0.0 <= y
    ensures 0.0 <= x * y
  {
  }

  /** 100 majority and 10 minority rows with ratios 0.5 and 1.0: 50 majority
      rows are kept and 40 synthetic rows are made, 100 rows in all. */
  lemma CountsExample()
    ensures var c := Counts(10, 100, DataBalancingConfig(SMOTE, 0, 5, 0.5, 1.0));
      c == BalanceCounts(50, 50, 40) && c.undersampled + 10 + c.synthetic == 100
  {
    assert (100 as real * 0.5).Floor == 50;
    assert (50 as real * 1.0).Floor == 50;
  }

  // ----- Fisher–Yates undersampling -----

  function Swap<T>(s: seq<T>, i: nat, j: nat): (r: seq<T>)
    requires i < |s| && j < |s|
    ensures |r| == |s|
  {
    s[i := s[j]][j := s[i]]
  }

  lemma SwapPermutes<T>(s: seq<T>, i: nat, j: nat)
    requires i < |s| && j < |s|
    ensures multiset(Swap(s, i, j)) == multiset(s)
  {
  }

  /** Fisher–Yates steps i, i - 1, ..., 1: step i swaps position i with a
      position drawn by `Next(i + 1)`, taking draws from `stream` at `start`. */
  function FisherYates<T>(s: seq<T>, i: nat, stream: nat -> Sample, start: nat): (r: seq<T>)
    requires i < |s|
    ensures |r| == |s|
    decreases i
  {
    if i == 0 then s
    else FisherYates(Swap(s, i, Scale(SampleAt(stream, start), i + 1)), i - 1, stream, start + 1)
  }

  /** Every step is a swap, so the shuffle is a permutation. */
  lemma {:induction false} FisherYatesPermutes<T>(s: seq<T>, i: nat, stream: nat -> Sample, start: nat)
    requires i < |s|
    ensures multiset(FisherYates(s, i, stream, start)) == multiset(s)
    decreases i
  {
    if i > 0 {
      var j := Scale(SampleAt(stream, start), i + 1);
      SwapPermutes(s, i, j);
      FisherYatesPermutes(Swap(s, i, j), i - 1, stream, start + 1);
    }
  }

  /** The whole shuffle of s. */
  function Shuffled<T>(s: seq<T>, stream: nat -> Sample, start: nat): (r: seq<T>)
    ensures |r| == |s|
  {
    if s == [] then [] else FisherYates(s, |s| - 1, stream, start)
  }

  lemma ShuffledPermutes<T>(s: seq<T>, stream: nat -> Sample, start: nat)
    ensures multiset(Shuffled(s, stream, start)) == multiset(s)
  {
    if s != [] {
      FisherYatesPermutes(s, |s| - 1, stream, start);
    }
  }

  /** Every entry of p is below n: p indexes a sequence of length n. */
  predicate AllBelow(p: seq<nat>, n: nat)
  {
    forall k :: 0 <= k < |p| ==> p[k] < n
  }

  /** `indices.Select(i => s[i])` */
  function Select<T>(s: seq<T>, p: seq<nat>): (r: seq<T>)
    requires AllBelow(p, |s|)
    ensures |r| == |p| && forall k :: 0 <= k < |p| ==> r[k] == s[p[k]]
  {
    seq(|p|, k requires 0 <= k < |p| => s[p[k]])
  }

  /** A rearrangement of indices below n stays below n. */
  lemma BoundsKept(p: seq<nat>, q: seq<nat>, n: nat)
    requires multiset(q) == multiset(p)
    requires AllBelow(p, n)
    ensures AllBelow(q, n)
  {
    forall k | 0 <= k < |q| ensures q[k] < n {
      assert q[k] in multiset(p);
    }
  }

  lemma SelectSwap<T>(s: seq<T>, p: seq<nat>, i: nat, j: nat)
    requires i < |p| && j < |p|
    requires AllBelow(p, |s|)
    ensures AllBelow(Swap(p, i, j), |s|)
    ensures Select(s, Swap(p, i, j)) == Swap(Select(s, p), i, j)
  {
  }

  /** Shuffling indices and then looking them up is shuffling the rows. */
  lemma {:induction false} SelectFisherYates<T>(s: seq<T>, p: seq<nat>, i: nat, stream: nat -> Sample, start: nat)
    requires i < |p|
    requires AllBelow(p, |s|)
    ensures AllBelow(FisherYates(p, i, stream, start), |s|)
    ensures Select(s, FisherYates(p, i, stream, start)) == FisherYates(Select(s, p), i, stream, start)
    decreases i
  {
    FisherYatesPermutes(p, i, stream, start);
    BoundsKept(p, FisherYates(p, i, stream, start), |s|);
    if i > 0 {
      var j := Scale(SampleAt(stream, start), i + 1);
      SelectSwap(s, p, i, j);
      SelectFisherYates(s, Swap(p, i, j), i - 1, stream, start + 1);
    }
  }

  /** `ShuffleMajorityClass`: shuffles the index array 0..n-1 with
      Fisher–Yates, one draw per position from n - 1 down to 1, and keeps the
      rows at the first targetCount shuffled indices. The result is a prefix
      of the shuffled rows, so it holds min(targetCount, n) rows taken at
      distinct positions. */
  method ShuffleMajorityClass(samples: seq<Row>, targetCount: int, random: Random) returns (r: seq<Row>)
    modifies random
    ensures random.drawn == old(random.drawn) + Max(|samples| - 1, 0)
    ensures r == Shuffled(samples, random.stream, old(random.drawn))[..Min(Max(targetCount, 0), |samples|)]
    ensures |r| == Min(Max(targetCount, 0), |samples|)
    ensures multiset(r) <= multiset(samples)
  {
    var n := |samples|;
    var indices := IndexArray(n);
    ghost var start := random.drawn;
    if n > 0 {
      ShuffleIndices(indices, random);
    }
    assert indices[..] == ShuffledIndices(n, random.stream, start);
    var m := Min(Max(targetCount, 0), n);
    r := Select(samples, indices[..])[..m];
    SelectShuffledIndices(samples, random.stream, start);
    ShuffledPermutes(samples, random.stream, start);
    PrefixSubMultiset(Shuffled(samples, random.stream, start), m);
  }

  /** The majority shuffled from the start of the stream and cut to
      floor(|majority| × UndersamplingRatio) rows: what `ShuffleMajorityClass`
      returns for a fresh generator. */
  function Undersampled(majority: seq<Row>, config: DataBalancingConfig, stream: nat -> Sample): seq<Row>
    requires InUnitInterval(config.undersamplingRatio)
  {
    Shuffled(majority, stream, 0)[..FloorScaled(|majority|, config.undersamplingRatio)]
  }

  /** The index array after the shuffle loop. */
  function ShuffledIndices(n: nat, stream: nat -> Sample, start: nat): (p: seq<nat>)
    ensures |p| == n && AllBelow(p, n)
  {
    if n == 0 then []
    else
      FisherYatesPermutes(Iota(n), n - 1, stream, start);
      BoundsKept(Iota(n), FisherYates(Iota(n), n - 1, stream, start), n);
      FisherYates(Iota(n), n - 1, stream, start)
  }

  lemma SelectShuffledIndices<T>(s: seq<T>, stream: nat -> Sample, start: nat)
    ensures Select(s, ShuffledIndices(|s|, stream, start)) == Shuffled(s, stream, start)
  {
    if s != [] {
      var p := Iota(|s|);
      assert ShuffledIndices(|s|, stream, start) == FisherYates(p, |s| - 1, stream, start);
      SelectIota(s);
      SelectFisherYates(s, p, |s| - 1, stream, start);
    }
  }

  /** `Enumerable.Range(0, n).ToArray()` */
  method IndexArray(n: nat) returns (indices: array<nat>)
    ensures fresh(indices) && indices[..] == Iota(n)
  {
    indices := new nat[n];
    var i := 0;
    while i < n
      invariant 0 <= i <= n
      invariant forall k :: 0 <= k < i ==> indices[k] == k
    {
      indices[i] := i;
      i := i + 1;
    }
  }

  lemma SelectIota<T>(s: seq<T>)
    ensures Select(s, Iota(|s|)) == s
  {
  }

  /** The Fisher–Yates loop over the index array. */
  method ShuffleIndices(indices: array<nat>, random: Random)
    requires 0 < indices.Length
    modifies indices, random
    ensures random.drawn == old(random.drawn) + (indices.Length - 1)
    ensures indices[..] == FisherYates(old(indices[..]), indices.Length - 1, random.stream, old(random.drawn))
  {
    var n := indices.Length;
    ghost var goal := FisherYates(indices[..], n - 1, random.stream, random.drawn);
    var i := n - 1;
    while i > 0
      invariant 0 <= i < n
      invariant random.drawn == old(random.drawn) + (n - 1 - i)
      invariant FisherYates(indices[..], i, random.stream, random.drawn) == goal
    {
      ShuffleStep(indices, i, random);
      i := i - 1;
    }
  }

  /** One step of the loop: position i swapped with the position `Next(i + 1)` draws. */
  method ShuffleStep(indices: array<nat>, i: nat, random: Random)
    requires i < indices.Length
    modifies indices, random
    ensures random.drawn == old(random.drawn) + 1
    ensures indices[..] == Swap(old(indices[..]), i, Scale(SampleAt(random.stream, old(random.drawn)), i + 1))
  {
    var j := random.Next(i + 1);
    var t := indices[i];
    indices[i] := indices[j];
    indices[j] := t;
  }

  lemma PrefixSubMultiset<T>(s: seq<T>, m: nat)
    requires m <= |s|
    ensures multiset(s[..m]) <= multiset(s)
  {
    assert s == s[..m] + s[m..];
  }

  // ----- feature vectors -----

  /** The values of the named fields of one row, as reals. */
  function FeatureVector(row: Row, names: seq<string>): (v: seq<real>)
    requires forall j :: 0 <= j < |names| ==> names[j] in row
    ensures |v| == |names|
  {
    seq(|names|, j requires 0 <= j < |names| => ToSingle(row[names[j]]))
  }

  /** `ConvertToFeatureArrays`: one vector per row and one entry per name;
      a name missing from some row throws `KeyNotFoundException`. */
  function ConvertToFeatureArrays(samples: seq<Row>, names: seq<string>): (r: Result<seq<seq<real>>>)
    ensures r.Ok? <==> HasKeys(samples, names)
    ensures r.Err? ==> r.error == KeyNotFoundException
    ensures r.Ok? ==> (
      && |r.value| == |samples|
      && forall i :: 0 <= i < |samples| ==>
           |r.value[i]| == |names|
           && forall j :: 0 <= j < |names| ==> r.value[i][j] == ToSingle(samples[i][names[j]]))
  {
    if !HasKeys(samples, names) then Err(KeyNotFoundException)
    else Ok(seq(|samples|, i requires 0 <= i < |samples| => FeatureVector(samples[i], names)))
  }

  /** Every vector has the given width. */
  predicate Rectangular(features: seq<seq<real>>, width: nat)
  {
    forall q :: 0 <= q < |features| ==> |features[q]| == width
  }

  // ----- nearest neighbours -----

  /** `EuclideanDistance`, squared: the running sum of squared differences. */
  method SquaredEuclideanDistance(a: seq<real>, b: seq<real>) returns (sum: real)
    requires |a| <= |b|
    ensures sum == SquaredDistance(a, b) && 0.0 <= sum
  {
    sum := 0.0;
    var i := 0;
    while i < |a|
      invariant 0 <= i <= |a|
      invariant sum == SquaredDistance(a[..i], b)
    {
      var diff := a[i] - b[i];
      sum := sum + diff * diff;
      i := i + 1;
      assert a[..i][..i - 1] == a[..i - 1];
    }
    assert a[..|a|] == a;
    SquaredDistanceNonNegative(a, b);
  }

  /** `FindKNearestNeighbors`: the k rows nearest to target other than
      excludeIndex, nearest first, equal distances in index order; the
      properties of that search are the lemmas of `NearestNeighbors`. */
  method FindKNearestNeighbors(features: seq<seq<real>>, target: seq<real>, excludeIndex: int, k: int)
    returns (r: seq<nat>)
    requires forall q :: 0 <= q < |features| ==> |features[q]| <= |target|
    ensures r == KNearest(DistancesTo(features, target), excludeIndex, k)
  {
    ghost var d := DistancesTo(features, target);
    var distances: seq<Candidate> := [];
    var i := 0;
    while i < |features|
      invariant 0 <= i <= |features|
      invariant distances == CandidatesUpTo(d, excludeIndex, i)
    {
      if i != excludeIndex {
        var dist := SquaredEuclideanDistance(features[i], target);
        distances := distances + [Candidate(i, dist)];
      }
      assert distances == CandidatesUpTo(d, excludeIndex, i + 1);
      i := i + 1;
    }
    assert distances == Candidates(d, excludeIndex);
    var sorted := StableSort(distances, Distance);
    var m := Min(Max(k, 0), |sorted|);
    r := seq(m, t requires 0 <= t < m => sorted[t].index);
  }

  /** What the search promises, in terms of the feature vectors: min(k,
      considered) distinct rows other than excludeIndex, by non-decreasing
      distance with ties in index order, and every row left out no nearer
      than the last one returned. */
  lemma FindKNearestNeighborsSound(features: seq<seq<real>>, target: seq<real>, excludeIndex: int, k: int)
    requires forall q :: 0 <= q < |features| ==> |features[q]| <= |target|
    ensures var r := KNearest(DistancesTo(features, target), excludeIndex, k);
      && |r| == Min(Max(k, 0), Considered(|features|, excludeIndex))
      && (forall i :: 0 <= i < |r| ==> r[i] < |features| && r[i] != excludeIndex)
      && (forall i, j :: 0 <= i < j < |r| ==> r[i] != r[j])
      && (forall i, j :: 0 <= i < j < |r| ==>
            SquaredDistance(features[r[i]], target) < SquaredDistance(features[r[j]], target)
            || (SquaredDistance(features[r[i]], target) == SquaredDistance(features[r[j]], target) && r[i] < r[j]))
      && (forall q :: 0 <= q < |features| && q != excludeIndex && q !in r ==>
            |r| == Max(k, 0) && (|r| > 0 ==> SquaredDistance(features[r[|r| - 1]], target) <= SquaredDistance(features[q], target)))
  {
    var d := DistancesTo(features, target);
    var r := KNearest(d, excludeIndex, k);
    KNearestRows(d, excludeIndex, k);
    KNearestOrdered(d, excludeIndex, k);
    forall q | 0 <= q < |features| && q != excludeIndex && q !in r
      ensures |r| == Max(k, 0) && (|r| > 0 ==> SquaredDistance(features[r[|r| - 1]], target) <= SquaredDistance(features[q], target))
    {
      KNearestOmitted(d, excludeIndex, k, q);
    }
  }

  /** The k nearest other rows of row i. */
  function Neighbors(features: seq<seq<real>>, width: nat, i: nat, k: int): seq<nat>
    requires Rectangular(features, width) && i < |features|
  {
    KNearest(DistancesTo(features, features[i]), i, k)
  }

  /** Row i has min(k, rows - 1) neighbours, all of them rows. */
  lemma NeighborsInRange(features: seq<seq<real>>, width: nat, i: nat, k: int)
    requires Rectangular(features, width) && i < |features| && k >= 1
    ensures var nn := Neighbors(features, width, i, k);
      && |nn| == Min(k, |features| - 1)
      && forall t :: 0 <= t < |nn| ==> nn[t] < |features|
  {
    KNearestRows(DistancesTo(features, features[i]), i, k);
  }

  /** Every row has min(k, rows - 1) neighbours, all of them rows. */
  lemma AllNeighborsInRange(features: seq<seq<real>>, width: nat, k: int)
    requires Rectangular(features, width) && k >= 1
    ensures forall q :: 0 <= q < |features| ==>
      var nn := Neighbors(features, width, q, k);
      && |nn| == Min(k, |features| - 1)
      && forall t :: 0 <= t < |nn| ==> nn[t] < |features|
  {
    forall q | 0 <= q < |features|
      ensures var nn := Neighbors(features, width, q, k);
        && |nn| == Min(k, |features| - 1)
        && forall t :: 0 <= t < |nn| ==> nn[t] < |features|
    {
      NeighborsInRange(features, width, q, k);
    }
  }

  // ----- interpolation and synthetic rows -----

  /** A point on the segment from a to b, the same ratio on every coordinate. */
  function Interpolate(a: seq<real>, b: seq<real>, ratio: real): (r: seq<real>)
    requires |a| <= |b|
    ensures |r| == |a|
  {
    seq(|a|, i requires 0 <= i < |a| => a[i] + ratio * (b[i] - a[i]))
  }

  lemma InterpolateAt(a: seq<real>, b: seq<real>, ratio: real, i: nat)
    requires |a| <= |b| && i < |a|
    ensures Interpolate(a, b, ratio)[i] == a[i] + ratio * (b[i] - a[i])
  {
  }

  /** With a ratio in [0, 1] every coordinate lies between a's and b's. */
  lemma InterpolateBetween(a: seq<real>, b: seq<real>, ratio: real)
    requires |a| <= |b| && 0.0 <= ratio <= 1.0
    ensures forall i :: 0 <= i < |a| ==> Between(a[i], b[i], Interpolate(a, b, ratio)[i])
  {
    forall i | 0 <= i < |a| ensures Between(a[i], b[i], Interpolate(a, b, ratio)[i]) {
      var d := b[i] - a[i];
      ProductBetween(ratio, d);
      assert Interpolate(a, b, ratio)[i] == a[i] + ratio * d;
    }
  }

  predicate Between(x: real, y: real, v: real)
  {
    (x <= v <= y) || (y <= v <= x)
  }

  /** `InterpolateFeatures`: draws one ratio in [0, 1) and interpolates every
      coordinate with it. */
  method InterpolateFeatures(a: seq<real>, b: seq<real>, random: Random) returns (r: seq<real>)
    requires |a| <= |b|
    modifies random
    ensures random.drawn == old(random.drawn) + 1
    ensures 0.0 <= SampleAt(random.stream, old(random.drawn)) < 1.0
    ensures r == Interpolate(a, b, SampleAt(random.stream, old(random.drawn)))
  {
    var ratio := random.NextDouble();
    var result := new real[|a|];
    var i := 0;
    while i < |a|
      invariant 0 <= i <= |a|
      invariant random.drawn == old(random.drawn) + 1
      invariant forall t :: 0 <= t < i ==> result[t] == Interpolate(a, b, ratio)[t]
    {
      result[i] := a[i] + ratio * (b[i] - a[i]);
      InterpolateAt(a, b, ratio, i);
      i := i + 1;
    }
    r := result[..];
    assert r == Interpolate(a, b, ratio);
  }

  /** `CreateSyntheticSample`: each name gets its vector entry, boxed as a
      float, then "Label" gets the label, overwriting a feature of that name. */
  method CreateSyntheticSample(features: seq<real>, names: seq<string>, classLabel: Value) returns (sample: Row)
    requires |names| <= |features|
    ensures sample == Record(names, Floats(features), LabelKey, classLabel)
    ensures sample.Keys == (set n | n in names) + {LabelKey} && sample[LabelKey] == classLabel
  {
    sample := map[];
    var i := 0;
    while i < |names|
      invariant 0 <= i <= |names|
      invariant sample == Fill(names[..i], Floats(features))
    {
      sample := sample[names[i] := Float(features[i])];
      i := i + 1;
      assert names[..i][..i - 1] == names[..i - 1];
    }
    assert names[..|names|] == names;
    sample := sample[LabelKey := classLabel];
  }

  /** Where a synthetic row came from: the base row, the neighbour it was
      interpolated towards and the ratio drawn. */
  datatype Provenance = Provenance(base: nat, neighbor: nat, ratio: real)

  /** The synthetic row built from p: the base row's vector interpolated
      towards one of the base row's k nearest other rows, by a ratio in [0, 1),
      labelled with label. */
  ghost predicate IsSyntheticRow(row: Row, features: seq<seq<real>>, names: seq<string>, classLabel: Value, k: int, p: Provenance)
    requires Rectangular(features, |names|)
  {
    && p.base < |features|
    && p.neighbor < |features|
    && p.neighbor != p.base
    && p.neighbor in KNearest(DistancesTo(features, features[p.base]), p.base, k)
    && 0.0 <= p.ratio < 1.0
    && row == Record(names, Floats(Interpolate(features[p.base], features[p.neighbor], p.ratio)), LabelKey, classLabel)
  }

  /** How the generation of the first synthetic row fails: on an empty
      neighbour list when there is only one row, otherwise on the missing
      "Label" of the first row. Both are thrown inside `Parallel.For`, so
      the caller receives them wrapped in an `AggregateException`. */
  predicate FirstRowFails(minority: seq<Row>, n: nat, error: Error)
    requires |minority| > 0
  {
    if n == 1 then error == AggregateException(IndexOutOfRangeException)
    else n >= 2 && LabelKey !in minority[0] && error == AggregateException(KeyNotFoundException)
  }

  // ----- weights -----

  /** The weights `NormalizeArray` produces: scaled by 1 / sum when the sum
      is positive, otherwise all 1 / n. */
  function Normalized(s: seq<real>): (r: seq<real>)
    ensures |r| == |s|
  {
    if Sum(s) > 0.0 then Scaled(s, 1.0 / Sum(s))
    else seq(|s|, i requires 0 <= i < |s| => 1.0 / |s| as real)
  }

  /** Normalised weights of a non-empty array sum to 1. */
  lemma NormalizedSumsToOne(s: seq<real>)
    requires |s| > 0
    ensures Sum(Normalized(s)) == 1.0
  {
    if Sum(s) > 0.0 {
      NormalizedPositive(s, Sum(s));
    } else {
      NormalizedFallback(s);
    }
  }

  /** With a positive total, normalising divides every weight by the total:
      the weights keep their ratios and sum to 1. */
  lemma NormalizedPositive(s: seq<real>, total: real)
    requires total == Sum(s) && total > 0.0
    ensures Sum(Normalized(s)) == 1.0
    ensures forall i :: 0 <= i < |s| ==> Normalized(s)[i] * total == s[i]
  {
    var factor := 1.0 / total;
    assert Normalized(s) == Scaled(s, factor);
    SumScaled(s, factor);
    Reciprocal(total);
    forall i | 0 <= i < |s| ensures Scaled(s, factor)[i] * total == s[i] {
      Rescaled(s[i], factor, total);
    }
  }

  lemma NormalizedFallback(s: seq<real>)
    requires |s| > 0 && Sum(s) <= 0.0
    ensures Sum(Normalized(s)) == 1.0
  {
    var c := 1.0 / |s| as real;
    var r := Normalized(s);
    assert forall i :: 0 <= i < |r| ==> r[i] == c;
    UniformSum(r, c);
  }

  /** n equal weights 1 / n sum to 1. */
  lemma UniformSum(r: seq<real>, c: real)
    requires |r| > 0 && c == 1.0 / |r| as real
    requires forall i :: 0 <= i < |r| ==> r[i] == c
    ensures Sum(r) == 1.0
  {
    SumConstant(r, c);
    CountTimesReciprocal(|r|);
  }

  lemma CountTimesReciprocal(n: nat)
    requires n > 0
    ensures n as real * (1.0 / n as real) == 1.0
  {
    Reciprocal(n as real);
  }

  lemma Reciprocal(x: real)
    requires x != 0.0
    ensures x * (1.0 / x) == 1.0 && (1.0 / x) * x == 1.0
  {
  }

  /** Scaling by a factor and then by its inverse gives back the value. */
  lemma Rescaled(v: real, factor: real, total: real)
    requires factor * total == 1.0
    ensures v * factor * total == v
  {
    assert v * factor * total == v * (factor * total);
  }

  /** Equal positive weights normalise to 1 / n each. */
  lemma NormalizedUniform(s: seq<real>, c: real)
    requires |s| > 0 && c > 0.0
    requires forall i :: 0 <= i < |s| ==> s[i] == c
    ensures forall i :: 0 <= i < |s| ==> Normalized(s)[i] == 1.0 / |s| as real
  {
    SumConstant(s, c);
    var n := |s| as real;
    assert Sum(s) == n * c > 0.0;
    forall i | 0 <= i < |s| ensures Normalized(s)[i] == 1.0 / n {
      assert Normalized(s)[i] == c * (1.0 / (n * c));
    }
  }

  /** `NormalizeArray`: rewrites the weights in place. */
  method NormalizeArray(values: array<real>)
    modifies values
    ensures values[..] == Normalized(old(values[..]))
  {
    var sum := Sum(values[..]);
    ghost var original := values[..];
    if sum > 0.0 {
      var factor := 1.0 / sum;
      var i := 0;
      while i < values.Length
        invariant 0 <= i <= values.Length
        invariant forall t :: 0 <= t < i ==> values[t] == original[t] * factor
        invariant forall t :: i <= t < values.Length ==> values[t] == original[t]
      {
        values[i] := values[i] * factor;
        i := i + 1;
      }
      assert forall t :: 0 <= t < values.Length ==> values[..][t] == Scaled(original, factor)[t];
      assert values[..] == Scaled(original, factor);
    } else {
      var value := if values.Length == 0 then 0.0 else 1.0 / values.Length as real;
      var i := 0;
      while i < values.Length
        invariant 0 <= i <= values.Length
        invariant forall t :: 0 <= t < i ==> values[t] == value
      {
        values[i] := value;
        i := i + 1;
      }
      assert values[..] == Normalized(original);
    }
  }

  // ----- cumulative-probability sampling -----

  /** The running total after entry i. */
  function RunningTotal(d: seq<real>, i: nat): real
    requires i < |d|
  {
    Sum(d[..i + 1])
  }

  /** The first index from i on whose running total reaches u, or the last
      index if none does. */
  function FirstReachingFrom(d: seq<real>, u: real, i: nat): (r: int)
    requires 0 < |d| && i < |d|
    ensures i <= r < |d|
    ensures forall t :: i <= t < r ==> RunningTotal(d, t) < u
    ensures r < |d| - 1 ==> u <= RunningTotal(d, r)
    decreases |d| - i
  {
    if u <= RunningTotal(d, i) then i
    else if i == |d| - 1 then i
    else FirstReachingFrom(d, u, i + 1)
  }

  /** The index `SelectIndexBasedOnDistribution` returns for the draw u:
      -1 for an empty distribution, else the first index whose running
      total reaches u, falling back to the last index. */
  function FirstReaching(d: seq<real>, u: real): (r: int)
    ensures |d| == 0 ==> r == -1
    ensures |d| > 0 ==> 0 <= r < |d|
    ensures forall t :: 0 <= t < r ==> RunningTotal(d, t) < u
    ensures 0 <= r < |d| - 1 ==> u <= RunningTotal(d, r)
  {
    if |d| == 0 then -1 else FirstReachingFrom(d, u, 0)
  }

  /** With non-negative weights whose total reaches u, the draw u falls in
      the chosen index's slice of the running total: that index is chosen
      with probability equal to its weight. */
  lemma FirstReachingInterval(d: seq<real>, u: real)
    requires |d| > 0 && u <= Sum(d)
    ensures var r := FirstReaching(d, u);
      && 0 <= r < |d|
      && u <= RunningTotal(d, r)
      && (r == 0 || RunningTotal(d, r - 1) < u)
  {
    var r := FirstReaching(d, u);
    if r == |d| - 1 {
      assert d[..r + 1] == d;
    }
    if r > 0 {
      assert RunningTotal(d, r - 1) < u;
    }
  }

  /** `SelectIndexBasedOnDistribution`: one draw, then a running total. */
  method SelectIndexBasedOnDistribution(distribution: seq<real>, random: Random) returns (r: int)
    modifies random
    ensures random.drawn == old(random.drawn) + 1
    ensures r == FirstReaching(distribution, SampleAt(random.stream, old(random.drawn)))
  {
    var u := random.NextDouble();
    var cumulative := 0.0;
    var i := 0;
    while i < |distribution|
      invariant 0 <= i <= |distribution|
      invariant random.drawn == old(random.drawn) + 1
      invariant cumulative == Sum(distribution[..i])
      invariant forall t :: 0 <= t < i ==> RunningTotal(distribution, t) < u
    {
      cumulative := cumulative + distribution[i];
      assert distribution[..i + 1][..i] == distribution[..i];
      if u <= cumulative {
        FirstReachingIs(distribution, u, i);
        return i;
      }
      i := i + 1;
    }
    r := |distribution| - 1;
    if |distribution| > 0 {
      FirstReachingIs(distribution, u, r);
    }
  }

  /** The characterisation pins the index down. */
  lemma FirstReachingIs(d: seq<real>, u: real, i: nat)
    requires i < |d|
    requires forall t :: 0 <= t < i ==> RunningTotal(d, t) < u
    requires i == |d| - 1 || u <= RunningTotal(d, i)
    ensures FirstReaching(d, u) == i
  {
  }
}
