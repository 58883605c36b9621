/** The ADASYN balancer: undersamples the majority class like SMOTE, weights
    every minority row by a ratio, normalises the weights, and makes each
    synthetic row from a minority row drawn by weight, interpolated towards
    one of that row's nearest minority neighbours.

    The ratio the source computes for a row is the number of its k nearest
    majority rows over k, which is min(k, |majority|) / k for every row, so
    the weights come out equal and the base rows are drawn uniformly.

    The source generates each batch with `Parallel.For` over a concurrent
    bag, every thread drawing from its own generator seeded with 42; the
    model runs the batches and their samples in order on one generator, so
    the draws and the order of the synthetic rows are those of a
    single-threaded run. */
module AdasynDataBalancer {
  import opened Values
  import opened Models
  import opened Seqs
  import opened Rand
  import opened NearestNeighbors
  import opened BaseDataBalancer

  /** Every generator is constructed with this seed. */
  const Seed := 42

  /** Synthetic rows are made in batches of this many. */
  const DefaultBatchSize := 100

  // ----- ratios -----

  /** The ratio of every minority row: how many of the k nearest majority
      rows exist, over k. */
  function RValues(n: nat, majorityCount: nat, k: int): (r: seq<real>)
    requires k >= 1
    ensures |r| == n
  {
    seq(n, i requires 0 <= i < n => Min(k, majorityCount) as real / k as real)
  }

  /** `CalculateRValues`: for each minority row, the distances to every
      majority row, of which the k smallest are counted. Sorting does not
      change how many there are, so only the count is kept. */
  method CalculateRValues(minorityFeatures: seq<seq<real>>, majorityFeatures: seq<seq<real>>, k: int, ghost width: nat)
    returns (rValues: array<real>)
    requires k >= 1
    requires Rectangular(minorityFeatures, width) && Rectangular(majorityFeatures, width)
    ensures fresh(rValues)
    ensures rValues[..] == RValues(|minorityFeatures|, |majorityFeatures|, k)
  {
    rValues := new real[|minorityFeatures|];
    var i := 0;
    while i < |minorityFeatures|
      invariant 0 <= i <= |minorityFeatures|
      invariant forall t :: 0 <= t < i ==> rValues[t] == Min(k, |majorityFeatures|) as real / k as real
    {
      var distances: seq<real> := [];
      var j := 0;
      while j < |majorityFeatures|
        invariant 0 <= j <= |majorityFeatures| && |distances| == j
        invariant forall t :: 0 <= t < i ==> rValues[t] == Min(k, |majorityFeatures|) as real / k as real
      {
        var d := SquaredEuclideanDistance(minorityFeatures[i], majorityFeatures[j]);
        distances := distances + [d];
        j := j + 1;
      }
      var kNearestCount := |Take(distances, k)|;
      rValues[i] := kNearestCount as real / k as real;
      i := i + 1;
    }
    assert rValues[..] == RValues(|minorityFeatures|, |majorityFeatures|, k);
  }

  /** The ratios are all equal: positive with a non-empty majority, so
      normalising divides each by their sum, and zero otherwise, where
      normalising falls back to 1 / n. Either way every weight is 1 / n. */
  lemma NormalizedRValues(n: nat, majorityCount: nat, k: int)
    requires k >= 1
    ensures Normalized(RValues(n, majorityCount, k)) == UniformWeights(n)
  {
    var r := RValues(n, majorityCount, k);
    var c := Min(k, majorityCount) as real / k as real;
    if n > 0 {
      if majorityCount > 0 {
        assert c > 0.0;
        NormalizedUniform(r, c);
      } else {
        SumConstant(r, 0.0);
      }
      assert forall i :: 0 <= i < n ==> Normalized(r)[i] == UniformWeights(n)[i];
    }
  }

  /** Every one of n rows weighted 1 / n. */
  function UniformWeights(n: nat): (w: seq<real>)
    ensures |w| == n
  {
    seq(n, i requires 0 <= i < n => 1.0 / n as real)
  }

  /** Under weights 1 / n the draw u picks the row r whose slice
      (r / n, (r + 1) / n] holds u (row 0 also takes u = 0): each row gets
      an equal share of [0, 1). */
  lemma UniformChoice(w: seq<real>, u: real)
    requires |w| > 0 && 0.0 <= u < 1.0
    requires forall i :: 0 <= i < |w| ==> w[i] == 1.0 / |w| as real
    ensures var r := FirstReaching(w, u);
      && 0 <= r < |w|
      && u <= (r + 1) as real / |w| as real
      && (r == 0 || r as real / |w| as real < u)
  {
    var n := |w| as real;
    var c := 1.0 / n;
    UniformSum(w, c);
    FirstReachingInterval(w, u);
    var r := FirstReaching(w, u);
    RunningTotalUniform(w, c, r);
    if r > 0 {
      RunningTotalUniform(w, c, r - 1);
    }
  }

  /** The running total of equal weights c after entry i is (i + 1) c. */
  lemma RunningTotalUniform(w: seq<real>, c: real, i: nat)
    requires i < |w| && c == 1.0 / |w| as real
    requires forall t :: 0 <= t < |w| ==> w[t] == c
    ensures RunningTotal(w, i) == (i + 1) as real / |w| as real
  {
    SumConstant(w[..i + 1], c);
  }

  // ----- the generation -----

  /** Everything one generation run depends on: the minority feature
      vectors, the names, the label every synthetic row carries, k, the
      weights, every row's list of nearest other rows, and the generator's
      stream from the draw the generation starts at. */
  datatype AdasynPlan = AdasynPlan(
    features: seq<seq<real>>,
    names: seq<string>,
    classLabel: Value,
    k: int,
    weights: seq<real>,
    nearest: seq<seq<nat>>,
    stream: nat -> Sample,
    start: nat)

  /** Vectors as wide as the names, k >= 1, one weight per row, and for
      every row a list of min(k, rows - 1) rows. */
  predicate PlanShape(p: AdasynPlan)
  {
    && Rectangular(p.features, |p.names|)
    && p.k >= 1
    && |p.weights| == |p.features| > 0
    && |p.nearest| == |p.features|
    && forall q :: 0 <= q < |p.nearest| ==>
         && |p.nearest[q]| == Min(p.k, |p.features| - 1)
         && forall t :: 0 <= t < |p.nearest[q]| ==> p.nearest[q][t] < |p.features|
  }

  /** At least two rows, so that every row has a neighbour. */
  predicate ValidPlan(p: AdasynPlan)
  {
    PlanShape(p) && |p.features| >= 2
  }

  /** Synthetic row t takes three draws: the base row by weight, the
      position in the base row's neighbour list, and the ratio. */
  function AdasynProvenance(p: AdasynPlan, t: nat): (prov: Provenance)
    requires ValidPlan(p)
    ensures prov.base < |p.features| && prov.neighbor < |p.features|
  {
    var base: nat := FirstReaching(p.weights, SampleAt(p.stream, p.start + 3 * t));
    var nn := p.nearest[base];
    Provenance(base, nn[Scale(SampleAt(p.stream, p.start + 3 * t + 1), |nn|)], SampleAt(p.stream, p.start + 3 * t + 2))
  }

  /** Synthetic row t. */
  function AdasynRow(p: AdasynPlan, t: nat): Row
    requires ValidPlan(p)
  {
    var prov := AdasynProvenance(p, t);
    Record(p.names, Floats(Interpolate(p.features[prov.base], p.features[prov.neighbor], prov.ratio)), LabelKey, p.classLabel)
  }

  /** The first `count` synthetic rows. */
  function AdasynRows(p: AdasynPlan, count: nat): (r: seq<Row>)
    requires ValidPlan(p)
    ensures |r| == count
  {
    seq(count, RowMaker(p))
  }

  /** Row t of the plan for every index t >= 0. */
  function RowMaker(p: AdasynPlan): (f: int --> Row)
    requires ValidPlan(p)
    ensures forall t :: t >= 0 ==> f.requires(t) && f(t) == AdasynRow(p, t)
  {
    t requires t >= 0 => AdasynRow(p, t)
  }

  /** `rows` are the first n rows of the plan; once one is made, the plan
      is valid and the minority rows carry the label. */
  ghost predicate RowsMade(p: AdasynPlan, minority: seq<Row>, rows: seq<Row>, n: nat)
  {
    && (n == 0 ==> rows == [])
    && (n > 0 ==> ValidPlan(p) && |minority| > 0 && LabelKey in minority[0] && rows == AdasynRows(p, n))
  }

  /** Appending row n of the plan to its first n rows gives its first n + 1. */
  lemma RowsExtended(p: AdasynPlan, minority: seq<Row>, rows: seq<Row>, n: nat, row: Row)
    requires RowsMade(p, minority, rows, n)
    requires ValidPlan(p) && |minority| > 0 && LabelKey in minority[0] && row == AdasynRow(p, n)
    ensures RowsMade(p, minority, rows + [row], n + 1)
  {
    AdasynRowsStep(p, n);
  }

  /** One more row extends the rows made so far. */
  lemma AdasynRowsStep(p: AdasynPlan, n: nat)
    requires ValidPlan(p)
    ensures AdasynRows(p, n + 1) == AdasynRows(p, n) + [AdasynRow(p, n)]
  {
    TabulateStep(n, RowMaker(p));
  }


  /** Synthetic row t lies between a base row drawn by weight and one of
      that row's k nearest other rows, by a ratio in [0, 1), and carries the
      label. */
  lemma AdasynRowSynthetic(p: AdasynPlan, t: nat)
    requires ValidPlan(p)
    requires var base := AdasynProvenance(p, t).base;
      p.nearest[base] == Neighbors(p.features, |p.names|, base, p.k)
    ensures var prov := AdasynProvenance(p, t);
      && prov.base == FirstReaching(p.weights, SampleAt(p.stream, p.start + 3 * t))
      && IsSyntheticRow(AdasynRow(p, t), p.features, p.names, p.classLabel, p.k, prov)
  {
    var base := AdasynProvenance(p, t).base;
    KNearestRows(DistancesTo(p.features, p.features[base]), base, p.k);
  }

  /** The plan of a generation run. The label is the first minority row's
      "Label"; without one the generation fails before any row is labelled,
      and the plan's label is never used. */
  function PlanFor(minority: seq<Row>, features: seq<seq<real>>, weights: seq<real>, names: seq<string>, k: int,
                   stream: nat -> Sample, start: nat): (p: AdasynPlan)
    requires |minority| > 0 && |features| == |minority| && Rectangular(features, |names|)
    requires |weights| == |features| && k >= 1
    ensures PlanShape(p) && p.features == features && p.names == names && p.k == k && p.weights == weights
    ensures p.stream == stream && p.start == start
    ensures LabelKey in minority[0] ==> p.classLabel == minority[0][LabelKey]
  {
    var classLabel := if LabelKey in minority[0] then minority[0][LabelKey] else Null;
    var n := |features|;
    var nearest := seq(n, q requires 0 <= q < n => Neighbors(features, |names|, q, k));
    AllNeighborsInRange(features, |names|, k);
    AdasynPlan(features, names, classLabel, k, weights, nearest, stream, start)
  }

  /** The plan's list for row i is that row's k nearest other rows. */
  lemma PlanForNearest(minority: seq<Row>, features: seq<seq<real>>, weights: seq<real>, names: seq<string>, k: int,
                       stream: nat -> Sample, start: nat, i: nat)
    requires |minority| > 0 && |features| == |minority| && Rectangular(features, |names|)
    requires |weights| == |features| && k >= 1 && i < |features|
    ensures PlanFor(minority, features, weights, names, k, stream, start).nearest[i] == Neighbors(features, |names|, i, k)
  {
  }

  /** What `GenerateSyntheticSamples` returns for `count` rows when the
      generator's stream is at `start`. With a single minority row its
      neighbour list is empty and indexing it throws; a first row without a
      "Label" field throws when the first synthetic row is labelled. Both
      are thrown inside `Parallel.For` and reach the caller wrapped in an
      `AggregateException`. */
  function GeneratedSamples(minority: seq<Row>, features: seq<seq<real>>, count: nat, weights: seq<real>,
                            names: seq<string>, k: int, stream: nat -> Sample, start: nat): Result<seq<Row>>
    requires |minority| > 0 && |features| == |minority| && Rectangular(features, |names|)
    requires |weights| == |features| && count > 0 && k >= 1
  {
    if |minority| == 1 then Err(AggregateException(IndexOutOfRangeException))
    else if LabelKey !in minority[0] then Err(AggregateException(KeyNotFoundException))
    else Ok(AdasynRows(PlanFor(minority, features, weights, names, k, stream, start), count))
  }

  /** The generation succeeds exactly when there are at least two minority
      rows and the first has a "Label"; it then makes exactly `count` rows,
      and row t is made from the base row the weights pick for draw
      start + 3t, interpolated towards one of that row's k nearest minority
      rows, and labelled with the first minority row's "Label". */
  lemma GeneratedSamplesSound(minority: seq<Row>, features: seq<seq<real>>, count: nat, weights: seq<real>,
                              names: seq<string>, k: int, stream: nat -> Sample, start: nat)
    requires |minority| > 0 && |features| == |minority| && Rectangular(features, |names|)
    requires |weights| == |features| && count > 0 && k >= 1
    ensures var r := GeneratedSamples(minority, features, count, weights, names, k, stream, start);
      && (r.Ok? <==> |minority| >= 2 && LabelKey in minority[0])
      && (r.Err? ==> FirstRowFails(minority, |minority|, r.error))
      && (r.Ok? ==>
            var p := PlanFor(minority, features, weights, names, k, stream, start);
            && |r.value| == count
            && forall t :: 0 <= t < count ==>
                 && AdasynProvenance(p, t).base == FirstReaching(weights, SampleAt(stream, start + 3 * t))
                 && IsSyntheticRow(r.value[t], features, names, minority[0][LabelKey], k, AdasynProvenance(p, t)))
  {
    var r := GeneratedSamples(minority, features, count, weights, names, k, stream, start);
    if r.Ok? {
      var p := PlanFor(minority, features, weights, names, k, stream, start);
      forall t | 0 <= t < count
        ensures AdasynProvenance(p, t).base == FirstReaching(weights, SampleAt(stream, start + 3 * t))
        ensures IsSyntheticRow(r.value[t], features, names, minority[0][LabelKey], k, AdasynProvenance(p, t))
      {
        assert r.value[t] == AdasynRow(p, t);
        PlanRowSynthetic(minority, features, weights, names, k, stream, start, t);
      }
    }
  }

  /** Row t of the plan of a generation with at least two rows and a
      "Label" is synthetic. */
  lemma PlanRowSynthetic(minority: seq<Row>, features: seq<seq<real>>, weights: seq<real>, names: seq<string>, k: int,
                         stream: nat -> Sample, start: nat, t: nat)
    requires |minority| > 0 && |features| == |minority| && Rectangular(features, |names|)
    requires |weights| == |features| && k >= 1 && |minority| >= 2 && LabelKey in minority[0]
    ensures var p := PlanFor(minority, features, weights, names, k, stream, start);
      && ValidPlan(p)
      && AdasynProvenance(p, t).base == FirstReaching(weights, SampleAt(stream, start + 3 * t))
      && IsSyntheticRow(AdasynRow(p, t), features, names, minority[0][LabelKey], k, AdasynProvenance(p, t))
  {
    var p := PlanFor(minority, features, weights, names, k, stream, start);
    PlanForNearest(minority, features, weights, names, k, stream, start, AdasynProvenance(p, t).base);
    AdasynRowSynthetic(p, t);
  }


  /** The plan's neighbour list of row i. */
  function NearestOf(p: AdasynPlan, i: nat): seq<nat>
    requires i < |p.nearest|
  {
    p.nearest[i]
  }

  /** The plan a generation works from: the same vectors, weights, names
      and k, the first minority row's "Label" when it has one, and every
      row's neighbour list. */
  ghost predicate PlanMatches(p: AdasynPlan, minority: seq<Row>, features: seq<seq<real>>, weights: seq<real>,
                              names: seq<string>, k: int)
  {
    && PlanShape(p) && p.features == features && p.weights == weights && p.names == names && p.k == k
    && |minority| == |features|
    && (LabelKey in minority[0] ==> p.classLabel == minority[0][LabelKey])
    && forall i {:trigger NearestOf(p, i)} :: 0 <= i < |features| ==> NearestOf(p, i) == Neighbors(features, |names|, i, k)
  }

  /** Every cached list is the neighbour list of its row. */
  predicate CacheHolds(cache: map<nat, seq<nat>>, features: seq<seq<real>>, width: nat, k: int)
    requires Rectangular(features, width)
  {
    forall idx :: idx in cache ==> idx < |features| && cache[idx] == Neighbors(features, width, idx, k)
  }

  /** Caching a row's neighbour list keeps the cache right. */
  lemma CacheInsert(cache: map<nat, seq<nat>>, features: seq<seq<real>>, width: nat, k: int, idx: nat, nn: seq<nat>)
    requires Rectangular(features, width) && CacheHolds(cache, features, width, k)
    requires idx < |features| && nn == Neighbors(features, width, idx, k)
    ensures CacheHolds(cache[idx := nn], features, width, k)
  {
  }

  /** The neighbour list of row `base`: the cached one, or computed and
      cached. */
  method CachedNeighbors(features: seq<seq<real>>, ghost width: nat, k: int, cache: map<nat, seq<nat>>, base: nat)
    returns (neighbors: seq<nat>, cached: map<nat, seq<nat>>)
    requires Rectangular(features, width) && CacheHolds(cache, features, width, k) && base < |features|
    ensures neighbors == Neighbors(features, width, base, k)
    ensures CacheHolds(cached, features, width, k)
    ensures base in cached && cached.Keys == cache.Keys + {base}
  {
    if base in cache {
      neighbors := cache[base];
      cached := cache;
    } else {
      neighbors := FindKNearestNeighbors(features, features[base], base, k);
      CacheInsert(cache, features, width, k, base, neighbors);
      cached := cache[base := neighbors];
    }
  }

  /** The weighted choice of a base row by the next sample `u`. */
  method DrawBase(weights: seq<real>, random: Random, ghost u: real) returns (base: nat)
    requires |weights| > 0 && u == SampleAt(random.stream, random.drawn)
    modifies random
    ensures random.drawn == old(random.drawn) + 1
    ensures base == FirstReaching(weights, u) && base < |weights|
  {
    var selected := SelectIndexBasedOnDistribution(weights, random);
    base := selected;
  }

  /** The second draw of iteration t: a position in the neighbour list of
      row `base`, taken from the cache or computed and cached, by the next
      sample `u`. `found` is false when the list is empty, where indexing it
      throws. */
  method DrawPartner(features: seq<seq<real>>, names: seq<string>, k: int, cache: map<nat, seq<nat>>,
                     random: Random, base: nat, ghost p: AdasynPlan, ghost u: Sample)
    returns (neighborIdx: nat, found: bool, cached: map<nat, seq<nat>>)
    requires PlanShape(p) && p.features == features && p.names == names && p.k == k && base < |features|
    requires NearestOf(p, base) == Neighbors(features, |names|, base, k)
    requires u == SampleAt(random.stream, random.drawn)
    requires CacheHolds(cache, features, |names|, k)
    modifies random
    ensures CacheHolds(cached, features, |names|, k)
    ensures random.drawn == old(random.drawn) + 1
    ensures found <==> |features| >= 2
    ensures found ==> Scale(u, |p.nearest[base]|) < |p.nearest[base]|
    ensures found ==> neighborIdx == p.nearest[base][Scale(u, |p.nearest[base]|)]
  {
    var neighbors;
    neighbors, cached := CachedNeighbors(features, |names|, k, cache, base);
    var pick := random.Next(|neighbors|);
    found := pick < |neighbors|;
    neighborIdx := if found then neighbors[pick] else 0;
  }

  /** The first two draws of iteration t: the base row by weight and one of
      its neighbours. */
  method DrawNeighbor(features: seq<seq<real>>, weights: seq<real>, names: seq<string>, k: int,
                      cache: map<nat, seq<nat>>, random: Random, t: nat, ghost p: AdasynPlan)
    returns (base: nat, neighborIdx: nat, found: bool, cached: map<nat, seq<nat>>)
    requires PlanShape(p) && p.features == features && p.weights == weights && p.names == names && p.k == k
    requires forall i {:trigger NearestOf(p, i)} :: 0 <= i < |features| ==> NearestOf(p, i) == Neighbors(features, |names|, i, k)
    requires p.stream == random.stream && random.drawn == p.start + 3 * t
    requires CacheHolds(cache, features, |names|, k)
    modifies random
    ensures CacheHolds(cached, features, |names|, k)
    ensures random.drawn == p.start + 3 * t + 2
    ensures found <==> |features| >= 2
    ensures found ==> ValidPlan(p) && base == AdasynProvenance(p, t).base && neighborIdx == AdasynProvenance(p, t).neighbor
  {
    ghost var u0 := SampleAt(p.stream, p.start + 3 * t);
    ghost var u1 := SampleAt(p.stream, p.start + 3 * t + 1);
    assert u0 == SampleAt(random.stream, random.drawn) && u1 == SampleAt(random.stream, random.drawn + 1);
    base := DrawBase(weights, random, u0);
    assert NearestOf(p, base) == Neighbors(features, |names|, base, k);
    neighborIdx, found, cached := DrawPartner(features, names, k, cache, random, base, p, u1);
    if found {
      DrawnProvenance(p, t, base);
    }
  }

  /** Iteration t's draws, taken as the plan takes them, give row t's base
      row and neighbour. */
  lemma DrawnProvenance(p: AdasynPlan, t: nat, base: nat)
    requires ValidPlan(p)
    requires base == FirstReaching(p.weights, SampleAt(p.stream, p.start + 3 * t))
    ensures AdasynProvenance(p, t).base == base
    ensures Scale(SampleAt(p.stream, p.start + 3 * t + 1), |p.nearest[base]|) < |p.nearest[base]|
    ensures AdasynProvenance(p, t).neighbor == p.nearest[base][Scale(SampleAt(p.stream, p.start + 3 * t + 1), |p.nearest[base]|)]
  {
  }

  /** One synthetic row: the base row and neighbour, a ratio, and the
      interpolated row labelled with the first minority row's "Label". The
      plan `p` holds the same vectors, weights, names, k and generator, and
      every row's neighbour list. An error is what the loop body throws,
      before `Parallel.For` wraps it. */
  method GenerateOne(minority: seq<Row>, features: seq<seq<real>>, weights: seq<real>, names: seq<string>, k: int,
                     cache: map<nat, seq<nat>>, random: Random, t: nat, ghost p: AdasynPlan)
    returns (r: Result<Row>, cached: map<nat, seq<nat>>)
    requires |minority| > 0 && PlanMatches(p, minority, features, weights, names, k)
    requires p.stream == random.stream && random.drawn == p.start + 3 * t
    requires CacheHolds(cache, features, |names|, k)
    modifies random
    ensures CacheHolds(cached, features, |names|, k)
    ensures r.Ok? ==> (
      && ValidPlan(p) && LabelKey in minority[0]
      && random.drawn == p.start + 3 * t + 3
      && r.value == AdasynRow(p, t))
    ensures r.Err? ==> FirstRowFails(minority, |features|, AggregateException(r.error))
  {
    var base, neighborIdx, found;
    base, neighborIdx, found, cached := DrawNeighbor(features, weights, names, k, cache, random, t, p);
    if !found {
      return Err(IndexOutOfRangeException), cached;
    }
    var syntheticFeatures := InterpolateDrawn(features, base, neighborIdx, random, t, p);
    if LabelKey !in minority[0] {
      return Err(KeyNotFoundException), cached;
    }
    var sample := CreateSyntheticSample(syntheticFeatures, names, minority[0][LabelKey]);
    r := Ok(sample);
  }

  /** The third draw of iteration t interpolates between row t's base row
      and neighbour. */
  method InterpolateDrawn(features: seq<seq<real>>, base: nat, neighborIdx: nat, random: Random, t: nat,
                          ghost p: AdasynPlan)
    returns (syntheticFeatures: seq<real>)
    requires ValidPlan(p) && p.features == features
    requires base == AdasynProvenance(p, t).base && neighborIdx == AdasynProvenance(p, t).neighbor
    requires p.stream == random.stream && random.drawn == p.start + 3 * t + 2
    modifies random
    ensures random.drawn == p.start + 3 * t + 3
    ensures syntheticFeatures == Interpolate(p.features[AdasynProvenance(p, t).base],
                                             p.features[AdasynProvenance(p, t).neighbor],
                                             AdasynProvenance(p, t).ratio)
  {
    ghost var u2 := SampleAt(p.stream, p.start + 3 * t + 2);
    assert u2 == SampleAt(random.stream, random.drawn);
    syntheticFeatures := InterpolateFeatures(features[base], features[neighborIdx], random);
  }

  /** `GenerateSyntheticSamples`: batches of at most batchSize rows until
      `count` rows exist. How the rows are cut into batches does not change
      them. */
  method GenerateSyntheticSamples(minority: seq<Row>, features: seq<seq<real>>, count: nat, weights: seq<real>,
                                  names: seq<string>, k: int, batchSize: nat, random: Random)
    returns (r: Result<seq<Row>>)
    requires |minority| > 0 && |features| == |minority| && Rectangular(features, |names|)
    requires |weights| == |features| && count > 0 && k >= 1 && batchSize > 0
    modifies random
    ensures r == GeneratedSamples(minority, features, count, weights, names, k, random.stream, old(random.drawn))
    ensures r.Ok? ==> random.drawn == old(random.drawn) + 3 * count
  {
    ghost var p := PlanFor(minority, features, weights, names, k, random.stream, random.drawn);
    forall i | 0 <= i < |features|
      ensures NearestOf(p, i) == Neighbors(features, |names|, i, k)
    {
      PlanForNearest(minority, features, weights, names, k, random.stream, p.start, i);
    }
    assert PlanMatches(p, minority, features, weights, names, k);
    var synthetic: seq<Row> := [];
    var cache: map<nat, seq<nat>> := map[];
    var batchStart := 0;
    while batchStart < count
      invariant 0 <= batchStart
      invariant random.drawn == p.start + 3 * Min(batchStart, count)
      invariant CacheHolds(cache, features, |names|, k)
      invariant RowsMade(p, minority, synthetic, Min(batchStart, count))
      decreases count - batchStart
    {
      var batch;
      batch, cache := GenerateBatch(minority, features, weights, names, k, cache, random, batchStart,
                                    Min(batchSize, count - batchStart), synthetic, p);
      if batch.Err? {
        return Err(batch.error);
      }
      synthetic := batch.value;
      batchStart := batchStart + batchSize;
    }
    r := Ok(synthetic);
  }

  /** One batch: `size` more rows appended to the `start` rows made so far. */
  method GenerateBatch(minority: seq<Row>, features: seq<seq<real>>, weights: seq<real>, names: seq<string>, k: int,
                       cache: map<nat, seq<nat>>, random: Random, start: nat, size: nat, synthetic: seq<Row>,
                       ghost p: AdasynPlan)
    returns (r: Result<seq<Row>>, cached: map<nat, seq<nat>>)
    requires |minority| > 0 && PlanMatches(p, minority, features, weights, names, k)
    requires p.stream == random.stream && random.drawn == p.start + 3 * start
    requires CacheHolds(cache, features, |names|, k)
    requires RowsMade(p, minority, synthetic, start)
    modifies random
    ensures CacheHolds(cached, features, |names|, k)
    ensures r.Err? ==> FirstRowFails(minority, |features|, r.error)
    ensures r.Ok? ==> random.drawn == p.start + 3 * (start + size)
    ensures r.Ok? ==> RowsMade(p, minority, r.value, start + size)
  {
    var rows := synthetic;
    cached := cache;
    var b := 0;
    while b < size
      invariant 0 <= b <= size
      invariant random.drawn == p.start + 3 * (start + b)
      invariant CacheHolds(cached, features, |names|, k)
      invariant RowsMade(p, minority, rows, start + b)
    {
      var made;
      made, cached := GenerateOne(minority, features, weights, names, k, cached, random, start + b, p);
      if made.Err? {
        return Err(AggregateException(made.error)), cached;
      }
      RowsExtended(p, minority, rows, start + b, made.value);
      rows := rows + [made.value];
      b := b + 1;
    }
    r := Ok(rows);
  }

  // ----- the balancer -----

  /** The synthetic rows when some are needed: both classes are converted
      to feature vectors (a missing feature throws), the ratios are
      normalised into weights, and the generation draws from the shared
      generator after the shuffle. */
  function SyntheticPart(minority: seq<Row>, majority: seq<Row>, names: seq<string>, config: DataBalancingConfig,
                         stream: nat -> Sample, start: nat): Result<seq<Row>>
    requires |minority| > 0 && ValidBalancingParameters(config)
    requires Counts(|minority|, |majority|, config).synthetic > 0
  {
    var c := Counts(|minority|, |majority|, config);
    match ConvertToFeatureArrays(minority, names)
    case Err(e) => Err(e)
    case Ok(minorityFeatures) =>
      match ConvertToFeatureArrays(majority, names)
      case Err(e) => Err(e)
      case Ok(majorityFeatures) =>
        var weights := UniformWeights(|minorityFeatures|);
        GeneratedSamples(minority, minorityFeatures, c.synthetic, weights, names, config.kNeighbors, stream, start)
  }

  /** What `BalanceDataset` returns: the parameters are checked first, then
      the data is split by class; when no synthetic row is needed the input
      comes back as it is, otherwise the result is the minority, then the
      undersampled majority, then the synthetic rows. */
  function AdasynBalanced(data: seq<Row>, names: seq<string>, config: DataBalancingConfig, targetField: string,
                          streams: int -> (nat -> Sample)): Result<seq<Row>>
  {
    match ValidateBalancingParameters(config)
    case Fail(e) => Err(e)
    case Pass =>
      match SplitDataByClass(data, targetField, TwoClassesMessage)
      case Err(e) => Err(e)
      case Ok((minority, majority)) =>
        if Counts(|minority|, |majority|, config).synthetic <= 0 then Ok(data)
        else
          match SyntheticPart(minority, majority, names, config, streams(Seed), Max(|majority| - 1, 0))
          case Err(e) => Err(e)
          case Ok(synthetic) => Ok(minority + Undersampled(majority, config, streams(Seed)) + synthetic)
  }

  /** `BalanceDataset`. */
  method BalanceDataset(data: seq<Row>, names: seq<string>, config: DataBalancingConfig, targetField: string,
                        streams: int -> (nat -> Sample))
    returns (r: Result<seq<Row>>)
    ensures r == AdasynBalanced(data, names, config, targetField, streams)
  {
    var valid := ValidateBalancingParameters(config);
    if valid.Fail? {
      return Err(valid.error);
    }
    var random := new Random(streams(Seed));
    var split := SplitDataByClass(data, targetField, TwoClassesMessage);
    if split.Err? {
      return Err(split.error);
    }
    var (minority, majority) := split.value;
    var counts := Counts(|minority|, |majority|, config);
    var undersampled := ShuffleMajorityClass(majority, counts.undersampled, random);
    assert undersampled == Undersampled(majority, config, streams(Seed));
    if counts.synthetic <= 0 {
      return Ok(data);
    }
    ghost var part := SyntheticPart(minority, majority, names, config, streams(Seed), Max(|majority| - 1, 0));
    var synthetic := SyntheticSamples(minority, majority, names, config, random);
    assert synthetic == part;
    if synthetic.Err? {
      return Err(synthetic.error);
    }
    r := Ok(minority + undersampled + synthetic.value);
  }

  /** Both classes as feature vectors, the ratios normalised into weights,
      and the generation of the synthetic rows. */
  method SyntheticSamples(minority: seq<Row>, majority: seq<Row>, names: seq<string>, config: DataBalancingConfig,
                          random: Random)
    returns (r: Result<seq<Row>>)
    requires |minority| > 0 && ValidBalancingParameters(config)
    requires Counts(|minority|, |majority|, config).synthetic > 0
    modifies random
    ensures r == SyntheticPart(minority, majority, names, config, random.stream, old(random.drawn))
  {
    var syntheticCount := Counts(|minority|, |majority|, config).synthetic;
    var minorityFeatures := ConvertToFeatureArrays(minority, names);
    if minorityFeatures.Err? {
      return Err(minorityFeatures.error);
    }
    var majorityFeatures := ConvertToFeatureArrays(majority, names);
    if majorityFeatures.Err? {
      return Err(majorityFeatures.error);
    }
    var rValues := CalculateRValues(minorityFeatures.value, majorityFeatures.value, config.kNeighbors, |names|);
    NormalizeArray(rValues);
    NormalizedRValues(|minorityFeatures.value|, |majorityFeatures.value|, config.kNeighbors);
    r := GenerateSyntheticSamples(minority, minorityFeatures.value, syntheticCount, rValues[..], names,
                                  config.kNeighbors, DefaultBatchSize, random);
  }

  /** When synthetic rows are needed, their generation fails exactly on a
      row of either class without a feature, a single minority row or a
      first minority row without "Label"; otherwise it makes exactly the
      rows that bring the minority up to the target, each one synthetic. */
  lemma SyntheticPartSound(minority: seq<Row>, majority: seq<Row>, names: seq<string>, config: DataBalancingConfig,
                           stream: nat -> Sample, start: nat)
    requires |minority| > 0 && ValidBalancingParameters(config)
    requires Counts(|minority|, |majority|, config).synthetic > 0
    ensures var r := SyntheticPart(minority, majority, names, config, stream, start);
      var c := Counts(|minority|, |majority|, config);
      && (r.Err? <==> !HasKeys(minority, names) || !HasKeys(majority, names) || |minority| < 2 || LabelKey !in minority[0])
      && (r.Ok? ==> |minority| + |r.value| == c.target)
  {
    var c := Counts(|minority|, |majority|, config);
    if HasKeys(minority, names) && HasKeys(majority, names) {
      var features := ConvertToFeatureArrays(minority, names).value;
      GeneratedSamplesSound(minority, features, c.synthetic, UniformWeights(|features|), names, config.kNeighbors, stream, start);
    }
  }

  /** Row t of a successful generation is synthetic, with the provenance
      the plan gives it. */
  lemma GeneratedRowSynthetic(minority: seq<Row>, features: seq<seq<real>>, count: nat, weights: seq<real>,
                              names: seq<string>, k: int, stream: nat -> Sample, start: nat, rows: seq<Row>, t: nat)
    returns (prov: Provenance)
    requires |minority| > 0 && |features| == |minority| && Rectangular(features, |names|)
    requires |weights| == |features| && count > 0 && k >= 1
    requires GeneratedSamples(minority, features, count, weights, names, k, stream, start) == Ok(rows) && t < |rows|
    ensures LabelKey in minority[0]
    ensures IsSyntheticRow(rows[t], features, names, minority[0][LabelKey], k, prov)
  {
    GeneratedSamplesSound(minority, features, count, weights, names, k, stream, start);
    prov := AdasynProvenance(PlanFor(minority, features, weights, names, k, stream, start), t);
  }

  /** The balancer fails exactly when a parameter is out of range, a row has
      no target, there are not two classes, or synthetic rows are needed and
      their generation fails; the parameter check comes before the split,
      and nothing fails once no synthetic row is needed. */
  lemma AdasynBalancedFails(data: seq<Row>, names: seq<string>, config: DataBalancingConfig, targetField: string,
                            streams: int -> (nat -> Sample))
    ensures var r := AdasynBalanced(data, names, config, targetField, streams);
      && (!ValidBalancingParameters(config) ==> r == Err(ValidateBalancingParameters(config).error))
      && (ValidBalancingParameters(config) && !HasKey(data, targetField) ==> r == Err(KeyNotFoundException))
      && (ValidBalancingParameters(config) && HasKey(data, targetField) && !TwoLabels(data, targetField) ==>
            r == Err(ArgumentException(TwoClassesMessage)))
      && (ValidBalancingParameters(config) && HasKey(data, targetField) && TwoLabels(data, targetField) ==>
            var (minority, majority) := SplitDataByClass(data, targetField, TwoClassesMessage).value;
            var c := Counts(|minority|, |majority|, config);
            (r.Err? <==> c.synthetic > 0 && (!HasKeys(minority, names) || !HasKeys(majority, names) ||
                                             |minority| < 2 || LabelKey !in minority[0])))
  {
    if ValidBalancingParameters(config) && HasKey(data, targetField) && TwoLabels(data, targetField) {
      var (minority, majority) := SplitDataByClass(data, targetField, TwoClassesMessage).value;
      if Counts(|minority|, |majority|, config).synthetic > 0 {
        SyntheticPartSound(minority, majority, names, config, streams(Seed), Max(|majority| - 1, 0));
      }
    }
  }

  /** A successful run that needs synthetic rows is the minority, the
      undersampled majority and the synthetic rows. */
  lemma AdasynBalancedParts(data: seq<Row>, names: seq<string>, config: DataBalancingConfig, targetField: string,
                            streams: int -> (nat -> Sample))
    returns (minority: seq<Row>, majority: seq<Row>, synthetic: seq<Row>)
    requires AdasynBalanced(data, names, config, targetField, streams).Ok?
    ensures ValidBalancingParameters(config) && HasKey(data, targetField) && 0 < |data|
    ensures SplitDataByClass(data, targetField, TwoClassesMessage) == Ok((minority, majority))
    ensures IsSplit(data, targetField, minority, majority)
    ensures Counts(|minority|, |majority|, config).synthetic <= 0 ==>
      AdasynBalanced(data, names, config, targetField, streams).value == data
    ensures Counts(|minority|, |majority|, config).synthetic > 0 ==>
      && SyntheticPart(minority, majority, names, config, streams(Seed), Max(|majority| - 1, 0)) == Ok(synthetic)
      && AdasynBalanced(data, names, config, targetField, streams).value
         == minority + Undersampled(majority, config, streams(Seed)) + synthetic
  {
    assert ValidBalancingParameters(config);
    var split := SplitDataByClass(data, targetField, TwoClassesMessage);
    assert split.Ok?;
    minority, majority := split.value.0, split.value.1;
    if Counts(|minority|, |majority|, config).synthetic > 0 {
      var part := SyntheticPart(minority, majority, names, config, streams(Seed), Max(|majority| - 1, 0));
      assert part.Ok?;
      synthetic := part.value;
    } else {
      synthetic := [];
    }
  }

  /** A successful run returns the data unchanged when the minority already
      reaches the target; otherwise the minority unchanged, then the
      undersampled majority (majority rows, as many as the undersampled
      count), then synthetic rows that bring the minority exactly up to the
      target. */
  lemma AdasynBalancedRows(data: seq<Row>, names: seq<string>, config: DataBalancingConfig, targetField: string,
                           streams: int -> (nat -> Sample))
    requires AdasynBalanced(data, names, config, targetField, streams).Ok?
    ensures ValidBalancingParameters(config) && SplitDataByClass(data, targetField, TwoClassesMessage).Ok?
    ensures var (minority, majority) := SplitDataByClass(data, targetField, TwoClassesMessage).value;
      var c := Counts(|minority|, |majority|, config);
      var r := AdasynBalanced(data, names, config, targetField, streams).value;
      && (c.synthetic <= 0 ==> r == data)
      && (c.synthetic > 0 ==>
            && |r| == c.target + c.undersampled
            && r[..|minority|] == minority
            && multiset(r[|minority|..|minority| + c.undersampled]) <= multiset(majority)
            && multiset(r[..|minority| + c.undersampled]) <= multiset(data))
  {
    var minority, majority, synthetic := AdasynBalancedParts(data, names, config, targetField, streams);
    if Counts(|minority|, |majority|, config).synthetic > 0 {
      var shuffled := Shuffled(majority, streams(Seed), 0);
      var undersampled := Undersampled(majority, config, streams(Seed));
      SyntheticPartSound(minority, majority, names, config, streams(Seed), Max(|majority| - 1, 0));
      ShuffledPermutes(majority, streams(Seed), 0);
      PrefixSubMultiset(shuffled, |undersampled|);
      MinorityFirstParts(minority, undersampled, synthetic, majority, data);
    }
  }

  /** The first two parts of a result: the minority and the kept majority
      rows, both rows of the data. */
  lemma MinorityFirstParts<T>(minority: seq<T>, kept: seq<T>, synthetic: seq<T>, majority: seq<T>, data: seq<T>)
    requires multiset(kept) <= multiset(majority) && multiset(minority) + multiset(majority) == multiset(data)
    ensures var r := minority + kept + synthetic;
      && r[..|minority|] == minority
      && r[|minority|..|minority| + |kept|] == kept
      && multiset(r[..|minority| + |kept|]) <= multiset(data)
  {
    var r := minority + kept + synthetic;
    assert r[..|minority| + |kept|] == minority + kept;
  }

  /** Every row after the minority and the undersampled majority is
      synthetic: made from a minority row by interpolating towards one of
      its k nearest minority rows, labelled with the first minority row's
      "Label". */
  lemma AdasynBalancedSynthetic(data: seq<Row>, names: seq<string>, config: DataBalancingConfig, targetField: string,
                                streams: int -> (nat -> Sample), t: nat)
    requires AdasynBalanced(data, names, config, targetField, streams).Ok?
    ensures ValidBalancingParameters(config) && SplitDataByClass(data, targetField, TwoClassesMessage).Ok?
    ensures var (minority, majority) := SplitDataByClass(data, targetField, TwoClassesMessage).value;
      var c := Counts(|minority|, |majority|, config);
      var r := AdasynBalanced(data, names, config, targetField, streams).value;
      c.synthetic > 0 && |minority| + c.undersampled <= t < |r| ==>
        && HasKeys(minority, names) && LabelKey in minority[0]
        && var features := ConvertToFeatureArrays(minority, names).value;
        && Rectangular(features, |names|)
        && exists prov :: IsSyntheticRow(r[t], features, names, minority[0][LabelKey], config.kNeighbors, prov)
  {
    var minority, majority, synthetic := AdasynBalancedParts(data, names, config, targetField, streams);
    var c := Counts(|minority|, |majority|, config);
    if c.synthetic > 0 {
      var undersampled := Undersampled(majority, config, streams(Seed));
      var r := minority + undersampled + synthetic;
      var offset := |minority| + c.undersampled;
      assert |undersampled| == c.undersampled;
      if offset <= t < |r| {
        var features := ConvertToFeatureArrays(minority, names).value;
        var start := Max(|majority| - 1, 0);
        assert GeneratedSamples(minority, features, c.synthetic, UniformWeights(|features|), names, config.kNeighbors,
                                streams(Seed), start) == Ok(synthetic);
        var prov := GeneratedRowSynthetic(minority, features, c.synthetic, UniformWeights(|features|), names,
                                          config.kNeighbors, streams(Seed), start, synthetic, t - offset);
        assert r[t] == synthetic[t - offset];
        ghost var made := IsSyntheticRow(r[t], features, names, minority[0][LabelKey], config.kNeighbors, prov);
        assert made;
      }
    }
  }
}
