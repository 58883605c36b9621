/** The SMOTE balancer: undersamples the majority class with a seeded
    shuffle and tops the minority class up with rows interpolated between a
    minority row and one of its nearest minority neighbours.

    The source runs the per-row generation with `Parallel.For` over a
    concurrent bag; the model runs the rows in index order, so the draws of
    the shared generator and the order of the synthetic rows are those of a
    sequential run. */
module SmoteDataBalancer {
  import opened Values
  import opened Models
  import opened Seqs
  import opened Rand
  import opened NearestNeighbors
  import opened BaseDataBalancer

  const ClassesMessage := "Dataset must contain exactly two classes"

  /** The shared generator is constructed with this seed. */
  const Seed := 42

  /** Everything one run of the generation depends on: the minority feature
      vectors, the names, the label every synthetic row carries, k, the
      number of rows made per minority row, every row's list of nearest
      other rows, the generator family and the shared generator's stream
      from the draw the generation starts at. */
  datatype SmotePlan = SmotePlan(
    features: seq<seq<real>>,
    names: seq<string>,
    classLabel: Value,
    k: int,
    perInstance: nat,
    nearest: seq<seq<nat>>,
    streams: int -> (nat -> Sample),
    shared: nat -> Sample,
    start: nat)

  /** Vectors as wide as the names, and for every row a list of
      min(k, rows - 1) rows. */
  predicate PlanShape(p: SmotePlan)
  {
    && Rectangular(p.features, |p.names|)
    && p.k >= 1
    && |p.nearest| == |p.features|
    && forall q :: 0 <= q < |p.nearest| ==>
         && |p.nearest[q]| == Min(p.k, |p.features| - 1)
         && forall t :: 0 <= t < |p.nearest[q]| ==> p.nearest[q][t] < |p.features|
  }

  /** At least two rows, so that every row has a neighbour. */
  predicate ValidPlan(p: SmotePlan)
  {
    PlanShape(p) && |p.features| >= 2
  }

  /** Row i's local generator, seeded with the i-th draw `Next()` of the
      shared one. */
  function LocalStream(p: SmotePlan, i: nat): nat -> Sample
  {
    p.streams(Scale(p.shared(p.start + i), IntMaxValue))
  }

  /** The j-th synthetic row of base row i draws the neighbour position and
      then the ratio from the local generator: draws 2j and 2j + 1. */
  function SmoteProvenance(p: SmotePlan, i: nat, j: nat): (prov: Provenance)
    requires ValidPlan(p) && i < |p.features|
    ensures prov.base == i && prov.neighbor < |p.features|
  {
    var nn := p.nearest[i];
    var local := LocalStream(p, i);
    Provenance(i, nn[Scale(local(2 * j), |nn|)], local(2 * j + 1))
  }

  /** The row the j-th iteration for base row i adds. */
  function SmoteRow(p: SmotePlan, i: nat, j: nat): Row
    requires ValidPlan(p) && i < |p.features|
  {
    var prov := SmoteProvenance(p, i, j);
    Record(p.names, Floats(Interpolate(p.features[i], p.features[prov.neighbor], prov.ratio)), LabelKey, p.classLabel)
  }

  /** Each synthetic row lies between its base row and one of the base row's
      k nearest other rows, by a ratio in [0, 1), and carries the label. */
  lemma SmoteRowSynthetic(p: SmotePlan, i: nat, j: nat, row: Row)
    requires ValidPlan(p) && i < |p.features| && row == SmoteRow(p, i, j)
    requires p.nearest[i] == Neighbors(p.features, |p.names|, i, p.k)
    ensures IsSyntheticRow(row, p.features, p.names, p.classLabel, p.k, SmoteProvenance(p, i, j))
  {
    KNearestRows(DistancesTo(p.features, p.features[i]), i, p.k);
  }

  /** The rows of the plan as a function of (base row, iteration); only the
      indices of base rows of a valid plan are ever used. */
  function RowMaker(p: SmotePlan): (nat, nat) -> Row
  {
    (i: nat, j: nat) => if ValidPlan(p) && i < |p.features| then SmoteRow(p, i, j) else map[]
  }

  /** The perInstance rows of each of base rows 0 .. n-1, in order. */
  function SmoteRows(p: SmotePlan, n: nat): seq<Row>
  {
    Blocks(RowMaker(p), n, p.perInstance)
  }

  /** Row j of base row i's block is the plan's row (i, j). */
  lemma BlockRow(p: SmotePlan, i: nat, j: nat)
    requires ValidPlan(p) && i < |p.features| && j < p.perInstance
    ensures Block(RowMaker(p), i, p.perInstance)[j] == SmoteRow(p, i, j)
  {
  }

  /** The plan of one generation run. The label is the first minority row's
      "Label"; without one the generation fails before any row is labelled,
      and the plan's label is never used. */
  function PlanFor(minority: seq<Row>, count: nat, names: seq<string>, k: int,
                   streams: int -> (nat -> Sample), shared: nat -> Sample, start: nat): (p: SmotePlan)
    requires |minority| > 0 && HasKeys(minority, names) && k >= 1
    ensures PlanShape(p) && |p.features| == |minority|
  {
    var features := ConvertToFeatureArrays(minority, names).value;
    var n := |features|;
    var nearest := seq(n, q requires 0 <= q < n => Neighbors(features, |names|, q, k));
    var classLabel := if LabelKey in minority[0] then minority[0][LabelKey] else Null;
    AllNeighborsInRange(features, |names|, k);
    SmotePlan(features, names, classLabel, k, CeilDiv(count, |minority|), nearest, streams, shared, start)
  }

  /** The plan's list for row i is that row's k nearest other rows. */
  lemma PlanForNearest(minority: seq<Row>, count: nat, names: seq<string>, k: int,
                       streams: int -> (nat -> Sample), shared: nat -> Sample, start: nat, i: nat)
    requires |minority| > 0 && HasKeys(minority, names) && k >= 1 && i < |minority|
    ensures var p := PlanFor(minority, count, names, k, streams, shared, start);
      p.nearest[i] == Neighbors(p.features, |p.names|, i, p.k)
  {
  }

  /** What `GenerateSyntheticSamples` returns for `count` rows when the shared
      generator's stream is at `start`. Converting the rows throws on a
      missing feature; with a single minority row its neighbour list is
      empty and indexing it throws; a first row without a "Label" field
      throws when the first synthetic row is labelled. The last two are
      thrown inside `Parallel.For` and reach the caller wrapped in an
      `AggregateException`. */
  function GeneratedSamples(minority: seq<Row>, count: nat, names: seq<string>, k: int,
                            streams: int -> (nat -> Sample), shared: nat -> Sample, start: nat): Result<seq<Row>>
    requires |minority| > 0 && count > 0 && k >= 1
  {
    if !HasKeys(minority, names) then Err(KeyNotFoundException)
    else if |minority| == 1 then Err(AggregateException(IndexOutOfRangeException))
    else if LabelKey !in minority[0] then Err(AggregateException(KeyNotFoundException))
    else
      var p := PlanFor(minority, count, names, k, streams, shared, start);
      Ok(Take(SmoteRows(p, |minority|), count))
  }

  /** The generation succeeds exactly when every row has every feature, there
      are at least two rows and the first has a "Label"; it then makes
      exactly `count` rows, enough rows per base row to reach the count, and
      row i * perInstance + j is made from base row i by interpolating
      towards one of that row's k nearest minority neighbours, labelled with
      the first minority row's "Label". */
  lemma GeneratedSamplesSound(minority: seq<Row>, count: nat, names: seq<string>, k: int,
                              streams: int -> (nat -> Sample), shared: nat -> Sample, start: nat)
    requires |minority| > 0 && count > 0 && k >= 1
    ensures var r := GeneratedSamples(minority, count, names, k, streams, shared, start);
      && (r.Ok? <==> HasKeys(minority, names) && |minority| >= 2 && LabelKey in minority[0])
      && (r.Ok? ==>
            var p := PlanFor(minority, count, names, k, streams, shared, start);
            && |r.value| == count
            && count <= |minority| * p.perInstance
            && forall i, j :: 0 <= i < |minority| && 0 <= j < p.perInstance && i * p.perInstance + j < count ==>
                 IsSyntheticRow(r.value[i * p.perInstance + j], p.features, names, minority[0][LabelKey], k,
                                SmoteProvenance(p, i, j)))
  {
    var r := GeneratedSamples(minority, count, names, k, streams, shared, start);
    if r.Ok? {
      var p := PlanFor(minority, count, names, k, streams, shared, start);
      var n := |minority|;
      var m := p.perInstance;
      BlocksLength(RowMaker(p), n, m);
      assert count <= n * m;
      forall i, j | 0 <= i < n && 0 <= j < m && i * m + j < count
        ensures IsSyntheticRow(r.value[i * m + j], p.features, names, minority[0][LabelKey], k, SmoteProvenance(p, i, j))
      {
        PlanRowAt(p, count, i, j);
        PlanForNearest(minority, count, names, k, streams, shared, start, i);
        SmoteRowSynthetic(p, i, j, r.value[i * m + j]);
      }
    }
  }

  /** Row s of a successful generation is synthetic, with the provenance
      returned. */
  lemma GeneratedRowSynthetic(minority: seq<Row>, count: nat, names: seq<string>, k: int,
                              streams: int -> (nat -> Sample), shared: nat -> Sample, start: nat,
                              synthetic: seq<Row>, s: nat)
    returns (prov: Provenance)
    requires |minority| > 0 && count > 0 && k >= 1
    requires GeneratedSamples(minority, count, names, k, streams, shared, start) == Ok(synthetic)
    requires s < |synthetic|
    ensures HasKeys(minority, names) && LabelKey in minority[0]
    ensures var features := ConvertToFeatureArrays(minority, names).value;
      && Rectangular(features, |names|)
      && IsSyntheticRow(synthetic[s], features, names, minority[0][LabelKey], k, prov)
  {
    var p := PlanFor(minority, count, names, k, streams, shared, start);
    var features := ConvertToFeatureArrays(minority, names).value;
    assert p.features == features && p.names == names && p.classLabel == minority[0][LabelKey] && p.k == k;
    assert synthetic == Take(SmoteRows(p, |p.features|), count);
    var i := s / p.perInstance;
    TakeBlocksRow(RowMaker(p), |p.features|, p.perInstance, count, s);
    PlanForNearest(minority, count, names, k, streams, shared, start, i);
    prov := PlanRowSynthetic(p, count, s);
    ghost var made := IsSyntheticRow(synthetic[s], features, names, minority[0][LabelKey], k, prov);
    assert made;
  }

  /** Row s of the first `count` rows of a plan is synthetic. */
  lemma PlanRowSynthetic(p: SmotePlan, count: nat, s: nat) returns (prov: Provenance)
    requires ValidPlan(p) && s < |Take(SmoteRows(p, |p.features|), count)|
    requires p.perInstance > 0 && s / p.perInstance < |p.features|
    requires p.nearest[s / p.perInstance] == Neighbors(p.features, |p.names|, s / p.perInstance, p.k)
    ensures IsSyntheticRow(Take(SmoteRows(p, |p.features|), count)[s], p.features, p.names, p.classLabel, p.k, prov)
  {
    var rows := Take(SmoteRows(p, |p.features|), count);
    TakeBlocksRow(RowMaker(p), |p.features|, p.perInstance, count, s);
    var i, j := s / p.perInstance, s % p.perInstance;
    assert rows[s] == SmoteRow(p, i, j);
    SmoteRowSynthetic(p, i, j, rows[s]);
    prov := SmoteProvenance(p, i, j);
  }

  /** Row i * perInstance + j of the first `count` rows of a plan is the
      plan's row (i, j). */
  lemma PlanRowAt(p: SmotePlan, count: nat, i: nat, j: nat)
    requires ValidPlan(p) && i < |p.features| && j < p.perInstance
    requires i * p.perInstance + j < count
    ensures var rows := Take(SmoteRows(p, |p.features|), count);
      && i * p.perInstance + j < |rows|
      && rows[i * p.perInstance + j] == SmoteRow(p, i, j)
  {
    TakeBlocksAt(RowMaker(p), |p.features|, p.perInstance, count, i, j);
  }

  /** The k nearest other rows of every row, in row order. */
  method NeighborLists(features: seq<seq<real>>, width: nat, k: int) returns (nearest: seq<seq<nat>>)
    requires Rectangular(features, width)
    ensures |nearest| == |features|
    ensures forall q :: 0 <= q < |features| ==> nearest[q] == Neighbors(features, width, q, k)
  {
    nearest := [];
    var i := 0;
    while i < |features|
      invariant 0 <= i <= |features| && |nearest| == i
      invariant forall q :: 0 <= q < i ==> nearest[q] == Neighbors(features, width, q, k)
    {
      var nn := FindKNearestNeighbors(features, features[i], i, k);
      assert nn == Neighbors(features, width, i, k);
      nearest := nearest + [nn];
      i := i + 1;
    }
  }

  /** The row the loop makes from the draws of iteration j is the plan's row. */
  lemma SmoteRowIs(p: SmotePlan, i: nat, j: nat, pick: nat, neighbor: nat, features: seq<real>, classLabel: Value)
    requires ValidPlan(p) && i < |p.features| && j < p.perInstance
    requires pick == Scale(SampleAt(LocalStream(p, i), 2 * j), |p.nearest[i]|) && pick < |p.nearest[i]|
    requires neighbor == p.nearest[i][pick]
    requires features == Interpolate(p.features[i], p.features[neighbor], SampleAt(LocalStream(p, i), 2 * j + 1))
    requires classLabel == p.classLabel
    ensures SmoteRow(p, i, j) == Record(p.names, Floats(features), LabelKey, classLabel)
  {
  }

  /** One iteration for base row i: a neighbour picked among its nearest
      rows, a ratio, and the interpolated row labelled with the first
      minority row's "Label". An error is what the loop body throws, before
      `Parallel.For` wraps it. */
  method SynthesizeOne(minority: seq<Row>, features: seq<seq<real>>, names: seq<string>,
                       neighbors: seq<nat>, i: nat, j: nat, localRandom: Random, ghost p: SmotePlan)
    returns (r: Result<Row>)
    requires |minority| > 0 && PlanShape(p) && j < p.perInstance
    requires p.features == features && p.names == names && |features| == |minority| && i < |features|
    requires LabelKey in minority[0] ==> p.classLabel == minority[0][LabelKey]
    requires neighbors == p.nearest[i]
    requires localRandom.stream == LocalStream(p, i) && localRandom.drawn == 2 * j
    modifies localRandom
    ensures r.Ok? ==> (
      && ValidPlan(p) && LabelKey in minority[0]
      && localRandom.drawn == 2 * j + 2
      && r.value == SmoteRow(p, i, j))
    ensures r.Err? ==> FirstRowFails(minority, |features|, AggregateException(r.error))
  {
    ghost var u0 := SampleAt(LocalStream(p, i), 2 * j);
    ghost var u1 := SampleAt(LocalStream(p, i), 2 * j + 1);
    assert u0 == SampleAt(localRandom.stream, localRandom.drawn) && u1 == SampleAt(localRandom.stream, localRandom.drawn + 1);
    var pick := localRandom.Next(|neighbors|);
    if pick >= |neighbors| {
      assert |features| == 1;
      return Err(IndexOutOfRangeException);
    }
    assert ValidPlan(p);
    var neighborIdx := neighbors[pick];
    var syntheticFeatures := InterpolateFeatures(features[i], features[neighborIdx], localRandom);
    if LabelKey !in minority[0] {
      return Err(KeyNotFoundException);
    }
    var sample := CreateSyntheticSample(syntheticFeatures, names, minority[0][LabelKey]);
    SmoteRowIs(p, i, j, pick, neighborIdx, syntheticFeatures, minority[0][LabelKey]);
    r := Ok(sample);
  }

  /** The rows one base row contributes: up to perInstance rows while fewer
      than `count` exist. Only the first base row can fail. */
  method SynthesizeFromRow(minority: seq<Row>, features: seq<seq<real>>, names: seq<string>,
                           neighbors: seq<nat>, i: nat, perInstance: nat, count: nat,
                           localRandom: Random, synthetic: seq<Row>, ghost p: SmotePlan)
    returns (r: Result<seq<Row>>)
    requires |minority| > 0 && count > 0 && PlanShape(p)
    requires p.features == features && p.names == names && p.perInstance == perInstance && perInstance > 0
    requires |features| == |minority| && i < |features|
    requires LabelKey in minority[0] ==> p.classLabel == minority[0][LabelKey]
    requires neighbors == p.nearest[i]
    requires localRandom.stream == LocalStream(p, i) && localRandom.drawn == 0
    requires i == 0 ==> synthetic == []
    requires i > 0 ==> ValidPlan(p) && LabelKey in minority[0] && synthetic == Take(SmoteRows(p, i), count)
    modifies localRandom
    ensures r.Ok? ==> ValidPlan(p) && LabelKey in minority[0] && r.value == Take(SmoteRows(p, i + 1), count)
    ensures r.Err? ==> i == 0 && FirstRowFails(minority, |features|, AggregateException(r.error))
  {
    ghost var before := SmoteRows(p, i);
    ghost var block := Block(RowMaker(p), i, perInstance);
    var acc := synthetic;
    assert before + block[..0] == before;
    var j := 0;
    while j < perInstance && |acc| < count
      invariant 0 <= j <= perInstance
      invariant localRandom.drawn == 2 * j
      invariant i == 0 && j == 0 ==> acc == []
      invariant i > 0 || j > 0 ==> ValidPlan(p) && LabelKey in minority[0]
      invariant i > 0 || j > 0 ==> acc == Take(before + block[..j], count)
    {
      var made := SynthesizeOne(minority, features, names, neighbors, i, j, localRandom, p);
      if made.Err? {
        return Err(made.error);
      }
      BlockRow(p, i, j);
      TakeStep(before, block, j, count);
      acc := acc + [made.value];
      j := j + 1;
    }
    TakeDone(before, block, j, count);
    assert before + block == SmoteRows(p, i + 1);
    r := Ok(acc);
  }

  /** The loop over the minority rows: each draws its local generator's seed
      from the shared generator and adds that row's synthetic rows. */
  method SynthesizeRows(minority: seq<Row>, features: seq<seq<real>>, names: seq<string>,
                        nearest: seq<seq<nat>>, perInstance: nat, count: nat,
                        random: Random, streams: int -> (nat -> Sample), ghost p: SmotePlan)
    returns (r: Result<seq<Row>>)
    requires |minority| > 0 && count > 0 && PlanShape(p)
    requires p.features == features && p.names == names && p.perInstance == perInstance && perInstance > 0
    requires p.streams == streams && p.shared == random.stream && p.start == random.drawn
    requires |features| == |minority| && nearest == p.nearest
    requires LabelKey in minority[0] ==> p.classLabel == minority[0][LabelKey]
    modifies random
    ensures r.Ok? ==> (
      && ValidPlan(p) && LabelKey in minority[0]
      && r.value == Take(SmoteRows(p, |features|), count)
      && random.drawn == old(random.drawn) + |features|)
    ensures r.Err? ==> FirstRowFails(minority, |features|, r.error)
  {
    var n := |features|;
    var synthetic: seq<Row> := [];
    var i := 0;
    while i < n
      invariant 0 <= i <= n
      invariant random.drawn == p.start + i
      invariant i == 0 ==> synthetic == []
      invariant i > 0 ==> ValidPlan(p) && LabelKey in minority[0] && synthetic == Take(SmoteRows(p, i), count)
    {
      var seed := random.NextUnbounded();
      var localRandom := new Random(streams(seed));
      assert localRandom != random;
      var rows := SynthesizeFromRow(minority, features, names, nearest[i], i, perInstance, count, localRandom, synthetic, p);
      if rows.Err? {
        return Err(AggregateException(rows.error));
      }
      synthetic := rows.value;
      i := i + 1;
    }
    r := Ok(synthetic);
  }

  /** `GenerateSyntheticSamples`: the feature vectors and every row's
      neighbours first, then the rows of every minority row, cut to `count`. */
  method GenerateSyntheticSamples(minority: seq<Row>, count: nat, names: seq<string>, k: int,
                                  random: Random, streams: int -> (nat -> Sample))
    returns (r: Result<seq<Row>>)
    requires |minority| > 0 && count > 0 && k >= 1
    modifies random
    ensures r == GeneratedSamples(minority, count, names, k, streams, random.stream, old(random.drawn))
    ensures r.Ok? ==> random.drawn == old(random.drawn) + |minority|
  {
    var converted := ConvertToFeatureArrays(minority, names);
    if converted.Err? {
      return Err(converted.error);
    }
    var features := converted.value;
    var perInstance := CeilDiv(count, |minority|);
    ghost var p := PlanFor(minority, count, names, k, streams, random.stream, random.drawn);
    var nearest := NeighborLists(features, |names|, k);
    assert nearest == p.nearest;
    var rows := SynthesizeRows(minority, features, names, nearest, perInstance, count, random, streams, p);
    if rows.Err? {
      assert GeneratedSamples(minority, count, names, k, streams, p.shared, p.start) == Err(rows.error);
      return Err(rows.error);
    }
    assert Take(rows.value, count) == rows.value;
    assert GeneratedSamples(minority, count, names, k, streams, p.shared, p.start) == Ok(rows.value);
    r := Ok(Take(rows.value, count));
  }

  // ----- the balancer -----

  /** The synthetic rows: none when the minority reaches the target,
      otherwise the generation's rows, drawn with the same generator from
      the draw after the shuffle. */
  function SyntheticPart(minority: seq<Row>, majority: seq<Row>, names: seq<string>, config: DataBalancingConfig,
                         streams: int -> (nat -> Sample)): Result<seq<Row>>
    requires |minority| > 0 && ValidBalancingParameters(config)
  {
    var c := Counts(|minority|, |majority|, config);
    if c.synthetic > 0 then
      GeneratedSamples(minority, c.synthetic, names, config.kNeighbors, streams, streams(Seed), Max(|majority| - 1, 0))
    else
      Ok([])
  }

  /** What `BalanceDataset` returns: the parameters are checked first, then
      the data is split by class; the result is the undersampled majority,
      then the minority, then the synthetic rows. */
  function SmoteBalanced(data: seq<Row>, names: seq<string>, config: DataBalancingConfig, targetField: string,
                         streams: int -> (nat -> Sample)): Result<seq<Row>>
  {
    match ValidateBalancingParameters(config)
    case Fail(e) => Err(e)
    case Pass =>
      match SplitDataByClass(data, targetField, ClassesMessage)
      case Err(e) => Err(e)
      case Ok((minority, majority)) =>
        match SyntheticPart(minority, majority, names, config, streams)
        case Err(e) => Err(e)
        case Ok(synthetic) => Ok(Undersampled(majority, config, streams(Seed)) + minority + synthetic)
  }

  /** `BalanceDataset`. */
  method BalanceDataset(data: seq<Row>, names: seq<string>, config: DataBalancingConfig, targetField: string,
                        streams: int -> (nat -> Sample))
    returns (r: Result<seq<Row>>)
    ensures r == SmoteBalanced(data, names, config, targetField, streams)
  {
    var valid := ValidateBalancingParameters(config);
    if valid.Fail? {
      return Err(valid.error);
    }
    var random := new Random(streams(Seed));
    var split := SplitDataByClass(data, targetField, ClassesMessage);
    if split.Err? {
      return Err(split.error);
    }
    var (minority, majority) := split.value;
    var counts := Counts(|minority|, |majority|, config);
    var undersampled := ShuffleMajorityClass(majority, counts.undersampled, random);
    assert undersampled == Undersampled(majority, config, streams(Seed));
    ghost var part := SyntheticPart(minority, majority, names, config, streams);
    var result := undersampled + minority;
    if counts.synthetic > 0 {
      var synthetic := GenerateSyntheticSamples(minority, counts.synthetic, names, config.kNeighbors, random, streams);
      assert synthetic == part;
      if synthetic.Err? {
        return Err(synthetic.error);
      }
      result := result + synthetic.value;
    } else {
      assert part == Ok([]);
      assert result == result + [];
    }
    r := Ok(result);
  }

  /** The generation fails exactly on a minority row without a feature, a
      single minority row or a first minority row without "Label", and only
      when synthetic rows are needed; otherwise it makes exactly the rows
      that bring the minority up to the target. */
  lemma SyntheticPartSound(minority: seq<Row>, majority: seq<Row>, names: seq<string>, config: DataBalancingConfig,
                           streams: int -> (nat -> Sample))
    requires |minority| > 0 && ValidBalancingParameters(config)
    ensures var r := SyntheticPart(minority, majority, names, config, streams);
      var c := Counts(|minority|, |majority|, config);
      && (r.Err? <==> c.synthetic > 0 && (!HasKeys(minority, names) || |minority| < 2 || LabelKey !in minority[0]))
      && (r.Ok? ==> |minority| + |r.value| == Max(|minority|, c.target))
  {
    var c := Counts(|minority|, |majority|, config);
    if c.synthetic > 0 {
      GeneratedSamplesSound(minority, c.synthetic, names, config.kNeighbors, streams, streams(Seed), Max(|majority| - 1, 0));
    }
  }

  /** The balancer fails exactly when a parameter is out of range, a row has
      no target, there are not two classes, or synthetic rows are needed and
      the generation fails; the parameter check comes before the split. */
  lemma SmoteBalancedFails(data: seq<Row>, names: seq<string>, config: DataBalancingConfig, targetField: string,
                           streams: int -> (nat -> Sample))
    ensures var r := SmoteBalanced(data, names, config, targetField, streams);
      && (!ValidBalancingParameters(config) ==> r == Err(ValidateBalancingParameters(config).error))
      && (ValidBalancingParameters(config) && !HasKey(data, targetField) ==> r == Err(KeyNotFoundException))
      && (ValidBalancingParameters(config) && HasKey(data, targetField) && !TwoLabels(data, targetField) ==>
            r == Err(ArgumentException(ClassesMessage)))
      && (ValidBalancingParameters(config) && HasKey(data, targetField) && TwoLabels(data, targetField) ==>
            var (minority, majority) := SplitDataByClass(data, targetField, ClassesMessage).value;
            var c := Counts(|minority|, |majority|, config);
            (r.Err? <==> c.synthetic > 0 && (!HasKeys(minority, names) || |minority| < 2 || LabelKey !in minority[0])))
  {
    if ValidBalancingParameters(config) && HasKey(data, targetField) && TwoLabels(data, targetField) {
      var (minority, majority) := SplitDataByClass(data, targetField, ClassesMessage).value;
      SyntheticPartSound(minority, majority, names, config, streams);
    }
  }

  /** A successful run is the undersampled majority, the minority and the
      synthetic rows. */
  lemma SmoteBalancedParts(data: seq<Row>, names: seq<string>, config: DataBalancingConfig, targetField: string,
                           streams: int -> (nat -> Sample))
    returns (minority: seq<Row>, majority: seq<Row>, synthetic: seq<Row>)
    requires SmoteBalanced(data, names, config, targetField, streams).Ok?
    ensures ValidBalancingParameters(config) && HasKey(data, targetField) && 0 < |data|
    ensures SplitDataByClass(data, targetField, ClassesMessage) == Ok((minority, majority))
    ensures IsSplit(data, targetField, minority, majority)
    ensures SyntheticPart(minority, majority, names, config, streams) == Ok(synthetic)
    ensures SmoteBalanced(data, names, config, targetField, streams).value
      == Undersampled(majority, config, streams(Seed)) + minority + synthetic
  {
    minority, majority := SplitDataByClass(data, targetField, ClassesMessage).value.0,
                          SplitDataByClass(data, targetField, ClassesMessage).value.1;
    synthetic := SyntheticPart(minority, majority, names, config, streams).value;
  }

  /** A successful run returns the undersampled majority (majority rows, as
      many as the undersampled count), then the minority unchanged, then the
      synthetic rows: the minority part numbers the larger of the minority
      and the target, so the minority reaches the target whenever it was
      below it. */
  lemma SmoteBalancedRows(data: seq<Row>, names: seq<string>, config: DataBalancingConfig, targetField: string,
                          streams: int -> (nat -> Sample))
    requires SmoteBalanced(data, names, config, targetField, streams).Ok?
    ensures ValidBalancingParameters(config) && SplitDataByClass(data, targetField, ClassesMessage).Ok?
    ensures var (minority, majority) := SplitDataByClass(data, targetField, ClassesMessage).value;
      var c := Counts(|minority|, |majority|, config);
      var r := SmoteBalanced(data, names, config, targetField, streams).value;
      && |r| == c.undersampled + Max(|minority|, c.target)
      && multiset(r[..c.undersampled]) <= multiset(majority)
      && r[c.undersampled..c.undersampled + |minority|] == minority
      && multiset(r[..c.undersampled + |minority|]) <= multiset(data)
  {
    var minority, majority, synthetic := SmoteBalancedParts(data, names, config, targetField, streams);
    var shuffled := Shuffled(majority, streams(Seed), 0);
    var undersampled := Undersampled(majority, config, streams(Seed));
    SyntheticPartSound(minority, majority, names, config, streams);
    ShuffledPermutes(majority, streams(Seed), 0);
    PrefixSubMultiset(shuffled, |undersampled|);
    ConcatenatedParts(undersampled, minority, synthetic, majority, data);
  }

  /** The first two parts of a result: the kept majority rows and the
      minority, both rows of the data. */
  lemma ConcatenatedParts<T>(kept: seq<T>, minority: seq<T>, synthetic: seq<T>, majority: seq<T>, data: seq<T>)
    requires multiset(kept) <= multiset(majority) && multiset(minority) + multiset(majority) == multiset(data)
    ensures var r := kept + minority + synthetic;
      && r[..|kept|] == kept
      && r[|kept|..|kept| + |minority|] == minority
      && multiset(r[..|kept| + |minority|]) <= multiset(data)
  {
    var r := kept + minority + synthetic;
    assert r[..|kept| + |minority|] == kept + minority;
  }

  /** Every row after the minority is synthetic: made from a minority row by
      interpolating towards one of its k nearest minority rows, labelled
      with the first minority row's "Label". */
  lemma SmoteBalancedSynthetic(data: seq<Row>, names: seq<string>, config: DataBalancingConfig, targetField: string,
                               streams: int -> (nat -> Sample), t: nat)
    requires SmoteBalanced(data, names, config, targetField, streams).Ok?
    ensures ValidBalancingParameters(config) && SplitDataByClass(data, targetField, ClassesMessage).Ok?
    ensures var (minority, majority) := SplitDataByClass(data, targetField, ClassesMessage).value;
      var c := Counts(|minority|, |majority|, config);
      var r := SmoteBalanced(data, names, config, targetField, streams).value;
      c.undersampled + |minority| <= t < |r| ==>
        && HasKeys(minority, names) && LabelKey in minority[0]
        && var features := ConvertToFeatureArrays(minority, names).value;
        && Rectangular(features, |names|)
        && exists prov :: IsSyntheticRow(r[t], features, names, minority[0][LabelKey], config.kNeighbors, prov)
  {
    var minority, majority, synthetic := SmoteBalancedParts(data, names, config, targetField, streams);
    var c := Counts(|minority|, |majority|, config);
    var undersampled := Undersampled(majority, config, streams(Seed));
    var r := undersampled + minority + synthetic;
    var offset := c.undersampled + |minority|;
    assert |undersampled| == c.undersampled;
    if offset <= t < |r| {
      assert c.synthetic > 0;
      var shared := streams(Seed);
      var start := Max(|majority| - 1, 0);
      assert GeneratedSamples(minority, c.synthetic, names, config.kNeighbors, streams, shared, start) == Ok(synthetic);
      var prov := GeneratedRowSynthetic(minority, c.synthetic, names, config.kNeighbors, streams, shared, start,
                                        synthetic, t - offset);
      assert r[t] == synthetic[t - offset];
      ghost var made := IsSyntheticRow(r[t], ConvertToFeatureArrays(minority, names).value, names, minority[0][LabelKey],
                                       config.kNeighbors, prov);
      assert made;
    }
  }
}
