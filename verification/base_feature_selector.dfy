/** The helpers every feature selector shares: dropping the target from the
    candidate names, reading rows into a matrix or into columns, the target
    values, and the brute-force neighbour search over any distance. A
    selector returns its matrix, its names and its report together. */
module BaseFeatureSelector {
  import opened Values
  import opened Models
  import opened Seqs
  import opened NearestNeighbors

  /** What `SelectFeatures` returns: one row of the matrix per data row, the
      names of its columns, and the report. */
  datatype Selection = Selection(features: seq<seq<real>>, featureNames: seq<string>, report: seq<ReportLine>)

  /** The empty selection a selector returns after catching an exception. */
  function Failed(report: seq<ReportLine>): Selection
  {
    Selection([], [], report)
  }

  /** The report ends with an error: an exception was caught. */
  predicate ErrorReported(s: Selection)
  {
    s.report != [] && s.report[|s.report| - 1].ErrorNote?
  }

  /** One report line per name, in order. */
  function Listing(names: seq<string>): (r: seq<ReportLine>)
    ensures |r| == |names| && forall k :: 0 <= k < |names| ==> r[k] == Listed(names[k])
  {
    seq(|names|, k requires 0 <= k < |names| => Listed(names[k]))
  }

  // ----- the target field -----

  /** `FilterTargetField`: every candidate but the target, in order. */
  function FilterTargetField(candidates: seq<string>, targetField: string): (r: seq<string>)
    ensures forall f :: f in r <==> f in candidates && f != targetField
    decreases |candidates|
  {
    if candidates == [] then []
    else
      var rest := FilterTargetField(candidates[1..], targetField);
      assert candidates == [candidates[0]] + candidates[1..];
      (if candidates[0] == targetField then [] else [candidates[0]]) + rest
  }

  /** Filtering keeps the relative order of the candidates: it distributes
      over concatenation. */
  lemma {:induction false} FilterAppend(a: seq<string>, b: seq<string>, targetField: string)
    ensures FilterTargetField(a + b, targetField) == FilterTargetField(a, targetField) + FilterTargetField(b, targetField)
    decreases |a|
  {
    if a != [] {
      FilterAppend(a[1..], b, targetField);
      var head := if a[0] == targetField then [] else [a[0]];
      assert (a + b)[0] == a[0] && (a + b)[1..] == a[1..] + b;
      assert FilterTargetField(a + b, targetField) == head + FilterTargetField(a[1..] + b, targetField);
      assert FilterTargetField(a, targetField) == head + FilterTargetField(a[1..], targetField);
    } else {
      assert a + b == b;
    }
  }

  /** Filtering removes every occurrence of the target and keeps every other
      name as often as it occurs. */
  lemma {:induction false} FilterCounts(candidates: seq<string>, targetField: string)
    ensures multiset(FilterTargetField(candidates, targetField)) == multiset(candidates)[targetField := 0]
    decreases |candidates|
  {
    if candidates != [] {
      FilterCounts(candidates[1..], targetField);
      assert candidates == [candidates[0]] + candidates[1..];
    }
  }

  /** Filtering twice is filtering once. */
  lemma {:induction false} FilterIdempotent(candidates: seq<string>, targetField: string)
    ensures FilterTargetField(FilterTargetField(candidates, targetField), targetField)
         == FilterTargetField(candidates, targetField)
    decreases |candidates|
  {
    if candidates != [] {
      var rest := FilterTargetField(candidates[1..], targetField);
      FilterIdempotent(candidates[1..], targetField);
      var head := if candidates[0] == targetField then [] else [candidates[0]];
      FilterAppend(head, rest, targetField);
      if candidates[0] != targetField {
        assert FilterTargetField(head, targetField) == head by {
          assert head[1..] == [];
        }
      }
    }
  }

  // ----- reading rows -----

  /** A field read as a number, a null read as 0. */
  function NullAsZero(v: Value): real
  {
    if v.Null? then 0.0 else ToSingle(v)
  }

  function RowValues(row: Row, names: seq<string>): (v: seq<real>)
    requires forall j :: 0 <= j < |names| ==> names[j] in row
    ensures |v| == |names| && forall j :: 0 <= j < |names| ==> v[j] == NullAsZero(row[names[j]])
  {
    seq(|names|, j requires 0 <= j < |names| => NullAsZero(row[names[j]]))
  }

  /** `ConvertToFeatureMatrix`: one row per data row and one column per name;
      a name missing from some row throws `KeyNotFoundException`. */
  function ConvertToFeatureMatrix(data: seq<Row>, features: seq<string>): (r: Result<seq<seq<real>>>)
    ensures r.Ok? <==> HasKeys(data, features)
    ensures r.Err? ==> r.error == KeyNotFoundException
    ensures r.Ok? ==> (
      && |r.value| == |data|
      && forall i :: 0 <= i < |data| ==>
           |r.value[i]| == |features|
           && forall j :: 0 <= j < |features| ==> r.value[i][j] == ToSingle(data[i][features[j]]))
  {
    if !HasKeys(data, features) then Err(KeyNotFoundException)
    else Ok(seq(|data|, i requires 0 <= i < |data| => RowValues(data[i], features)))
  }

  /** The non-null values of a field, in row order. */
  function NonNullValues(data: seq<Row>, field: string): (r: seq<real>)
    requires HasKey(data, field)
    ensures |r| <= |data|
    ensures |r| == |data| <==> forall i :: 0 <= i < |data| ==> !data[i][field].Null?
    decreases |data|
  {
    if data == [] then []
    else
      var k := |data| - 1;
      var rest := NonNullValues(data[..k], field);
      assert forall i :: 0 <= i < k ==> data[..k][i] == data[i];
      if data[k][field].Null? then rest else rest + [ToSingle(data[k][field])]
  }

  /** When no row has a null there, the values are the field of every row. */
  lemma {:induction false} NonNullValuesAll(data: seq<Row>, field: string)
    requires HasKey(data, field)
    requires forall i :: 0 <= i < |data| ==> !data[i][field].Null?
    ensures NonNullValues(data, field) == seq(|data|, i requires 0 <= i < |data| => ToSingle(data[i][field]))
    decreases |data|
  {
    if data != [] {
      var k := |data| - 1;
      assert forall i :: 0 <= i < k ==> data[..k][i] == data[i];
      NonNullValuesAll(data[..k], field);
    }
  }

  /** `ExtractTargetValues`: the target of every row whose target is not
      null, in row order; a row without the target field throws. */
  function ExtractTargetValues(data: seq<Row>, targetField: string): (r: Result<seq<real>>)
    ensures r.Ok? <==> HasKey(data, targetField)
    ensures r.Err? ==> r.error == KeyNotFoundException
    ensures r.Ok? ==> |r.value| <= |data|
    ensures r.Ok? ==> (|r.value| == |data| <==> forall i :: 0 <= i < |data| ==> !data[i][targetField].Null?)
  {
    if !HasKey(data, targetField) then Err(KeyNotFoundException)
    else Ok(NonNullValues(data, targetField))
  }

  /** A single row contributes its target as a float, or nothing when the
      target is null. */
  lemma ExtractTargetValuesOne(row: Row, targetField: string)
    requires targetField in row
    ensures ExtractTargetValues([row], targetField)
            == Ok(if row[targetField].Null? then [] else [ToSingle(row[targetField])])
  {
    var data := [row];
    assert HasKey(data, targetField) && data[..0] == [] && data[0] == row;
    assert NonNullValues(data[..0], targetField) == [];
    assert NonNullValues(data, targetField) == if row[targetField].Null? then [] else [ToSingle(row[targetField])];
  }

  /** The targets of two runs of rows are those of the first run followed by
      those of the second; with `ExtractTargetValuesOne` this fixes the
      result as the non-null targets in row order. */
  lemma {:induction false} ExtractTargetValuesAppend(a: seq<Row>, b: seq<Row>, targetField: string)
    requires HasKey(a, targetField) && HasKey(b, targetField)
    ensures ExtractTargetValues(a + b, targetField).Ok?
    ensures ExtractTargetValues(a + b, targetField).value
            == ExtractTargetValues(a, targetField).value + ExtractTargetValues(b, targetField).value
    decreases |b|
  {
    assert HasKey(a + b, targetField) by {
      forall i | 0 <= i < |a + b| ensures targetField in (a + b)[i] {
        if i >= |a| { assert (a + b)[i] == b[i - |a|]; }
      }
    }
    if b == [] {
      assert a + b == a;
    } else {
      var k := |b| - 1;
      assert HasKey(b[..k], targetField) by {
        forall i | 0 <= i < k ensures targetField in b[..k][i] { assert b[..k][i] == b[i]; }
      }
      ExtractTargetValuesAppend(a, b[..k], targetField);
      assert (a + b)[..|a| + k] == a + b[..k];
      assert (a + b)[|a| + k] == b[k];
    }
  }

  /** One field of every row, a null read as 0. */
  function Column(data: seq<Row>, field: string): (c: seq<real>)
    requires HasKey(data, field)
    ensures |c| == |data| && forall i :: 0 <= i < |data| ==> c[i] == NullAsZero(data[i][field])
  {
    seq(|data|, i requires 0 <= i < |data| => NullAsZero(data[i][field]))
  }

  /** The columns `ExtractFeatureValues` returns. */
  function FeatureColumns(data: seq<Row>, featureNames: seq<string>): (r: Result<seq<seq<real>>>)
    ensures r.Ok? <==> HasKeys(data, featureNames)
    ensures r.Err? ==> r.error == KeyNotFoundException
    ensures r.Ok? ==> |r.value| == |featureNames| && forall j :: 0 <= j < |featureNames| ==>
      HasKey(data, featureNames[j]) && r.value[j] == Column(data, featureNames[j])
  {
    if !HasKeys(data, featureNames) then Err(KeyNotFoundException)
    else Ok(seq(|featureNames|, j requires 0 <= j < |featureNames| => Column(data, featureNames[j])))
  }

  /** `ExtractFeatureValues`: one column per name, in order, each holding
      that field of every row; the first name missing from some row throws. */
  method ExtractFeatureValues(data: seq<Row>, featureNames: seq<string>) returns (r: Result<seq<seq<real>>>)
    ensures r == FeatureColumns(data, featureNames)
    ensures r.Ok? <==> HasKeys(data, featureNames)
    ensures r.Ok? ==> |r.value| == |featureNames| && forall j :: 0 <= j < |featureNames| ==> |r.value[j]| == |data|
  {
    var result: seq<seq<real>> := [];
    for j := 0 to |featureNames|
      invariant HasKeys(data, featureNames[..j])
      invariant |result| == j
      invariant forall q :: 0 <= q < j ==> HasKey(data, featureNames[q]) && result[q] == Column(data, featureNames[q])
    {
      if !HasKey(data, featureNames[j]) {
        assert !HasKeys(data, featureNames) by {
          var i :| 0 <= i < |data| && featureNames[j] !in data[i];
        }
        return Err(KeyNotFoundException);
      }
      result := result + [Column(data, featureNames[j])];
      assert featureNames[..j + 1] == featureNames[..j] + [featureNames[j]];
    }
    assert featureNames[..|featureNames|] == featureNames;
    assert result == seq(|featureNames|, q requires 0 <= q < |featureNames| => Column(data, featureNames[q]));
    r := Ok(result);
  }

  /** The columns are the transpose of the matrix, and both fail together. */
  lemma ColumnsTranspose(data: seq<Row>, featureNames: seq<string>)
    ensures FeatureColumns(data, featureNames).Ok? <==> ConvertToFeatureMatrix(data, featureNames).Ok?
    ensures FeatureColumns(data, featureNames).Ok? ==>
      var columns := FeatureColumns(data, featureNames).value;
      var matrix := ConvertToFeatureMatrix(data, featureNames).value;
      forall i, j :: 0 <= i < |data| && 0 <= j < |featureNames| ==> columns[j][i] == matrix[i][j]
  {
  }

  // ----- nearest neighbours -----

  /** The distance from the query to every row, by the given function. */
  function DistancesBy<T>(features: seq<seq<T>>, target: seq<T>, distanceFunc: (seq<T>, seq<T>) -> real): (d: seq<real>)
    ensures |d| == |features| && forall q :: 0 <= q < |features| ==> d[q] == distanceFunc(features[q], target)
  {
    seq(|features|, q requires 0 <= q < |features| => distanceFunc(features[q], target))
  }

  /** The generic `FindKNearestNeighbors`: the same search as the balancers',
      ordered by the given distance function. */
  method FindKNearestNeighbors<T>(features: seq<seq<T>>, target: seq<T>, excludeIndex: int, k: int,
                                  distanceFunc: (seq<T>, seq<T>) -> real)
    returns (r: seq<nat>)
    ensures r == KNearest(DistancesBy(features, target, distanceFunc), excludeIndex, k)
  {
    ghost var d := DistancesBy(features, target, distanceFunc);
    var distances: seq<Candidate> := [];
    var i := 0;
    while i < |features|
      invariant 0 <= i <= |features|
      invariant distances == CandidatesUpTo(d, excludeIndex, i)
    {
      if i != excludeIndex {
        distances := distances + [Candidate(i, distanceFunc(features[i], target))];
      }
      i := i + 1;
    }
    var sorted := StableSort(distances, Distance);
    var m := Min(Max(k, 0), |sorted|);
    r := seq(m, t requires 0 <= t < m => sorted[t].index);
  }

  /** What the generic search promises: min(k, considered) distinct rows
      other than excludeIndex, by non-decreasing distance with ties in index
      order, and every row left out no nearer than the last one returned. */
  lemma FindKNearestNeighborsSound<T>(features: seq<seq<T>>, target: seq<T>, excludeIndex: int, k: int,
                                      distanceFunc: (seq<T>, seq<T>) -> real)
    ensures var r := KNearest(DistancesBy(features, target, distanceFunc), excludeIndex, k);
      && |r| == Min(Max(k, 0), Considered(|features|, excludeIndex))
      && (forall i :: 0 <= i < |r| ==> r[i] < |features| && r[i] != excludeIndex)
      && (forall i, j :: 0 <= i < j < |r| ==> r[i] != r[j])
      && (forall i, j :: 0 <= i < j < |r| ==>
            distanceFunc(features[r[i]], target) < distanceFunc(features[r[j]], target)
            || (distanceFunc(features[r[i]], target) == distanceFunc(features[r[j]], target) && r[i] < r[j]))
      && (forall q :: 0 <= q < |features| && q != excludeIndex && q !in r ==>
            |r| == Max(k, 0) && (|r| > 0 ==> distanceFunc(features[r[|r| - 1]], target) <= distanceFunc(features[q], target)))
  {
    var d := DistancesBy(features, target, distanceFunc);
    var r := KNearest(d, excludeIndex, k);
    KNearestRows(d, excludeIndex, k);
    KNearestOrdered(d, excludeIndex, k);
    forall q | 0 <= q < |features| && q != excludeIndex && q !in r
      ensures |r| == Max(k, 0) && (|r| > 0 ==> distanceFunc(features[r[|r| - 1]], target) <= distanceFunc(features[q], target))
    {
      KNearestOmitted(d, excludeIndex, k, q);
    }
  }
}
