/** Correlation-based selection. Every candidate but the target is scored by
    the absolute value of its correlation with the target; the candidates are
    ranked by that score, highest first; then, walking down the ranking, a
    candidate is kept unless it is too strongly correlated with one already
    kept, until `MaxFeatures` are kept. Any exception empties the result and
    ends the report with the error.

    The Pearson coefficient itself is a parameter, `pearson`: the model only
    keeps the part of the routine that decides whether it throws, namely that
    the two series must have the same length. */
module CorrelationFeatureSelector {
  import opened Values
  import opened Models
  import opened Seqs
  import opened BaseFeatureSelector

  const Title := "Correlation-based Feature Selection Results"
  const RankingTitle := "Features Ranked by Target Correlation"
  const SummaryTitle := "Selection Summary"
  const OriginalCaption := "Original features"
  const SelectedCaption := "Selected features"
  const ThresholdCaption := "Multicollinearity threshold"
  const ErrorContext := "correlation analysis"

  function Abs(x: real): real
  {
    if x < 0.0 then -x else x
  }

  /** `Correlation.Pearson`: series of different lengths are rejected. */
  function Pearson(pearson: (seq<real>, seq<real>) -> real, a: seq<real>, b: seq<real>): Result<real>
  {
    if |a| == |b| then Ok(pearson(a, b)) else Err(ArgumentOutOfRangeException)
  }

  // ----- target correlations -----

  /** One entry of the `targetCorrelations` dictionary. */
  datatype Entry = Entry(name: string, score: real)

  function Keys(d: seq<Entry>): (r: seq<string>)
    ensures |r| == |d| && forall k :: 0 <= k < |d| ==> r[k] == d[k].name
  {
    seq(|d|, k requires 0 <= k < |d| => d[k].name)
  }

  ghost predicate DistinctKeys(d: seq<Entry>)
  {
    forall i, j :: 0 <= i < j < |d| ==> d[i].name != d[j].name
  }

  /** `dictionary[name] = score`: overwrites the entry of that name in place,
      or adds one at the end. */
  function Put(d: seq<Entry>, name: string, score: real): (r: seq<Entry>)
    requires DistinctKeys(d)
    ensures DistinctKeys(r)
    ensures Keys(r) == if name in Keys(d) then Keys(d) else Keys(d) + [name]
    ensures forall k :: 0 <= k < |r| ==> if r[k].name == name then r[k].score == score else k < |d| && r[k] == d[k]
  {
    var k := IndexOf(Keys(d), name);
    if k < 0 then d + [Entry(name, score)]
    else
      var r := d[k := Entry(name, score)];
      assert Keys(r) == Keys(d);
      r
  }

  /** The score of a feature: the absolute correlation of its column with
      the target values. */
  function TargetScore(data: seq<Row>, pearson: (seq<real>, seq<real>) -> real, targetValues: seq<real>, f: string): real
    requires HasKey(data, f)
  {
    Abs(pearson(Column(data, f), targetValues))
  }

  /** The dictionary after the first n features, each scored by its column:
      it fails exactly when one of those columns and the target values
      differ in length; otherwise it has no repeated key. */
  function TargetCorrelationsUpTo(features: seq<string>, columns: seq<seq<real>>, targetValues: seq<real>,
                                  pearson: (seq<real>, seq<real>) -> real, n: nat): (r: Result<seq<Entry>>)
    requires |columns| == |features| && n <= |features|
    ensures r.Ok? <==> forall i :: 0 <= i < n ==> |columns[i]| == |targetValues|
    ensures r.Err? ==> r.error == ArgumentOutOfRangeException
    ensures r.Ok? ==> DistinctKeys(r.value)
    decreases n
  {
    if n == 0 then Ok([])
    else
      match TargetCorrelationsUpTo(features, columns, targetValues, pearson, n - 1)
      case Err(e) => Err(e)
      case Ok(d) =>
        match Pearson(pearson, columns[n - 1], targetValues)
        case Err(e) => Err(e)
        case Ok(c) => Ok(Put(d, features[n - 1], Abs(c)))
  }

  /** The keys of the dictionary are the distinct features in order of
      first appearance. */
  lemma {:induction false} TargetCorrelationKeys(features: seq<string>, columns: seq<seq<real>>,
                                                 targetValues: seq<real>, pearson: (seq<real>, seq<real>) -> real,
                                                 n: nat)
    requires |columns| == |features| && n <= |features|
    ensures var r := TargetCorrelationsUpTo(features, columns, targetValues, pearson, n);
      r.Ok? ==> Keys(r.value) == Distinct(features[..n])
    decreases n
  {
    if n > 0 {
      TargetCorrelationKeys(features, columns, targetValues, pearson, n - 1);
      var prev := TargetCorrelationsUpTo(features, columns, targetValues, pearson, n - 1);
      if TargetCorrelationsUpTo(features, columns, targetValues, pearson, n).Ok? {
        var c := Pearson(pearson, columns[n - 1], targetValues);
        TakeSnoc(features, n);
        PutKeys(prev.value, features[..n - 1], features[n - 1], Abs(c.value));
      }
    }
  }

  /** Putting a name extends the key order the way `Distinct` does. */
  lemma PutKeys(d: seq<Entry>, prefix: seq<string>, name: string, score: real)
    requires DistinctKeys(d) && Keys(d) == Distinct(prefix)
    ensures Keys(Put(d, name, score)) == Distinct(prefix + [name])
  {
    DistinctSnoc(prefix, name);
  }

  /** When the columns are the features' columns of the data, the
      dictionary holds each key's score. */
  lemma {:induction false} TargetCorrelationScores(data: seq<Row>, features: seq<string>, columns: seq<seq<real>>,
                                                   targetValues: seq<real>, pearson: (seq<real>, seq<real>) -> real,
                                                   n: nat)
    requires HasKeys(data, features) && n <= |features|
    requires |columns| == |features| && forall i :: 0 <= i < |features| ==> columns[i] == Column(data, features[i])
    ensures var r := TargetCorrelationsUpTo(features, columns, targetValues, pearson, n);
      r.Ok? ==> Scores(data, pearson, targetValues, r.value)
    decreases n
  {
    if n > 0 {
      TargetCorrelationScores(data, features, columns, targetValues, pearson, n - 1);
      var prev := TargetCorrelationsUpTo(features, columns, targetValues, pearson, n - 1);
      if TargetCorrelationsUpTo(features, columns, targetValues, pearson, n).Ok? {
        var f := features[n - 1];
        assert HasKey(data, f);
        var c := Pearson(pearson, columns[n - 1], targetValues);
        PutScores(data, pearson, targetValues, prev.value, f, Abs(c.value));
      }
    }
  }

  /** Putting a feature with its score keeps every score right. */
  lemma PutScores(data: seq<Row>, pearson: (seq<real>, seq<real>) -> real, targetValues: seq<real>, d: seq<Entry>,
                  f: string, score: real)
    requires DistinctKeys(d) && Scores(data, pearson, targetValues, d)
    requires HasKey(data, f) && score == TargetScore(data, pearson, targetValues, f)
    ensures Scores(data, pearson, targetValues, Put(d, f, score))
  {
    var r := Put(d, f, score);
    forall k | 0 <= k < |r|
      ensures HasKey(data, r[k].name) && r[k].score == TargetScore(data, pearson, targetValues, r[k].name)
    {
      if r[k].name != f {
        assert r[k] == d[k];
      }
    }
  }

  /** One iteration: the feature's score is put in the dictionary, or the
      error of its correlation is the outcome of the whole loop. */
  method AddCorrelation(features: seq<string>, columns: seq<seq<real>>, targetValues: seq<real>,
                        pearson: (seq<real>, seq<real>) -> real, i: nat, d: seq<Entry>)
    returns (r: Result<seq<Entry>>)
    requires |columns| == |features| && i < |features|
    requires TargetCorrelationsUpTo(features, columns, targetValues, pearson, i) == Ok(d)
    ensures r.Err? ==> r == TargetCorrelationsUpTo(features, columns, targetValues, pearson, |features|)
    ensures r.Ok? ==> r == TargetCorrelationsUpTo(features, columns, targetValues, pearson, i + 1)
  {
    var correlation := Pearson(pearson, columns[i], targetValues);
    if correlation.Err? {
      return Err(correlation.error);
    }
    r := Ok(Put(d, features[i], Abs(correlation.value)));
  }

  /** The loop that fills `targetCorrelations`. */
  method TargetCorrelations(features: seq<string>, columns: seq<seq<real>>, targetValues: seq<real>,
                            pearson: (seq<real>, seq<real>) -> real)
    returns (r: Result<seq<Entry>>)
    requires |columns| == |features|
    ensures r == TargetCorrelationsUpTo(features, columns, targetValues, pearson, |features|)
  {
    var d: seq<Entry> := [];
    for i := 0 to |features|
      invariant TargetCorrelationsUpTo(features, columns, targetValues, pearson, i) == Ok(d)
    {
      var next := AddCorrelation(features, columns, targetValues, pearson, i, d);
      if next.Err? {
        return next;
      }
      d := next.value;
    }
    r := Ok(d);
  }

  // ----- the correlation matrix -----

  /** The nested loops that fill the matrix of pairwise correlations. All
      columns have one entry per row, so no call throws. */
  method CorrelationMatrix(columns: seq<seq<real>>, length: nat, pearson: (seq<real>, seq<real>) -> real)
    returns (m: seq<seq<real>>)
    requires forall i :: 0 <= i < |columns| ==> |columns[i]| == length
    ensures |m| == |columns|
    ensures forall i :: 0 <= i < |columns| ==>
      |m[i]| == |columns| && forall j :: 0 <= j < |columns| ==> Pearson(pearson, columns[i], columns[j]) == Ok(m[i][j])
  {
    m := [];
    for i := 0 to |columns|
      invariant |m| == i
      invariant forall p :: 0 <= p < i ==>
        |m[p]| == |columns| && forall j :: 0 <= j < |columns| ==> Pearson(pearson, columns[p], columns[j]) == Ok(m[p][j])
    {
      var row: seq<real> := [];
      for j := 0 to |columns|
        invariant |row| == j
        invariant forall q :: 0 <= q < j ==> Pearson(pearson, columns[i], columns[q]) == Ok(row[q])
      {
        var c := Pearson(pearson, columns[i], columns[j]);
        row := row + [c.value];
      }
      m := m + [row];
    }
  }

  /** The correlation of two features' columns. */
  function Corr(data: seq<Row>, pearson: (seq<real>, seq<real>) -> real, f: string, s: string): real
    requires HasKey(data, f) && HasKey(data, s)
  {
    pearson(Column(data, f), Column(data, s))
  }

  // ----- ranking -----

  function NegScore(e: Entry): real { -e.score }

  /** `OrderByDescending(x => x.Value)`: a stable sort, so equal scores keep
      dictionary order. */
  function Ranked(d: seq<Entry>): seq<Entry>
  {
    StableSort(d, NegScore)
  }

  /** The ranking is in non-increasing order of score and holds exactly the
      dictionary's entries. */
  lemma RankedOrder(d: seq<Entry>)
    ensures multiset(Ranked(d)) == multiset(d)
    ensures forall i, j :: 0 <= i < j < |Ranked(d)| ==> Ranked(d)[i].score >= Ranked(d)[j].score
  {
    StableSortPermutes(d, NegScore);
    StableSortSorted(d, NegScore);
    var r := Ranked(d);
    forall i, j | 0 <= i < j < |r| ensures r[i].score >= r[j].score {
      assert NegScore(r[i]) <= NegScore(r[j]);
    }
  }

  /** The ranking keeps the distinct names and the score of each. */
  lemma RankedEntries(data: seq<Row>, pearson: (seq<real>, seq<real>) -> real, targetValues: seq<real>, d: seq<Entry>)
    requires DistinctKeys(d)
    requires forall k :: 0 <= k < |d| ==> HasKey(data, d[k].name) && d[k].score == TargetScore(data, pearson, targetValues, d[k].name)
    ensures |Ranked(d)| == |d|
    ensures DistinctKeys(Ranked(d))
    ensures forall f :: f in Keys(Ranked(d)) <==> f in Keys(d)
    ensures forall k :: 0 <= k < |Ranked(d)| ==>
      HasKey(data, Ranked(d)[k].name) && Ranked(d)[k].score == TargetScore(data, pearson, targetValues, Ranked(d)[k].name)
  {
    var r := Ranked(d);
    StableSortPermutes(d, NegScore);
    forall k | 0 <= k < |r|
      ensures HasKey(data, r[k].name) && r[k].score == TargetScore(data, pearson, targetValues, r[k].name)
    {
      assert r[k] in multiset(d);
    }
    PermutationKeepsDistinct(d, r);
    forall i, j | 0 <= i < j < |r| ensures r[i].name != r[j].name {
      assert r[i] in multiset(d) && r[j] in multiset(d);
      var p :| 0 <= p < |d| && d[p] == r[i];
      var q :| 0 <= q < |d| && d[q] == r[j];
      assert p != q;
    }
    forall f ensures f in Keys(r) <==> f in Keys(d) {
      if f in Keys(r) {
        var k :| 0 <= k < |r| && r[k].name == f;
        assert r[k] in multiset(d);
      }
      if f in Keys(d) {
        var k :| 0 <= k < |d| && d[k].name == f;
        assert d[k] in multiset(r);
      }
    }
  }

  // ----- the greedy walk -----

  /** Some already kept feature is correlated with f beyond the threshold. */
  ghost predicate HighlyCorrelated(data: seq<Row>, pearson: (seq<real>, seq<real>) -> real, f: string,
                                   selected: seq<string>, threshold: real)
    requires HasKey(data, f) && HasKeys(data, selected)
  {
    exists j :: 0 <= j < |selected| && Abs(Corr(data, pearson, f, selected[j])) > threshold
  }

  /** The features kept after walking the first n of the ranking. */
  ghost function GreedyUpTo(data: seq<Row>, pearson: (seq<real>, seq<real>) -> real, ranked: seq<string>,
                            maxFeatures: int, threshold: real, n: nat): (r: seq<string>)
    requires HasKeys(data, ranked) && n <= |ranked|
    ensures HasKeys(data, r)
    decreases n
  {
    if n == 0 then []
    else
      var s := GreedyUpTo(data, pearson, ranked, maxFeatures, threshold, n - 1);
      assert HasKey(data, ranked[n - 1]);
      if |s| >= maxFeatures || HighlyCorrelated(data, pearson, ranked[n - 1], s, threshold) then s
      else
        HasKeysAppend(data, s, ranked[n - 1]);
        s + [ranked[n - 1]]
  }

  /** Where in the ranking each kept feature stands. */
  ghost function GreedyPositions(data: seq<Row>, pearson: (seq<real>, seq<real>) -> real, ranked: seq<string>,
                                 maxFeatures: int, threshold: real, n: nat): (p: seq<nat>)
    requires HasKeys(data, ranked) && n <= |ranked|
    decreases n
  {
    if n == 0 then []
    else
      var s := GreedyUpTo(data, pearson, ranked, maxFeatures, threshold, n - 1);
      var p := GreedyPositions(data, pearson, ranked, maxFeatures, threshold, n - 1);
      assert HasKey(data, ranked[n - 1]);
      if |s| >= maxFeatures || HighlyCorrelated(data, pearson, ranked[n - 1], s, threshold) then p
      else p + [n - 1]
  }

  /** The kept features are taken from the ranking in order: at increasing
      positions below n. */
  lemma {:induction false} GreedyInOrder(data: seq<Row>, pearson: (seq<real>, seq<real>) -> real, ranked: seq<string>,
                                         maxFeatures: int, threshold: real, n: nat)
    requires HasKeys(data, ranked) && n <= |ranked|
    ensures var r := GreedyUpTo(data, pearson, ranked, maxFeatures, threshold, n);
      var p := GreedyPositions(data, pearson, ranked, maxFeatures, threshold, n);
      && |p| == |r|
      && (forall j :: 0 <= j < |p| ==> p[j] < n && ranked[p[j]] == r[j])
      && (forall i, j :: 0 <= i < j < |p| ==> p[i] < p[j])
    decreases n
  {
    if n > 0 {
      GreedyInOrder(data, pearson, ranked, maxFeatures, threshold, n - 1);
    }
  }

  /** At most `MaxFeatures` are kept, none when it is not positive. */
  lemma {:induction false} GreedyBound(data: seq<Row>, pearson: (seq<real>, seq<real>) -> real, ranked: seq<string>,
                                       maxFeatures: int, threshold: real, n: nat)
    requires HasKeys(data, ranked) && n <= |ranked|
    ensures |GreedyUpTo(data, pearson, ranked, maxFeatures, threshold, n)| <= Max(maxFeatures, 0)
    decreases n
  {
    if n > 0 {
      GreedyBound(data, pearson, ranked, maxFeatures, threshold, n - 1);
    }
  }

  /** No feature is correlated beyond the threshold with one before it. */
  ghost predicate Uncorrelated(data: seq<Row>, pearson: (seq<real>, seq<real>) -> real, selected: seq<string>, threshold: real)
    requires HasKeys(data, selected)
  {
    forall i, j :: 0 <= i < j < |selected| ==> Abs(Corr(data, pearson, selected[j], selected[i])) <= threshold
  }

  /** No two kept features are correlated beyond the threshold: each was
      checked against every feature kept before it. */
  lemma {:induction false} GreedyPairwise(data: seq<Row>, pearson: (seq<real>, seq<real>) -> real, ranked: seq<string>,
                                          maxFeatures: int, threshold: real, n: nat)
    requires HasKeys(data, ranked) && n <= |ranked|
    ensures Uncorrelated(data, pearson, GreedyUpTo(data, pearson, ranked, maxFeatures, threshold, n), threshold)
    decreases n
  {
    if n > 0 {
      GreedyPairwise(data, pearson, ranked, maxFeatures, threshold, n - 1);
      var s := GreedyUpTo(data, pearson, ranked, maxFeatures, threshold, n - 1);
      var r := GreedyUpTo(data, pearson, ranked, maxFeatures, threshold, n);
      if r != s {
        assert |s| < maxFeatures && !HighlyCorrelated(data, pearson, ranked[n - 1], s, threshold);
        assert r == s + [ranked[n - 1]];
        forall i, j | 0 <= i < j < |r| ensures Abs(Corr(data, pearson, r[j], r[i])) <= threshold {
          if j == |s| {
            assert r[i] == s[i] && r[j] == ranked[n - 1];
            assert !(Abs(Corr(data, pearson, ranked[n - 1], s[i])) > threshold);
          } else {
            assert j < |s| && r[i] == s[i] && r[j] == s[j];
            assert Abs(Corr(data, pearson, s[j], s[i])) <= threshold;
          }
        }
      }
    }
  }

  /** The walk up to i is where the walk up to n started. */
  lemma {:induction false} GreedyPrefix(data: seq<Row>, pearson: (seq<real>, seq<real>) -> real, ranked: seq<string>,
                                        maxFeatures: int, threshold: real, i: nat, n: nat)
    requires HasKeys(data, ranked) && i <= n <= |ranked|
    ensures var s := GreedyUpTo(data, pearson, ranked, maxFeatures, threshold, i);
      var r := GreedyUpTo(data, pearson, ranked, maxFeatures, threshold, n);
      |s| <= |r| && r[..|s|] == s
    ensures |GreedyUpTo(data, pearson, ranked, maxFeatures, threshold, i)| >= maxFeatures ==>
      GreedyUpTo(data, pearson, ranked, maxFeatures, threshold, n) == GreedyUpTo(data, pearson, ranked, maxFeatures, threshold, i)
    decreases n - i
  {
    if i < n {
      GreedyPrefix(data, pearson, ranked, maxFeatures, threshold, i, n - 1);
    }
  }

  /** Correlation with a kept feature survives the walk keeping more features. */
  lemma CorrelatedWithPrefix(data: seq<Row>, pearson: (seq<real>, seq<real>) -> real, f: string,
                             s: seq<string>, r: seq<string>, threshold: real)
    requires HasKey(data, f) && HasKeys(data, r) && |s| <= |r| && r[..|s|] == s
    requires HasKeys(data, s) && HighlyCorrelated(data, pearson, f, s, threshold)
    ensures HighlyCorrelated(data, pearson, f, r, threshold)
  {
    var j :| 0 <= j < |s| && Abs(Corr(data, pearson, f, s[j])) > threshold;
    assert r[j] == s[j];
  }

  /** One step of the walk keeps every passed-over feature passed over for a reason. */
  lemma MaximalStep(data: seq<Row>, pearson: (seq<real>, seq<real>) -> real, ranked: seq<string>,
                    maxFeatures: int, threshold: real, n: nat, s: seq<string>, r: seq<string>)
    requires HasKeys(data, ranked) && 0 < n <= |ranked| && HasKeys(data, s) && HasKeys(data, r)
    requires |s| <= |r| && r[..|s|] == s
    requires |s| >= maxFeatures || HighlyCorrelated(data, pearson, ranked[n - 1], s, threshold) ==> r == s
    requires !(|s| >= maxFeatures || HighlyCorrelated(data, pearson, ranked[n - 1], s, threshold)) ==>
      r == s + [ranked[n - 1]]
    requires forall i :: 0 <= i < n - 1 && ranked[i] !in s ==>
      |s| >= maxFeatures || HighlyCorrelated(data, pearson, ranked[i], s, threshold)
    ensures forall i :: 0 <= i < n && ranked[i] !in r ==>
      |r| >= maxFeatures || HighlyCorrelated(data, pearson, ranked[i], r, threshold)
  {
    forall i | 0 <= i < n && ranked[i] !in r
      ensures |r| >= maxFeatures || HighlyCorrelated(data, pearson, ranked[i], r, threshold)
    {
      if i < n - 1 {
        assert ranked[i] !in s;
        if HighlyCorrelated(data, pearson, ranked[i], s, threshold) {
          CorrelatedWithPrefix(data, pearson, ranked[i], s, r, threshold);
        }
      }
    }
  }

  /** A feature of the ranking that is not kept was passed over because the
      cap was reached, or because it is correlated beyond the threshold with
      a kept feature. */
  lemma {:induction false} GreedyMaximal(data: seq<Row>, pearson: (seq<real>, seq<real>) -> real, ranked: seq<string>,
                                         maxFeatures: int, threshold: real, n: nat)
    requires HasKeys(data, ranked) && n <= |ranked|
    ensures var r := GreedyUpTo(data, pearson, ranked, maxFeatures, threshold, n);
      forall i :: 0 <= i < n && ranked[i] !in r ==>
        |r| >= maxFeatures || HighlyCorrelated(data, pearson, ranked[i], r, threshold)
    decreases n
  {
    if n > 0 {
      GreedyMaximal(data, pearson, ranked, maxFeatures, threshold, n - 1);
      GreedyPrefix(data, pearson, ranked, maxFeatures, threshold, n - 1, n);
      var s := GreedyUpTo(data, pearson, ranked, maxFeatures, threshold, n - 1);
      var r := GreedyUpTo(data, pearson, ranked, maxFeatures, threshold, n);
      MaximalStep(data, pearson, ranked, maxFeatures, threshold, n, s, r);
    }
  }

  /** Ranks the dictionary and walks the ranking by name. */
  method RankAndWalk(ghost data: seq<Row>, ghost pearson: (seq<real>, seq<real>) -> real, ghost targetValues: seq<real>,
                     filtered: seq<string>, matrix: seq<seq<real>>, d: seq<Entry>, config: FeatureEngineeringConfig)
    returns (ranked: seq<Entry>, selected: seq<string>)
    requires HasKeys(data, filtered)
    requires DistinctKeys(d) && Scores(data, pearson, targetValues, d) && Keys(d) == Distinct(filtered)
    requires |matrix| == |filtered|
    requires forall i :: 0 <= i < |filtered| ==>
      |matrix[i]| == |filtered| && forall j :: 0 <= j < |filtered| ==> matrix[i][j] == Corr(data, pearson, filtered[i], filtered[j])
    ensures ranked == Ranked(d) && HasKeys(data, Keys(ranked))
    ensures selected == GreedyUpTo(data, pearson, Keys(ranked), config.maxFeatures, config.multicollinearityThreshold,
                                   |Keys(ranked)|)
  {
    ranked := Ranked(d);
    RankedEntries(data, pearson, targetValues, d);
    var names := Keys(ranked);
    assert forall k :: 0 <= k < |names| ==> names[k] in filtered by {
      forall k | 0 <= k < |names| ensures names[k] in filtered {
        assert names[k] in Keys(d);
      }
    }
    selected := SelectUncorrelated(data, pearson, filtered, matrix, names, config.maxFeatures,
                                   config.multicollinearityThreshold);
  }

  /** The inner loop: whether f is correlated beyond the threshold with some
      kept feature, looked up in the matrix by position in the filtered list. */
  method IsHighlyCorrelated(ghost data: seq<Row>, ghost pearson: (seq<real>, seq<real>) -> real,
                            features: seq<string>, matrix: seq<seq<real>>, f: string, selected: seq<string>,
                            threshold: real)
    returns (b: bool)
    requires HasKeys(data, features) && f in features && forall j :: 0 <= j < |selected| ==> selected[j] in features
    requires |matrix| == |features|
    requires forall i :: 0 <= i < |features| ==>
      |matrix[i]| == |features| && forall j :: 0 <= j < |features| ==> matrix[i][j] == Corr(data, pearson, features[i], features[j])
    requires HasKey(data, f) && HasKeys(data, selected)
    ensures b == HighlyCorrelated(data, pearson, f, selected, threshold)
  {
    b := false;
    var i1 := IndexOf(features, f);
    for j := 0 to |selected|
      invariant !b
      invariant forall q :: 0 <= q < j ==> !(Abs(Corr(data, pearson, f, selected[q])) > threshold)
    {
      var i2 := IndexOf(features, selected[j]);
      if Abs(matrix[i1][i2]) > threshold {
        b := true;
        break;
      }
    }
  }

  /** The outer loop of the walk, stopping as soon as the cap is reached. */
  method SelectUncorrelated(ghost data: seq<Row>, ghost pearson: (seq<real>, seq<real>) -> real,
                            features: seq<string>, matrix: seq<seq<real>>, ranked: seq<string>,
                            maxFeatures: int, threshold: real)
    returns (selected: seq<string>)
    requires HasKeys(data, features) && forall k :: 0 <= k < |ranked| ==> ranked[k] in features
    requires |matrix| == |features|
    requires forall i :: 0 <= i < |features| ==>
      |matrix[i]| == |features| && forall j :: 0 <= j < |features| ==> matrix[i][j] == Corr(data, pearson, features[i], features[j])
    requires HasKeys(data, ranked)
    ensures selected == GreedyUpTo(data, pearson, ranked, maxFeatures, threshold, |ranked|)
  {
    selected := [];
    var i := 0;
    while i < |ranked|
      invariant 0 <= i <= |ranked|
      invariant selected == GreedyUpTo(data, pearson, ranked, maxFeatures, threshold, i)
      invariant forall j :: 0 <= j < |selected| ==> selected[j] in features
    {
      if |selected| >= maxFeatures {
        break;
      }
      assert HasKey(data, ranked[i]);
      var correlated := IsHighlyCorrelated(data, pearson, features, matrix, ranked[i], selected, threshold);
      if !correlated {
        selected := selected + [ranked[i]];
      }
      i := i + 1;
    }
    if i < |ranked| {
      GreedyPrefix(data, pearson, ranked, maxFeatures, threshold, i, |ranked|);
    }
  }

  // ----- the selector -----

  function ScoreLines(ranked: seq<Entry>): (r: seq<ReportLine>)
    ensures |r| == |ranked| && forall k :: 0 <= k < |ranked| ==> r[k] == Scored(ranked[k].name, ranked[k].score)
  {
    seq(|ranked|, k requires 0 <= k < |ranked| => Scored(ranked[k].name, ranked[k].score))
  }

  function SummaryLines(filtered: seq<string>, selected: seq<string>, threshold: real): seq<ReportLine>
  {
    [Heading(SummaryTitle), Count(OriginalCaption, |filtered|), Count(SelectedCaption, |selected|),
     Setting(ThresholdCaption, threshold)]
  }

  /** The scores are those of the features. */
  ghost predicate Scores(data: seq<Row>, pearson: (seq<real>, seq<real>) -> real, targetValues: seq<real>, d: seq<Entry>)
  {
    forall k :: 0 <= k < |d| ==> HasKey(data, d[k].name) && d[k].score == TargetScore(data, pearson, targetValues, d[k].name)
  }

  /** The part of `SelectFeatures` after the correlations are known: rank,
      report the ranking, walk it, report the summary, read the matrix. */
  ghost function RankedSelection(data: seq<Row>, filtered: seq<string>, targetValues: seq<real>, d: seq<Entry>,
                                 config: FeatureEngineeringConfig, pearson: (seq<real>, seq<real>) -> real): Selection
    requires DistinctKeys(d) && Scores(data, pearson, targetValues, d)
  {
    var ranked := Ranked(d);
    RankedEntries(data, pearson, targetValues, d);
    var names := Keys(ranked);
    assert HasKeys(data, names);
    var selected := GreedyUpTo(data, pearson, names, config.maxFeatures, config.multicollinearityThreshold, |names|);
    Concluded(data, filtered, ranked, selected, config.multicollinearityThreshold)
  }

  /** The selection once the ranking and the kept features are known: the
      report so far, the ranking, the summary, then the kept features' matrix
      (or the error reading it). */
  function Concluded(data: seq<Row>, filtered: seq<string>, ranked: seq<Entry>, selected: seq<string>,
                     threshold: real): Selection
  {
    var report := [Heading(Title), Heading(RankingTitle)] + ScoreLines(ranked)
                  + SummaryLines(filtered, selected, threshold);
    match ConvertToFeatureMatrix(data, selected)
    case Err(e) => Failed(report + [ErrorNote(ErrorContext, e)])
    case Ok(matrix) => Selection(matrix, selected, report)
  }

  /** What `SelectFeatures` returns. */
  ghost function CorrelationSelection(data: seq<Row>, candidates: seq<string>, targetField: string,
                                      config: FeatureEngineeringConfig, pearson: (seq<real>, seq<real>) -> real): Selection
  {
    var filtered := FilterTargetField(candidates, targetField);
    var start := [Heading(Title)];
    match ExtractTargetValues(data, targetField)
    case Err(e) => Failed(start + [ErrorNote(ErrorContext, e)])
    case Ok(targetValues) =>
      match FeatureColumns(data, filtered)
      case Err(e) => Failed(start + [ErrorNote(ErrorContext, e)])
      case Ok(columns) =>
        match TargetCorrelationsUpTo(filtered, columns, targetValues, pearson, |filtered|)
        case Err(e) => Failed(start + [ErrorNote(ErrorContext, e)])
        case Ok(d) =>
          TargetCorrelationScores(data, filtered, columns, targetValues, pearson, |filtered|);
          RankedSelection(data, filtered, targetValues, d, config, pearson)
  }

  /** The selection fails, with an empty matrix and no names, exactly when
      a row lacks the target or a candidate, or when some row's target is
      null while there is a candidate to correlate: the target values are
      then shorter than the columns. */
  lemma CorrelationErrors(data: seq<Row>, candidates: seq<string>, targetField: string,
                          config: FeatureEngineeringConfig, pearson: (seq<real>, seq<real>) -> real)
    ensures var s := CorrelationSelection(data, candidates, targetField, config, pearson);
      var filtered := FilterTargetField(candidates, targetField);
      && (ErrorReported(s) <==>
            || !HasKey(data, targetField) || !HasKeys(data, filtered)
            || (filtered != [] && exists i :: 0 <= i < |data| && data[i][targetField].Null?))
      && (ErrorReported(s) ==> s.featureNames == [] && s.features == [])
  {
    var filtered := FilterTargetField(candidates, targetField);
    if HasKey(data, targetField) && HasKeys(data, filtered) {
      var targetValues := NonNullValues(data, targetField);
      var columns := FeatureColumns(data, filtered).value;
      var c := TargetCorrelationsUpTo(filtered, columns, targetValues, pearson, |filtered|);
      TargetCorrelationScores(data, filtered, columns, targetValues, pearson, |filtered|);
      if filtered != [] {
        assert c.Ok? <==> |columns[0]| == |targetValues|;
      }
      if c.Ok? {
        var d := c.value;
        RankedEntries(data, pearson, targetValues, d);
        var names := Keys(Ranked(d));
        assert HasKeys(data, names);
        var selected := GreedyUpTo(data, pearson, names, config.maxFeatures, config.multicollinearityThreshold, |names|);
        assert ConvertToFeatureMatrix(data, selected).Ok?;
      }
    }
  }

  /** The intermediate results of a selection that did not fail. */
  lemma CorrelationSucceeds(data: seq<Row>, candidates: seq<string>, targetField: string,
                            config: FeatureEngineeringConfig, pearson: (seq<real>, seq<real>) -> real)
    returns (targetValues: seq<real>, d: seq<Entry>)
    requires !ErrorReported(CorrelationSelection(data, candidates, targetField, config, pearson))
    ensures var filtered := FilterTargetField(candidates, targetField);
      && HasKey(data, targetField) && HasKeys(data, filtered)
      && targetValues == NonNullValues(data, targetField)
      && TargetCorrelationsUpTo(filtered, FeatureColumns(data, filtered).value, targetValues, pearson, |filtered|)
         == Ok(d)
      && DistinctKeys(d) && Scores(data, pearson, targetValues, d) && Keys(d) == Distinct(filtered)
      && CorrelationSelection(data, candidates, targetField, config, pearson)
         == RankedSelection(data, filtered, targetValues, d, config, pearson)
  {
    var filtered := FilterTargetField(candidates, targetField);
    CorrelationErrors(data, candidates, targetField, config, pearson);
    targetValues := NonNullValues(data, targetField);
    var columns := FeatureColumns(data, filtered).value;
    d := TargetCorrelationsUpTo(filtered, columns, targetValues, pearson, |filtered|).value;
    TargetCorrelationKeys(filtered, columns, targetValues, pearson, |filtered|);
    TargetCorrelationScores(data, filtered, columns, targetValues, pearson, |filtered|);
    assert filtered[..|filtered|] == filtered;
  }

  /** The kept names of a ranking, and what they are. */
  lemma RankedSelectionSound(data: seq<Row>, filtered: seq<string>, targetValues: seq<real>, d: seq<Entry>,
                             config: FeatureEngineeringConfig, pearson: (seq<real>, seq<real>) -> real)
    requires DistinctKeys(d) && Scores(data, pearson, targetValues, d)
    ensures var ranked := Ranked(d);
      var names := Keys(ranked);
      var s := RankedSelection(data, filtered, targetValues, d, config, pearson);
      && HasKeys(data, names)
      && s.featureNames == GreedyUpTo(data, pearson, names, config.maxFeatures, config.multicollinearityThreshold, |names|)
      && HasKeys(data, s.featureNames)
      && (forall f :: f in names <==> f in Keys(d))
      && AllDistinct(names)
      && (forall k :: 0 <= k < |ranked| ==> HasKey(data, names[k]) && ranked[k].score == TargetScore(data, pearson, targetValues, names[k]))
      && (forall i, j :: 0 <= i < j < |ranked| ==> ranked[i].score >= ranked[j].score)
      && |s.features| == |data|
      && (forall i :: 0 <= i < |data| ==>
            |s.features[i]| == |s.featureNames|
            && forall j :: 0 <= j < |s.featureNames| ==> s.features[i][j] == ToSingle(data[i][s.featureNames[j]]))
  {
    RankedEntries(data, pearson, targetValues, d);
    RankedOrder(d);
    var names := Keys(Ranked(d));
    assert HasKeys(data, names);
    var selected := GreedyUpTo(data, pearson, names, config.maxFeatures, config.multicollinearityThreshold, |names|);
    assert ConvertToFeatureMatrix(data, selected).Ok?;
  }

  /** What is kept: at most `MaxFeatures` distinct filtered candidates, never
      the target, no two of them correlated beyond the threshold, and the
      matrix holds one row per data row with their values in order. */
  lemma CorrelationSelected(data: seq<Row>, candidates: seq<string>, targetField: string,
                            config: FeatureEngineeringConfig, pearson: (seq<real>, seq<real>) -> real)
    requires !ErrorReported(CorrelationSelection(data, candidates, targetField, config, pearson))
    ensures var s := CorrelationSelection(data, candidates, targetField, config, pearson);
      var names := s.featureNames;
      && |names| <= Max(config.maxFeatures, 0)
      && (forall f :: f in names ==> f in candidates && f != targetField)
      && AllDistinct(names)
      && HasKeys(data, names)
      && Uncorrelated(data, pearson, names, config.multicollinearityThreshold)
      && |s.features| == |data|
      && (forall i :: 0 <= i < |data| ==>
            |s.features[i]| == |names|
            && forall j :: 0 <= j < |names| ==> s.features[i][j] == ToSingle(data[i][names[j]]))
  {
    var filtered := FilterTargetField(candidates, targetField);
    var targetValues, d := CorrelationSucceeds(data, candidates, targetField, config, pearson);
    RankedSelectionSound(data, filtered, targetValues, d, config, pearson);
    var ranked := Ranked(d);
    var names := Keys(ranked);
    var n := |names|;
    var max := config.maxFeatures;
    var threshold := config.multicollinearityThreshold;
    var selected := GreedyUpTo(data, pearson, names, max, threshold, n);
    GreedyBound(data, pearson, names, max, threshold, n);
    GreedyPairwise(data, pearson, names, max, threshold, n);
    GreedyInOrder(data, pearson, names, max, threshold, n);
    var p := GreedyPositions(data, pearson, names, max, threshold, n);
    forall f | f in selected ensures f in candidates && f != targetField {
      var j :| 0 <= j < |selected| && selected[j] == f;
      assert names[p[j]] == f;
      assert f in Keys(d);
    }
    forall i, j | 0 <= i < j < |selected| ensures selected[i] != selected[j] {
      assert names[p[i]] == selected[i] && names[p[j]] == selected[j];
    }
  }

  /** The kept features come in non-increasing order of their correlation
      with the target. */
  lemma CorrelationSelectedOrder(data: seq<Row>, candidates: seq<string>, targetField: string,
                                 config: FeatureEngineeringConfig, pearson: (seq<real>, seq<real>) -> real)
    requires !ErrorReported(CorrelationSelection(data, candidates, targetField, config, pearson))
    ensures var names := CorrelationSelection(data, candidates, targetField, config, pearson).featureNames;
      && HasKey(data, targetField) && HasKeys(data, names)
      && forall i, j :: 0 <= i < j < |names| ==>
           TargetScore(data, pearson, NonNullValues(data, targetField), names[i])
           >= TargetScore(data, pearson, NonNullValues(data, targetField), names[j])
  {
    var filtered := FilterTargetField(candidates, targetField);
    var targetValues, d := CorrelationSucceeds(data, candidates, targetField, config, pearson);
    RankedSelectionSound(data, filtered, targetValues, d, config, pearson);
    var ranked := Ranked(d);
    var names := Keys(ranked);
    var n := |names|;
    var max := config.maxFeatures;
    var threshold := config.multicollinearityThreshold;
    var selected := GreedyUpTo(data, pearson, names, max, threshold, n);
    GreedyInOrder(data, pearson, names, max, threshold, n);
    var p := GreedyPositions(data, pearson, names, max, threshold, n);
    forall i, j | 0 <= i < j < |selected|
      ensures TargetScore(data, pearson, targetValues, selected[i]) >= TargetScore(data, pearson, targetValues, selected[j])
    {
      assert names[p[i]] == selected[i] && names[p[j]] == selected[j];
      assert ranked[p[i]].score >= ranked[p[j]].score;
    }
  }

  /** A filtered candidate that is not kept was passed over because
      `MaxFeatures` were already kept, or because it is correlated beyond
      the threshold with a kept feature. */
  lemma CorrelationSelectedMaximal(data: seq<Row>, candidates: seq<string>, targetField: string,
                                   config: FeatureEngineeringConfig, pearson: (seq<real>, seq<real>) -> real)
    requires !ErrorReported(CorrelationSelection(data, candidates, targetField, config, pearson))
    ensures var names := CorrelationSelection(data, candidates, targetField, config, pearson).featureNames;
      var filtered := FilterTargetField(candidates, targetField);
      && HasKeys(data, filtered) && HasKeys(data, names)
      && forall k :: 0 <= k < |filtered| && filtered[k] !in names ==>
           |names| >= config.maxFeatures
           || HighlyCorrelated(data, pearson, filtered[k], names, config.multicollinearityThreshold)
  {
    var filtered := FilterTargetField(candidates, targetField);
    var targetValues, d := CorrelationSucceeds(data, candidates, targetField, config, pearson);
    RankedSelectionSound(data, filtered, targetValues, d, config, pearson);
    var ranked := Ranked(d);
    var names := Keys(ranked);
    var n := |names|;
    var max := config.maxFeatures;
    var threshold := config.multicollinearityThreshold;
    var selected := GreedyUpTo(data, pearson, names, max, threshold, n);
    GreedyMaximal(data, pearson, names, max, threshold, n);
    forall k | 0 <= k < |filtered| && filtered[k] !in selected
      ensures HasKey(data, filtered[k])
      ensures |selected| >= max || HighlyCorrelated(data, pearson, filtered[k], selected, threshold)
    {
      assert filtered[k] in Keys(d);
      var i :| 0 <= i < n && names[i] == filtered[k];
    }
  }

  /** The matrix the nested loops fill holds the correlation of every pair
      of filtered features. */
  lemma MatrixHoldsCorrelations(data: seq<Row>, pearson: (seq<real>, seq<real>) -> real, features: seq<string>,
                                columns: seq<seq<real>>, matrix: seq<seq<real>>)
    requires HasKeys(data, features)
    requires |columns| == |features| && forall i :: 0 <= i < |features| ==> columns[i] == Column(data, features[i])
    requires |matrix| == |columns|
    requires forall i :: 0 <= i < |columns| ==>
      |matrix[i]| == |columns| && forall j :: 0 <= j < |columns| ==> Pearson(pearson, columns[i], columns[j]) == Ok(matrix[i][j])
    ensures forall i :: 0 <= i < |features| ==>
      |matrix[i]| == |features| && forall j :: 0 <= j < |features| ==> matrix[i][j] == Corr(data, pearson, features[i], features[j])
  {
    forall i, j | 0 <= i < |features| && 0 <= j < |features|
      ensures matrix[i][j] == Corr(data, pearson, features[i], features[j])
    {
      assert HasKey(data, features[i]) && HasKey(data, features[j]);
      assert Pearson(pearson, columns[i], columns[j]) == Ok(matrix[i][j]);
    }
  }

  class CorrelationSelector {
    /** The report buffer, cleared at the start of every selection. */
    var report: seq<ReportLine>

    constructor ()
      ensures report == []
    {
      report := [];
    }

    /** `SelectFeatures`; the model type is not used. */
    method SelectFeatures(data: seq<Row>, candidates: seq<string>, modelType: ModelType, targetField: string,
                          config: FeatureEngineeringConfig, pearson: (seq<real>, seq<real>) -> real)
      returns (r: Selection)
      modifies this
      ensures r == CorrelationSelection(data, candidates, targetField, config, pearson)
      ensures report == r.report
    {
      report := [Heading(Title)];
      var filtered := FilterTargetField(candidates, targetField);
      var targetValues := ExtractTargetValues(data, targetField);
      if targetValues.Err? {
        report := report + [ErrorNote(ErrorContext, targetValues.error)];
        return Failed(report);
      }
      var columns := ExtractFeatureValues(data, filtered);
      if columns.Err? {
        report := report + [ErrorNote(ErrorContext, columns.error)];
        return Failed(report);
      }
      var correlations := TargetCorrelations(filtered, columns.value, targetValues.value, pearson);
      if correlations.Err? {
        report := report + [ErrorNote(ErrorContext, correlations.error)];
        return Failed(report);
      }
      TargetCorrelationKeys(filtered, columns.value, targetValues.value, pearson, |filtered|);
      TargetCorrelationScores(data, filtered, columns.value, targetValues.value, pearson, |filtered|);
      assert filtered[..|filtered|] == filtered;
      var matrix := CorrelationMatrix(columns.value, |data|, pearson);
      MatrixHoldsCorrelations(data, pearson, filtered, columns.value, matrix);
      r := SelectRanked(data, filtered, matrix, targetValues.value, correlations.value, config, pearson);
    }

    /** The report lines of the ranking, one per feature. */
    method ReportRanking(ranked: seq<Entry>)
      modifies this
      ensures report == old(report) + ScoreLines(ranked)
    {
      ghost var start := report;
      for k := 0 to |ranked|
        invariant report == start + ScoreLines(ranked)[..k]
      {
        report := report + [Scored(ranked[k].name, ranked[k].score)];
        assert ScoreLines(ranked)[..k + 1] == ScoreLines(ranked)[..k] + [ScoreLines(ranked)[k]];
      }
      assert ScoreLines(ranked)[..|ranked|] == ScoreLines(ranked);
    }

    /** Reports the ranking and the summary, then reads the kept features'
        matrix. */
    method Conclude(data: seq<Row>, filtered: seq<string>, ranked: seq<Entry>, selected: seq<string>,
                    threshold: real)
      returns (r: Selection)
      requires report == [Heading(Title)]
      modifies this
      ensures r == Concluded(data, filtered, ranked, selected, threshold)
      ensures report == r.report
    {
      report := report + [Heading(RankingTitle)];
      ReportRanking(ranked);
      report := report + SummaryLines(filtered, selected, threshold);
      var features := ConvertToFeatureMatrix(data, selected);
      if features.Err? {
        report := report + [ErrorNote(ErrorContext, features.error)];
        return Failed(report);
      }
      r := Selection(features.value, selected, report);
    }

    /** Ranking, the walk, the summary and the matrix. */
    method SelectRanked(data: seq<Row>, filtered: seq<string>, matrix: seq<seq<real>>, targetValues: seq<real>,
                        d: seq<Entry>, config: FeatureEngineeringConfig, ghost pearson: (seq<real>, seq<real>) -> real)
      returns (r: Selection)
      requires HasKeys(data, filtered)
      requires DistinctKeys(d) && Scores(data, pearson, targetValues, d) && Keys(d) == Distinct(filtered)
      requires |matrix| == |filtered|
      requires forall i :: 0 <= i < |filtered| ==>
        |matrix[i]| == |filtered| && forall j :: 0 <= j < |filtered| ==> matrix[i][j] == Corr(data, pearson, filtered[i], filtered[j])
      requires report == [Heading(Title)]
      modifies this
      ensures r == RankedSelection(data, filtered, targetValues, d, config, pearson)
      ensures report == r.report
    {
      var ranked, selected := RankAndWalk(data, pearson, targetValues, filtered, matrix, d, config);
      r := Conclude(data, filtered, ranked, selected, config.multicollinearityThreshold);
    }
  }
}
