/** Forward selection. Starting from nothing and a score of 0, each round
    scores every remaining candidate together with the features kept so far
    and takes the best; it is kept when it beats the current score by at
    least `MinImprovement`, and the search stops otherwise, when no candidate
    remains, or when `MaxFeatures` are kept.

    Training and scoring a model is a parameter, `scorer`, that may fail:
    the three ML.NET evaluations are not modelled. */
module ForwardFeatureSelector {
  import opened Values
  import opened Models
  import opened Seqs
  import opened BaseFeatureSelector

  const Title := "Forward Feature Selection Results"
  const SelectedCaption := "Selected features"
  const ScoreCaption := "Final score"
  const OrderTitle := "Selected features in order"
  const ErrorContext := "forward selection"

  /** Everything a score depends on besides the features tried: the rows,
      the model type, the target and the scorer. */
  datatype Evaluator = Evaluator(
    data: seq<Row>,
    modelType: ModelType,
    targetField: string,
    scorer: (seq<Row>, seq<string>, ModelType, string) -> Result<real>)

  /** `EvaluateFeatures`: the scorer's metric for a supported model type; an
      unsupported model type or a failing scorer scores 0. */
  function EvaluateFeatures(ev: Evaluator, features: seq<string>): (r: real)
    ensures ev.modelType.UndefinedModelType? ==> r == 0.0
    ensures ev.scorer(ev.data, features, ev.modelType, ev.targetField).Err? ==> r == 0.0
    ensures !ev.modelType.UndefinedModelType? && ev.scorer(ev.data, features, ev.modelType, ev.targetField).Ok? ==>
      r == ev.scorer(ev.data, features, ev.modelType, ev.targetField).value
  {
    if ev.modelType.UndefinedModelType? then 0.0
    else
      match ev.scorer(ev.data, features, ev.modelType, ev.targetField)
      case Ok(score) => score
      case Err(_) => 0.0
  }

  /** The score of the kept features with one candidate added. */
  function Trial(ev: Evaluator, selected: seq<string>, candidate: string): real
  {
    EvaluateFeatures(ev, selected + [candidate])
  }

  // ----- one round -----

  /** `bestFeature` and `bestScore` of a round. */
  datatype Best = Best(feature: string, score: real)

  /** The round's best after the first n remaining candidates: a candidate
      replaces the best only when it scores strictly higher. */
  function BestUpTo(ev: Evaluator, selected: seq<string>, remaining: seq<string>, current: real, n: nat): (b: Best)
    requires n <= |remaining|
    ensures b.score >= current
    ensures b.feature == "" || b.feature in remaining
    decreases n
  {
    if n == 0 then Best("", current)
    else
      var b := BestUpTo(ev, selected, remaining, current, n - 1);
      var score := Trial(ev, selected, remaining[n - 1]);
      if score > b.score then Best(remaining[n - 1], score) else b
  }

  /** The round's outcome: when some candidate beats the current score, the
      best is the first candidate with the highest score; otherwise the
      best stays the empty name at the current score. */
  lemma {:induction false} BestWinner(ev: Evaluator, selected: seq<string>, remaining: seq<string>, current: real, n: nat)
    returns (w: int)
    requires n <= |remaining|
    ensures var b := BestUpTo(ev, selected, remaining, current, n);
      && (forall j :: 0 <= j < n ==> Trial(ev, selected, remaining[j]) <= b.score)
      && (w == -1 <==> b.score == current)
      && (w == -1 ==> b.feature == "")
      && (w != -1 ==>
            && 0 <= w < n && b.feature == remaining[w] && b.score == Trial(ev, selected, remaining[w])
            && forall j :: 0 <= j < w ==> Trial(ev, selected, remaining[j]) < b.score)
    decreases n
  {
    if n == 0 {
      w := -1;
    } else {
      w := BestWinner(ev, selected, remaining, current, n - 1);
      var b := BestUpTo(ev, selected, remaining, current, n - 1);
      if Trial(ev, selected, remaining[n - 1]) > b.score {
        w := n - 1;
      }
    }
  }

  /** The inner loop of a round. */
  method BestCandidate(ev: Evaluator, selected: seq<string>, remaining: seq<string>, current: real)
    returns (b: Best)
    ensures b == BestUpTo(ev, selected, remaining, current, |remaining|)
  {
    var bestFeature := "";
    var bestScore := current;
    for i := 0 to |remaining|
      invariant Best(bestFeature, bestScore) == BestUpTo(ev, selected, remaining, current, i)
    {
      var featuresToTry := selected + [remaining[i]];
      var score := EvaluateFeatures(ev, featuresToTry);
      if score > bestScore {
        bestScore := score;
        bestFeature := remaining[i];
      }
    }
    b := Best(bestFeature, bestScore);
  }

  // ----- the search -----

  /** The state of the search: the kept features, the candidates left, and
      the current best score. */
  datatype Progress = Progress(selected: seq<string>, remaining: seq<string>, score: real)

  /** Whether the round's best is kept. */
  predicate Admits(b: Best, current: real, minImprovement: real)
  {
    b.feature != "" && b.score - current >= minImprovement
  }

  /** The search from a state to where it stops. */
  function Search(ev: Evaluator, maxFeatures: int, minImprovement: real, p: Progress): Progress
    decreases |p.remaining|
  {
    if |p.remaining| == 0 || |p.selected| >= maxFeatures then p
    else
      var b := BestUpTo(ev, p.selected, p.remaining, p.score, |p.remaining|);
      if Admits(b, p.score, minImprovement) then
        Search(ev, maxFeatures, minImprovement,
               Progress(p.selected + [b.feature], RemoveFirst(p.remaining, b.feature), b.score))
      else p
  }

  /** The outer loop. */
  method ForwardSearch(ev: Evaluator, filtered: seq<string>, maxFeatures: int, minImprovement: real)
    returns (selected: seq<string>, currentBestScore: real)
    ensures var p := Search(ev, maxFeatures, minImprovement, Progress([], filtered, 0.0));
      selected == p.selected && currentBestScore == p.score
  {
    selected := [];
    var remainingFeatures := filtered;
    currentBestScore := 0.0;
    while |remainingFeatures| > 0 && |selected| < maxFeatures
      invariant Search(ev, maxFeatures, minImprovement, Progress(selected, remainingFeatures, currentBestScore))
             == Search(ev, maxFeatures, minImprovement, Progress([], filtered, 0.0))
      decreases |remainingFeatures|
    {
      var best := BestCandidate(ev, selected, remainingFeatures, currentBestScore);
      if best.feature != "" && best.score - currentBestScore >= minImprovement {
        selected := selected + [best.feature];
        remainingFeatures := RemoveFirst(remainingFeatures, best.feature);
        currentBestScore := best.score;
      } else {
        break;
      }
    }
  }

  /** The score after the first i kept features: 0 before any, and then the
      evaluation of those features. */
  function Level(ev: Evaluator, selected: seq<string>, i: nat): real
    requires i <= |selected|
  {
    if i == 0 then 0.0 else EvaluateFeatures(ev, selected[..i])
  }

  /** Every kept feature raised the score by at least `minImprovement`, and
      the current score is that of all kept features. */
  ghost predicate Climbs(ev: Evaluator, p: Progress, minImprovement: real)
  {
    && p.score == Level(ev, p.selected, |p.selected|)
    && forall i :: 0 <= i < |p.selected| ==> Level(ev, p.selected, i + 1) - Level(ev, p.selected, i) >= minImprovement
  }

  /** Keeping a feature that raised the score by at least `minImprovement`
      over the kept ones keeps the climb. */
  lemma ClimbStep(ev: Evaluator, p: Progress, feature: string, score: real, minImprovement: real)
    requires Climbs(ev, p, minImprovement)
    requires score == EvaluateFeatures(ev, p.selected + [feature])
    requires score - p.score >= minImprovement
    ensures Climbs(ev, Progress(p.selected + [feature], RemoveFirst(p.remaining, feature), score), minImprovement)
  {
    var selected := p.selected + [feature];
    assert selected[..|selected|] == selected;
    forall i | 0 <= i < |selected|
      ensures Level(ev, selected, i + 1) - Level(ev, selected, i) >= minImprovement
    {
      if i < |p.selected| {
        assert selected[..i + 1] == p.selected[..i + 1] && selected[..i] == p.selected[..i];
        assert Level(ev, selected, i + 1) == Level(ev, p.selected, i + 1);
        assert Level(ev, selected, i) == Level(ev, p.selected, i);
      } else {
        assert selected[..i + 1] == selected && selected[..i] == p.selected[..|p.selected|];
        assert Level(ev, selected, i) == Level(ev, p.selected, |p.selected|);
      }
    }
  }

  /** What the search keeps: no more than `maxFeatures`, each candidate at
      most as often as it is offered (so distinct when the candidates are),
      each raising the score by at least `minImprovement` over the previous
      ones, the score starting from 0. */
  lemma {:induction false} SearchSound(ev: Evaluator, maxFeatures: int, minImprovement: real, p: Progress,
                                       offered: multiset<string>)
    requires |p.selected| <= Max(maxFeatures, 0)
    requires multiset(p.selected) + multiset(p.remaining) == offered
    requires Climbs(ev, p, minImprovement)
    ensures var q := Search(ev, maxFeatures, minImprovement, p);
      && |q.selected| <= Max(maxFeatures, 0)
      && multiset(q.selected) + multiset(q.remaining) == offered
      && Climbs(ev, q, minImprovement)
    decreases |p.remaining|
  {
    if |p.remaining| > 0 && |p.selected| < maxFeatures {
      var b := BestUpTo(ev, p.selected, p.remaining, p.score, |p.remaining|);
      if Admits(b, p.score, minImprovement) {
        var w := BestWinner(ev, p.selected, p.remaining, p.score, |p.remaining|);
        ClimbStep(ev, p, b.feature, b.score, minImprovement);
        var next := Progress(p.selected + [b.feature], RemoveFirst(p.remaining, b.feature), b.score);
        assert multiset(next.selected) == multiset(p.selected) + multiset{b.feature};
        SearchSound(ev, maxFeatures, minImprovement, next, offered);
      }
    }
  }

  /** Where the search stops: out of candidates, at `maxFeatures`, or
      because the round's best does not gain `minImprovement`. In the last
      case, when no candidate is named "", no remaining candidate beats the
      score by at least `minImprovement`. */
  lemma {:induction false} SearchStops(ev: Evaluator, maxFeatures: int, minImprovement: real, p: Progress)
    ensures var q := Search(ev, maxFeatures, minImprovement, p);
      |q.remaining| > 0 && |q.selected| < maxFeatures ==>
        && !Admits(BestUpTo(ev, q.selected, q.remaining, q.score, |q.remaining|), q.score, minImprovement)
        && ("" !in p.remaining ==>
              forall f :: f in q.remaining ==>
                Trial(ev, q.selected, f) <= q.score || Trial(ev, q.selected, f) - q.score < minImprovement)
    decreases |p.remaining|
  {
    if |p.remaining| > 0 && |p.selected| < maxFeatures {
      var b := BestUpTo(ev, p.selected, p.remaining, p.score, |p.remaining|);
      if Admits(b, p.score, minImprovement) {
        var next := Progress(p.selected + [b.feature], RemoveFirst(p.remaining, b.feature), b.score);
        if "" !in p.remaining {
          assert b.feature in p.remaining && multiset(p.remaining)[""] == 0;
          assert multiset(next.remaining)[""] == 0;
          assert "" !in next.remaining;
        }
        SearchStops(ev, maxFeatures, minImprovement, next);
      } else {
        var w := BestWinner(ev, p.selected, p.remaining, p.score, |p.remaining|);
        if "" !in p.remaining {
          forall f | f in p.remaining
            ensures Trial(ev, p.selected, f) <= p.score || Trial(ev, p.selected, f) - p.score < minImprovement
          {
            var j :| 0 <= j < |p.remaining| && p.remaining[j] == f;
            if w != -1 {
              assert b.feature == p.remaining[w];
            }
          }
        }
      }
    }
  }

  // ----- the selector -----

  /** What `SelectFeatures` returns. The scorer is given the rows as they
      are; an exception reading the matrix empties the result. */
  function ForwardSelection(data: seq<Row>, candidates: seq<string>, modelType: ModelType, targetField: string,
                            config: FeatureEngineeringConfig,
                            scorer: (seq<Row>, seq<string>, ModelType, string) -> Result<real>): Selection
  {
    var p := Searched(data, candidates, modelType, targetField, config, scorer);
    var report := [Heading(Title), Count(SelectedCaption, |p.selected|), Setting(ScoreCaption, p.score),
                   Heading(OrderTitle)] + Listing(p.selected);
    match ConvertToFeatureMatrix(data, p.selected)
    case Err(e) => Failed(report + [ErrorNote(ErrorContext, e)])
    case Ok(matrix) => Selection(matrix, p.selected, report)
  }

  /** The search from the filtered candidates. */
  function Searched(data: seq<Row>, candidates: seq<string>, modelType: ModelType, targetField: string,
                    config: FeatureEngineeringConfig,
                    scorer: (seq<Row>, seq<string>, ModelType, string) -> Result<real>): Progress
  {
    Search(Evaluator(data, modelType, targetField, scorer), config.maxFeatures, config.minImprovement,
           Progress([], FilterTargetField(candidates, targetField), 0.0))
  }

  /** What is kept: no more than `MaxFeatures` filtered candidates, never
      the target, each kept at most as often as it is offered (so distinct
      when the candidates are), each raising the score by at least
      `MinImprovement`, from 0. */
  lemma ForwardKept(data: seq<Row>, candidates: seq<string>, modelType: ModelType, targetField: string,
                    config: FeatureEngineeringConfig,
                    scorer: (seq<Row>, seq<string>, ModelType, string) -> Result<real>)
    ensures var filtered := FilterTargetField(candidates, targetField);
      var p := Searched(data, candidates, modelType, targetField, config, scorer);
      && |p.selected| <= Max(config.maxFeatures, 0)
      && multiset(p.selected) <= multiset(filtered)
      && (forall f :: f in p.selected ==> f in candidates && f != targetField)
      && (AllDistinct(filtered) ==> AllDistinct(p.selected))
      && Climbs(Evaluator(data, modelType, targetField, scorer), p, config.minImprovement)
      && multiset(p.remaining) == multiset(filtered) - multiset(p.selected)
      && ("" !in candidates && |p.remaining| > 0 && |p.selected| < config.maxFeatures ==>
            forall f :: f in p.remaining ==>
              var gain := Trial(Evaluator(data, modelType, targetField, scorer), p.selected, f) - p.score;
              gain <= 0.0 || gain < config.minImprovement)
  {
    var ev := Evaluator(data, modelType, targetField, scorer);
    var filtered := FilterTargetField(candidates, targetField);
    var start := Progress([], filtered, 0.0);
    assert multiset(start.selected) + multiset(start.remaining) == multiset(filtered);
    SearchSound(ev, config.maxFeatures, config.minImprovement, start, multiset(filtered));
    var p := Search(ev, config.maxFeatures, config.minImprovement, start);
    forall f | f in p.selected ensures f in candidates && f != targetField {
      assert f in multiset(filtered);
    }
    ForwardStops(data, candidates, modelType, targetField, config, scorer);
    if AllDistinct(filtered) {
      PartKeepsDistinct(filtered, p.selected, p.remaining);
    }
  }

  /** Why the search ended with candidates left below `MaxFeatures`: none of
      them, added to the kept features, beats the final score by at least
      `MinImprovement` (when no candidate is named ""). */
  lemma ForwardStops(data: seq<Row>, candidates: seq<string>, modelType: ModelType, targetField: string,
                     config: FeatureEngineeringConfig,
                     scorer: (seq<Row>, seq<string>, ModelType, string) -> Result<real>)
    ensures var p := Searched(data, candidates, modelType, targetField, config, scorer);
      "" !in candidates && |p.remaining| > 0 && |p.selected| < config.maxFeatures ==>
        forall f :: f in p.remaining ==>
          var gain := Trial(Evaluator(data, modelType, targetField, scorer), p.selected, f) - p.score;
          gain <= 0.0 || gain < config.minImprovement
  {
    var ev := Evaluator(data, modelType, targetField, scorer);
    var filtered := FilterTargetField(candidates, targetField);
    SearchStops(ev, config.maxFeatures, config.minImprovement, Progress([], filtered, 0.0));
  }

  /** The selection fails, with an empty result, exactly when a kept
      feature is missing from some row; otherwise it returns the kept
      features and one matrix row per data row. */
  lemma ForwardErrors(data: seq<Row>, candidates: seq<string>, modelType: ModelType, targetField: string,
                      config: FeatureEngineeringConfig,
                      scorer: (seq<Row>, seq<string>, ModelType, string) -> Result<real>)
    ensures var p := Searched(data, candidates, modelType, targetField, config, scorer);
      var s := ForwardSelection(data, candidates, modelType, targetField, config, scorer);
      && (ErrorReported(s) <==> !HasKeys(data, p.selected))
      && (ErrorReported(s) ==> s.featureNames == [] && s.features == [])
      && (!ErrorReported(s) ==> s.featureNames == p.selected && |s.features| == |data|)
  {
  }

  class ForwardSelector {
    /** The report buffer, cleared at the start of every selection. */
    var report: seq<ReportLine>

    constructor ()
      ensures report == []
    {
      report := [];
    }

    /** One line per kept feature, in the order kept. */
    method ReportOrder(selected: seq<string>)
      modifies this
      ensures report == old(report) + Listing(selected)
    {
      ghost var start := report;
      for k := 0 to |selected|
        invariant report == start + Listing(selected[..k])
      {
        report := report + [Listed(selected[k])];
        assert Listing(selected[..k + 1]) == Listing(selected[..k]) + [Listed(selected[k])];
      }
      assert selected[..|selected|] == selected;
    }

    /** `SelectFeatures`. */
    method SelectFeatures(data: seq<Row>, candidates: seq<string>, modelType: ModelType, targetField: string,
                          config: FeatureEngineeringConfig,
                          scorer: (seq<Row>, seq<string>, ModelType, string) -> Result<real>)
      returns (r: Selection)
      modifies this
      ensures r == ForwardSelection(data, candidates, modelType, targetField, config, scorer)
      ensures report == r.report
    {
      report := [Heading(Title)];
      var ev := Evaluator(data, modelType, targetField, scorer);
      var filtered := FilterTargetField(candidates, targetField);
      var selected, currentBestScore := ForwardSearch(ev, filtered, config.maxFeatures, config.minImprovement);
      report := report + [Count(SelectedCaption, |selected|), Setting(ScoreCaption, currentBestScore), Heading(OrderTitle)];
      ReportOrder(selected);
      ghost var p := Searched(data, candidates, modelType, targetField, config, scorer);
      assert selected == p.selected && currentBestScore == p.score;
      assert report == [Heading(Title), Count(SelectedCaption, |p.selected|), Setting(ScoreCaption, p.score),
                        Heading(OrderTitle)] + Listing(p.selected);
      var features := ConvertToFeatureMatrix(data, selected);
      if features.Err? {
        report := report + [ErrorNote(ErrorContext, features.error)];
        return Failed(report);
      }
      r := Selection(features.value, selected, report);
    }
  }
}
