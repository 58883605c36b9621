/** The selector chosen when feature selection is switched off: it keeps
    every candidate except the target, in order, and reads them into a
    matrix. Unlike the other selectors it catches nothing, so a candidate
    missing from some row reaches the caller as an exception. */
module NoFeatureSelector {
  import opened Values
  import opened Models
  import opened BaseFeatureSelector

  const Title := "No Feature Selection Applied"
  const EnabledCaption := "Using all enabled features"

  /** The report: the heading, the number of candidates as given (the target
      included, when it is among them), and one line per candidate. */
  function NoSelectionReport(candidates: seq<string>): seq<ReportLine>
  {
    [Heading(Title), Count(EnabledCaption, |candidates|)] + Listing(candidates)
  }

  /** What `SelectFeatures` returns. */
  function NoSelection(data: seq<Row>, candidates: seq<string>, targetField: string): Result<Selection>
  {
    var filtered := FilterTargetField(candidates, targetField);
    match ConvertToFeatureMatrix(data, filtered)
    case Err(e) => Err(e)
    case Ok(matrix) => Ok(Selection(matrix, filtered, NoSelectionReport(candidates)))
  }

  /** Every candidate but the target is kept, in order and as often as it
      is given; the selection fails
      with `KeyNotFoundException` exactly when one of them is missing from
      some row, and otherwise holds each row's values of the kept names. */
  lemma NoSelectionSound(data: seq<Row>, candidates: seq<string>, targetField: string)
    ensures var r := NoSelection(data, candidates, targetField);
      var filtered := FilterTargetField(candidates, targetField);
      && (r.Ok? <==> HasKeys(data, filtered))
      && (r.Err? ==> r.error == KeyNotFoundException)
      && (r.Ok? ==>
            && r.value.featureNames == filtered
            && (forall f :: f in r.value.featureNames <==> f in candidates && f != targetField)
            && multiset(r.value.featureNames) == multiset(candidates)[targetField := 0]
            && |r.value.features| == |data|
            && (forall i, j :: 0 <= i < |data| && 0 <= j < |r.value.featureNames| ==>
                  |r.value.features[i]| == |r.value.featureNames|
                  && r.value.features[i][j] == ToSingle(data[i][r.value.featureNames[j]]))
            && |r.value.report| == 2 + |candidates|)
  {
    FilterCounts(candidates, targetField);
  }

  class NoSelector {
    /** The report buffer, cleared at the start of every selection. */
    var report: seq<ReportLine>

    constructor ()
      ensures report == []
    {
      report := [];
    }

    /** `SelectFeatures`. The report is written before the matrix is read,
        so it is there even when reading fails. */
    method SelectFeatures(data: seq<Row>, candidates: seq<string>, modelType: ModelType, targetField: string,
                          config: FeatureEngineeringConfig)
      returns (r: Result<Selection>)
      modifies this
      ensures r == NoSelection(data, candidates, targetField)
      ensures report == NoSelectionReport(candidates)
    {
      report := [Heading(Title), Count(EnabledCaption, |candidates|)];
      for k := 0 to |candidates|
        invariant report == [Heading(Title), Count(EnabledCaption, |candidates|)] + Listing(candidates[..k])
      {
        report := report + [Listed(candidates[k])];
        assert Listing(candidates[..k + 1]) == Listing(candidates[..k]) + [Listed(candidates[k])];
      }
      assert candidates[..|candidates|] == candidates;
      var filteredFeatures := FilterTargetField(candidates, targetField);
      var features := ConvertToFeatureMatrix(data, filteredFeatures);
      if features.Err? {
        return Err(features.error);
      }
      r := Ok(Selection(features.value, filteredFeatures, report));
    }
  }
}
