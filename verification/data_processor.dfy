/** The orchestrator. It runs data balancing and feature selection in the
    order their execution-order numbers give, skipping a stage whose method
    is `None`, and assembles the final rows: the chosen feature names with
    their matrix values, and the target copied from the balanced rows.

    The balancers' generators, the correlation, model scores and PCA are
    parameters; writing the result to the database is an output, the
    `SaveRequest`, whose failures the source swallows. */
module DataProcessor {
  import opened Values
  import opened Models
  import opened Rand
  import opened BaseFeatureSelector
  import DataBalancerFactory
  import FeatureSelectorFactory

  const DisabledNote := "Feature selection was disabled."

  /** The call made to save the processed rows. */
  datatype SaveRequest = SaveRequest(table: string, data: seq<Row>, featureNames: seq<string>,
                                     targetField: string, modelType: ModelType)

  /** What `ProcessData` returns, with the save it asks for, if any. */
  datatype Processed = Processed(result: ProcessedData, save: Option<SaveRequest>)

  /** What the two stages leave behind: the rows after both, the final
      names, the feature matrix and the selection report. */
  datatype Staged = Staged(transformed: seq<Row>, names: seq<string>, features: seq<seq<real>>,
                           report: seq<ReportLine>)

  /** Balancing runs first when its order is not after selection's, so ties
      go to balancing. */
  predicate BalancingFirst(config: ModelConfig, fe: FeatureEngineeringConfig)
  {
    config.dataBalancing.executionOrder <= fe.executionOrder
  }

  // ----- the two stages -----

  /** The balancer the factory makes, run on the rows. */
  function Balancing(data: seq<Row>, names: seq<string>, config: ModelConfig,
                     streams: int -> (nat -> Sample)): Result<seq<Row>>
  {
    var b :- DataBalancerFactory.CreateBalancer(config.dataBalancing.balanceMethod);
    DataBalancerFactory.Balanced(b, data, names, config.dataBalancing, config.targetField, streams)
  }

  method Balance(data: seq<Row>, names: seq<string>, config: ModelConfig, streams: int -> (nat -> Sample))
    returns (r: Result<seq<Row>>)
    ensures r == Balancing(data, names, config, streams)
  {
    var balancer := DataBalancerFactory.CreateBalancer(config.dataBalancing.balanceMethod);
    if balancer.Err? {
      return Err(balancer.error);
    }
    r := DataBalancerFactory.BalanceDataset(balancer.value, data, names, config.dataBalancing,
                                            config.targetField, streams);
  }

  /** The selector the factory makes, run on the rows. */
  ghost function Selecting(data: seq<Row>, names: seq<string>, config: ModelConfig, fe: FeatureEngineeringConfig,
                           oracles: FeatureSelectorFactory.Oracles): Result<Selection>
  {
    var s :- FeatureSelectorFactory.CreateSelector(fe.selectionMethod);
    FeatureSelectorFactory.Selected(s, data, names, config.modelType, config.targetField, fe, oracles)
  }

  method Select(data: seq<Row>, names: seq<string>, config: ModelConfig, fe: FeatureEngineeringConfig,
                oracles: FeatureSelectorFactory.Oracles)
    returns (r: Result<Selection>)
    ensures r == Selecting(data, names, config, fe, oracles)
  {
    var selector := FeatureSelectorFactory.CreateSelector(fe.selectionMethod);
    if selector.Err? {
      return Err(selector.error);
    }
    r := FeatureSelectorFactory.SelectFeatures(selector.value, data, names, config.modelType,
                                               config.targetField, fe, oracles);
  }

  // ----- rows and matrices -----

  /** A field read as a float, 0 when the row lacks it. */
  function ReadOrZero(row: Row, field: string): real
  {
    if field in row then ToSingle(row[field]) else 0.0
  }

  /** The matrix built when no selector supplies one. */
  function DefaultMatrix(rows: seq<Row>, names: seq<string>): (r: seq<seq<real>>)
    ensures |r| == |rows|
    ensures forall i :: 0 <= i < |rows| ==>
      |r[i]| == |names| && forall j :: 0 <= j < |names| ==> r[i][j] == ReadOrZero(rows[i], names[j])
  {
    seq(|rows|, i requires 0 <= i < |rows| =>
      seq(|names|, j requires 0 <= j < |names| => ReadOrZero(rows[i], names[j])))
  }

  /** The named values of a raw row as they are, 0 for a name it lacks. */
  function Kept(row: Row, names: seq<string>): (r: seq<Value>)
    ensures |r| == |names|
  {
    seq(|names|, j requires 0 <= j < |names| => if names[j] in row then row[names[j]] else Float(0.0))
  }

  /** A dictionary filled name by name, as both row-building loops do. */
  method FillRow(names: seq<string>, values: seq<Value>) returns (row: Row)
    requires |names| <= |values|
    ensures row == Fill(names, values)
  {
    row := map[];
    for j := 0 to |names|
      invariant row == Fill(names[..j], values)
    {
      row := row[names[j] := values[j]];
      assert names[..j + 1][..j] == names[..j];
    }
    assert names[..|names|] == names;
  }

  /** A raw row cut down to the selected names, plus the target. */
  function NarrowedRow(row: Row, names: seq<string>, targetField: string): Row
    requires targetField in row
  {
    Record(names, Kept(row, names), targetField, row[targetField])
  }

  /** The rows after selection when selection runs first: each raw row cut
      down to the selected names, plus the target. A row without the target
      throws `KeyNotFoundException`. */
  function Narrowed(rawData: seq<Row>, names: seq<string>, targetField: string): Result<seq<Row>>
  {
    if exists i :: 0 <= i < |rawData| && targetField !in rawData[i] then Err(KeyNotFoundException)
    else Ok(seq(|rawData|, i requires 0 <= i < |rawData| => NarrowedRow(rawData[i], names, targetField)))
  }

  /** The intermediate rows hold exactly the selected names and the target;
      a name keeps its raw value, or 0 when the raw row lacks it. */
  lemma NarrowedSound(rawData: seq<Row>, names: seq<string>, targetField: string)
    ensures var r := Narrowed(rawData, names, targetField);
      && (r.Ok? <==> HasKey(rawData, targetField))
      && (r.Err? ==> r.error == KeyNotFoundException)
      && (r.Ok? ==>
            && |r.value| == |rawData|
            && forall i :: 0 <= i < |rawData| ==>
                 && r.value[i].Keys == (set n | n in names) + {targetField}
                 && r.value[i][targetField] == rawData[i][targetField]
                 && forall j :: 0 <= j < |names| && LastOccurrence(names, j) && names[j] != targetField ==>
                      r.value[i][names[j]] == (if names[j] in rawData[i] then rawData[i][names[j]] else Float(0.0)))
  {
  }

  /** One intermediate row: the names first, then the target. */
  method NarrowRow(row: Row, names: seq<string>, targetField: string) returns (newRow: Row)
    requires targetField in row
    ensures newRow == NarrowedRow(row, names, targetField)
  {
    newRow := FillRow(names, Kept(row, names));
    newRow := newRow[targetField := row[targetField]];
  }

  /** The intermediate rows, one raw row at a time. */
  method NarrowRows(rawData: seq<Row>, names: seq<string>, targetField: string) returns (r: Result<seq<Row>>)
    ensures r == Narrowed(rawData, names, targetField)
  {
    var featureSelectedData: seq<Row> := [];
    for i := 0 to |rawData|
      invariant |featureSelectedData| == i
      invariant forall k :: 0 <= k < i ==> targetField in rawData[k]
      invariant forall k :: 0 <= k < i ==> featureSelectedData[k] == NarrowedRow(rawData[k], names, targetField)
    {
      if targetField !in rawData[i] {
        return Err(KeyNotFoundException);
      }
      var newRow := NarrowRow(rawData[i], names, targetField);
      featureSelectedData := featureSelectedData + [newRow];
    }
    assert featureSelectedData == seq(|rawData|, i requires 0 <= i < |rawData| =>
      NarrowedRow(rawData[i], names, targetField));
    r := Ok(featureSelectedData);
  }

  /** Final row i: its features boxed under the final names, then the
      target of balanced row i. A matrix row shorter than the names throws
      `IndexOutOfRangeException`, a missing balanced row
      `ArgumentOutOfRangeException`, a missing target `KeyNotFoundException`. */
  function FinalRow(transformed: seq<Row>, names: seq<string>, features: seq<seq<real>>, targetField: string,
                    i: nat): Result<Row>
    requires i < |features|
  {
    if |features[i]| < |names| then Err(IndexOutOfRangeException)
    else if i >= |transformed| then Err(ArgumentOutOfRangeException)
    else if targetField !in transformed[i] then Err(KeyNotFoundException)
    else Ok(Record(names, Floats(features[i]), targetField, transformed[i][targetField]))
  }

  /** Every final row, in matrix order. */
  function FinalRows(transformed: seq<Row>, names: seq<string>, features: seq<seq<real>>, targetField: string):
    (r: seq<Result<Row>>)
    ensures |r| == |features|
    ensures forall i :: 0 <= i < |features| ==> r[i] == FinalRow(transformed, names, features, targetField, i)
  {
    seq(|features|, i requires 0 <= i < |features| => FinalRow(transformed, names, features, targetField, i))
  }

  /** The final rows; the first failing row's error stops the rest. */
  function Assembled(transformed: seq<Row>, names: seq<string>, features: seq<seq<real>>, targetField: string):
    Result<seq<Row>>
  {
    Collected(FinalRows(transformed, names, features, targetField))
  }

  /** Whether each matrix row can be turned into a final row: it is long
      enough, and the balanced row of the same index exists and has the
      target. */
  predicate Assemblable(transformed: seq<Row>, names: seq<string>, features: seq<seq<real>>, targetField: string)
  {
    forall i :: 0 <= i < |features| ==>
      |names| <= |features[i]| && i < |transformed| && targetField in transformed[i]
  }

  /** A final row: exactly the final names and the target, each name (at
      its last occurrence, unless it is the target) holding its matrix
      value, and the target holding the balanced row's target. */
  predicate FinalShape(row: Row, names: seq<string>, targetField: string, values: seq<real>, targetValue: Value)
  {
    && row.Keys == (set m | m in names) + {targetField}
    && targetField in row && row[targetField] == targetValue
    && forall j :: 0 <= j < |names| && j < |values| && LastOccurrence(names, j) && names[j] != targetField ==>
         names[j] in row && row[names[j]] == Float(values[j])
  }

  /** Final row i exists exactly when its matrix row is long enough and the
      balanced row i exists and has the target, and it has the final shape. */
  lemma FinalRowSound(transformed: seq<Row>, names: seq<string>, features: seq<seq<real>>, targetField: string,
                      i: nat)
    requires i < |features|
    ensures var r := FinalRow(transformed, names, features, targetField, i);
      && (r.Ok? <==> |names| <= |features[i]| && i < |transformed| && targetField in transformed[i])
      && (r.Ok? ==> FinalShape(r.value, names, targetField, features[i], transformed[i][targetField]))
  {
  }

  /** The final rows: one per matrix row, each of the final shape; they
      exist exactly when every matrix row is long enough and has a balanced
      row with the target. */
  lemma AssembledSound(transformed: seq<Row>, names: seq<string>, features: seq<seq<real>>, targetField: string)
    ensures var r := Assembled(transformed, names, features, targetField);
      && (r.Ok? <==> Assemblable(transformed, names, features, targetField))
      && (r.Ok? ==>
            && |r.value| == |features|
            && forall i :: 0 <= i < |features| ==>
                 && i < |transformed| && targetField in transformed[i]
                 && FinalShape(r.value[i], names, targetField, features[i], transformed[i][targetField]))
  {
    var rows := FinalRows(transformed, names, features, targetField);
    CollectedSound(rows);
    forall i | 0 <= i < |features|
      ensures var row := rows[i];
        && (row.Ok? <==> |names| <= |features[i]| && i < |transformed| && targetField in transformed[i])
        && (row.Ok? ==> FinalShape(row.value, names, targetField, features[i], transformed[i][targetField]))
    {
      FinalRowSound(transformed, names, features, targetField, i);
    }
  }

  /** One final row: the features under the names, then the target. */
  method BuildFinalRow(transformed: seq<Row>, names: seq<string>, features: seq<seq<real>>, targetField: string,
                       i: nat)
    returns (r: Result<Row>)
    requires i < |features|
    ensures r == FinalRow(transformed, names, features, targetField, i)
  {
    if |features[i]| < |names| {
      return Err(IndexOutOfRangeException);
    }
    var newRow := FillRow(names, Floats(features[i]));
    if i >= |transformed| {
      return Err(ArgumentOutOfRangeException);
    }
    if targetField !in transformed[i] {
      return Err(KeyNotFoundException);
    }
    newRow := newRow[targetField := transformed[i][targetField]];
    r := Ok(newRow);
  }

  /** The final rows, one matrix row at a time. */
  method AssembleRows(transformed: seq<Row>, names: seq<string>, features: seq<seq<real>>, targetField: string)
    returns (r: Result<seq<Row>>)
    ensures r == Assembled(transformed, names, features, targetField)
  {
    ghost var rows := FinalRows(transformed, names, features, targetField);
    var finalData: seq<Row> := [];
    for i := 0 to |features|
      invariant Collected(rows[..i]) == Ok(finalData)
    {
      var row := BuildFinalRow(transformed, names, features, targetField, i);
      CollectedStep(rows, i, finalData);
      if row.Err? {
        return Err(row.error);
      }
      finalData := finalData + [row.value];
    }
    assert rows[..|features|] == rows;
    r := Ok(finalData);
  }

  // ----- the pipeline -----

  /** Balancing then selection: the selector is given the balanced rows and
      every enabled field; with selection off, the matrix reads every enabled
      field, 0 for one a row lacks. */
  ghost function BalanceThenSelect(rawData: seq<Row>, enabledFields: seq<string>, config: ModelConfig,
                                   fe: FeatureEngineeringConfig, oracles: FeatureSelectorFactory.Oracles,
                                   streams: int -> (nat -> Sample)): Result<Staged>
  {
    var transformed :-
      if config.dataBalancing.balanceMethod != DataBalanceMethod.None
      then Balancing(rawData, enabledFields, config, streams) else Ok(rawData);
    if fe.selectionMethod != FeatureSelectionMethod.None then
      var selection :- Selecting(transformed, enabledFields, config, fe, oracles);
      Ok(Staged(transformed, selection.featureNames, selection.features, selection.report))
    else
      Ok(Staged(transformed, enabledFields, DefaultMatrix(transformed, enabledFields), [Heading(DisabledNote)]))
  }

  /** Selection then balancing: the raw rows are cut down to the selected
      names, the balancer is given those names, and the matrix is read from
      the balanced rows. */
  ghost function SelectThenBalance(rawData: seq<Row>, enabledFields: seq<string>, config: ModelConfig,
                                   fe: FeatureEngineeringConfig, oracles: FeatureSelectorFactory.Oracles,
                                   streams: int -> (nat -> Sample)): Result<Staged>
  {
    var selected :-
      if fe.selectionMethod != FeatureSelectionMethod.None then
        var selection :- Selecting(rawData, enabledFields, config, fe, oracles);
        var rows :- Narrowed(rawData, selection.featureNames, config.targetField);
        Ok(Staged(rows, selection.featureNames, [], selection.report))
      else Ok(Staged(rawData, enabledFields, [], []));
    var transformed :-
      if config.dataBalancing.balanceMethod != DataBalanceMethod.None
      then Balancing(selected.transformed, selected.names, config, streams) else Ok(selected.transformed);
    Ok(Staged(transformed, selected.names, DefaultMatrix(transformed, selected.names), selected.report))
  }

  /** Both stages, in their order. */
  ghost function Stages(rawData: seq<Row>, enabledFields: seq<string>, config: ModelConfig,
                        fe: FeatureEngineeringConfig, oracles: FeatureSelectorFactory.Oracles,
                        streams: int -> (nat -> Sample)): Result<Staged>
  {
    if BalancingFirst(config, fe) then BalanceThenSelect(rawData, enabledFields, config, fe, oracles, streams)
    else SelectThenBalance(rawData, enabledFields, config, fe, oracles, streams)
  }

  /** What `ProcessData` returns. A missing selection configuration throws
      at once, a missing database configuration after the rows are built. */
  ghost function Processing(rawData: seq<Row>, enabledFields: seq<string>, config: ModelConfig,
                            oracles: FeatureSelectorFactory.Oracles, streams: int -> (nat -> Sample)): Result<Processed>
  {
    if config.featureEngineering.Nothing? then Err(NullReferenceException)
    else
      var fe := config.featureEngineering.value;
      var st :- Stages(rawData, enabledFields, config, fe, oracles, streams);
      var finalData :- Assembled(st.transformed, st.names, st.features, config.targetField);
      if config.database.Nothing? then Err(NullReferenceException)
      else
        var table := config.database.value.outputTableName;
        Ok(Processed(
          ProcessedData(finalData, st.names, |rawData|, |st.transformed|, st.report,
                        fe.selectionMethod, config.dataBalancing.balanceMethod, st.features,
                        config.dataBalancing.executionOrder, fe.executionOrder),
          if table != "" then Some(SaveRequest(table, finalData, st.names, config.targetField, config.modelType))
          else Nothing))
  }

  /** `ProcessData`. */
  method ProcessData(rawData: seq<Row>, enabledFields: seq<string>, config: ModelConfig,
                     oracles: FeatureSelectorFactory.Oracles, streams: int -> (nat -> Sample))
    returns (r: Result<Processed>)
    ensures r == Processing(rawData, enabledFields, config, oracles, streams)
  {
    if config.featureEngineering.Nothing? {
      return Err(NullReferenceException);
    }
    var fe := config.featureEngineering.value;
    var balancingFirst := config.dataBalancing.executionOrder <= fe.executionOrder;
    var staged: Result<Staged>;
    if balancingFirst {
      staged := BalanceThenSelectStages(rawData, enabledFields, config, fe, oracles, streams);
    } else {
      staged := SelectThenBalanceStages(rawData, enabledFields, config, fe, oracles, streams);
    }
    if staged.Err? {
      return Err(staged.error);
    }
    var transformedData, finalFeatureNames, selectedFeatures, selectionReport :=
      staged.value.transformed, staged.value.names, staged.value.features, staged.value.report;
    var finalData := AssembleRows(transformedData, finalFeatureNames, selectedFeatures, config.targetField);
    if finalData.Err? {
      return Err(finalData.error);
    }
    if config.database.Nothing? {
      return Err(NullReferenceException);
    }
    var table := config.database.value.outputTableName;
    var save := Nothing;
    if table != "" {
      save := Some(SaveRequest(table, finalData.value, finalFeatureNames, config.targetField, config.modelType));
    }
    r := Ok(Processed(
      ProcessedData(finalData.value, finalFeatureNames, |rawData|, |transformedData|, selectionReport,
                    fe.selectionMethod, config.dataBalancing.balanceMethod, selectedFeatures,
                    config.dataBalancing.executionOrder, fe.executionOrder),
      save));
  }

  /** The balancing-first branch of `ProcessData`. */
  method BalanceThenSelectStages(rawData: seq<Row>, enabledFields: seq<string>, config: ModelConfig,
                                 fe: FeatureEngineeringConfig, oracles: FeatureSelectorFactory.Oracles,
                                 streams: int -> (nat -> Sample))
    returns (r: Result<Staged>)
    ensures r == BalanceThenSelect(rawData, enabledFields, config, fe, oracles, streams)
  {
    var transformedData := rawData;
    if config.dataBalancing.balanceMethod != DataBalanceMethod.None {
      var balanced := Balance(rawData, enabledFields, config, streams);
      if balanced.Err? {
        return Err(balanced.error);
      }
      transformedData := balanced.value;
    }
    if fe.selectionMethod != FeatureSelectionMethod.None {
      var result := Select(transformedData, enabledFields, config, fe, oracles);
      if result.Err? {
        return Err(result.error);
      }
      r := Ok(Staged(transformedData, result.value.featureNames, result.value.features, result.value.report));
    } else {
      r := Ok(Staged(transformedData, enabledFields, DefaultMatrix(transformedData, enabledFields),
                     [Heading(DisabledNote)]));
    }
  }

  /** The selection-first branch of `ProcessData`. */
  method SelectThenBalanceStages(rawData: seq<Row>, enabledFields: seq<string>, config: ModelConfig,
                                 fe: FeatureEngineeringConfig, oracles: FeatureSelectorFactory.Oracles,
                                 streams: int -> (nat -> Sample))
    returns (r: Result<Staged>)
    ensures r == SelectThenBalance(rawData, enabledFields, config, fe, oracles, streams)
  {
    var transformedData := rawData;
    var finalFeatureNames := enabledFields;
    var selectionReport: seq<ReportLine> := [];
    if fe.selectionMethod != FeatureSelectionMethod.None {
      var result := Select(rawData, enabledFields, config, fe, oracles);
      if result.Err? {
        return Err(result.error);
      }
      var featureSelectedData := NarrowRows(rawData, result.value.featureNames, config.targetField);
      if featureSelectedData.Err? {
        return Err(featureSelectedData.error);
      }
      finalFeatureNames := result.value.featureNames;
      selectionReport := result.value.report;
      transformedData := featureSelectedData.value;
    }
    if config.dataBalancing.balanceMethod != DataBalanceMethod.None {
      var balanced := Balance(transformedData, finalFeatureNames, config, streams);
      if balanced.Err? {
        return Err(balanced.error);
      }
      transformedData := balanced.value;
    }
    r := Ok(Staged(transformedData, finalFeatureNames, DefaultMatrix(transformedData, finalFeatureNames),
                   selectionReport));
  }

  // ----- what the pipeline guarantees -----

  /** When processing succeeds: the selection and database configurations
      were present, the stages succeeded and every matrix row became a final
      row; the counts are those of the raw and the balanced rows; each final
      row holds exactly the final names and the target, the matrix values
      under the names and the target of the balanced row of the same index;
      and the rows are saved exactly when an output table is named. */
  lemma ProcessingSound(rawData: seq<Row>, enabledFields: seq<string>, config: ModelConfig,
                        oracles: FeatureSelectorFactory.Oracles, streams: int -> (nat -> Sample))
    ensures config.featureEngineering.Nothing? ==>
      Processing(rawData, enabledFields, config, oracles, streams) == Err(NullReferenceException)
    ensures var r := Processing(rawData, enabledFields, config, oracles, streams);
      r.Ok? ==>
        && config.featureEngineering.Some? && config.database.Some?
        && var st := Stages(rawData, enabledFields, config, config.featureEngineering.value, oracles, streams);
        && st.Ok?
        && Assemblable(st.value.transformed, st.value.names, st.value.features, config.targetField)
        && var p := r.value.result;
        && p.originalSampleCount == |rawData|
        && p.balancedSampleCount == |st.value.transformed|
        && p.featureNames == st.value.names && p.features == st.value.features
        && p.featureSelectionReport == st.value.report
        && |p.data| == |p.features|
        && (forall i :: 0 <= i < |p.data| ==>
              && i < |st.value.transformed| && config.targetField in st.value.transformed[i]
              && FinalShape(p.data[i], p.featureNames, config.targetField, p.features[i],
                            st.value.transformed[i][config.targetField]))
        && (r.value.save.Some? <==> config.database.value.outputTableName != "")
        && (r.value.save.Some? ==>
              r.value.save.value == SaveRequest(config.database.value.outputTableName, p.data, p.featureNames,
                                                config.targetField, config.modelType))
  {
    if config.featureEngineering.Some? {
      var st := Stages(rawData, enabledFields, config, config.featureEngineering.value, oracles, streams);
      if st.Ok? {
        AssembledSound(st.value.transformed, st.value.names, st.value.features, config.targetField);
      }
    }
  }

  /** Processing fails exactly when the selection configuration is missing,
      a stage fails, a matrix row cannot become a final row, or the database
      configuration is missing. */
  lemma ProcessingFails(rawData: seq<Row>, enabledFields: seq<string>, config: ModelConfig,
                        oracles: FeatureSelectorFactory.Oracles, streams: int -> (nat -> Sample))
    ensures Processing(rawData, enabledFields, config, oracles, streams).Err? <==>
      || config.featureEngineering.Nothing?
      || (var st := Stages(rawData, enabledFields, config, config.featureEngineering.value, oracles, streams);
          || st.Err?
          || !Assemblable(st.value.transformed, st.value.names, st.value.features, config.targetField))
      || config.database.Nothing?
  {
    if config.featureEngineering.Some? {
      var st := Stages(rawData, enabledFields, config, config.featureEngineering.value, oracles, streams);
      if st.Ok? {
        AssembledSound(st.value.transformed, st.value.names, st.value.features, config.targetField);
      }
    }
  }

  /** With balancing off no balancer runs: the rows after both stages are
      the raw rows, cut down to the selected names when selection runs
      first. */
  lemma BalancingDisabled(rawData: seq<Row>, enabledFields: seq<string>, config: ModelConfig,
                          fe: FeatureEngineeringConfig, oracles: FeatureSelectorFactory.Oracles,
                          streams: int -> (nat -> Sample))
    requires config.dataBalancing.balanceMethod == DataBalanceMethod.None
    ensures var st := Stages(rawData, enabledFields, config, fe, oracles, streams);
      st.Ok? ==>
        if BalancingFirst(config, fe) || fe.selectionMethod == FeatureSelectionMethod.None
        then st.value.transformed == rawData
        else Narrowed(rawData, st.value.names, config.targetField) == Ok(st.value.transformed)
  {
  }

  /** With selection off, the final names are the enabled fields and the
      matrix reads them from the (balanced) rows, 0 where a row lacks one;
      the report notes the disabled selection on the balancing-first path
      only, and is empty on the other. */
  lemma SelectionDisabled(rawData: seq<Row>, enabledFields: seq<string>, config: ModelConfig,
                          fe: FeatureEngineeringConfig, oracles: FeatureSelectorFactory.Oracles,
                          streams: int -> (nat -> Sample))
    requires fe.selectionMethod == FeatureSelectionMethod.None
    ensures var st := Stages(rawData, enabledFields, config, fe, oracles, streams);
      st.Ok? ==>
        && st.value.names == enabledFields
        && |st.value.features| == |st.value.transformed|
        && (forall i, j :: 0 <= i < |st.value.transformed| && 0 <= j < |enabledFields| ==>
              st.value.features[i][j] == ReadOrZero(st.value.transformed[i], enabledFields[j]))
        && st.value.report == (if BalancingFirst(config, fe) then [Heading(DisabledNote)] else [])
  {
  }

  /** Selection first: the final names and report are the selector's, from
      the raw rows; without balancing, the rows keep their number and each
      holds exactly the selected names and the target. */
  lemma SelectionFirst(rawData: seq<Row>, enabledFields: seq<string>, config: ModelConfig,
                       fe: FeatureEngineeringConfig, oracles: FeatureSelectorFactory.Oracles,
                       streams: int -> (nat -> Sample))
    requires !BalancingFirst(config, fe) && fe.selectionMethod != FeatureSelectionMethod.None
    ensures var st := Stages(rawData, enabledFields, config, fe, oracles, streams);
      var selection := Selecting(rawData, enabledFields, config, fe, oracles);
      st.Ok? ==>
        && selection.Ok?
        && st.value.names == selection.value.featureNames
        && st.value.report == selection.value.report
        && (config.dataBalancing.balanceMethod == DataBalanceMethod.None ==>
              && |st.value.transformed| == |rawData|
              && forall i :: 0 <= i < |rawData| ==>
                   st.value.transformed[i].Keys == (set n | n in st.value.names) + {config.targetField})
  {
    var selection := Selecting(rawData, enabledFields, config, fe, oracles);
    if selection.Ok? {
      NarrowedSound(rawData, selection.value.featureNames, config.targetField);
    }
  }

  /** Without balancing, the balanced count equals the raw count. */
  lemma UnbalancedCounts(rawData: seq<Row>, enabledFields: seq<string>, config: ModelConfig,
                         oracles: FeatureSelectorFactory.Oracles, streams: int -> (nat -> Sample))
    requires config.dataBalancing.balanceMethod == DataBalanceMethod.None
    ensures var r := Processing(rawData, enabledFields, config, oracles, streams);
      r.Ok? ==> r.value.result.balancedSampleCount == r.value.result.originalSampleCount
  {
    if config.featureEngineering.Some? {
      var fe := config.featureEngineering.value;
      if !BalancingFirst(config, fe) && fe.selectionMethod != FeatureSelectionMethod.None {
        SelectionFirst(rawData, enabledFields, config, fe, oracles, streams);
      }
    }
  }
}
