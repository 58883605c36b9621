/** Turns the configured selection method into a selector, and runs the
    selector it made. The PCA selector is a parameter: its ML.NET projection
    is not part of this model. */
module FeatureSelectorFactory {
  import opened Values
  import opened Models
  import opened BaseFeatureSelector
  import NoFeatureSelector
  import CorrelationFeatureSelector
  import ForwardFeatureSelector

  const UnsupportedMessage := "Unsupported feature selection method"

  /** The four selectors the factory can make. */
  datatype Selector = NoSelector | CorrelationSelector | PcaSelector | ForwardSelector

  /** What the selectors are given besides the rows: the correlation of two
      columns, the score of a trained model, and the PCA selector. */
  datatype Oracles = Oracles(
    pearson: (seq<real>, seq<real>) -> real,
    scorer: (seq<Row>, seq<string>, ModelType, string) -> Result<real>,
    pca: (seq<Row>, seq<string>, ModelType, string, FeatureEngineeringConfig) -> Result<Selection>)

  /** The method a selector implements. */
  function MethodOf(s: Selector): FeatureSelectionMethod
  {
    match s
    case NoSelector => FeatureSelectionMethod.None
    case CorrelationSelector => FeatureSelectionMethod.Correlation
    case PcaSelector => PCA
    case ForwardSelector => FeatureSelectionMethod.Forward
  }

  /** One selector per declared method; any other value is refused with an
      argument error. The method's name, which the source appends to the
      message, is left out. */
  function CreateSelector(selectionMethod: FeatureSelectionMethod): (r: Result<Selector>)
    ensures r.Ok? <==> !selectionMethod.UndefinedSelectionMethod?
    ensures r.Ok? ==> MethodOf(r.value) == selectionMethod
    ensures r.Err? ==> r.error == ArgumentException(UnsupportedMessage)
  {
    match selectionMethod
    case None => Ok(NoSelector)
    case Correlation => Ok(CorrelationSelector)
    case PCA => Ok(PcaSelector)
    case Forward => Ok(ForwardSelector)
    case UndefinedSelectionMethod(_) => Err(ArgumentException(UnsupportedMessage))
  }

  /** Every selector the factory can make is the one made for its method. */
  lemma {:induction false} CreateMethodOf(s: Selector)
    ensures CreateSelector(MethodOf(s)) == Ok(s)
  {
    match s
    case NoSelector =>
    case CorrelationSelector =>
    case PcaSelector =>
    case ForwardSelector =>
  }

  /** What a selector returns. Only the no-op selector and PCA let an
      exception through; the other two catch it into their report. */
  ghost function Selected(s: Selector, data: seq<Row>, candidates: seq<string>, modelType: ModelType,
                          targetField: string, config: FeatureEngineeringConfig, oracles: Oracles): Result<Selection>
  {
    match s
    case NoSelector => NoFeatureSelector.NoSelection(data, candidates, targetField)
    case CorrelationSelector =>
      Ok(CorrelationFeatureSelector.CorrelationSelection(data, candidates, targetField, config, oracles.pearson))
    case PcaSelector => oracles.pca(data, candidates, modelType, targetField, config)
    case ForwardSelector =>
      Ok(ForwardFeatureSelector.ForwardSelection(data, candidates, modelType, targetField, config, oracles.scorer))
  }

  /** `IFeatureSelector.SelectFeatures` called on a fresh selector of the
      kind the factory made. */
  method SelectFeatures(s: Selector, data: seq<Row>, candidates: seq<string>, modelType: ModelType,
                        targetField: string, config: FeatureEngineeringConfig, oracles: Oracles)
    returns (r: Result<Selection>)
    ensures r == Selected(s, data, candidates, modelType, targetField, config, oracles)
    ensures s == CorrelationSelector || s == ForwardSelector ==> r.Ok?
  {
    match s
    case NoSelector =>
      var selector := new NoFeatureSelector.NoSelector();
      r := selector.SelectFeatures(data, candidates, modelType, targetField, config);
    case CorrelationSelector =>
      var selector := new CorrelationFeatureSelector.CorrelationSelector();
      var selection := selector.SelectFeatures(data, candidates, modelType, targetField, config, oracles.pearson);
      r := Ok(selection);
    case PcaSelector =>
      r := oracles.pca(data, candidates, modelType, targetField, config);
    case ForwardSelector =>
      var selector := new ForwardFeatureSelector.ForwardSelector();
      var selection := selector.SelectFeatures(data, candidates, modelType, targetField, config, oracles.scorer);
      r := Ok(selection);
  }
}
