/** The checks a configuration must pass before anything runs. They are
    made in a fixed order and the first failing one raises its exception;
    the balancing settings, the model type and the target field are not
    checked here. Reading the configuration file is not part of this model. */
module ConfigManager {
  import opened Values
  import opened Models

  const DatabaseParam := "Database"
  const TrainingParametersParam := "TrainingParameters"
  const TableNameMissing := "Table name is missing in database configuration"
  const AlgorithmMissing := "Algorithm name is missing in training parameters"
  const ComponentsMessage := "Number of components must be greater than 0 for PCA"
  const MaxFeaturesMessage := "Max features must be greater than 0 for Forward Selection"
  const MinImprovementMessage := "Minimum improvement must be greater than 0 for Forward Selection"
  const ThresholdMessage := "Multicollinearity threshold must be between 0 and 1 for Correlation Selection"

  /** What a valid selection configuration is, setting by setting. */
  predicate SelectionSettingsValid(fe: FeatureEngineeringConfig)
  {
    && (fe.selectionMethod == PCA ==> fe.numberOfComponents > 0)
    && (fe.selectionMethod == FeatureSelectionMethod.Forward ==> fe.maxFeatures > 0 && fe.minImprovement > 0.0)
    && (fe.selectionMethod == FeatureSelectionMethod.Correlation ==>
          0.0 < fe.multicollinearityThreshold < 1.0)
  }

  /** What a valid configuration is: a database with a table, training
      parameters with an algorithm, and valid selection settings if any. */
  predicate WellConfigured(config: ModelConfig)
  {
    && config.database.Some? && config.database.value.tableName != ""
    && config.trainingParameters.Some? && config.trainingParameters.value.algorithm != ""
    && (config.featureEngineering.Some? ==> SelectionSettingsValid(config.featureEngineering.value))
  }

  /** `ValidateFeatureEngineeringConfig`: no selection configuration passes;
      PCA needs components, forward selection a feature budget and then a
      minimum improvement, correlation a threshold strictly between 0 and 1.
      Any other method passes unchecked. */
  function ValidateFeatureEngineeringConfig(config: Option<FeatureEngineeringConfig>): (r: Outcome)
    ensures r.Pass? <==> config.Nothing? || SelectionSettingsValid(config.value)
    ensures r.Fail? ==> r.error.ArgumentException?
  {
    match config
    case Nothing => Pass
    case Some(fe) =>
      match fe.selectionMethod
      case PCA =>
        if fe.numberOfComponents <= 0 then Fail(ArgumentException(ComponentsMessage)) else Pass
      case Forward =>
        if fe.maxFeatures <= 0 then Fail(ArgumentException(MaxFeaturesMessage))
        else if fe.minImprovement <= 0.0 then Fail(ArgumentException(MinImprovementMessage))
        else Pass
      case Correlation =>
        if fe.multicollinearityThreshold <= 0.0 || fe.multicollinearityThreshold >= 1.0
        then Fail(ArgumentException(ThresholdMessage))
        else Pass
      case _ => Pass
  }

  /** `ValidateConfiguration`: passes exactly on well-configured
      configurations; a failure is an argument error. */
  function ValidateConfiguration(config: ModelConfig): (r: Outcome)
    ensures r.Pass? <==> WellConfigured(config)
    ensures r.Fail? ==> r.error.ArgumentException? || r.error.ArgumentNullException?
  {
    if config.database.Nothing? then Fail(ArgumentNullException(DatabaseParam))
    else if config.database.value.tableName == "" then Fail(ArgumentException(TableNameMissing))
    else if config.trainingParameters.Nothing? then Fail(ArgumentNullException(TrainingParametersParam))
    else if config.trainingParameters.value.algorithm == "" then Fail(ArgumentException(AlgorithmMissing))
    else ValidateFeatureEngineeringConfig(config.featureEngineering)
  }

  /** The checks run in order: the first one that fails decides the error,
      whatever the later settings are. */
  lemma ValidationOrder(config: ModelConfig)
    ensures config.database.Nothing? ==> ValidateConfiguration(config) == Fail(ArgumentNullException(DatabaseParam))
    ensures config.database.Some? && config.database.value.tableName == "" ==>
      ValidateConfiguration(config) == Fail(ArgumentException(TableNameMissing))
    ensures config.database.Some? && config.database.value.tableName != "" && config.trainingParameters.Nothing? ==>
      ValidateConfiguration(config) == Fail(ArgumentNullException(TrainingParametersParam))
    ensures config.database.Some? && config.database.value.tableName != "" && config.trainingParameters.Some?
            && config.trainingParameters.value.algorithm == "" ==>
      ValidateConfiguration(config) == Fail(ArgumentException(AlgorithmMissing))
    ensures var fe := config.featureEngineering;
      fe.Some? && fe.value.selectionMethod == FeatureSelectionMethod.Forward && fe.value.maxFeatures <= 0 ==>
        ValidateFeatureEngineeringConfig(fe) == Fail(ArgumentException(MaxFeaturesMessage))
  {
  }

  /** Only the database, training and selection settings are checked: the
      balancing settings, the model type and the target field never change
      the outcome. */
  lemma ValidationIgnores(config: ModelConfig, dataBalancing: DataBalancingConfig, modelType: ModelType,
                          targetField: string)
    ensures ValidateConfiguration(config)
         == ValidateConfiguration(config.(dataBalancing := dataBalancing, modelType := modelType,
                                          targetField := targetField))
  {
  }
}
