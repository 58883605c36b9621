/** The configuration records and enumerations the core reads, and the
    processed dataset it produces. An enumeration field deserialised from
    JSON can hold any integer, so each enumeration has a case for a value
    outside the declared members. */
module Models {
  import opened Values

  datatype ModelType =
    | BinaryClassification
    | MultiClassClassification
    | Regression
    | UndefinedModelType(code: int)

  datatype DataBalanceMethod =
    | None
    | SMOTE
    | ADASYN
    | UndefinedBalanceMethod(code: int)

  datatype FeatureSelectionMethod =
    | None
    | Correlation
    | PCA
    | Forward
    | UndefinedSelectionMethod(code: int)

  datatype DataBalancingConfig = DataBalancingConfig(
    balanceMethod: DataBalanceMethod,
    executionOrder: int,
    kNeighbors: int,
    undersamplingRatio: real,
    minorityToMajorityRatio: real)

  /** `executionOrder` is read by the orchestrator but is not declared by the
      source's record; the model adds it. */
  datatype FeatureEngineeringConfig = FeatureEngineeringConfig(
    selectionMethod: FeatureSelectionMethod,
    executionOrder: int,
    numberOfComponents: int,
    maxFeatures: int,
    minImprovement: real,
    multicollinearityThreshold: real)

  /** A null or empty string is modelled as "". */
  datatype DatabaseConfig = DatabaseConfig(tableName: string, outputTableName: string)

  datatype TrainingParameters = TrainingParameters(algorithm: string)

  /** A reference that may be null is an `Option`. */
  datatype ModelConfig = ModelConfig(
    modelType: ModelType,
    trainingParameters: Option<TrainingParameters>,
    database: Option<DatabaseConfig>,
    featureEngineering: Option<FeatureEngineeringConfig>,
    dataBalancing: DataBalancingConfig,
    targetField: string)

  /** One line of a feature-selection report, by content rather than wording. */
  datatype ReportLine =
    | Heading(text: string)
    | Count(caption: string, n: int)
    | Listed(name: string)
    | Scored(name: string, score: real)
    | Setting(caption: string, value: real)
    | ErrorNote(context: string, error: Error)

  datatype ProcessedData = ProcessedData(
    data: seq<Row>,
    featureNames: seq<string>,
    originalSampleCount: nat,
    balancedSampleCount: nat,
    featureSelectionReport: seq<ReportLine>,
    featureSelectionMethod: FeatureSelectionMethod,
    dataBalancingMethod: DataBalanceMethod,
    features: seq<seq<real>>,
    dataBalancingExecutionOrder: int,
    featureSelectionExecutionOrder: int)
}
