/**
 * The records passed between the stages of the training pipeline, the
 * configurations they are built from, and the objects written to disk.
 */
module Entities {

  /** A two-dimensional numeric array: `cols` columns, one sequence per row. */
  datatype NdArray = NdArray(cols: nat, rows: seq<seq<real>>)

  predicate Rectangular(a: NdArray) {
    forall i :: 0 <= i < |a.rows| ==> |a.rows[i]| == a.cols
  }

  /** Every array the pipeline loads is rectangular, as a numpy 2-D array is. */
  type Array2D = a: NdArray | Rectangular(a) witness NdArray(0, [])

  /** Precision, recall and F1 of predicted against true labels. */
  datatype ClassificationMetric = ClassificationMetric(f1Score: real, precisionScore: real, recallScore: real)

  datatype DataIngestionArtifact = DataIngestionArtifact(trainedFilePath: string, testFilePath: string)

  datatype DataValidationArtifact = DataValidationArtifact(
    validationStatus: bool,
    validTrainFilePath: string,
    validTestFilePath: string,
    driftReportFilePath: string)

  datatype DataTransformationArtifact = DataTransformationArtifact(
    transformedObjectFilePath: string,
    transformedTrainFilePath: string,
    transformedTestFilePath: string)

  datatype ModelTrainerArtifact = ModelTrainerArtifact(
    trainedModelFilePath: string,
    trainMetricArtifact: ClassificationMetric,
    testMetricArtifact: ClassificationMetric)

  /** Any stage's artifact, as it appears in the pipeline's log. */
  datatype Artifact =
    | Ingested(ingestion: DataIngestionArtifact)
    | Validated(validation: DataValidationArtifact)
    | Transformed(transformation: DataTransformationArtifact)
    | Trained(trainer: ModelTrainerArtifact)

  /**
   * The run configuration, created once per pipeline object: the run's
   * timestamp, the run-scoped artifact directory, the directory of the
   * published model, and the trained-model path the trainer's configuration
   * derives from them.
   */
  datatype TrainingPipelineConfig = TrainingPipelineConfig(
    timestamp: string,
    artifactDir: string,
    modelDir: string,
    trainedModelFilePath: string)

  datatype Stage = DataIngestion | DataValidation | DataTransformation | ModelTraining

  /** The configuration of one of the three opaque stages, with the run configuration it derives from. */
  datatype StageConfig = StageConfig(stage: Stage, run: TrainingPipelineConfig)

  datatype ModelTrainerConfig = ModelTrainerConfig(run: TrainingPipelineConfig, trainedModelFilePath: string)

  /** ModelTrainerConfig(training_pipeline_config). */
  function ModelTrainerConfigOf(run: TrainingPipelineConfig): ModelTrainerConfig
  {
    ModelTrainerConfig(run, run.trainedModelFilePath)
  }

  /**
   * What a file holds: a saved numpy array, some other pickled object (the
   * fitted preprocessor among them), a trained estimator, or the bundle of a
   * preprocessor and an estimator that serving loads.
   */
  datatype Obj =
    | Array(data: Array2D)
    | Blob(id: string)
    | Estimator(name: string)
    | NetworkModel(preprocessor: Obj, model: Obj)
}
