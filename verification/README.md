# Network-security training pipeline: a Dafny model

This project models the core of a network-security training pipeline. The
pipeline trains a binary phishing classifier in four stages:

1. ingestion;
2. validation;
3. transformation;
4. model training.

Then it syncs the run's artifact directory and the published-model directory
to an object-store bucket.

The model covers three parts:

- **The model trainer** (`components.dfy`, module `Components`):
  - it loads the transformed train and test arrays and splits off the label column;
  - it grid-searches the five model families;
  - it picks the family with the best test score, taking the first one on a tie;
  - it records a tracked run for the train metrics, then one for the test metrics;
  - it creates the model directory, saves the preprocessor+model bundle, then the bare model at `final_model/model.pkl`;
  - it returns the trainer artifact;
  - every failure is re-raised wrapped in the domain exception.
- **The orchestrator** (`pipeline.dfy`, module `Pipeline`):
  - `TrainingPipeline` runs the stages in a fixed order, each fed the previous stage's artifact;
  - each stage method wraps its failure in the domain exception;
  - the run then syncs twice, to `s3://<bucket>/artifact/<timestamp>` and `s3://<bucket>/final_model/<timestamp>`;
  - the run as a whole wraps again.
- **`get_requirements`** (`setup.dfy`, module `Setup`):
  - it reads the requirements file line by line;
  - it strips each line with Python's notion of whitespace;
  - it drops empty lines and the `-e .` line;
  - it returns an empty list when the file is missing.

Supporting modules:

- `Results`: Option and Result.
- `Entities`: artifacts, configurations, rectangular 2-D arrays, and what files hold.
- `Paths`: `os.path.dirname` as POSIX Python computes it.
- `Effects`: the outside world.

The outside world is a class `World`:

- a map from paths to stored objects;
- a trace of every external call, in order;
- an oracle `fails` that says which fallible calls raise. These calls are loading an array or object, a tracked run, directory creation, saving, and a bucket sync.

Each imperative method is proved equal to a pure function of the world's state. These are `InitiateModelTrainerSpec`, `TrainModelSpec`, `IngestionRun`, `TrainerRun`, `RunPipelineSpec` and the others. The properties are proved about those functions.

Two behaviours of the code are worth stating on their own, because a reader
might expect otherwise:

- `run_pipeline` never reads `validation_status`
  (training_pipeline.py:105-106). It hands the validation artifact straight to
  transformation, whatever the status says. `ValidationStatusNotInspected`
  states this.
- On a tie, `train_model` takes the first maximum in the order of the score
  report (model_trainer.py:89-91). `SelectBestModel` models this. The report's
  order is decided by `evaluate_models`, which is not part of this model, so
  the model says nothing about which catalogue family wins a tie.

## Model

| member | source | states |
|---|---|---|
| Setup.IsSpace | setup.py:25 | The whitespace `strip` removes: the ASCII blank, tab, line feed, carriage return, vertical tab and form feed are whitespace; no printable ASCII character is. |
| Setup.Strip | setup.py:25 | The stripped line is no longer than the line, and when non-empty it neither starts nor ends with whitespace. |
| Setup.StripUnique | setup.py:25 | Any infix whose surroundings are all whitespace and whose ends are not is exactly the stripped line, so `strip` is characterised uniquely. |
| Setup.StripIdempotent | setup.py:25 | Stripping a stripped line changes nothing. |
| Setup.RequirementsFollowKeptIndices | setup.py:24-33 | The k-th requirement is the stripped text of the k-th kept line, and the kept lines appear in file order. |
| Setup.KeptIndicesComplete | setup.py:24-33 | A line is kept if and only if its stripped text is non-empty and is not `-e .`. |
| Setup.RequirementsAreClean | setup.py:25-33 | Every returned requirement is non-empty, is not `-e .`, and is already stripped. |
| Setup.Requirements | setup.py:24-33 | The filtered list of stripped lines, in file order, is never longer than the file. |
| Setup.RequirementsIdempotent | setup.py:24-33 | Filtering an already filtered list returns it unchanged. |
| Setup.GetRequirements | setup.py:10-37 | A missing file gives the empty list, any other read error propagates, and otherwise the loop returns the filtered list of stripped lines. |
| Paths.Dirname | networksecurity_project/components/model_trainer.py:111 | The directory part of a path is a prefix of it, and it ends in `/` only when it consists of slashes, as the root does. |
| Paths.DirnameOfJoin | networksecurity_project/components/model_trainer.py:111 | The directory part of `dir/name` is `dir`, when `dir` is non-empty and does not end in `/` and `name` has no `/`. |
| Paths.DirnameWithoutSlash | networksecurity_project/components/model_trainer.py:111-112 | A bare file name has an empty directory part. |
| Components.MaxScore | networksecurity_project/components/model_trainer.py:86 | The best score is one of the scores and is at least every score. |
| Components.MaxScoreIgnoresOrder | networksecurity_project/components/model_trainer.py:86 | Sorting before `max` cannot change the result: any reordering gives the same maximum. |
| Components.IndexOf | networksecurity_project/components/model_trainer.py:89-91 | `list.index` gives the first position holding the value, or nothing when the value is absent. |
| Components.SelectBestModel | networksecurity_project/components/model_trainer.py:86-91 | Selection fails exactly on an empty report. Otherwise the selected entry is in the report and has the highest score, and every earlier entry scores strictly less, so a tie goes to the first. |
| Components.SelectionIsFirstMaximum | networksecurity_project/components/model_trainer.py:86-91 | No entry scores above the selected one. |
| Components.SplitFeaturesAndLabel | networksecurity_project/components/model_trainer.py:139-144 | Splitting fails exactly on an array without columns. Otherwise each row is its features followed by its label, and the features have one column fewer. |
| Components.SplitThenAppend | networksecurity_project/components/model_trainer.py:139-144 | Putting the label column back after the split restores the array. |
| Components.AppendThenSplit | networksecurity_project/components/model_trainer.py:139-144 | Splitting an array built from features and labels gives them back. |
| Components.TrackAndPersist | networksecurity_project/components/model_trainer.py:95-128 | Persistence only appends loads, tracked runs, directory creation and saves to the trace. It writes no file but the configured path and `final_model/model.pkl`. On success the artifact carries the configured path and the published file holds an estimator. |
| Components.Persist | networksecurity_project/components/model_trainer.py:109-128 | Loading the preprocessor, creating the directory and the two saves only append trainer calls and write only the two model paths. On success the artifact carries the configured path and the published file holds an estimator. |
| Components.TrainModelSpec | networksecurity_project/components/model_trainer.py:49-128 | The same guarantees for all of `train_model`, including the search, the selection and the catalogue lookup. |
| Components.LoadAndTrain | networksecurity_project/components/model_trainer.py:131-147 | The same guarantees after loading and splitting both arrays. |
| Components.InitiateModelTrainerSpec | networksecurity_project/components/model_trainer.py:130-150 | The same guarantees, and every failure is the domain exception raised at `initiate_model_trainer`. |
| Components.PersistedInOrder | networksecurity_project/components/model_trainer.py:95-124 | When prediction and scoring succeed on both splits, a successful persistence makes exactly six calls: train-metrics run, test-metrics run, preprocessor load, directory creation, bundle save, bare-model save. The files change by the two saves only, the bare model last. The artifact echoes the path and both metrics. |
| Components.TestScoringFailsAfterTrainRun | networksecurity_project/components/model_trainer.py:95-107 | When the train metrics are tracked and then prediction or scoring on the test split raises, that error ends the step. The train-metrics run stays in the trace, and no file is written. |
| Components.PathWithoutDirectoryFails | networksecurity_project/components/model_trainer.py:111-116 | A trained-model path with no directory part makes `os.makedirs('')` raise before anything is saved. |
| Components.TrainedModelIsBestScoring | networksecurity_project/components/model_trainer.py:83-119 | After a successful `train_model`, the published model is a catalogue family at the first report position holding the top score. |
| Components.ModelTrainer.constructor | networksecurity_project/components/model_trainer.py:30-35 | The trainer keeps its configuration and the transformation artifact. |
| Components.ModelTrainer.TrackMlflow | networksecurity_project/components/model_trainer.py:37-46 | One tracked run carrying the model name and its metrics, which may raise. |
| Components.ModelTrainer.TrainModel | networksecurity_project/components/model_trainer.py:49-128 | The method's result and the world it leaves are those of `TrainModelSpec`. |
| Components.ModelTrainer.InitiateModelTrainer | networksecurity_project/components/model_trainer.py:130-150 | The method's result and the world it leaves are those of `InitiateModelTrainerSpec`. |
| Pipeline.ArtifactSyncUrl | networksecurity_project/pipeline/training_pipeline.py:89 | The artifact URL starts with `s3://<bucket>/` and ends with the run's timestamp. |
| Pipeline.ModelSyncUrl | networksecurity_project/pipeline/training_pipeline.py:97 | The model URL starts with `s3://<bucket>/` and ends with the run's timestamp. |
| Pipeline.SyncUrlsDistinct | networksecurity_project/pipeline/training_pipeline.py:87-100 | The artifact-sync URL and the model-sync URL never coincide, whatever the timestamps. |
| Pipeline.SyncUrlsSeparateRuns | networksecurity_project/pipeline/training_pipeline.py:87-100 | Different timestamps sync to different URLs, for both directories. |
| Pipeline.TrainerRunMilestones | networksecurity_project/pipeline/training_pipeline.py:70-84 | Starting the trainer adds one milestone: the model-training start. None of the trainer's own calls is a stage start or a sync. |
| Pipeline.RunOrder | networksecurity_project/pipeline/training_pipeline.py:102-115 | A run reaches a non-empty prefix of the plan in order: ingestion, validation, transformation, training, artifact sync, model sync. It succeeds only after all six. A failure is the domain exception raised by `run_pipeline` around the one from the method of the last step reached. |
| Pipeline.ValidationStatusNotInspected | networksecurity_project/pipeline/training_pipeline.py:104-106 | Transformation starts after a successful validation even when validation reported a failed status. |
| Pipeline.SuccessfulRun | networksecurity_project/pipeline/training_pipeline.py:102-112 | A successful run ends by logging the trainer's artifact, then syncing the artifact directory, then the model directory. Neither sync raised. It returns the trainer artifact for the run's path, and the published model is on disk. |
| Pipeline.ValidatedRunStartsTransformation | networksecurity_project/pipeline/training_pipeline.py:105-106 | After a successful validation, whatever its status, the next milestone is the start of transformation. |
| Pipeline.IngestionFailureEndsRun | networksecurity_project/pipeline/training_pipeline.py:104-115 | When ingestion raises, the run fails with `run_pipeline`'s exception around `start_data_ingestion`'s. The trace stops at the ingestion start and the files are untouched. |
| Pipeline.ValidationFailureEndsRun | networksecurity_project/pipeline/training_pipeline.py:105-115 | When validation raises on the ingestion artifact, the run fails with the exception wrapped at `start_data_validation` and at `run_pipeline`. The trace stops at the validation start. |
| Pipeline.TransformationFailureEndsRun | networksecurity_project/pipeline/training_pipeline.py:106-115 | The same for transformation, fed the validation artifact. |
| Pipeline.TrainingFailureEndsRun | networksecurity_project/pipeline/training_pipeline.py:107-115 | When the trainer raises on the transformation artifact, the run fails with the trainer's error wrapped at `start_model_trainer` and at `run_pipeline`. The trace ends where the trainer stopped, and no sync happens. |
| Pipeline.ArtifactSyncFailureEndsRun | networksecurity_project/pipeline/training_pipeline.py:109-115 | When the artifact sync raises after training, the run fails with that error wrapped twice. The sync is the last call, so the model directory is not synced. |
| Pipeline.ModelSyncFailureEndsRun | networksecurity_project/pipeline/training_pipeline.py:110-115 | When the model sync raises after the artifact sync went through, the run fails with that error wrapped twice, and it is the last call. |
| Pipeline.SuccessfulRunHandsOn | networksecurity_project/pipeline/training_pipeline.py:104-107 | In a successful run, ingestion ran on the starting files, validation on the ingestion artifact and files, transformation on the validation artifact and files, and the trainer on the transformation artifact. The run's result is the trainer's. Every artifact was logged in order before the trainer started. |
| Pipeline.TrainingPipeline.constructor | networksecurity_project/pipeline/training_pipeline.py:30-32 | The pipeline keeps one run configuration, the bucket and the world. No stage configuration exists yet. |
| Pipeline.TrainingPipeline.StartDataIngestion | networksecurity_project/pipeline/training_pipeline.py:34-44 | Records the ingestion configuration derived from the run. The result and the world are those of `IngestionRun`: log, run the stage, then either wrap its failure or install its files and log its artifact. |
| Pipeline.TrainingPipeline.StartDataValidation | networksecurity_project/pipeline/training_pipeline.py:46-56 | The same for validation, fed the ingestion artifact. |
| Pipeline.TrainingPipeline.StartDataTransformation | networksecurity_project/pipeline/training_pipeline.py:58-68 | The same for transformation, fed the validation artifact. |
| Pipeline.TrainingPipeline.StartModelTrainer | networksecurity_project/pipeline/training_pipeline.py:70-84 | Records the trainer configuration derived from the run, then runs a fresh `ModelTrainer`. The result and the world are those of `TrainerRun`. |
| Pipeline.TrainingPipeline.SyncArtifactDirToS3 | networksecurity_project/pipeline/training_pipeline.py:87-92 | Syncs the artifact directory to `s3://<bucket>/artifact/<timestamp>`, wrapping a failure. |
| Pipeline.TrainingPipeline.SyncSavedModelDirToS3 | networksecurity_project/pipeline/training_pipeline.py:95-100 | Syncs the model directory to `s3://<bucket>/final_model/<timestamp>`, wrapping a failure. |
| Pipeline.TrainingPipeline.RunSteps | networksecurity_project/pipeline/training_pipeline.py:103-112 | The body of the `try`: the result and the world are those of `RunStages`. Every recorded configuration derives from the run configuration. |
| Pipeline.TrainingPipeline.RunPipeline | networksecurity_project/pipeline/training_pipeline.py:102-115 | The result and the world are those of `RunPipelineSpec`. Every recorded configuration derives from the run configuration. |

## Left out

- The estimators, the grid search and the metrics are parameters (`Learners`): `evaluate_models`, `predict` and `get_classification_score` are not part of this model. Each can fail with a message. A trained estimator is represented by its family name.
- `Components.SelectBestModel`: the report is a sequence of (name, score) pairs. It does not enforce the distinct keys a Python dict has.
- The grid search's own hyperparameter fitting and its possible parallelism are left out, since they sit inside `evaluate_models`.
- Ingestion, validation and transformation are opaque stages. Each gets its configuration, its input artifact and the files, and returns an artifact and new files, or fails with a message. Their internals are not part of this model.
- The experiment tracker is one fallible `TrackRun` call per tracked run. The tracker's URI and remote-repository initialisation at import time are left out. The three metric logs and the model log inside one run are a single call.
- Pickle, NumPy loading, directory creation and the bucket client are fallible calls against the file map. A sync is one opaque call that does not change the files.
- `networksecurity_project/entity/config_entity.py` and `networksecurity_project/entity/artifact_entity.py` are not part of this model. The stage configurations are reduced to the stage and the run configuration. The trained-model path is carried by the run configuration.
- The value of `TRAINING_BUCKET_NAME` is not part of this model, so the bucket is a constructor parameter.
- The run configuration's timestamp comes from the clock, so it is a constructor parameter.
- The logging calls are modelled as stage-start and stage-completion entries in the trace. The trainer's final log line (model_trainer.py:126) is left out because it cannot fail and changes nothing.
- `get_requirements`: the message printed on a missing file is left out, as is the `setup()` call. The file contents arrive as the list of lines `readlines` would return.
- The oracle `fails` depends only on the call. So two tracked runs with the same model name and equal train and test metrics fail or succeed together. The real tracker could fail one and not the other.
- Arrays are rectangular 2-D arrays of reals. One-dimensional arrays and NaN scores are left out.
