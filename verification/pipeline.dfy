/**
 * The training pipeline orchestrator: ingestion, validation, transformation
 * and training run in sequence, each stage consuming the previous stage's
 * artifact, then the run's artifact directory and the published-model
 * directory are synchronised to the training bucket under the run's
 * timestamp. Every stage method re-raises failures wrapped in the domain
 * exception, and so does the run as a whole.
 */
module Pipeline {
  import opened Results
  import opened Entities
  import opened Effects
  import opened Components

  // ---------------------------------------------------------------------
  // The opaque stages

  /** What an opaque stage leaves behind: its artifact and the files afterwards. */
  datatype StageOutput<A> = StageOutput(artifact: A, files: map<string, Obj>)

  /**
   * Ingestion, validation and transformation, whose internals are not part of
   * this model: each is given its configuration, its predecessor's artifact
   * and the files, and either fails with a message or returns its artifact
   * and the new files.
   */
  datatype Stages = Stages(
    ingest: (StageConfig, map<string, Obj>) -> Result<StageOutput<DataIngestionArtifact>, string>,
    validate: (StageConfig, DataIngestionArtifact, map<string, Obj>) -> Result<StageOutput<DataValidationArtifact>, string>,
    transform: (StageConfig, DataValidationArtifact, map<string, Obj>) -> Result<StageOutput<DataTransformationArtifact>, string>)

  /** The orchestrator method that wraps a failure of each stage. */
  function StartSite(stage: Stage): Site {
    match stage
    case DataIngestion => StartDataIngestion
    case DataValidation => StartDataValidation
    case DataTransformation => StartDataTransformation
    case ModelTraining => StartModelTrainer
  }

  // ---------------------------------------------------------------------
  // Bucket URLs

  /** `s3://<bucket>/artifact/<timestamp>`: the bucket and the run's timestamp can be read back from it. */
  function ArtifactSyncUrl(bucket: string, timestamp: string): (url: string)
    ensures |url| == |bucket| + |timestamp| + 15
    ensures url[..|bucket| + 6] == "s3://" + bucket + "/"
    ensures url[|url| - |timestamp|..] == timestamp
  {
    "s3://" + bucket + "/artifact/" + timestamp
  }

  /** `s3://<bucket>/final_model/<timestamp>`: the bucket and the run's timestamp can be read back from it. */
  function ModelSyncUrl(bucket: string, timestamp: string): (url: string)
    ensures |url| == |bucket| + |timestamp| + 18
    ensures url[..|bucket| + 6] == "s3://" + bucket + "/"
    ensures url[|url| - |timestamp|..] == timestamp
  {
    "s3://" + bucket + "/final_model/" + timestamp
  }

  /** The two destinations never coincide, whatever the bucket and the timestamps. */
  lemma SyncUrlsDistinct(bucket: string, t1: string, t2: string)
    ensures ArtifactSyncUrl(bucket, t1) != ModelSyncUrl(bucket, t2)
  {
    var n := |"s3://" + bucket + "/"|;
    assert ArtifactSyncUrl(bucket, t1)[n] == 'a';
    assert ModelSyncUrl(bucket, t2)[n] == 'f';
  }

  /** Runs with different timestamps sync to different prefixes of the bucket. */
  lemma SyncUrlsSeparateRuns(bucket: string, t1: string, t2: string)
    ensures ArtifactSyncUrl(bucket, t1) == ArtifactSyncUrl(bucket, t2) ==> t1 == t2
    ensures ModelSyncUrl(bucket, t1) == ModelSyncUrl(bucket, t2) ==> t1 == t2
  {
    var a := "s3://" + bucket + "/artifact/";
    var m := "s3://" + bucket + "/final_model/";
    if ArtifactSyncUrl(bucket, t1) == ArtifactSyncUrl(bucket, t2) {
      assert t1 == ArtifactSyncUrl(bucket, t1)[|a|..];
      assert t2 == ArtifactSyncUrl(bucket, t2)[|a|..];
    }
    if ModelSyncUrl(bucket, t1) == ModelSyncUrl(bucket, t2) {
      assert t1 == ModelSyncUrl(bucket, t1)[|m|..];
      assert t2 == ModelSyncUrl(bucket, t2)[|m|..];
    }
  }

  // ---------------------------------------------------------------------
  // One step of the run

  /**
   * start_data_ingestion, start_data_validation and start_data_transformation:
   * log the start, run the stage, and either wrap its failure or install its
   * files and log its artifact.
   */
  function StageRun<A>(s: State, stage: Stage, out: Result<StageOutput<A>, string>, tag: A -> Artifact): Exec<A>
  {
    var started := Logged(s, StageStarted(stage));
    match out
    case Failure(msg) => Exec(Failure(Wrapped(StartSite(stage), StageFailed(stage, msg))), started)
    case Success(o) => Exec(Success(o.artifact), Logged(State(o.files, started.trace), StageCompleted(stage, tag(o.artifact))))
  }

  /** How each stage's artifact appears in the log. */
  function AsIngested(a: DataIngestionArtifact): Artifact { Ingested(a) }
  function AsValidated(a: DataValidationArtifact): Artifact { Validated(a) }
  function AsTransformed(a: DataTransformationArtifact): Artifact { Transformed(a) }

  function IngestionRun(cfg: TrainingPipelineConfig, stages: Stages, s: State): Exec<DataIngestionArtifact> {
    StageRun(s, DataIngestion, stages.ingest(StageConfig(DataIngestion, cfg), s.files), AsIngested)
  }

  function ValidationRun(cfg: TrainingPipelineConfig, stages: Stages, ia: DataIngestionArtifact, s: State)
    : Exec<DataValidationArtifact>
  {
    StageRun(s, DataValidation, stages.validate(StageConfig(DataValidation, cfg), ia, s.files), AsValidated)
  }

  function TransformationRun(cfg: TrainingPipelineConfig, stages: Stages, va: DataValidationArtifact, s: State)
    : Exec<DataTransformationArtifact>
  {
    StageRun(s, DataTransformation, stages.transform(StageConfig(DataTransformation, cfg), va, s.files), AsTransformed)
  }

  /** start_model_trainer: the trainer built from the run configuration and the transformation artifact. */
  function TrainerRun(cfg: TrainingPipelineConfig, lib: Learners, fails: Effect -> bool,
    dta: DataTransformationArtifact, s: State): Exec<ModelTrainerArtifact>
  {
    var started := Logged(s, StageStarted(ModelTraining));
    var t := InitiateModelTrainerSpec(ModelTrainerConfigOf(cfg), dta, lib, fails, started);
    if t.result.Failure? then Exec(Failure(Wrapped(StartModelTrainer, t.result.error)), t.state)
    else Exec(t.result, Logged(t.state, StageCompleted(ModelTraining, Trained(t.result.value))))
  }

  /** sync_artifact_dir_to_s3 and sync_saved_model_dir_to_s3. */
  function SyncRun(s: State, folder: string, url: string, site: Site, fails: Effect -> bool): Exec<()> {
    WrapFailure(site, Step(s, SyncFolder(folder, url), fails))
  }

  /** The body of run_pipeline's `try`, one step at a time: ingestion first. */
  function RunStages(cfg: TrainingPipelineConfig, bucket: string, stages: Stages, lib: Learners,
    fails: Effect -> bool, s: State): Exec<ModelTrainerArtifact>
  {
    var i := IngestionRun(cfg, stages, s);
    if i.result.Failure? then Propagate(i) else FromValidation(cfg, bucket, stages, lib, fails, i.result.value, i.state)
  }

  function FromValidation(cfg: TrainingPipelineConfig, bucket: string, stages: Stages, lib: Learners,
    fails: Effect -> bool, ia: DataIngestionArtifact, s: State): Exec<ModelTrainerArtifact>
  {
    var v := ValidationRun(cfg, stages, ia, s);
    if v.result.Failure? then Propagate(v) else FromTransformation(cfg, bucket, stages, lib, fails, v.result.value, v.state)
  }

  function FromTransformation(cfg: TrainingPipelineConfig, bucket: string, stages: Stages, lib: Learners,
    fails: Effect -> bool, va: DataValidationArtifact, s: State): Exec<ModelTrainerArtifact>
  {
    var x := TransformationRun(cfg, stages, va, s);
    if x.result.Failure? then Propagate(x) else FromTraining(cfg, bucket, lib, fails, x.result.value, x.state)
  }

  function FromTraining(cfg: TrainingPipelineConfig, bucket: string, lib: Learners,
    fails: Effect -> bool, dta: DataTransformationArtifact, s: State): Exec<ModelTrainerArtifact>
  {
    var t := TrainerRun(cfg, lib, fails, dta, s);
    if t.result.Failure? then t else FromSync(cfg, bucket, fails, t.result.value, t.state)
  }

  /** The artifact-directory sync, then the model sync. */
  function FromSync(cfg: TrainingPipelineConfig, bucket: string, fails: Effect -> bool,
    mta: ModelTrainerArtifact, s: State): Exec<ModelTrainerArtifact>
  {
    var a := SyncRun(s, cfg.artifactDir, ArtifactSyncUrl(bucket, cfg.timestamp), SyncArtifactDirToS3, fails);
    if a.result.Failure? then Propagate(a) else FromModelSync(cfg, bucket, fails, mta, a.state)
  }

  /** The model sync; then the trainer's artifact is returned. */
  function FromModelSync(cfg: TrainingPipelineConfig, bucket: string, fails: Effect -> bool,
    mta: ModelTrainerArtifact, s: State): Exec<ModelTrainerArtifact>
  {
    var m := SyncRun(s, cfg.modelDir, ModelSyncUrl(bucket, cfg.timestamp), SyncSavedModelDirToS3, fails);
    if m.result.Failure? then Propagate(m) else Exec(Success(mta), m.state)
  }

  /** run_pipeline. */
  function RunPipelineSpec(cfg: TrainingPipelineConfig, bucket: string, stages: Stages, lib: Learners,
    fails: Effect -> bool, s: State): Exec<ModelTrainerArtifact>
  {
    WrapFailure(RunPipeline, RunStages(cfg, bucket, stages, lib, fails, s))
  }

  // ---------------------------------------------------------------------
  // Milestones of a run

  /** A stage start or a bucket sync: the points at which the run commits to its next step. */
  predicate IsMilestone(e: Effect) {
    e.StageStarted? || e.SyncFolder?
  }

  /** The milestones of a trace, in order. */
  function Milestones(trace: seq<Effect>): (r: seq<Effect>)
    ensures |r| <= |trace|
  {
    if trace == [] then []
    else
      var last := trace[|trace| - 1];
      Milestones(trace[..|trace| - 1]) + (if IsMilestone(last) then [last] else [])
  }

  /** The six milestones of a complete run, in the order run_pipeline reaches them. */
  function Plan(cfg: TrainingPipelineConfig, bucket: string): seq<Effect> {
    [ StageStarted(DataIngestion),
      StageStarted(DataValidation),
      StageStarted(DataTransformation),
      StageStarted(ModelTraining),
      SyncFolder(cfg.artifactDir, ArtifactSyncUrl(bucket, cfg.timestamp)),
      SyncFolder(cfg.modelDir, ModelSyncUrl(bucket, cfg.timestamp)) ]
  }

  /** The method whose wrapper a failure at each milestone of the plan goes through. */
  const StepSites: seq<Site> := [
    StartDataIngestion, StartDataValidation, StartDataTransformation,
    StartModelTrainer, SyncArtifactDirToS3, SyncSavedModelDirToS3 ]

  lemma MilestonesSnoc(trace: seq<Effect>, e: Effect)
    ensures Milestones(trace + [e]) == Milestones(trace) + (if IsMilestone(e) then [e] else [])
  {
    assert (trace + [e])[..|trace|] == trace;
  }

  /** Effects that are not milestones leave the milestones unchanged. */
  lemma {:induction false} MilestonesIgnoreQuiet(trace: seq<Effect>, extra: seq<Effect>)
    requires forall i :: 0 <= i < |extra| ==> !IsMilestone(extra[i])
    ensures Milestones(trace + extra) == Milestones(trace)
    decreases |extra|
  {
    if extra == [] {
      assert trace + extra == trace;
    } else {
      var init := extra[..|extra| - 1];
      assert trace + extra == (trace + init) + [extra[|extra| - 1]];
      MilestonesSnoc(trace + init, extra[|extra| - 1]);
      MilestonesIgnoreQuiet(trace, init);
    }
  }

  lemma StageRunMilestones<A>(s: State, stage: Stage, out: Result<StageOutput<A>, string>, tag: A -> Artifact)
    ensures Milestones(StageRun(s, stage, out, tag).state.trace) == Milestones(s.trace) + [StageStarted(stage)]
  {
    MilestonesSnoc(s.trace, StageStarted(stage));
    if out.Success? {
      MilestonesSnoc(s.trace + [StageStarted(stage)], StageCompleted(stage, tag(out.value.artifact)));
    }
  }

  lemma TrainerRunMilestones(cfg: TrainingPipelineConfig, lib: Learners, fails: Effect -> bool,
    dta: DataTransformationArtifact, s: State)
    ensures Milestones(TrainerRun(cfg, lib, fails, dta, s).state.trace) == Milestones(s.trace) + [StageStarted(ModelTraining)]
  {
    var started := Logged(s, StageStarted(ModelTraining));
    MilestonesSnoc(s.trace, StageStarted(ModelTraining));
    var t := InitiateModelTrainerSpec(ModelTrainerConfigOf(cfg), dta, lib, fails, started);
    TrainerAddsNoMilestone(ModelTrainerConfigOf(cfg), dta, lib, fails, started);
    if t.result.Success? {
      MilestonesSnoc(t.state.trace, StageCompleted(ModelTraining, Trained(t.result.value)));
      assert TrainerRun(cfg, lib, fails, dta, s).state.trace
        == t.state.trace + [StageCompleted(ModelTraining, Trained(t.result.value))];
    } else {
      assert TrainerRun(cfg, lib, fails, dta, s).state == t.state;
    }
  }

  /** The trainer's own calls are loads, tracked runs, directory creation and saves: none is a milestone. */
  lemma TrainerAddsNoMilestone(config: ModelTrainerConfig, dta: DataTransformationArtifact, lib: Learners,
    fails: Effect -> bool, s: State)
    ensures Milestones(InitiateModelTrainerSpec(config, dta, lib, fails, s).state.trace) == Milestones(s.trace)
  {
    var t := InitiateModelTrainerSpec(config, dta, lib, fails, s);
    var extra := t.state.trace[|s.trace|..];
    assert t.state.trace == s.trace + extra;
    forall i | 0 <= i < |extra|
      ensures !IsMilestone(extra[i])
    {
      assert extra[i] == t.state.trace[|s.trace| + i];
      assert TrainerEffect(t.state.trace[|s.trace| + i]);
    }
    MilestonesIgnoreQuiet(s.trace, extra);
  }

  lemma SyncRunMilestones(s: State, folder: string, url: string, site: Site, fails: Effect -> bool)
    ensures Milestones(SyncRun(s, folder, url, site, fails).state.trace) == Milestones(s.trace) + [SyncFolder(folder, url)]
  {
    MilestonesSnoc(s.trace, SyncFolder(folder, url));
  }

  /**
   * From state `s`, the outcome `out` reached a non-empty prefix of `plan`,
   * in order; it succeeded only if it reached all of it, and a failure was
   * raised through the site of the last milestone reached.
   */
  predicate Reaches<T>(s: State, out: Exec<T>, plan: seq<Effect>, sites: seq<Site>)
    requires |sites| == |plan|
  {
    var before := Milestones(s.trace);
    var after := Milestones(out.state.trace);
    && |before| + 1 <= |after| <= |before| + |plan|
    && after == before + plan[..|after| - |before|]
    && (out.result.Success? ==> |after| == |before| + |plan|)
    && (out.result.Failure? ==> out.result.error.Wrapped? && out.result.error.site == sites[|after| - |before| - 1])
  }

  /** A step that reaches its milestone and fails there has reached the first milestone of any plan it heads. */
  lemma StopAtFirst<T, U>(s: State, x: Exec<T>, p: Effect, site: Site, plan: seq<Effect>, sites: seq<Site>)
    requires |sites| == |plan|
    requires Milestones(x.state.trace) == Milestones(s.trace) + [p]
    requires x.result.Failure? && x.result.error.Wrapped? && x.result.error.site == site
    ensures Reaches(s, Propagate<T, U>(x), [p] + plan, [site] + sites)
  {
    assert ([p] + plan)[..1] == [p];
  }

  /** A step that reaches its milestone and goes on extends what the rest of the run reaches. */
  lemma {:induction false} ContinueAfterFirst<T>(s: State, mid: State, out: Exec<T>, p: Effect, site: Site,
    plan: seq<Effect>, sites: seq<Site>)
    requires |sites| == |plan|
    requires Milestones(mid.trace) == Milestones(s.trace) + [p]
    requires Reaches(mid, out, plan, sites)
    ensures Reaches(s, out, [p] + plan, [site] + sites)
  {
    var before := Milestones(s.trace);
    var k := |Milestones(out.state.trace)| - |Milestones(mid.trace)|;
    assert ([p] + plan)[..k + 1] == [p] + plan[..k];
    assert ([site] + sites)[k] == sites[k - 1];
  }

  lemma {:induction false} FromModelSyncReaches(cfg: TrainingPipelineConfig, bucket: string, fails: Effect -> bool,
    mta: ModelTrainerArtifact, s: State)
    ensures Reaches(s, FromModelSync(cfg, bucket, fails, mta, s), Plan(cfg, bucket)[5..], StepSites[5..])
  {
    var p := SyncFolder(cfg.modelDir, ModelSyncUrl(bucket, cfg.timestamp));
    assert Plan(cfg, bucket)[5..] == [p] + [];
    assert StepSites[5..] == [SyncSavedModelDirToS3] + [];
    var m := SyncRun(s, cfg.modelDir, ModelSyncUrl(bucket, cfg.timestamp), SyncSavedModelDirToS3, fails);
    SyncRunMilestones(s, cfg.modelDir, ModelSyncUrl(bucket, cfg.timestamp), SyncSavedModelDirToS3, fails);
    if m.result.Failure? {
      StopAtFirst<(), ModelTrainerArtifact>(s, m, p, SyncSavedModelDirToS3, [], []);
    } else {
      assert [p][..1] == [p];
    }
  }

  lemma {:induction false} FromSyncReaches(cfg: TrainingPipelineConfig, bucket: string, fails: Effect -> bool,
    mta: ModelTrainerArtifact, s: State)
    ensures Reaches(s, FromSync(cfg, bucket, fails, mta, s), Plan(cfg, bucket)[4..], StepSites[4..])
  {
    var plan := Plan(cfg, bucket);
    var p := SyncFolder(cfg.artifactDir, ArtifactSyncUrl(bucket, cfg.timestamp));
    assert plan[4..] == [p] + plan[5..];
    assert StepSites[4..] == [SyncArtifactDirToS3] + StepSites[5..];
    var a := SyncRun(s, cfg.artifactDir, ArtifactSyncUrl(bucket, cfg.timestamp), SyncArtifactDirToS3, fails);
    SyncRunMilestones(s, cfg.artifactDir, ArtifactSyncUrl(bucket, cfg.timestamp), SyncArtifactDirToS3, fails);
    if a.result.Failure? {
      StopAtFirst<(), ModelTrainerArtifact>(s, a, p, SyncArtifactDirToS3, plan[5..], StepSites[5..]);
    } else {
      FromModelSyncReaches(cfg, bucket, fails, mta, a.state);
      ContinueAfterFirst(s, a.state, FromModelSync(cfg, bucket, fails, mta, a.state),
        p, SyncArtifactDirToS3, plan[5..], StepSites[5..]);
    }
  }

  lemma {:induction false} FromTrainingReaches(cfg: TrainingPipelineConfig, bucket: string, lib: Learners,
    fails: Effect -> bool, dta: DataTransformationArtifact, s: State)
    ensures Reaches(s, FromTraining(cfg, bucket, lib, fails, dta, s), Plan(cfg, bucket)[3..], StepSites[3..])
  {
    var plan := Plan(cfg, bucket);
    assert plan[3..] == [StageStarted(ModelTraining)] + plan[4..];
    assert StepSites[3..] == [StartModelTrainer] + StepSites[4..];
    var t := TrainerRun(cfg, lib, fails, dta, s);
    TrainerRunMilestones(cfg, lib, fails, dta, s);
    if t.result.Failure? {
      StopAtFirst<ModelTrainerArtifact, ModelTrainerArtifact>(s, t, StageStarted(ModelTraining), StartModelTrainer, plan[4..], StepSites[4..]);
      assert Propagate<ModelTrainerArtifact, ModelTrainerArtifact>(t) == t;
    } else {
      assert FromTraining(cfg, bucket, lib, fails, dta, s) == FromSync(cfg, bucket, fails, t.result.value, t.state);
      FromSyncReaches(cfg, bucket, fails, t.result.value, t.state);
      ContinueAfterFirst(s, t.state, FromSync(cfg, bucket, fails, t.result.value, t.state),
        StageStarted(ModelTraining), StartModelTrainer, plan[4..], StepSites[4..]);
    }
  }

  lemma {:induction false} FromTransformationReaches(cfg: TrainingPipelineConfig, bucket: string, stages: Stages,
    lib: Learners, fails: Effect -> bool, va: DataValidationArtifact, s: State)
    ensures Reaches(s, FromTransformation(cfg, bucket, stages, lib, fails, va, s), Plan(cfg, bucket)[2..], StepSites[2..])
  {
    var plan := Plan(cfg, bucket);
    assert plan[2..] == [StageStarted(DataTransformation)] + plan[3..];
    assert StepSites[2..] == [StartDataTransformation] + StepSites[3..];
    var x := TransformationRun(cfg, stages, va, s);
    StageRunMilestones(s, DataTransformation, stages.transform(StageConfig(DataTransformation, cfg), va, s.files), AsTransformed);
    if x.result.Failure? {
      assert FromTransformation(cfg, bucket, stages, lib, fails, va, s) == Propagate(x);
      StopAtFirst<DataTransformationArtifact, ModelTrainerArtifact>(s, x, StageStarted(DataTransformation), StartDataTransformation, plan[3..], StepSites[3..]);
    } else {
      assert FromTransformation(cfg, bucket, stages, lib, fails, va, s)
        == FromTraining(cfg, bucket, lib, fails, x.result.value, x.state);
      FromTrainingReaches(cfg, bucket, lib, fails, x.result.value, x.state);
      ContinueAfterFirst(s, x.state, FromTraining(cfg, bucket, lib, fails, x.result.value, x.state),
        StageStarted(DataTransformation), StartDataTransformation, plan[3..], StepSites[3..]);
    }
  }

  lemma {:induction false} FromValidationReaches(cfg: TrainingPipelineConfig, bucket: string, stages: Stages,
    lib: Learners, fails: Effect -> bool, ia: DataIngestionArtifact, s: State)
    ensures Reaches(s, FromValidation(cfg, bucket, stages, lib, fails, ia, s), Plan(cfg, bucket)[1..], StepSites[1..])
  {
    var plan := Plan(cfg, bucket);
    assert plan[1..] == [StageStarted(DataValidation)] + plan[2..];
    assert StepSites[1..] == [StartDataValidation] + StepSites[2..];
    var v := ValidationRun(cfg, stages, ia, s);
    StageRunMilestones(s, DataValidation, stages.validate(StageConfig(DataValidation, cfg), ia, s.files), AsValidated);
    if v.result.Failure? {
      assert FromValidation(cfg, bucket, stages, lib, fails, ia, s) == Propagate(v);
      StopAtFirst<DataValidationArtifact, ModelTrainerArtifact>(s, v, StageStarted(DataValidation), StartDataValidation, plan[2..], StepSites[2..]);
    } else {
      assert FromValidation(cfg, bucket, stages, lib, fails, ia, s)
        == FromTransformation(cfg, bucket, stages, lib, fails, v.result.value, v.state);
      FromTransformationReaches(cfg, bucket, stages, lib, fails, v.result.value, v.state);
      ContinueAfterFirst(s, v.state, FromTransformation(cfg, bucket, stages, lib, fails, v.result.value, v.state),
        StageStarted(DataValidation), StartDataValidation, plan[2..], StepSites[2..]);
    }
  }

  /**
   * Whatever happens, a run reaches a prefix of the plan, at least its first
   * milestone, in order and with no milestone skipped or repeated; it
   * succeeds only after reaching all six; a failure inside is raised through
   * the method of the last milestone reached, and run_pipeline raises the
   * domain exception around it, leaving the state as the failed step left it.
   */
  lemma {:induction false} RunOrder(cfg: TrainingPipelineConfig, bucket: string, stages: Stages, lib: Learners,
    fails: Effect -> bool, s: State)
    ensures
      var inner := RunStages(cfg, bucket, stages, lib, fails, s);
      var out := RunPipelineSpec(cfg, bucket, stages, lib, fails, s);
      && Reaches(s, inner, Plan(cfg, bucket), StepSites)
      && out.state == inner.state
      && (out.result.Success? <==> inner.result.Success?)
      && (out.result.Success? ==> out.result == inner.result)
      && (out.result.Failure? ==> out.result.error == Wrapped(RunPipeline, inner.result.error))
  {
    var plan := Plan(cfg, bucket);
    assert plan == [StageStarted(DataIngestion)] + plan[1..];
    assert StepSites == [StartDataIngestion] + StepSites[1..];
    var i := IngestionRun(cfg, stages, s);
    StageRunMilestones(s, DataIngestion, stages.ingest(StageConfig(DataIngestion, cfg), s.files), AsIngested);
    if i.result.Failure? {
      assert RunStages(cfg, bucket, stages, lib, fails, s) == Propagate(i);
      StopAtFirst<DataIngestionArtifact, ModelTrainerArtifact>(s, i, StageStarted(DataIngestion), StartDataIngestion, plan[1..], StepSites[1..]);
    } else {
      assert RunStages(cfg, bucket, stages, lib, fails, s)
        == FromValidation(cfg, bucket, stages, lib, fails, i.result.value, i.state);
      FromValidationReaches(cfg, bucket, stages, lib, fails, i.result.value, i.state);
      ContinueAfterFirst(s, i.state, FromValidation(cfg, bucket, stages, lib, fails, i.result.value, i.state),
        StageStarted(DataIngestion), StartDataIngestion, plan[1..], StepSites[1..]);
    }
  }

  /** Transformation is always the first milestone of the rest of a run from it. */
  lemma {:induction false} TransformationStartsFirst(cfg: TrainingPipelineConfig, bucket: string,
    stages: Stages, lib: Learners, fails: Effect -> bool, va: DataValidationArtifact, s: State)
    ensures
      Milestones(s.trace) + [StageStarted(DataTransformation)]
      <= Milestones(FromTransformation(cfg, bucket, stages, lib, fails, va, s).state.trace)
  {
    var plan := Plan(cfg, bucket);
    FromTransformationReaches(cfg, bucket, stages, lib, fails, va, s);
    ReachesFirst(s, FromTransformation(cfg, bucket, stages, lib, fails, va, s), plan[2..], StepSites[2..]);
  }

  /** Whatever reaches a plan reaches its first milestone. */
  lemma ReachesFirst<T>(s: State, out: Exec<T>, plan: seq<Effect>, sites: seq<Site>)
    requires |sites| == |plan| && Reaches(s, out, plan, sites)
    ensures Milestones(s.trace) + [plan[0]] <= Milestones(out.state.trace)
  {
    var k := |Milestones(out.state.trace)| - |Milestones(s.trace)|;
    assert plan[..k] == [plan[0]] + plan[1..k];
  }

  /** Once validation succeeds, whatever its status, transformation is the next milestone. */
  lemma {:induction false} ValidatedRunStartsTransformation(cfg: TrainingPipelineConfig, bucket: string,
    stages: Stages, lib: Learners, fails: Effect -> bool, ia: DataIngestionArtifact, s: State)
    requires ValidationRun(cfg, stages, ia, s).result.Success?
    ensures
      Milestones(s.trace) + [StageStarted(DataValidation), StageStarted(DataTransformation)]
      <= Milestones(FromValidation(cfg, bucket, stages, lib, fails, ia, s).state.trace)
  {
    var v := ValidationRun(cfg, stages, ia, s);
    StageRunMilestones(s, DataValidation, stages.validate(StageConfig(DataValidation, cfg), ia, s.files), AsValidated);
    assert FromValidation(cfg, bucket, stages, lib, fails, ia, s)
      == FromTransformation(cfg, bucket, stages, lib, fails, v.result.value, v.state);
    TransformationStartsFirst(cfg, bucket, stages, lib, fails, v.result.value, v.state);
    assert Milestones(s.trace) + [StageStarted(DataValidation), StageStarted(DataTransformation)]
      == Milestones(v.state.trace) + [StageStarted(DataTransformation)];
  }

  /**
   * The validation status is never inspected: once ingestion and validation
   * succeed, transformation starts even when validation reported drift.
   */
  lemma {:induction false} ValidationStatusNotInspected(cfg: TrainingPipelineConfig, bucket: string, stages: Stages,
    lib: Learners, fails: Effect -> bool, s: State)
    requires IngestionRun(cfg, stages, s).result.Success?
    requires
      var i := IngestionRun(cfg, stages, s);
      var v := ValidationRun(cfg, stages, i.result.value, i.state);
      v.result.Success? && !v.result.value.validationStatus
    ensures
      Milestones(s.trace) + Plan(cfg, bucket)[..3] <= Milestones(RunPipelineSpec(cfg, bucket, stages, lib, fails, s).state.trace)
  {
    var i := IngestionRun(cfg, stages, s);
    StageRunMilestones(s, DataIngestion, stages.ingest(StageConfig(DataIngestion, cfg), s.files), AsIngested);
    var inner := FromValidation(cfg, bucket, stages, lib, fails, i.result.value, i.state);
    assert RunStages(cfg, bucket, stages, lib, fails, s) == inner;
    assert RunPipelineSpec(cfg, bucket, stages, lib, fails, s).state == inner.state;
    ValidatedRunStartsTransformation(cfg, bucket, stages, lib, fails, i.result.value, i.state);
    assert Plan(cfg, bucket)[..3]
      == [StageStarted(DataIngestion), StageStarted(DataValidation), StageStarted(DataTransformation)];
    assert Milestones(s.trace) + Plan(cfg, bucket)[..3]
      == Milestones(i.state.trace) + [StageStarted(DataValidation), StageStarted(DataTransformation)];
  }

  /**
   * A successful run ends by logging the trainer's artifact and then syncing
   * the artifact directory and the model directory to their URLs, in that
   * order, both syncs having gone through; it returns the artifact of the trainer configured from the run,
   * and the published model is on disk.
   */
  lemma {:induction false} SuccessfulRun(cfg: TrainingPipelineConfig, bucket: string, stages: Stages, lib: Learners,
    fails: Effect -> bool, s: State)
    requires RunPipelineSpec(cfg, bucket, stages, lib, fails, s).result.Success?
    ensures
      var out := RunPipelineSpec(cfg, bucket, stages, lib, fails, s);
      var trace := out.state.trace;
      && |trace| >= 3
      && trace[|trace| - 3..] == [
           StageCompleted(ModelTraining, Trained(out.result.value)),
           SyncFolder(cfg.artifactDir, ArtifactSyncUrl(bucket, cfg.timestamp)),
           SyncFolder(cfg.modelDir, ModelSyncUrl(bucket, cfg.timestamp))]
      && !fails(SyncFolder(cfg.artifactDir, ArtifactSyncUrl(bucket, cfg.timestamp)))
      && !fails(SyncFolder(cfg.modelDir, ModelSyncUrl(bucket, cfg.timestamp)))
      && out.result.value.trainedModelFilePath == cfg.trainedModelFilePath
      && FinalModelPath in out.state.files && out.state.files[FinalModelPath].Estimator?
  {
    var ia, s1, va, s2, dta, s3 := StagesSucceeded(cfg, bucket, stages, lib, fails, s);
    RunReachesTrainer(cfg, bucket, stages, lib, fails, s, ia, s1, va, s2, dta, s3);
    FromTrainingEnds(cfg, bucket, lib, fails, dta, s3);
  }

  /** The trainer step and both syncs succeeding: the run ends with the trainer's log and the two syncs. */
  lemma FromTrainingEnds(cfg: TrainingPipelineConfig, bucket: string, lib: Learners,
    fails: Effect -> bool, dta: DataTransformationArtifact, s: State)
    requires FromTraining(cfg, bucket, lib, fails, dta, s).result.Success?
    ensures
      var out := FromTraining(cfg, bucket, lib, fails, dta, s);
      var trace := out.state.trace;
      && |trace| >= 3
      && trace[|trace| - 3..] == [
           StageCompleted(ModelTraining, Trained(out.result.value)),
           SyncFolder(cfg.artifactDir, ArtifactSyncUrl(bucket, cfg.timestamp)),
           SyncFolder(cfg.modelDir, ModelSyncUrl(bucket, cfg.timestamp))]
      && !fails(SyncFolder(cfg.artifactDir, ArtifactSyncUrl(bucket, cfg.timestamp)))
      && !fails(SyncFolder(cfg.modelDir, ModelSyncUrl(bucket, cfg.timestamp)))
      && out.result.value.trainedModelFilePath == cfg.trainedModelFilePath
      && FinalModelPath in out.state.files && out.state.files[FinalModelPath].Estimator?
  {
    var t := TrainerRun(cfg, lib, fails, dta, s);
    var a := SyncRun(t.state, cfg.artifactDir, ArtifactSyncUrl(bucket, cfg.timestamp), SyncArtifactDirToS3, fails);
    var m := SyncRun(a.state, cfg.modelDir, ModelSyncUrl(bucket, cfg.timestamp), SyncSavedModelDirToS3, fails);
    assert FromTraining(cfg, bucket, lib, fails, dta, s) == Exec(t.result, m.state);
  }

  /**
   * A run that succeeds got through the three opaque stages: each returned,
   * and each was fed its predecessor's artifact and the files it left.
   */
  lemma StagesSucceeded(cfg: TrainingPipelineConfig, bucket: string, stages: Stages, lib: Learners,
    fails: Effect -> bool, s: State)
    returns (ia: DataIngestionArtifact, s1: State, va: DataValidationArtifact, s2: State,
      dta: DataTransformationArtifact, s3: State)
    requires RunPipelineSpec(cfg, bucket, stages, lib, fails, s).result.Success?
    ensures IngestionRun(cfg, stages, s) == Exec(Success(ia), s1)
    ensures ValidationRun(cfg, stages, ia, s1) == Exec(Success(va), s2)
    ensures TransformationRun(cfg, stages, va, s2) == Exec(Success(dta), s3)
  {
    var i := IngestionRun(cfg, stages, s);
    assert i.result.Success?;
    ia, s1 := i.result.value, i.state;
    var v := ValidationRun(cfg, stages, ia, s1);
    assert v.result.Success?;
    va, s2 := v.result.value, v.state;
    var x := TransformationRun(cfg, stages, va, s2);
    assert x.result.Success?;
    dta, s3 := x.result.value, x.state;
  }

  // ---------------------------------------------------------------------
  // The first failure ends the run

  /** A stage that returns leaves exactly its start, then its artifact, in the log, and installs its files. */
  lemma StageRunSucceeded<A>(s: State, stage: Stage, out: Result<StageOutput<A>, string>, tag: A -> Artifact)
    requires StageRun(s, stage, out, tag).result.Success?
    ensures out.Success?
    ensures StageRun(s, stage, out, tag) == Exec(Success(out.value.artifact),
      State(out.value.files, s.trace + [StageStarted(stage), StageCompleted(stage, tag(out.value.artifact))]))
  {
  }

  /** Ingestion raising ends the run right after its start is logged, with the files untouched. */
  lemma IngestionFailureEndsRun(cfg: TrainingPipelineConfig, bucket: string, stages: Stages, lib: Learners,
    fails: Effect -> bool, s: State)
    requires stages.ingest(StageConfig(DataIngestion, cfg), s.files).Failure?
    ensures
      var reason := stages.ingest(StageConfig(DataIngestion, cfg), s.files).error;
      RunPipelineSpec(cfg, bucket, stages, lib, fails, s) ==
        Exec(Failure(Wrapped(RunPipeline, Wrapped(StartDataIngestion, StageFailed(DataIngestion, reason)))),
             Logged(s, StageStarted(DataIngestion)))
  {
  }

  /** Validation raising, on the artifact ingestion returned, ends the run right after its start is logged. */
  lemma ValidationFailureEndsRun(cfg: TrainingPipelineConfig, bucket: string, stages: Stages, lib: Learners,
    fails: Effect -> bool, s: State, ia: DataIngestionArtifact, s1: State)
    requires IngestionRun(cfg, stages, s) == Exec(Success(ia), s1)
    requires stages.validate(StageConfig(DataValidation, cfg), ia, s1.files).Failure?
    ensures
      var reason := stages.validate(StageConfig(DataValidation, cfg), ia, s1.files).error;
      RunPipelineSpec(cfg, bucket, stages, lib, fails, s) ==
        Exec(Failure(Wrapped(RunPipeline, Wrapped(StartDataValidation, StageFailed(DataValidation, reason)))),
             Logged(s1, StageStarted(DataValidation)))
  {
  }

  /** Transformation raising, on the artifact validation returned, ends the run right after its start is logged. */
  lemma TransformationFailureEndsRun(cfg: TrainingPipelineConfig, bucket: string, stages: Stages, lib: Learners,
    fails: Effect -> bool, s: State, ia: DataIngestionArtifact, s1: State, va: DataValidationArtifact, s2: State)
    requires IngestionRun(cfg, stages, s) == Exec(Success(ia), s1)
    requires ValidationRun(cfg, stages, ia, s1) == Exec(Success(va), s2)
    requires stages.transform(StageConfig(DataTransformation, cfg), va, s2.files).Failure?
    ensures
      var reason := stages.transform(StageConfig(DataTransformation, cfg), va, s2.files).error;
      RunPipelineSpec(cfg, bucket, stages, lib, fails, s) ==
        Exec(Failure(Wrapped(RunPipeline, Wrapped(StartDataTransformation, StageFailed(DataTransformation, reason)))),
             Logged(s2, StageStarted(DataTransformation)))
  {
  }

  /**
   * The trainer raising, on the artifact transformation returned, ends the
   * run where the trainer stopped: neither directory is synced.
   */
  lemma TrainingFailureEndsRun(cfg: TrainingPipelineConfig, bucket: string, stages: Stages, lib: Learners,
    fails: Effect -> bool, s: State, ia: DataIngestionArtifact, s1: State, va: DataValidationArtifact, s2: State,
    dta: DataTransformationArtifact, s3: State)
    requires IngestionRun(cfg, stages, s) == Exec(Success(ia), s1)
    requires ValidationRun(cfg, stages, ia, s1) == Exec(Success(va), s2)
    requires TransformationRun(cfg, stages, va, s2) == Exec(Success(dta), s3)
    requires InitiateModelTrainerSpec(ModelTrainerConfigOf(cfg), dta, lib, fails, Logged(s3, StageStarted(ModelTraining))).result.Failure?
    ensures
      var t := InitiateModelTrainerSpec(ModelTrainerConfigOf(cfg), dta, lib, fails, Logged(s3, StageStarted(ModelTraining)));
      var out := RunPipelineSpec(cfg, bucket, stages, lib, fails, s);
      && out == Exec(Failure(Wrapped(RunPipeline, Wrapped(StartModelTrainer, t.result.error))), t.state)
      && s.trace <= out.state.trace
      && forall j :: |s.trace| <= j < |out.state.trace| ==> !out.state.trace[j].SyncFolder?
  {
    var started := Logged(s3, StageStarted(ModelTraining));
    var t := InitiateModelTrainerSpec(ModelTrainerConfigOf(cfg), dta, lib, fails, started);
    RunReachesTrainer(cfg, bucket, stages, lib, fails, s, ia, s1, va, s2, dta, s3);
    assert TrainerRun(cfg, lib, fails, dta, s3) == Exec(Failure(Wrapped(StartModelTrainer, t.result.error)), t.state);
    assert RunStages(cfg, bucket, stages, lib, fails, s) == Exec(Failure(Wrapped(StartModelTrainer, t.result.error)), t.state);
    TrainerNeverSyncs(ModelTrainerConfigOf(cfg), dta, lib, fails, started);
    forall j | |s.trace| <= j < |started.trace|
      ensures !started.trace[j].SyncFolder?
    {
    }
  }

  /** Reaching the trainer: the rest of the run is the trainer step and the syncs, after six stage events. */
  lemma RunReachesTrainer(cfg: TrainingPipelineConfig, bucket: string, stages: Stages, lib: Learners,
    fails: Effect -> bool, s: State, ia: DataIngestionArtifact, s1: State, va: DataValidationArtifact, s2: State,
    dta: DataTransformationArtifact, s3: State)
    requires IngestionRun(cfg, stages, s) == Exec(Success(ia), s1)
    requires ValidationRun(cfg, stages, ia, s1) == Exec(Success(va), s2)
    requires TransformationRun(cfg, stages, va, s2) == Exec(Success(dta), s3)
    ensures RunStages(cfg, bucket, stages, lib, fails, s) == FromTraining(cfg, bucket, lib, fails, dta, s3)
    ensures s3.trace == s.trace + [StageStarted(DataIngestion), StageCompleted(DataIngestion, Ingested(ia)),
      StageStarted(DataValidation), StageCompleted(DataValidation, Validated(va)),
      StageStarted(DataTransformation), StageCompleted(DataTransformation, Transformed(dta))]
  {
    assert FromValidation(cfg, bucket, stages, lib, fails, ia, s1) == FromTransformation(cfg, bucket, stages, lib, fails, va, s2);
  }

  /** None of the trainer's own calls is a sync. */
  lemma TrainerNeverSyncs(config: ModelTrainerConfig, dta: DataTransformationArtifact, lib: Learners,
    fails: Effect -> bool, s: State)
    ensures
      var t := InitiateModelTrainerSpec(config, dta, lib, fails, s);
      && s.trace <= t.state.trace
      && forall j :: |s.trace| <= j < |t.state.trace| ==> !t.state.trace[j].SyncFolder?
  {
    var t := InitiateModelTrainerSpec(config, dta, lib, fails, s);
    forall j | |s.trace| <= j < |t.state.trace|
      ensures !t.state.trace[j].SyncFolder?
    {
      assert TrainerEffect(t.state.trace[j]);
    }
  }

  /** A failed artifact-directory sync ends the run: the model directory is not synced. */
  lemma ArtifactSyncFailureEndsRun(cfg: TrainingPipelineConfig, bucket: string, stages: Stages, lib: Learners,
    fails: Effect -> bool, s: State, ia: DataIngestionArtifact, s1: State, va: DataValidationArtifact, s2: State,
    dta: DataTransformationArtifact, s3: State, mta: ModelTrainerArtifact, s4: State)
    requires IngestionRun(cfg, stages, s) == Exec(Success(ia), s1)
    requires ValidationRun(cfg, stages, ia, s1) == Exec(Success(va), s2)
    requires TransformationRun(cfg, stages, va, s2) == Exec(Success(dta), s3)
    requires TrainerRun(cfg, lib, fails, dta, s3) == Exec(Success(mta), s4)
    requires fails(SyncFolder(cfg.artifactDir, ArtifactSyncUrl(bucket, cfg.timestamp)))
    ensures
      var sync := SyncFolder(cfg.artifactDir, ArtifactSyncUrl(bucket, cfg.timestamp));
      RunPipelineSpec(cfg, bucket, stages, lib, fails, s) ==
        Exec(Failure(Wrapped(RunPipeline, Wrapped(SyncArtifactDirToS3, CallFailed(sync)))), State(s4.files, s4.trace + [sync]))
  {
  }

  /** A failed model-directory sync, after the artifact sync went through, ends the run. */
  lemma ModelSyncFailureEndsRun(cfg: TrainingPipelineConfig, bucket: string, stages: Stages, lib: Learners,
    fails: Effect -> bool, s: State, ia: DataIngestionArtifact, s1: State, va: DataValidationArtifact, s2: State,
    dta: DataTransformationArtifact, s3: State, mta: ModelTrainerArtifact, s4: State)
    requires IngestionRun(cfg, stages, s) == Exec(Success(ia), s1)
    requires ValidationRun(cfg, stages, ia, s1) == Exec(Success(va), s2)
    requires TransformationRun(cfg, stages, va, s2) == Exec(Success(dta), s3)
    requires TrainerRun(cfg, lib, fails, dta, s3) == Exec(Success(mta), s4)
    requires !fails(SyncFolder(cfg.artifactDir, ArtifactSyncUrl(bucket, cfg.timestamp)))
    requires fails(SyncFolder(cfg.modelDir, ModelSyncUrl(bucket, cfg.timestamp)))
    ensures
      var artifactSync := SyncFolder(cfg.artifactDir, ArtifactSyncUrl(bucket, cfg.timestamp));
      var modelSync := SyncFolder(cfg.modelDir, ModelSyncUrl(bucket, cfg.timestamp));
      RunPipelineSpec(cfg, bucket, stages, lib, fails, s) ==
        Exec(Failure(Wrapped(RunPipeline, Wrapped(SyncSavedModelDirToS3, CallFailed(modelSync)))),
             State(s4.files, s4.trace + [artifactSync, modelSync]))
  {
  }

  /**
   * A successful run handed each stage exactly its predecessor's artifact
   * and files: ingestion ran on the starting files, validation on what
   * ingestion returned, transformation on what validation returned, and the
   * trainer on the transformation artifact; every artifact was logged
   * between its stage's start and the next stage's start.
   */
  lemma {:induction false} SuccessfulRunHandsOn(cfg: TrainingPipelineConfig, bucket: string, stages: Stages,
    lib: Learners, fails: Effect -> bool, s: State)
    returns (ia: DataIngestionArtifact, f1: map<string, Obj>, va: DataValidationArtifact, f2: map<string, Obj>,
      dta: DataTransformationArtifact, f3: map<string, Obj>)
    requires RunPipelineSpec(cfg, bucket, stages, lib, fails, s).result.Success?
    ensures stages.ingest(StageConfig(DataIngestion, cfg), s.files) == Success(StageOutput(ia, f1))
    ensures stages.validate(StageConfig(DataValidation, cfg), ia, f1) == Success(StageOutput(va, f2))
    ensures stages.transform(StageConfig(DataTransformation, cfg), va, f2) == Success(StageOutput(dta, f3))
    ensures
      var out := RunPipelineSpec(cfg, bucket, stages, lib, fails, s);
      var logged := s.trace + [
        StageStarted(DataIngestion), StageCompleted(DataIngestion, Ingested(ia)),
        StageStarted(DataValidation), StageCompleted(DataValidation, Validated(va)),
        StageStarted(DataTransformation), StageCompleted(DataTransformation, Transformed(dta)),
        StageStarted(ModelTraining)];
      && logged <= out.state.trace
      && InitiateModelTrainerSpec(ModelTrainerConfigOf(cfg), dta, lib, fails, State(f3, logged)).result == out.result
  {
    var s1, s2, s3;
    ia, s1, va, s2, dta, s3 := StagesSucceeded(cfg, bucket, stages, lib, fails, s);
    StageRunSucceeded(s, DataIngestion, stages.ingest(StageConfig(DataIngestion, cfg), s.files), AsIngested);
    StageRunSucceeded(s1, DataValidation, stages.validate(StageConfig(DataValidation, cfg), ia, s1.files), AsValidated);
    StageRunSucceeded(s2, DataTransformation,
      stages.transform(StageConfig(DataTransformation, cfg), va, s2.files), AsTransformed);
    f1, f2, f3 := s1.files, s2.files, s3.files;
    RunReachesTrainer(cfg, bucket, stages, lib, fails, s, ia, s1, va, s2, dta, s3);
    assert RunPipelineSpec(cfg, bucket, stages, lib, fails, s) == FromTraining(cfg, bucket, lib, fails, dta, s3);
    TrainerStepSucceeded(cfg, bucket, lib, fails, dta, s3);
    var logged := s.trace + [
      StageStarted(DataIngestion), StageCompleted(DataIngestion, Ingested(ia)),
      StageStarted(DataValidation), StageCompleted(DataValidation, Validated(va)),
      StageStarted(DataTransformation), StageCompleted(DataTransformation, Transformed(dta)),
      StageStarted(ModelTraining)];
    assert State(f3, logged) == Logged(s3, StageStarted(ModelTraining));
  }

  /** The trainer step and the syncs succeeding: the trainer ran on `dta`, from `s` with its start logged. */
  lemma TrainerStepSucceeded(cfg: TrainingPipelineConfig, bucket: string, lib: Learners,
    fails: Effect -> bool, dta: DataTransformationArtifact, s: State)
    requires FromTraining(cfg, bucket, lib, fails, dta, s).result.Success?
    ensures
      var out := FromTraining(cfg, bucket, lib, fails, dta, s);
      && s.trace + [StageStarted(ModelTraining)] <= out.state.trace
      && InitiateModelTrainerSpec(ModelTrainerConfigOf(cfg), dta, lib, fails, Logged(s, StageStarted(ModelTraining))).result
         == out.result
  {
    var tr := TrainerRun(cfg, lib, fails, dta, s);
    var fs := FromSync(cfg, bucket, fails, tr.result.value, tr.state);
    assert tr.state.trace <= fs.state.trace;
  }

  // ---------------------------------------------------------------------
  // The orchestrator object

  /**
   * The pipeline object: the run configuration and the outside world (files,
   * tracker and bucket) are fixed at construction; each stage method records
   * the configuration it built from the run configuration.
   */
  class TrainingPipeline {
    const trainingPipelineConfig: TrainingPipelineConfig
    /** TRAINING_BUCKET_NAME */
    const bucket: string
    const world: World
    var dataIngestionConfig: Option<StageConfig>
    var dataValidationConfig: Option<StageConfig>
    var dataTransformationConfig: Option<StageConfig>
    var modelTrainerConfig: Option<ModelTrainerConfig>

    /** The run configuration (and its timestamp) is a parameter: the clock is outside the model. */
    constructor(trainingPipelineConfig: TrainingPipelineConfig, bucket: string, world: World)
      ensures this.trainingPipelineConfig == trainingPipelineConfig && this.bucket == bucket && this.world == world
      ensures dataIngestionConfig.None? && dataValidationConfig.None?
      ensures dataTransformationConfig.None? && modelTrainerConfig.None?
    {
      this.trainingPipelineConfig := trainingPipelineConfig;
      this.bucket := bucket;
      this.world := world;
      dataIngestionConfig := None;
      dataValidationConfig := None;
      dataTransformationConfig := None;
      modelTrainerConfig := None;
    }

    /** Every configuration built so far derives from this object's run configuration. */
    predicate ConfigsFromRun()
      reads this
    {
      && (dataIngestionConfig.Some? ==> dataIngestionConfig.value == StageConfig(DataIngestion, trainingPipelineConfig))
      && (dataValidationConfig.Some? ==> dataValidationConfig.value == StageConfig(DataValidation, trainingPipelineConfig))
      && (dataTransformationConfig.Some? ==>
            dataTransformationConfig.value == StageConfig(DataTransformation, trainingPipelineConfig))
      && (modelTrainerConfig.Some? ==> modelTrainerConfig.value == ModelTrainerConfigOf(trainingPipelineConfig))
    }

    method StartDataIngestion(stages: Stages) returns (r: Result<DataIngestionArtifact, Error>)
      modifies this`dataIngestionConfig, world
      ensures dataIngestionConfig == Some(StageConfig(DataIngestion, trainingPipelineConfig))
      ensures Exec(r, world.Snapshot()) == IngestionRun(trainingPipelineConfig, stages, old(world.Snapshot()))
    {
      var config := StageConfig(DataIngestion, trainingPipelineConfig);
      dataIngestionConfig := Some(config);
      world.Log(StageStarted(DataIngestion));
      var out := stages.ingest(config, world.files);
      if out.Failure? {
        return Failure(Wrapped(Site.StartDataIngestion, StageFailed(DataIngestion, out.error)));
      }
      world.Commit(out.value.files);
      world.Log(StageCompleted(DataIngestion, Ingested(out.value.artifact)));
      r := Success(out.value.artifact);
    }

    method StartDataValidation(stages: Stages, dataIngestionArtifact: DataIngestionArtifact)
      returns (r: Result<DataValidationArtifact, Error>)
      modifies this`dataValidationConfig, world
      ensures dataValidationConfig == Some(StageConfig(DataValidation, trainingPipelineConfig))
      ensures Exec(r, world.Snapshot()) ==
        ValidationRun(trainingPipelineConfig, stages, dataIngestionArtifact, old(world.Snapshot()))
    {
      var config := StageConfig(DataValidation, trainingPipelineConfig);
      dataValidationConfig := Some(config);
      world.Log(StageStarted(DataValidation));
      var out := stages.validate(config, dataIngestionArtifact, world.files);
      if out.Failure? {
        return Failure(Wrapped(Site.StartDataValidation, StageFailed(DataValidation, out.error)));
      }
      world.Commit(out.value.files);
      world.Log(StageCompleted(DataValidation, Validated(out.value.artifact)));
      r := Success(out.value.artifact);
    }

    method StartDataTransformation(stages: Stages, dataValidationArtifact: DataValidationArtifact)
      returns (r: Result<DataTransformationArtifact, Error>)
      modifies this`dataTransformationConfig, world
      ensures dataTransformationConfig == Some(StageConfig(DataTransformation, trainingPipelineConfig))
      ensures Exec(r, world.Snapshot()) ==
        TransformationRun(trainingPipelineConfig, stages, dataValidationArtifact, old(world.Snapshot()))
    {
      var config := StageConfig(DataTransformation, trainingPipelineConfig);
      dataTransformationConfig := Some(config);
      world.Log(StageStarted(DataTransformation));
      var out := stages.transform(config, dataValidationArtifact, world.files);
      if out.Failure? {
        return Failure(Wrapped(Site.StartDataTransformation, StageFailed(DataTransformation, out.error)));
      }
      world.Commit(out.value.files);
      world.Log(StageCompleted(DataTransformation, Transformed(out.value.artifact)));
      r := Success(out.value.artifact);
    }

    method StartModelTrainer(lib: Learners, dataTransformationArtifact: DataTransformationArtifact)
      returns (r: Result<ModelTrainerArtifact, Error>)
      modifies this`modelTrainerConfig, world
      ensures modelTrainerConfig == Some(ModelTrainerConfigOf(trainingPipelineConfig))
      ensures Exec(r, world.Snapshot()) ==
        TrainerRun(trainingPipelineConfig, lib, world.fails, dataTransformationArtifact, old(world.Snapshot()))
    {
      var config := ModelTrainerConfigOf(trainingPipelineConfig);
      modelTrainerConfig := Some(config);
      world.Log(StageStarted(ModelTraining));
      var modelTrainer := new ModelTrainer(config, dataTransformationArtifact);
      r := modelTrainer.InitiateModelTrainer(world, lib);
      if r.Failure? {
        return Failure(Wrapped(Site.StartModelTrainer, r.error));
      }
      world.Log(StageCompleted(ModelTraining, Trained(r.value)));
    }

    method SyncArtifactDirToS3() returns (r: Result<(), Error>)
      modifies world
      ensures Exec(r, world.Snapshot()) == SyncRun(old(world.Snapshot()), trainingPipelineConfig.artifactDir,
        ArtifactSyncUrl(bucket, trainingPipelineConfig.timestamp), Site.SyncArtifactDirToS3, world.fails)
    {
      var awsBucketUrl := ArtifactSyncUrl(bucket, trainingPipelineConfig.timestamp);
      r := world.Perform(SyncFolder(trainingPipelineConfig.artifactDir, awsBucketUrl));
      if r.Failure? {
        r := Failure(Wrapped(Site.SyncArtifactDirToS3, r.error));
      }
    }

    method SyncSavedModelDirToS3() returns (r: Result<(), Error>)
      modifies world
      ensures Exec(r, world.Snapshot()) == SyncRun(old(world.Snapshot()), trainingPipelineConfig.modelDir,
        ModelSyncUrl(bucket, trainingPipelineConfig.timestamp), Site.SyncSavedModelDirToS3, world.fails)
    {
      var awsBucketUrl := ModelSyncUrl(bucket, trainingPipelineConfig.timestamp);
      r := world.Perform(SyncFolder(trainingPipelineConfig.modelDir, awsBucketUrl));
      if r.Failure? {
        r := Failure(Wrapped(Site.SyncSavedModelDirToS3, r.error));
      }
    }

    method RunPipeline(stages: Stages, lib: Learners) returns (r: Result<ModelTrainerArtifact, Error>)
      requires ConfigsFromRun()
      modifies this`dataIngestionConfig, this`dataValidationConfig, this`dataTransformationConfig,
        this`modelTrainerConfig, world
      ensures ConfigsFromRun()
      ensures Exec(r, world.Snapshot()) ==
        RunPipelineSpec(trainingPipelineConfig, bucket, stages, lib, world.fails, old(world.Snapshot()))
    {
      r := RunSteps(stages, lib);
      if r.Failure? {
        r := Failure(Wrapped(Site.RunPipeline, r.error));
      }
    }

    /** The body of run_pipeline's `try`. */
    method RunSteps(stages: Stages, lib: Learners) returns (r: Result<ModelTrainerArtifact, Error>)
      requires ConfigsFromRun()
      modifies this`dataIngestionConfig, this`dataValidationConfig, this`dataTransformationConfig,
        this`modelTrainerConfig, world
      ensures ConfigsFromRun()
      ensures Exec(r, world.Snapshot()) ==
        RunStages(trainingPipelineConfig, bucket, stages, lib, world.fails, old(world.Snapshot()))
    {
      var ingested := StartDataIngestion(stages);
      if ingested.Failure? {
        return Failure(ingested.error);
      }
      var validated := StartDataValidation(stages, ingested.value);
      if validated.Failure? {
        return Failure(validated.error);
      }
      var transformed := StartDataTransformation(stages, validated.value);
      if transformed.Failure? {
        return Failure(transformed.error);
      }
      var trained := StartModelTrainer(lib, transformed.value);
      if trained.Failure? {
        return trained;
      }
      var synced := SyncArtifactDirToS3();
      if synced.Failure? {
        return Failure(synced.error);
      }
      synced := SyncSavedModelDirToS3();
      if synced.Failure? {
        return Failure(synced.error);
      }
      r := trained;
    }
  }
}
