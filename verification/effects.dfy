/**
 * The outside world as the core sees it: files on disk, the experiment
 * tracker, the object store and the log. Every interaction is recorded, in
 * order, in a trace; whether a fallible call raises is decided by an oracle.
 */
module Effects {
  import opened Results
  import opened Entities

  /** One interaction with the outside world. */
  datatype Effect =
    | LoadArray(path: string)                           // load_numpy_array_data
    | LoadObject(path: string)                          // load_object
    | TrackRun(modelName: string, metric: ClassificationMetric)  // one tracked mlflow run
    | MakeDirs(dir: string)                             // os.makedirs(dir, exist_ok=True)
    | SaveObject(path: string, obj: Obj)                // save_object
    | SyncFolder(folder: string, url: string)           // S3Sync.sync_folder_to_s3
    | StageStarted(stage: Stage)                        // logging.info before a stage runs
    | StageCompleted(stage: Stage, artifact: Artifact)  // logging.info with the stage's artifact

  /** The method whose `except` clause raises a NetworkSecurityException. */
  datatype Site =
    | InitiateModelTrainer
    | StartDataIngestion
    | StartDataValidation
    | StartDataTransformation
    | StartModelTrainer
    | SyncArtifactDirToS3
    | SyncSavedModelDirToS3
    | RunPipeline

  /** What was raised: an underlying failure, or the domain exception wrapping another one. */
  datatype Error =
    | CallFailed(effect: Effect)              // an external call raised
    | StageFailed(stage: Stage, reason: string)  // an opaque stage raised
    | EvaluationFailed(reason: string)        // evaluate_models raised
    | PredictionFailed(reason: string)        // best_model.predict raised
    | ScoringFailed(reason: string)           // get_classification_score raised
    | EmptyReport                             // max() of an empty sequence
    | UnknownModel(name: string)              // models[best_model_name] raised KeyError
    | NoLabelColumn                           // arr[:, -1] of an array without columns
    | Wrapped(site: Site, cause: Error)       // NetworkSecurityException(e, sys)

  datatype State = State(files: map<string, Obj>, trace: seq<Effect>)

  /** The outcome of running a piece of the core from some state. */
  datatype Exec<T> = Exec(result: Result<T, Error>, state: State)

  /** What the files must hold for a call to go through (os.makedirs('') raises). */
  predicate Ready(e: Effect, files: map<string, Obj>) {
    match e
    case LoadArray(p) => p in files && files[p].Array?
    case LoadObject(p) => p in files
    case MakeDirs(d) => d != ""
    case _ => true
  }

  /** Attempts a fallible external call: it is recorded, and only a save that goes through changes the files. */
  function Step(s: State, e: Effect, fails: Effect -> bool): Exec<()>
  {
    var ok := Ready(e, s.files) && !fails(e);
    var files := if ok && e.SaveObject? then s.files[e.path := e.obj] else s.files;
    Exec(if ok then Success(()) else Failure(CallFailed(e)), State(files, s.trace + [e]))
  }

  /** Records a log line, which never fails. */
  function Logged(s: State, e: Effect): State {
    s.(trace := s.trace + [e])
  }

  function LoadArraySpec(s: State, path: string, fails: Effect -> bool): Exec<Array2D>
  {
    var x := Step(s, LoadArray(path), fails);
    if x.result.Failure? then Exec(Failure(x.result.error), x.state)
    else Exec(Success(s.files[path].data), x.state)
  }

  function LoadObjectSpec(s: State, path: string, fails: Effect -> bool): Exec<Obj>
  {
    var x := Step(s, LoadObject(path), fails);
    if x.result.Failure? then Exec(Failure(x.result.error), x.state)
    else Exec(Success(s.files[path]), x.state)
  }

  /** Re-raises a failure unchanged with another result type. */
  function Propagate<T, U>(x: Exec<T>): Exec<U>
    requires x.result.Failure?
  {
    Exec(Failure(x.result.error), x.state)
  }

  /** `except Exception as e: raise NetworkSecurityException(e, sys)` around a piece of code. */
  function WrapFailure<T>(site: Site, x: Exec<T>): Exec<T>
  {
    if x.result.Failure? then Exec(Failure(Wrapped(site, x.result.error)), x.state) else x
  }

  /** The files, the trace of calls made so far, and which calls raise. */
  class World {
    var files: map<string, Obj>
    var trace: seq<Effect>
    const fails: Effect -> bool

    function Snapshot(): State
      reads this
    {
      State(files, trace)
    }

    constructor(files: map<string, Obj>, fails: Effect -> bool)
      ensures this.files == files && trace == [] && this.fails == fails
    {
      this.files := files;
      this.trace := [];
      this.fails := fails;
    }

    method Perform(e: Effect) returns (r: Result<(), Error>)
      modifies this
      ensures Exec(r, Snapshot()) == Step(old(Snapshot()), e, fails)
    {
      var ok := Ready(e, files) && !fails(e);
      if ok && e.SaveObject? {
        files := files[e.path := e.obj];
      }
      trace := trace + [e];
      r := if ok then Success(()) else Failure(CallFailed(e));
    }

    method ReadArray(path: string) returns (r: Result<Array2D, Error>)
      modifies this
      ensures Exec(r, Snapshot()) == LoadArraySpec(old(Snapshot()), path, fails)
    {
      var before := files;
      var ok := Perform(LoadArray(path));
      r := if ok.Failure? then Failure(ok.error) else Success(before[path].data);
    }

    method ReadObject(path: string) returns (r: Result<Obj, Error>)
      modifies this
      ensures Exec(r, Snapshot()) == LoadObjectSpec(old(Snapshot()), path, fails)
    {
      var before := files;
      var ok := Perform(LoadObject(path));
      r := if ok.Failure? then Failure(ok.error) else Success(before[path]);
    }

    method Log(e: Effect)
      modifies this
      ensures Snapshot() == Logged(old(Snapshot()), e)
    {
      trace := trace + [e];
    }

    /** Installs the files an opaque stage leaves behind. */
    method Commit(newFiles: map<string, Obj>)
      modifies this
      ensures files == newFiles && trace == old(trace)
    {
      files := newFiles;
    }
  }
}
