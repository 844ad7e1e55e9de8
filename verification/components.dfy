/**
 * The model trainer (components/model_trainer.py): picking the best model
 * family from the score report, splitting the loaded arrays into features and
 * label, and the ordered side effects of tracking and persisting the winner.
 */
module Components {
  import opened Results
  import opened Entities
  import opened Effects
  import opened Paths

  /** The `models` catalog, in the insertion order of its dict literal. */
  const Catalog: seq<string> :=
    ["Random_Forest", "Decision_Tree", "Gradient_Boosting", "Logistic_Regression", "AdaBoost"]

  datatype ParamValue = Num(x: real) | Text(s: string)

  /** The `params` grids searched per family (names and values as in the source). */
  const Params: map<string, seq<(string, seq<ParamValue>)>> := map[
    "Decision_Tree" := [("criterion", [Text("gini"), Text("entropy"), Text("log_loss")])],
    "Random_Forest" := [("n_estimators", [Num(8.0), Num(16.0), Num(32.0), Num(64.0), Num(128.0), Num(256.0)])],
    "Gradient_Boosting" := [
      ("learning_rate", [Num(0.1), Num(0.01), Num(0.05), Num(0.001)]),
      ("subsample", [Num(0.6), Num(0.7), Num(0.75), Num(0.8), Num(0.85), Num(0.9)]),
      ("n_estimators", [Num(8.0), Num(16.0), Num(32.0), Num(64.0), Num(128.0), Num(256.0)])],
    "Logistic_Regression" := [],
    "AdaBoost" := [
      ("learning_rate", [Num(0.1), Num(0.01), Num(0.5), Num(0.001)]),
      ("n_estimators", [Num(8.0), Num(16.0), Num(32.0), Num(64.0), Num(128.0), Num(256.0)])]
  ]

  /** Where the bare winning estimator is saved, relative to the working directory. */
  const FinalModelPath: string := "final_model/model.pkl"

  /** The score report of `evaluate_models`: (model name, test score) in dict order. */
  type Report = seq<(string, real)>

  /**
   * The machine-learning library as the trainer uses it: the grid search that
   * scores every family, prediction with a fitted family, and the
   * classification metrics of true against predicted labels. Each of them
   * may raise.
   */
  datatype Learners = Learners(
    evaluate: (seq<string>, map<string, seq<(string, seq<ParamValue>)>>, Array2D, seq<real>, Array2D, seq<real>)
      -> Result<Report, string>,
    predict: (string, Array2D) -> Result<seq<real>, string>,
    classificationScore: (seq<real>, seq<real>) -> Result<ClassificationMetric, string>)

  /** Predict with the named family, then score the prediction against the true labels. */
  function ScoreOn(lib: Learners, name: string, x: Array2D, y: seq<real>): Result<ClassificationMetric, Error>
  {
    match lib.predict(name, x)
    case Failure(reason) => Failure(PredictionFailed(reason))
    case Success(yPred) =>
      match lib.classificationScore(y, yPred)
      case Failure(reason) => Failure(ScoringFailed(reason))
      case Success(metric) => Success(metric)
  }

  // ---------------------------------------------------------------------
  // Best-model selection

  function Scores(report: Report): (scores: seq<real>)
    ensures |scores| == |report|
    ensures forall i :: 0 <= i < |report| ==> scores[i] == report[i].1
  {
    seq(|report|, i requires 0 <= i < |report| => report[i].1)
  }

  /** `max` of a non-empty sequence of scores: one of them, and no smaller than any. */
  function MaxScore(scores: seq<real>): (m: real)
    requires |scores| > 0
    ensures m in scores
    ensures forall i :: 0 <= i < |scores| ==> scores[i] <= m
  {
    if |scores| == 1 then scores[0]
    else
      var rest := MaxScore(scores[1..]);
      if scores[0] >= rest then scores[0] else rest
  }

  /** `sorted` before `max` changes nothing: any reordering of the scores has the same maximum. */
  lemma MaxScoreIgnoresOrder(scores: seq<real>, reordered: seq<real>)
    requires |scores| > 0
    requires multiset(reordered) == multiset(scores)
    ensures |reordered| > 0
    ensures MaxScore(reordered) == MaxScore(scores)
  {
    assert scores[0] in multiset(reordered);
    var m := MaxScore(scores);
    var n := MaxScore(reordered);
    assert m in multiset(reordered);
    assert n in multiset(scores);
    assert m <= n by {
      var i :| 0 <= i < |reordered| && reordered[i] == m;
    }
    assert n <= m by {
      var i :| 0 <= i < |scores| && scores[i] == n;
    }
  }

  /** `list.index`: the first position holding the value, if any. */
  function IndexOf(s: seq<real>, v: real): (r: Option<nat>)
    ensures r.Some? ==> r.value < |s| && s[r.value] == v && forall j :: 0 <= j < r.value ==> s[j] != v
    ensures r.None? ==> v !in s
  {
    if s == [] then None
    else if s[0] == v then Some(0)
    else match IndexOf(s[1..], v)
      case None => None
      case Some(i) => Some(i + 1)
  }

  /** The winner: its position in the report, its name and its score. */
  datatype Selection = Selection(index: nat, name: string, score: real)

  /**
   * `max(sorted(report.values()))`, then the key at the first position of that
   * value: the best score, and the first family in report order reaching it.
   */
  function SelectBestModel(report: Report): (r: Result<Selection, Error>)
    ensures r.Success? <==> |report| > 0
    ensures r.Failure? ==> r.error == EmptyReport
    ensures r.Success? ==>
      && r.value.index < |report|
      && report[r.value.index] == (r.value.name, r.value.score)
      && (forall i :: 0 <= i < |report| ==> report[i].1 <= r.value.score)
      && (forall j :: 0 <= j < r.value.index ==> report[j].1 < r.value.score)
  {
    if |report| == 0 then Failure(EmptyReport)
    else
      var scores := Scores(report);
      var best := MaxScore(scores);
      match IndexOf(scores, best)
      case Some(k) => Success(Selection(k, report[k].0, best))
      case None => assert false; Failure(EmptyReport)
  }

  /**
   * The tie-break is first occurrence: whenever position k holds the maximum
   * and every earlier score is strictly below it, the winner is position k.
   */
  lemma SelectionIsFirstMaximum(report: Report, k: nat)
    requires k < |report|
    requires forall i :: 0 <= i < |report| ==> report[i].1 <= report[k].1
    requires forall j :: 0 <= j < k ==> report[j].1 < report[k].1
    ensures SelectBestModel(report).Success?
    ensures SelectBestModel(report).value.index == k
    ensures SelectBestModel(report).value.name == report[k].0
  {
  }

  // ---------------------------------------------------------------------
  // Features and label

  /** `arr[:, :-1]`: every row without its last element. */
  function Features(a: Array2D): (x: Array2D)
    requires a.cols > 0
  {
    NdArray(a.cols - 1, seq(|a.rows|, i requires 0 <= i < |a.rows| => a.rows[i][..a.cols - 1]))
  }

  /** `arr[:, -1]`: the last element of every row. */
  function Labels(a: Array2D): (y: seq<real>)
    requires a.cols > 0
  {
    seq(|a.rows|, i requires 0 <= i < |a.rows| => a.rows[i][a.cols - 1])
  }

  /**
   * Splits an array into features and label; indexing column -1 raises when
   * the array has no columns.
   */
  function SplitFeaturesAndLabel(a: Array2D): (r: Result<(Array2D, seq<real>), Error>)
    ensures r.Success? <==> a.cols > 0
    ensures r.Failure? ==> r.error == NoLabelColumn
    ensures r.Success? ==>
      && r.value.0.cols == a.cols - 1
      && |r.value.0.rows| == |r.value.1| == |a.rows|
      && forall i :: 0 <= i < |a.rows| ==> r.value.0.rows[i] + [r.value.1[i]] == a.rows[i]
  {
    if a.cols == 0 then Failure(NoLabelColumn)
    else
      var x := Features(a);
      var y := Labels(a);
      assert forall i :: 0 <= i < |a.rows| ==> x.rows[i] + [y[i]] == a.rows[i] by {
        forall i | 0 <= i < |a.rows|
          ensures x.rows[i] + [y[i]] == a.rows[i]
        {
          assert a.rows[i] == a.rows[i][..a.cols - 1] + [a.rows[i][a.cols - 1]];
        }
      }
      Success((x, y))
  }

  /** Stacks a label column to the right of a feature array (numpy's `np.c_`). */
  function AppendColumn(x: Array2D, y: seq<real>): Array2D
    requires |y| == |x.rows|
  {
    NdArray(x.cols + 1, seq(|x.rows|, i requires 0 <= i < |x.rows| => x.rows[i] + [y[i]]))
  }

  /** Splitting and stacking back gives the original array. */
  lemma SplitThenAppend(a: Array2D)
    requires a.cols > 0
    ensures SplitFeaturesAndLabel(a).Success?
    ensures AppendColumn(SplitFeaturesAndLabel(a).value.0, SplitFeaturesAndLabel(a).value.1) == a
  {
    var (x, y) := SplitFeaturesAndLabel(a).value;
    assert AppendColumn(x, y).rows == a.rows;
  }

  /** Stacking a label column and splitting again gives back the features and the labels. */
  lemma AppendThenSplit(x: Array2D, y: seq<real>)
    requires |y| == |x.rows|
    ensures SplitFeaturesAndLabel(AppendColumn(x, y)) == Success((x, y))
  {
    var a := AppendColumn(x, y);
    var (x', y') := SplitFeaturesAndLabel(a).value;
    assert forall i :: 0 <= i < |x.rows| ==> a.rows[i] == x.rows[i] + [y[i]];
    assert x'.rows == x.rows by {
      forall i | 0 <= i < |x.rows|
        ensures x'.rows[i] == x.rows[i]
      {
        assert x'.rows[i] + [y'[i]] == x.rows[i] + [y[i]];
        assert x'.rows[i] == (x'.rows[i] + [y'[i]])[..|x.rows[i]|];
      }
    }
    assert y' == y by {
      forall i | 0 <= i < |y|
        ensures y'[i] == y[i]
      {
        assert x'.rows[i] + [y'[i]] == x.rows[i] + [y[i]];
      }
    }
  }

  // ---------------------------------------------------------------------
  // Training, tracking and persistence

  /** The only kinds of call the trainer makes: loads, tracked runs, directory creation and saves. */
  predicate TrainerEffect(e: Effect) {
    e.LoadArray? || e.LoadObject? || e.TrackRun? || e.MakeDirs? || e.SaveObject?
  }

  /**
   * The files `after` differ from `before` at most at `paths`: nothing else is
   * created, changed or removed.
   */
  predicate WritesOnly(before: map<string, Obj>, after: map<string, Obj>, paths: set<string>) {
    && after.Keys <= before.Keys + paths
    && forall p :: p in before && p !in paths ==> p in after && after[p] == before[p]
  }

  /** The two files the trainer is allowed to write. */
  function ModelFiles(config: ModelTrainerConfig): set<string> {
    {config.trainedModelFilePath, FinalModelPath}
  }

  /**
   * The part of train_model after the winner is known: score and track it on
   * the train split, then on the test split, load the preprocessor, create the
   * model directory, save the bundle, save the bare model, and return the
   * artifact.
   */
  function TrackAndPersist(
    config: ModelTrainerConfig, dta: DataTransformationArtifact, lib: Learners, fails: Effect -> bool,
    name: string, xTrain: Array2D, yTrain: seq<real>, xTest: Array2D, yTest: seq<real>, s: State)
    : (out: Exec<ModelTrainerArtifact>)
    ensures s.trace <= out.state.trace
    ensures forall i :: |s.trace| <= i < |out.state.trace| ==> TrainerEffect(out.state.trace[i])
    ensures WritesOnly(s.files, out.state.files, ModelFiles(config))
    ensures out.result.Success? ==>
      && out.result.value.trainedModelFilePath == config.trainedModelFilePath
      && FinalModelPath in out.state.files && out.state.files[FinalModelPath].Estimator?
  {
    var trainMetric := ScoreOn(lib, name, xTrain, yTrain);
    if trainMetric.Failure? then Exec(Failure(trainMetric.error), s) else
    var t1 := Step(s, TrackRun(name, trainMetric.value), fails);
    if t1.result.Failure? then Propagate(t1) else
    var testMetric := ScoreOn(lib, name, xTest, yTest);
    if testMetric.Failure? then Exec(Failure(testMetric.error), t1.state) else
    var t2 := Step(t1.state, TrackRun(name, testMetric.value), fails);
    if t2.result.Failure? then Propagate(t2) else
    Persist(config, dta, fails, name, trainMetric.value, testMetric.value, t2.state)
  }

  /**
   * The end of train_model: load the preprocessor, create the model
   * directory, save the bundle, save the bare model, and return the artifact.
   */
  function Persist(
    config: ModelTrainerConfig, dta: DataTransformationArtifact, fails: Effect -> bool,
    name: string, trainMetric: ClassificationMetric, testMetric: ClassificationMetric, s: State)
    : (out: Exec<ModelTrainerArtifact>)
    ensures s.trace <= out.state.trace
    ensures forall i :: |s.trace| <= i < |out.state.trace| ==> TrainerEffect(out.state.trace[i])
    ensures WritesOnly(s.files, out.state.files, ModelFiles(config))
    ensures out.result.Success? ==>
      && out.result.value.trainedModelFilePath == config.trainedModelFilePath
      && FinalModelPath in out.state.files && out.state.files[FinalModelPath].Estimator?
  {
    var pre := LoadObjectSpec(s, dta.transformedObjectFilePath, fails);
    if pre.result.Failure? then Propagate(pre) else
    var md := Step(pre.state, MakeDirs(Dirname(config.trainedModelFilePath)), fails);
    if md.result.Failure? then Propagate(md) else
    var model := Estimator(name);
    var sb := Step(md.state, SaveObject(config.trainedModelFilePath, NetworkModel(pre.result.value, model)), fails);
    if sb.result.Failure? then Propagate(sb) else
    var sm := Step(sb.state, SaveObject(FinalModelPath, model), fails);
    if sm.result.Failure? then Propagate(sm) else
    Exec(Success(ModelTrainerArtifact(config.trainedModelFilePath, trainMetric, testMetric)), sm.state)
  }

  /** train_model: grid-search every family, pick the winner, then track and persist it. */
  function TrainModelSpec(
    config: ModelTrainerConfig, dta: DataTransformationArtifact, lib: Learners, fails: Effect -> bool,
    xTrain: Array2D, yTrain: seq<real>, xTest: Array2D, yTest: seq<real>, s: State)
    : (out: Exec<ModelTrainerArtifact>)
    ensures s.trace <= out.state.trace
    ensures forall i :: |s.trace| <= i < |out.state.trace| ==> TrainerEffect(out.state.trace[i])
    ensures WritesOnly(s.files, out.state.files, ModelFiles(config))
    ensures out.result.Success? ==>
      && out.result.value.trainedModelFilePath == config.trainedModelFilePath
      && FinalModelPath in out.state.files && out.state.files[FinalModelPath].Estimator?
  {
    match lib.evaluate(Catalog, Params, xTrain, yTrain, xTest, yTest)
    case Failure(reason) => Exec(Failure(EvaluationFailed(reason)), s)
    case Success(report) =>
      match SelectBestModel(report)
      case Failure(e) => Exec(Failure(e), s)
      case Success(sel) =>
        if sel.name !in Catalog then Exec(Failure(UnknownModel(sel.name)), s)
        else TrackAndPersist(config, dta, lib, fails, sel.name, xTrain, yTrain, xTest, yTest, s)
  }

  /** The body of initiate_model_trainer's `try`: load both arrays, split them, train. */
  function LoadAndTrain(config: ModelTrainerConfig, dta: DataTransformationArtifact, lib: Learners,
    fails: Effect -> bool, s: State): (out: Exec<ModelTrainerArtifact>)
    ensures s.trace <= out.state.trace
    ensures forall i :: |s.trace| <= i < |out.state.trace| ==> TrainerEffect(out.state.trace[i])
    ensures WritesOnly(s.files, out.state.files, ModelFiles(config))
    ensures out.result.Success? ==>
      && out.result.value.trainedModelFilePath == config.trainedModelFilePath
      && FinalModelPath in out.state.files && out.state.files[FinalModelPath].Estimator?
  {
    var train := LoadArraySpec(s, dta.transformedTrainFilePath, fails);
    if train.result.Failure? then Propagate(train) else
    var test := LoadArraySpec(train.state, dta.transformedTestFilePath, fails);
    if test.result.Failure? then Propagate(test) else
    match SplitFeaturesAndLabel(train.result.value)
    case Failure(e) => Exec(Failure(e), test.state)
    case Success(trainXY) =>
      match SplitFeaturesAndLabel(test.result.value)
      case Failure(e) => Exec(Failure(e), test.state)
      case Success(testXY) =>
        TrainModelSpec(config, dta, lib, fails, trainXY.0, trainXY.1, testXY.0, testXY.1, test.state)
  }

  /** initiate_model_trainer: any failure is re-raised wrapped in the domain exception. */
  function InitiateModelTrainerSpec(config: ModelTrainerConfig, dta: DataTransformationArtifact, lib: Learners,
    fails: Effect -> bool, s: State): (out: Exec<ModelTrainerArtifact>)
    ensures s.trace <= out.state.trace
    ensures forall i :: |s.trace| <= i < |out.state.trace| ==> TrainerEffect(out.state.trace[i])
    ensures WritesOnly(s.files, out.state.files, ModelFiles(config))
    ensures out.result.Success? ==>
      && out.result.value.trainedModelFilePath == config.trainedModelFilePath
      && FinalModelPath in out.state.files && out.state.files[FinalModelPath].Estimator?
    ensures out.result.Failure? ==> out.result.error.Wrapped? && out.result.error.site == InitiateModelTrainer
  {
    WrapFailure(InitiateModelTrainer, LoadAndTrain(config, dta, lib, fails, s))
  }

  /**
   * A successful persistence phase makes exactly these calls, in this order:
   * the train-split run and then the test-split run of the tracker (same
   * model name, metrics of each split's labels against its predictions), the
   * preprocessor load, the directory creation, the bundle save and the bare
   * model save; the files change only by those two saves, the bare model
   * last; and the artifact echoes the configured path and both metrics.
   */
  lemma {:induction false} PersistedInOrder(
    config: ModelTrainerConfig, dta: DataTransformationArtifact, lib: Learners, fails: Effect -> bool,
    name: string, xTrain: Array2D, yTrain: seq<real>, xTest: Array2D, yTest: seq<real>, s: State)
    requires TrackAndPersist(config, dta, lib, fails, name, xTrain, yTrain, xTest, yTest, s).result.Success?
    ensures
      var out := TrackAndPersist(config, dta, lib, fails, name, xTrain, yTrain, xTest, yTest, s);
      var trainMetric := ScoreOn(lib, name, xTrain, yTrain);
      var testMetric := ScoreOn(lib, name, xTest, yTest);
      var path := config.trainedModelFilePath;
      var preprocessor := dta.transformedObjectFilePath;
      && trainMetric.Success? && testMetric.Success?
      && preprocessor in s.files
      && out.state.trace == s.trace + [
           TrackRun(name, trainMetric.value),
           TrackRun(name, testMetric.value),
           LoadObject(preprocessor),
           MakeDirs(Dirname(path)),
           SaveObject(path, NetworkModel(s.files[preprocessor], Estimator(name))),
           SaveObject(FinalModelPath, Estimator(name))]
      && out.state.files == s.files[path := NetworkModel(s.files[preprocessor], Estimator(name))][FinalModelPath := Estimator(name)]
      && out.result.value == ModelTrainerArtifact(path, trainMetric.value, testMetric.value)
  {
  }

  /**
   * Prediction or scoring on the test split can raise after the train-split
   * run was already tracked: the run stays recorded and nothing is saved.
   */
  lemma TestScoringFailsAfterTrainRun(
    config: ModelTrainerConfig, dta: DataTransformationArtifact, lib: Learners, fails: Effect -> bool,
    name: string, xTrain: Array2D, yTrain: seq<real>, xTest: Array2D, yTest: seq<real>, s: State)
    requires ScoreOn(lib, name, xTrain, yTrain).Success?
    requires !fails(TrackRun(name, ScoreOn(lib, name, xTrain, yTrain).value))
    requires ScoreOn(lib, name, xTest, yTest).Failure?
    ensures
      var out := TrackAndPersist(config, dta, lib, fails, name, xTrain, yTrain, xTest, yTest, s);
      && out.result == Failure(ScoreOn(lib, name, xTest, yTest).error)
      && out.state == State(s.files, s.trace + [TrackRun(name, ScoreOn(lib, name, xTrain, yTrain).value)])
  {
  }

  /**
   * A trained-model path without a directory part makes os.makedirs('')
   * raise: persistence fails before either save, so no file changes.
   */
  lemma PathWithoutDirectoryFails(
    config: ModelTrainerConfig, dta: DataTransformationArtifact, lib: Learners, fails: Effect -> bool,
    name: string, xTrain: Array2D, yTrain: seq<real>, xTest: Array2D, yTest: seq<real>, s: State)
    requires forall k :: 0 <= k < |config.trainedModelFilePath| ==> config.trainedModelFilePath[k] != '/'
    ensures
      var out := TrackAndPersist(config, dta, lib, fails, name, xTrain, yTrain, xTest, yTest, s);
      out.result.Failure? && out.state.files == s.files
  {
    DirnameWithoutSlash(config.trainedModelFilePath);
  }

  /**
   * When train_model succeeds, the model published at the fixed path is a
   * catalogue family, and it is the family at the first position of the
   * report holding the highest score.
   */
  lemma TrainedModelIsBestScoring(
    config: ModelTrainerConfig, dta: DataTransformationArtifact, lib: Learners, fails: Effect -> bool,
    xTrain: Array2D, yTrain: seq<real>, xTest: Array2D, yTest: seq<real>, s: State, report: Report)
    requires lib.evaluate(Catalog, Params, xTrain, yTrain, xTest, yTest) == Success(report)
    requires TrainModelSpec(config, dta, lib, fails, xTrain, yTrain, xTest, yTest, s).result.Success?
    ensures
      var files := TrainModelSpec(config, dta, lib, fails, xTrain, yTrain, xTest, yTest, s).state.files;
      && FinalModelPath in files && files[FinalModelPath].Estimator?
      && files[FinalModelPath].name in Catalog
      && exists k :: 0 <= k < |report| && report[k].0 == files[FinalModelPath].name
           && (forall j :: 0 <= j < |report| ==> report[j].1 <= report[k].1)
           && (forall j :: 0 <= j < k ==> report[j].1 < report[k].1)
  {
    var sel := SelectBestModel(report).value;
    PersistedInOrder(config, dta, lib, fails, sel.name, xTrain, yTrain, xTest, yTest, s);
    assert report[sel.index].0 == sel.name;
  }

  /**
   * The model trainer: built from its configuration and the transformation
   * artifact, it trains, tracks and persists the best model.
   */
  class ModelTrainer {
    const modelTrainerConfig: ModelTrainerConfig
    const dataTransformationArtifact: DataTransformationArtifact

    constructor(modelTrainerConfig: ModelTrainerConfig, dataTransformationArtifact: DataTransformationArtifact)
      ensures this.modelTrainerConfig == modelTrainerConfig
      ensures this.dataTransformationArtifact == dataTransformationArtifact
    {
      this.modelTrainerConfig := modelTrainerConfig;
      this.dataTransformationArtifact := dataTransformationArtifact;
    }

    /** track_mlflow: one tracked run carrying the three metrics and the model. */
    method TrackMlflow(world: World, modelName: string, metric: ClassificationMetric) returns (r: Result<(), Error>)
      modifies world
      ensures Exec(r, world.Snapshot()) == Step(old(world.Snapshot()), TrackRun(modelName, metric), world.fails)
    {
      r := world.Perform(TrackRun(modelName, metric));
    }

    method TrainModel(world: World, lib: Learners, xTrain: Array2D, yTrain: seq<real>, xTest: Array2D, yTest: seq<real>)
      returns (r: Result<ModelTrainerArtifact, Error>)
      modifies world
      ensures Exec(r, world.Snapshot()) == TrainModelSpec(modelTrainerConfig, dataTransformationArtifact, lib,
        world.fails, xTrain, yTrain, xTest, yTest, old(world.Snapshot()))
    {
      var modelReport := lib.evaluate(Catalog, Params, xTrain, yTrain, xTest, yTest);
      if modelReport.Failure? {
        return Failure(EvaluationFailed(modelReport.error));
      }
      var best := SelectBestModel(modelReport.value);
      if best.Failure? {
        return Failure(best.error);
      }
      var bestModelName := best.value.name;
      if bestModelName !in Catalog {
        return Failure(UnknownModel(bestModelName));
      }
      var bestModel := Estimator(bestModelName);
      var yTrainPred := lib.predict(bestModelName, xTrain);
      if yTrainPred.Failure? {
        return Failure(PredictionFailed(yTrainPred.error));
      }
      var trainMetric := lib.classificationScore(yTrain, yTrainPred.value);
      if trainMetric.Failure? {
        return Failure(ScoringFailed(trainMetric.error));
      }
      var tracked := TrackMlflow(world, bestModelName, trainMetric.value);
      if tracked.Failure? {
        return Failure(tracked.error);
      }
      var yTestPred := lib.predict(bestModelName, xTest);
      if yTestPred.Failure? {
        return Failure(PredictionFailed(yTestPred.error));
      }
      var testMetric := lib.classificationScore(yTest, yTestPred.value);
      if testMetric.Failure? {
        return Failure(ScoringFailed(testMetric.error));
      }
      tracked := TrackMlflow(world, bestModelName, testMetric.value);
      if tracked.Failure? {
        return Failure(tracked.error);
      }
      var preprocessor := world.ReadObject(dataTransformationArtifact.transformedObjectFilePath);
      if preprocessor.Failure? {
        return Failure(preprocessor.error);
      }
      var made := world.Perform(MakeDirs(Dirname(modelTrainerConfig.trainedModelFilePath)));
      if made.Failure? {
        return Failure(made.error);
      }
      var networkModel := NetworkModel(preprocessor.value, bestModel);
      var saved := world.Perform(SaveObject(modelTrainerConfig.trainedModelFilePath, networkModel));
      if saved.Failure? {
        return Failure(saved.error);
      }
      saved := world.Perform(SaveObject(FinalModelPath, bestModel));
      if saved.Failure? {
        return Failure(saved.error);
      }
      r := Success(ModelTrainerArtifact(modelTrainerConfig.trainedModelFilePath, trainMetric.value, testMetric.value));
    }

    method InitiateModelTrainer(world: World, lib: Learners) returns (r: Result<ModelTrainerArtifact, Error>)
      modifies world
      ensures Exec(r, world.Snapshot()) == InitiateModelTrainerSpec(modelTrainerConfig, dataTransformationArtifact, lib,
        world.fails, old(world.Snapshot()))
    {
      var trainArr := world.ReadArray(dataTransformationArtifact.transformedTrainFilePath);
      if trainArr.Failure? {
        return Failure(Wrapped(Site.InitiateModelTrainer, trainArr.error));
      }
      var testArr := world.ReadArray(dataTransformationArtifact.transformedTestFilePath);
      if testArr.Failure? {
        return Failure(Wrapped(Site.InitiateModelTrainer, testArr.error));
      }
      var trainXY := SplitFeaturesAndLabel(trainArr.value);
      if trainXY.Failure? {
        return Failure(Wrapped(Site.InitiateModelTrainer, trainXY.error));
      }
      var testXY := SplitFeaturesAndLabel(testArr.value);
      if testXY.Failure? {
        return Failure(Wrapped(Site.InitiateModelTrainer, testXY.error));
      }
      var (xTrain, yTrain) := trainXY.value;
      var (xTest, yTest) := testXY.value;
      r := TrainModel(world, lib, xTrain, yTrain, xTest, yTest);
      if r.Failure? {
        r := Failure(Wrapped(Site.InitiateModelTrainer, r.error));
      }
    }
  }
}
