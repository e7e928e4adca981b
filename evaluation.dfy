/** GTSRB._evaluate: the training set it builds, the metrics it feeds batch by batch,
    the labels each accuracy is scored against, and the result keys it reports. */
module Evaluation {
  import opened Common
  import opened Accuracy
  import opened MetricLists
  import opened Poisoning
  import opened TrainingSet

  /** classifier.predict after training as planned: class scores for a batch of images. */
  type Predict = (TrainPlan<Image>, seq<Image>) -> NdArray

  /** The scores categorical_accuracy gives, as a MetricList records them. */
  function Acc(y: NdArray, yPred: NdArray): Result<seq<real>>
  {
    AsReals(CategoricalAccuracy(y, yPred))
  }

  /** The label vector of a batch, or [cls] * n. */
  function Labels(ys: seq<int>): NdArray { Vec(ys) }

  /** y_pred[y == cls]: the predictions of the samples labelled cls, in order; a
      zero-dimensional prediction or one of another length than y raises an IndexError. */
  function RowsWithLabel(pred: NdArray, ys: seq<int>, cls: int): (r: Result<NdArray>)
    ensures r.Failure? <==> pred.Scalar? || Len(pred) != Success(|ys|)
    ensures r.Failure? ==> r.error == MaskLength
    ensures r.Success? ==> Len(r.value) == Success(|PositionsOf(ys, cls)|)
    ensures r.Success? && pred.Mat? ==>
      var kept := PositionsOf(ys, cls);
      r.value.Mat? && r.value.width == pred.width &&
      forall k :: 0 <= k < |kept| ==> r.value.rows[k] == pred.rows[kept[k]]
  {
    match pred
    case Scalar(_) => Failure(MaskLength)
    case Vec(xs) => if |xs| != |ys| then Failure(MaskLength) else Success(Vec(Select(xs, PositionsOf(ys, cls))))
    case Mat(w, rows) =>
      if |rows| != |ys| then Failure(MaskLength) else Success(Mat(w, Select(rows, PositionsOf(ys, cls))))
  }

  /** Scores for two metric lists. */
  type Scores = (seq<real>, seq<real>)

  /** Accumulating one batch's scores after the earlier batches' scores. */
  function Then(prev: Result<Scores>, step: Result<Scores>): Result<Scores>
  {
    match prev
    case Failure(e) => Failure(e)
    case Success(p) =>
      match step
      case Failure(e) => Failure(e)
      case Success(s) => Success((p.0 + s.0, p.1 + s.1))
  }

  /** Batch after batch: the first batch that raises ends the evaluation. */
  function Accumulate(steps: seq<Result<Scores>>): Result<Scores>
  {
    if steps == [] then Success(([], [])) else Then(Accumulate(steps[..|steps| - 1]), steps[|steps| - 1])
  }

  lemma {:induction false} AccumulateFailurePersists(steps: seq<Result<Scores>>, i: nat)
    requires i <= |steps| && Accumulate(steps[..i]).Failure?
    ensures Accumulate(steps) == Accumulate(steps[..i])
    decreases |steps| - i
  {
    if i < |steps| {
      assert steps[..i + 1][..i] == steps[..i];
      AccumulateFailurePersists(steps, i + 1);
    } else {
      assert steps[..i] == steps;
    }
  }

  /** Scores of the predictions labelled cls against [against] * n; nothing when no sample has label cls. */
  function ClassScores(pred: NdArray, ys: seq<int>, cls: int, against: int): Result<seq<real>>
  {
    match RowsWithLabel(pred, ys, cls)
    case Failure(e) => Failure(e)
    case Success(t) =>
      match Len(t)
      case Failure(e) => Failure(e)
      case Success(n) => if n == 0 then Success([]) else Acc(Labels(Repeat(against, n)), t)
  }

  /** One clean test batch: validation_metric against the true labels, and
      target_class_benign_metric on the source-class samples against src. */
  function ValidationStep(plan: TrainPlan<Image>, predict: Predict, b: Batch<Image>, src: int): Result<Scores>
  {
    var pred := predict(plan, b.xs);
    match Acc(Labels(b.ys), pred)
    case Failure(e) => Failure(e)
    case Success(v) =>
      match ClassScores(pred, b.ys, src, src)
      case Failure(e) => Failure(e)
      case Success(t) => Success((v, t))
  }

  function ValidationSteps(plan: TrainPlan<Image>, predict: Predict, bs: seq<Batch<Image>>, src: int)
    : seq<Result<Scores>>
  {
    seq(|bs|, i requires 0 <= i < |bs| => ValidationStep(plan, predict, bs[i], src))
  }

  /** One test batch with every source-class image poisoned: test_metric against the
      true labels, targeted_test_metric on the source-class samples against tgt. */
  function PoisonedTestStep(plan: TrainPlan<Image>, predict: Predict, attack: Attack, b: Batch<Image>,
                            src: int, tgt: int): Result<Scores>
  {
    match PoisonedAll(b.xs, b.ys, src, tgt, |b.ys|, attack, PositionsOf(b.ys, src))
    case Failure(e) => Failure(e)
    case Success(poisoned) =>
      var pred := predict(plan, poisoned.0);
      match Acc(Labels(b.ys), pred)
      case Failure(e) => Failure(e)
      case Success(v) =>
        match ClassScores(pred, b.ys, src, tgt)
        case Failure(e) => Failure(e)
        case Success(t) => Success((v, t))
  }

  function PoisonedTestSteps(plan: TrainPlan<Image>, predict: Predict, attack: Attack, bs: seq<Batch<Image>>,
                             src: int, tgt: int): seq<Result<Scores>>
  {
    seq(|bs|, i requires 0 <= i < |bs| => PoisonedTestStep(plan, predict, attack, bs[i], src, tgt))
  }

  /** One preloaded poison test batch: test_metric against [src] * n,
      targeted_test_metric against the poison labels. */
  function PreloadedTestStep(plan: TrainPlan<Image>, predict: Predict, b: Batch<Image>, src: int): Result<Scores>
  {
    var pred := predict(plan, b.xs);
    match Len(pred)
    case Failure(e) => Failure(e)
    case Success(n) =>
      match Acc(Labels(b.ys), pred)
      case Failure(e) => Failure(e)
      case Success(t) =>
        match Acc(Labels(Repeat(src, n)), pred)
        case Failure(e) => Failure(e)
        case Success(v) => Success((v, t))
  }

  function PreloadedTestSteps(plan: TrainPlan<Image>, predict: Predict, bs: seq<Batch<Image>>, src: int)
    : seq<Result<Scores>>
  {
    seq(|bs|, i requires 0 <= i < |bs| => PreloadedTestStep(plan, predict, bs[i], src))
  }

  /** One clean test batch after the preloaded poison: test_metric only. */
  function CleanTestStep(plan: TrainPlan<Image>, predict: Predict, b: Batch<Image>): Result<Scores>
  {
    match Acc(Labels(b.ys), predict(plan, b.xs))
    case Failure(e) => Failure(e)
    case Success(v) => Success((v, []))
  }

  function CleanTestSteps(plan: TrainPlan<Image>, predict: Predict, bs: seq<Batch<Image>>): seq<Result<Scores>>
  {
    seq(|bs|, i requires 0 <= i < |bs| => CleanTestStep(plan, predict, bs[i]))
  }

  /** The targeted-class validation accuracy is the validation accuracy restricted to
      the source-class samples: for score matrices, both are argmax hits. */
  lemma TargetedClassIsRestrictedValidation(pred: NdArray, ys: seq<int>, src: int)
    requires pred.Mat? && pred.width > 0 && |pred.rows| == |ys|
    ensures var v := Acc(Labels(ys), pred);
      var t := ClassScores(pred, ys, src, src);
      var kept := PositionsOf(ys, src);
      v.Success? && t.Success? && |t.value| == |kept| &&
      (forall i :: 0 <= i < |ys| ==> v.value[i] == (if ys[i] == Argmax(pred.rows[i]) then 1.0 else 0.0)) &&
      (forall k :: 0 <= k < |kept| ==> t.value[k] == v.value[kept[k]])
  {
    var kept := PositionsOf(ys, src);
    var rows := RowsWithLabel(pred, ys, src).value;
    if |kept| > 0 {
      var c := CategoricalAccuracy(Labels(Repeat(src, |kept|)), rows);
      assert c.Success? && |c.value| == |kept|;
    }
  }

  /** Under poisoned testing, a targeted score is 1 exactly when the poisoned
      source-class image is classified as the target class, and a test score is 1
      exactly when the prediction matches the true label. */
  lemma PoisonedTestScoresAgainstTarget(plan: TrainPlan<Image>, predict: Predict, attack: Attack,
                                        b: Batch<Image>, src: int, tgt: int)
    requires |b.xs| == |b.ys|
    requires var poisoned := PoisonedAll(b.xs, b.ys, src, tgt, |b.ys|, attack, PositionsOf(b.ys, src)).value.0;
      var pred := predict(plan, poisoned);
      pred.Mat? && pred.width > 0 && |pred.rows| == |b.ys|
    ensures var poisoned := PoisonedAll(b.xs, b.ys, src, tgt, |b.ys|, attack, PositionsOf(b.ys, src)).value.0;
      var pred := predict(plan, poisoned);
      var kept := PositionsOf(b.ys, src);
      var r := PoisonedTestStep(plan, predict, attack, b, src, tgt);
      r.Success? && |r.value.0| == |b.ys| && |r.value.1| == |kept| &&
      (forall i :: 0 <= i < |b.ys| ==> r.value.0[i] == (if b.ys[i] == Argmax(pred.rows[i]) then 1.0 else 0.0)) &&
      (forall k :: 0 <= k < |kept| ==> r.value.1[k] == (if tgt == Argmax(pred.rows[kept[k]]) then 1.0 else 0.0))
  {
    var poisoned := PoisonedAll(b.xs, b.ys, src, tgt, |b.ys|, attack, PositionsOf(b.ys, src)).value.0;
    var pred := predict(plan, poisoned);
    var kept := PositionsOf(b.ys, src);
    var rows := RowsWithLabel(pred, b.ys, src).value;
    if |kept| > 0 {
      var c := CategoricalAccuracy(Labels(Repeat(tgt, |kept|)), rows);
      assert c.Success? && |c.value| == |kept|;
    }
  }

  /** On the preloaded path, a poison test batch scores test_metric against the source
      class and targeted_test_metric against the poison batch's own labels; a clean test
      batch scores test_metric against its true labels and leaves targeted_test_metric alone. */
  lemma PreloadedTestScoresAgainstSource(plan: TrainPlan<Image>, predict: Predict, b: Batch<Image>, src: int)
    requires var pred := predict(plan, b.xs);
      pred.Mat? && pred.width > 0 && |pred.rows| == |b.ys|
    ensures var pred := predict(plan, b.xs);
      var r := PreloadedTestStep(plan, predict, b, src);
      r.Success? && |r.value.0| == |b.ys| && |r.value.1| == |b.ys| &&
      (forall i :: 0 <= i < |b.ys| ==> r.value.0[i] == (if src == Argmax(pred.rows[i]) then 1.0 else 0.0)) &&
      (forall i :: 0 <= i < |b.ys| ==> r.value.1[i] == (if b.ys[i] == Argmax(pred.rows[i]) then 1.0 else 0.0))
    ensures var pred := predict(plan, b.xs);
      var c := CleanTestStep(plan, predict, b);
      c.Success? && |c.value.0| == |b.ys| && c.value.1 == [] &&
      (forall i :: 0 <= i < |b.ys| ==> c.value.0[i] == (if b.ys[i] == Argmax(pred.rows[i]) then 1.0 else 0.0))
  {
    var pred := predict(plan, b.xs);
    var v := CategoricalAccuracy(Labels(Repeat(src, |b.ys|)), pred);
    assert v.Success? && |v.value| == |b.ys|;
  }

  /** Result keys of _evaluate. */
  const ValidationAccuracy := "validation_accuracy"
  const ValidationAccuracyTargeted := "validation_accuracy_targeted_class"
  const TestAccuracy := "test_accuracy"
  const TargetedMisclassification := "targeted_misclassification_accuracy"

  /** The configuration values _evaluate reads besides the data and the collaborators. */
  datatype Settings = Settings(
    srcClass: int,
    tgtClass: int,
    fractionPoisoned: real,
    poisonDataset: bool,
    preloaded: bool,
    numImagesTargetClass: int,
    usePoisonFilteringDefense: bool,
    checkRun: bool,
    numEvalBatches: Option<int>)

  /** The means a results dictionary holds; a metric without values raises. */
  function MeanPair(s: Scores, first: string, second: string): (r: Result<map<string, real>>)
    ensures r.Failure? <==> s.0 == [] || s.1 == []
    ensures r.Success? ==> r.value.Keys == {first, second}
    ensures r.Success? ==> MeanOf(s.0).Success? && MeanOf(s.1).Success? && r.value[second] == MeanOf(s.1).value
    ensures r.Success? && first != second ==> r.value[first] == MeanOf(s.0).value
  {
    match MeanOf(s.0)
    case Failure(e) => Failure(e)
    case Success(m0) =>
      match MeanOf(s.1)
      case Failure(e) => Failure(e)
      case Success(m1) => Success(map[first := m0, second := m1])
  }

  /** The training set before filtering. */
  function TrainingData(cfg: Settings, clean: seq<Batch<Image>>, poison: seq<Batch<Image>>,
                        attack: Attack, draw: Draw): Result<Batch<Image>>
  {
    if cfg.preloaded then
      match PreloadedPoisonCount(cfg.fractionPoisoned, cfg.numImagesTargetClass)
      case Failure(e) => Failure(e)
      case Success(_) =>
        if clean == [] then Failure(NothingToConcatenate)
        else if |poison| < |clean| then Failure(PoisonExhausted)
        else Success(Flatten(Interleave(clean, poison)))
    else if clean == [] then Failure(NothingToConcatenate)
    else
      var all := Flatten(clean);
      if !cfg.poisonDataset then Success(all)
      else
        match PoisonedTrainingSet(all.xs, all.ys, cfg.srcClass, cfg.tgtClass, cfg.fractionPoisoned, attack, draw)
        case Failure(e) => Failure(e)
        case Success(p) => Success(Batch(p.0, p.1))
  }

  /** The test metrics' scores, when they are reported. */
  function TestScores(cfg: Settings, plan: TrainPlan<Image>, predict: Predict, attack: Attack,
                      test: seq<Batch<Image>>, poisonTest: seq<Batch<Image>>): Result<Scores>
  {
    if cfg.preloaded then
      Accumulate(PreloadedPathSteps(plan, predict, test, poisonTest, cfg.srcClass))
    else if cfg.poisonDataset then Accumulate(PoisonedTestSteps(plan, predict, attack, test, cfg.srcClass, cfg.tgtClass))
    else Success(([], []))
  }

  function NumEvalBatchesGiven(n: Option<int>): bool { n.Some? && n.value != 0 }

  /** The whole of _evaluate as a value. */
  function EvaluationResults(cfg: Settings, clean: seq<Batch<Image>>, poison: seq<Batch<Image>>,
                             test: seq<Batch<Image>>, poisonTest: seq<Batch<Image>>,
                             attack: Attack, draw: Draw, detect: Detector<Image>, predict: Predict)
    : Result<map<string, real>>
  {
    if NumEvalBatchesGiven(cfg.numEvalBatches) then Failure(NumEvalBatchesSet)
    else
      match TrainingData(cfg, clean, poison, attack, draw)
      case Failure(e) => Failure(e)
      case Success(all) =>
        match PlanTraining(all, UseDefense(cfg.usePoisonFilteringDefense, cfg.checkRun), detect)
        case Failure(e) => Failure(e)
        case Success(plan) => ReportedResults(cfg, plan, predict, attack, test, poisonTest)
  }

  /** _evaluate after training: validation, its means, the test loops and their means. */
  function ReportedResults(cfg: Settings, plan: TrainPlan<Image>, predict: Predict, attack: Attack,
                           test: seq<Batch<Image>>, poisonTest: seq<Batch<Image>>): Result<map<string, real>>
  {
    match Accumulate(ValidationSteps(plan, predict, test, cfg.srcClass))
    case Failure(e) => Failure(e)
    case Success(vs) =>
      match MeanPair(vs, ValidationAccuracy, ValidationAccuracyTargeted)
      case Failure(e) => Failure(e)
      case Success(results) =>
        match TestScores(cfg, plan, predict, attack, test, poisonTest)
        case Failure(e) => Failure(e)
        case Success(ts) =>
          if cfg.poisonDataset || cfg.preloaded then
            match MeanPair(ts, TestAccuracy, TargetedMisclassification)
            case Failure(e) => Failure(e)
            case Success(more) => Success(results + more)
          else Success(results)
  }

  /** The validation keys are always reported; the two test keys exactly when the
      training set was poisoned in place or the attack is preloaded. */
  lemma ResultKeys(cfg: Settings, clean: seq<Batch<Image>>, poison: seq<Batch<Image>>,
                   test: seq<Batch<Image>>, poisonTest: seq<Batch<Image>>,
                   attack: Attack, draw: Draw, detect: Detector<Image>, predict: Predict)
    ensures var r := EvaluationResults(cfg, clean, poison, test, poisonTest, attack, draw, detect, predict);
      r.Success? ==>
        r.value.Keys == {ValidationAccuracy, ValidationAccuracyTargeted} +
          (if cfg.poisonDataset || cfg.preloaded then {TestAccuracy, TargetedMisclassification} else {})
  {
  }

  /** The validation keys hold the means of the validation and targeted-class
      validation scores, in that order. */
  lemma ValidationMeansReported(cfg: Settings, plan: TrainPlan<Image>, predict: Predict, attack: Attack,
                                test: seq<Batch<Image>>, poisonTest: seq<Batch<Image>>)
    requires ReportedResults(cfg, plan, predict, attack, test, poisonTest).Success?
    ensures var r := ReportedResults(cfg, plan, predict, attack, test, poisonTest).value;
      var vs := Accumulate(ValidationSteps(plan, predict, test, cfg.srcClass));
      vs.Success? && MeanOf(vs.value.0).Success? && MeanOf(vs.value.1).Success? &&
      r[ValidationAccuracy] == MeanOf(vs.value.0).value &&
      r[ValidationAccuracyTargeted] == MeanOf(vs.value.1).value
  {
    var vs := Accumulate(ValidationSteps(plan, predict, test, cfg.srcClass)).value;
    var results := MeanPair(vs, ValidationAccuracy, ValidationAccuracyTargeted).value;
    var ts := TestScores(cfg, plan, predict, attack, test, poisonTest).value;
    if cfg.poisonDataset || cfg.preloaded {
      var more := MeanPair(ts, TestAccuracy, TargetedMisclassification).value;
      assert ReportedResults(cfg, plan, predict, attack, test, poisonTest).value == results + more;
      assert ValidationAccuracy !in more && ValidationAccuracyTargeted !in more;
    } else {
      assert ReportedResults(cfg, plan, predict, attack, test, poisonTest).value == results;
    }
  }

  /** When the test metrics are reported, their keys hold the means of the test and
      targeted-misclassification scores, in that order. */
  lemma TestMeansReported(cfg: Settings, plan: TrainPlan<Image>, predict: Predict, attack: Attack,
                          test: seq<Batch<Image>>, poisonTest: seq<Batch<Image>>)
    requires cfg.poisonDataset || cfg.preloaded
    requires ReportedResults(cfg, plan, predict, attack, test, poisonTest).Success?
    ensures var r := ReportedResults(cfg, plan, predict, attack, test, poisonTest).value;
      var ts := TestScores(cfg, plan, predict, attack, test, poisonTest);
      ts.Success? && MeanOf(ts.value.0).Success? && MeanOf(ts.value.1).Success? &&
      r[TestAccuracy] == MeanOf(ts.value.0).value &&
      r[TargetedMisclassification] == MeanOf(ts.value.1).value
  {
    var vs := Accumulate(ValidationSteps(plan, predict, test, cfg.srcClass)).value;
    var results := MeanPair(vs, ValidationAccuracy, ValidationAccuracyTargeted).value;
    var ts := TestScores(cfg, plan, predict, attack, test, poisonTest).value;
    var more := MeanPair(ts, TestAccuracy, TargetedMisclassification).value;
    assert ReportedResults(cfg, plan, predict, attack, test, poisonTest).value == results + more;
  }

  /** A set num_eval_batches is refused before anything else happens. */
  lemma NumEvalBatchesRefused(cfg: Settings, clean: seq<Batch<Image>>, poison: seq<Batch<Image>>,
                              test: seq<Batch<Image>>, poisonTest: seq<Batch<Image>>,
                              attack: Attack, draw: Draw, detect: Detector<Image>, predict: Predict)
    requires NumEvalBatchesGiven(cfg.numEvalBatches)
    ensures EvaluationResults(cfg, clean, poison, test, poisonTest, attack, draw, detect, predict)
      == Failure(NumEvalBatchesSet)
  {
  }

  /** MetricList("categorical_accuracy"). */
  method NewAccuracyList(external: ExternalScorers) returns (m: MetricList)
    ensures fresh(m) && m.name == "categorical_accuracy" && m.values == []
    ensures forall a: NdArray, b: NdArray :: m.score(a, b) == Acc(a, b)
  {
    var r := MetricList.FromName("categorical_accuracy", external);
    m := r.value;
  }

  /** The accuracy lists must score with categorical_accuracy. */
  ghost predicate Scoring(m: MetricList)
  {
    forall a: NdArray, b: NdArray :: m.score(a, b) == Acc(a, b)
  }

  lemma AccumulateStep(steps: seq<Result<Scores>>, i: nat)
    requires i < |steps|
    ensures Accumulate(steps[..i + 1]) == Then(Accumulate(steps[..i]), steps[i])
  {
    assert steps[..i + 1][..i] == steps[..i];
  }

  /** One pass of the validation loop body. After an error the lists are left unspecified: _evaluate raises
      at once, so no later read can observe them. */
  method ValidationBatch(validation: MetricList, targeted: MetricList, plan: TrainPlan<Image>,
                         predict: Predict, b: Batch<Image>, src: int)
    returns (err: Option<Error>)
    requires validation != targeted && Scoring(validation) && Scoring(targeted)
    modifies validation, targeted
    ensures var step := ValidationStep(plan, predict, b, src);
      (err.None? <==> step.Success?) && (err.Some? ==> err.value == step.error) &&
      (err.None? ==> validation.values == old(validation.values) + step.value.0 &&
                     targeted.values == old(targeted.values) + step.value.1)
  {
    var yPred := predict(plan, b.xs);
    err := validation.Append(Labels(b.ys), yPred);
    if err.Some? {
      return;
    }
    var yPredTgtClass := RowsWithLabel(yPred, b.ys, src);
    if yPredTgtClass.Failure? {
      return Some(yPredTgtClass.error);
    }
    var n := Len(yPredTgtClass.value).value;
    if n > 0 {
      err := targeted.Append(Labels(Repeat(src, n)), yPredTgtClass.value);
    }
  }

  /** The validation loop: both metrics are fed batch by batch. */
  method Validate(plan: TrainPlan<Image>, predict: Predict, test: seq<Batch<Image>>, src: int,
                  external: ExternalScorers)
    returns (r: Result<(MetricList, MetricList)>)
    ensures var spec := Accumulate(ValidationSteps(plan, predict, test, src));
      (r.Failure? <==> spec.Failure?) && (r.Failure? ==> r.error == spec.error) &&
      (r.Success? ==> r.value.0.values == spec.value.0 && r.value.1.values == spec.value.1)
  {
    var validation := NewAccuracyList(external);
    var targeted := NewAccuracyList(external);
    ghost var steps := ValidationSteps(plan, predict, test, src);
    for i := 0 to |test|
      invariant Accumulate(steps[..i]) == Success((validation.values, targeted.values))
    {
      var err := ValidationPathBatch(validation, targeted, plan, predict, test, src, steps, i);
      if err.Some? {
        return Failure(err.value);
      }
    }
    assert steps[..|test|] == steps;
    return Success((validation, targeted));
  }

  /** Validation batch i as step i of the validation path `steps`. */
  method ValidationPathBatch(validation: MetricList, targeted: MetricList, plan: TrainPlan<Image>,
                             predict: Predict, test: seq<Batch<Image>>, src: int,
                             ghost steps: seq<Result<Scores>>, i: nat)
    returns (err: Option<Error>)
    requires validation != targeted && Scoring(validation) && Scoring(targeted)
    requires i < |test| == |steps| && steps[i] == ValidationStep(plan, predict, test[i], src)
    requires Accumulate(steps[..i]) == Success((validation.values, targeted.values))
    modifies validation, targeted
    ensures err.Some? ==> Accumulate(steps) == Failure(err.value)
    ensures err.None? ==> Accumulate(steps[..i + 1]) == Success((validation.values, targeted.values))
  {
    err := ValidationBatch(validation, targeted, plan, predict, test[i], src);
    AccumulateStep(steps, i);
    if err.Some? {
      AccumulateFailurePersists(steps, i + 1);
    }
  }

  /** One pass of the poisoned-test loop body. After an error the lists are left unspecified: _evaluate raises
      at once, so no later read can observe them. */
  method PoisonedTestBatch(testMetric: MetricList, targetedTestMetric: MetricList, plan: TrainPlan<Image>,
                           predict: Predict, attack: Attack, b: Batch<Image>, src: int, tgt: int)
    returns (err: Option<Error>)
    requires testMetric != targetedTestMetric && Scoring(testMetric) && Scoring(targetedTestMetric)
    modifies testMetric, targetedTestMetric
    ensures var step := PoisonedTestStep(plan, predict, attack, b, src, tgt);
      (err.None? <==> step.Success?) && (err.Some? ==> err.value == step.error) &&
      (err.None? ==> testMetric.values == old(testMetric.values) + step.value.0 &&
                     targetedTestMetric.values == old(targetedTestMetric.values) + step.value.1)
  {
    var srcIndices := PositionsOf(b.ys, src);
    var poisoned := PoisonDataset(b.xs, b.ys, src, tgt, |b.ys|, attack, srcIndices);
    if poisoned.Failure? {
      return Some(poisoned.error);
    }
    var yPred := predict(plan, poisoned.value.0);
    err := testMetric.Append(Labels(b.ys), yPred);
    if err.Some? {
      return;
    }
    var yPredTargeted := RowsWithLabel(yPred, b.ys, src);
    if yPredTargeted.Failure? {
      return Some(yPredTargeted.error);
    }
    var n := Len(yPredTargeted.value).value;
    if n > 0 {
      err := targetedTestMetric.Append(Labels(Repeat(tgt, n)), yPredTargeted.value);
    }
  }

  /** One pass of the preloaded poison test loop body. After an error the lists are left unspecified: _evaluate raises
      at once, so no later read can observe them. */
  method PreloadedTestBatch(testMetric: MetricList, targetedTestMetric: MetricList, plan: TrainPlan<Image>,
                            predict: Predict, b: Batch<Image>, src: int)
    returns (err: Option<Error>)
    requires testMetric != targetedTestMetric && Scoring(testMetric) && Scoring(targetedTestMetric)
    modifies testMetric, targetedTestMetric
    ensures var step := PreloadedTestStep(plan, predict, b, src);
      (err.None? <==> step.Success?) && (err.Some? ==> err.value == step.error) &&
      (err.None? ==> testMetric.values == old(testMetric.values) + step.value.0 &&
                     targetedTestMetric.values == old(targetedTestMetric.values) + step.value.1)
  {
    var yPred := predict(plan, b.xs);
    var n := Len(yPred);
    if n.Failure? {
      return Some(n.error);
    }
    var yTrue := Repeat(src, n.value);
    err := targetedTestMetric.Append(Labels(b.ys), yPred);
    if err.Some? {
      return;
    }
    err := testMetric.Append(Labels(yTrue), yPred);
  }

  /** One pass of the clean test loop body after the preloaded poison: targeted_test_metric is left alone. */
  method CleanTestBatch(testMetric: MetricList, targetedTestMetric: MetricList, plan: TrainPlan<Image>,
                        predict: Predict, b: Batch<Image>)
    returns (err: Option<Error>)
    requires testMetric != targetedTestMetric && Scoring(testMetric)
    modifies testMetric
    ensures var step := CleanTestStep(plan, predict, b);
      (err.None? <==> step.Success?) && (err.Some? ==> err.value == step.error) &&
      (err.None? ==> testMetric.values == old(testMetric.values) + step.value.0 &&
                     targetedTestMetric.values == old(targetedTestMetric.values) + step.value.1)
  {
    var yPred := predict(plan, b.xs);
    err := testMetric.Append(Labels(b.ys), yPred);
    assert targetedTestMetric.values + [] == targetedTestMetric.values;
  }

  /** The preloaded path's batches in order: the poison test batches, then the clean test batches. */
  function PreloadedPathSteps(plan: TrainPlan<Image>, predict: Predict, test: seq<Batch<Image>>,
                              poisonTest: seq<Batch<Image>>, src: int): (steps: seq<Result<Scores>>)
    ensures |steps| == |poisonTest| + |test|
  {
    PreloadedTestSteps(plan, predict, poisonTest, src) + CleanTestSteps(plan, predict, test)
  }

  /** The preloaded path step by step: step k is poison test batch k while k < |poisonTest|,
      and clean test batch k - |poisonTest| after that. */
  lemma PreloadedPathOrder(plan: TrainPlan<Image>, predict: Predict, test: seq<Batch<Image>>,
                           poisonTest: seq<Batch<Image>>, src: int)
    ensures var steps := PreloadedPathSteps(plan, predict, test, poisonTest, src);
      forall k :: 0 <= k < |poisonTest| ==> steps[k] == PreloadedTestStep(plan, predict, poisonTest[k], src)
    ensures var steps := PreloadedPathSteps(plan, predict, test, poisonTest, src);
      forall k :: |poisonTest| <= k < |steps| ==> steps[k] == CleanTestStep(plan, predict, test[k - |poisonTest|])
  {
  }

  /** The preloaded poison test loop: `poison` holds one step per poison test batch, and
      `rest` is whatever the path does after them. */
  method TestPreloadedPoison(testMetric: MetricList, targetedTestMetric: MetricList, plan: TrainPlan<Image>,
                             predict: Predict, poisonTest: seq<Batch<Image>>, src: int,
                             ghost poison: seq<Result<Scores>>, ghost rest: seq<Result<Scores>>)
    returns (err: Option<Error>)
    requires testMetric != targetedTestMetric && Scoring(testMetric) && Scoring(targetedTestMetric)
    requires testMetric.values == [] && targetedTestMetric.values == []
    requires |poison| == |poisonTest|
    requires forall k :: 0 <= k < |poison| ==> poison[k] == PreloadedTestStep(plan, predict, poisonTest[k], src)
    modifies testMetric, targetedTestMetric
    ensures err.Some? ==> Accumulate(poison + rest) == Failure(err.value)
    ensures err.None? ==> Accumulate(poison) == Success((testMetric.values, targetedTestMetric.values))
  {
    for k := 0 to |poisonTest|
      invariant Accumulate(poison[..k]) == Success((testMetric.values, targetedTestMetric.values))
    {
      AccumulateStep(poison, k);
      err := PreloadedTestBatch(testMetric, targetedTestMetric, plan, predict, poisonTest[k], src);
      if err.Some? {
        assert (poison + rest)[..k + 1] == poison[..k + 1];
        AccumulateFailurePersists(poison + rest, k + 1);
        return;
      }
    }
    assert poison[..|poisonTest|] == poison;
    return None;
  }

  /** The preloaded test loops: the poison test batches, then the clean test batches. */
  method TestPreloaded(testMetric: MetricList, targetedTestMetric: MetricList, plan: TrainPlan<Image>,
                       predict: Predict, test: seq<Batch<Image>>, poisonTest: seq<Batch<Image>>, src: int)
    returns (err: Option<Error>)
    requires testMetric != targetedTestMetric && Scoring(testMetric) && Scoring(targetedTestMetric)
    requires testMetric.values == [] && targetedTestMetric.values == []
    modifies testMetric, targetedTestMetric
    ensures var spec := Accumulate(PreloadedPathSteps(plan, predict, test, poisonTest, src));
      (err.None? <==> spec.Success?) && (err.Some? ==> err.value == spec.error) &&
      (err.None? ==> testMetric.values == spec.value.0 && targetedTestMetric.values == spec.value.1)
  {
    err := TestPath(testMetric, targetedTestMetric, plan, predict, test, poisonTest, src,
                    PreloadedTestSteps(plan, predict, poisonTest, src), CleanTestSteps(plan, predict, test));
  }

  /** Both preloaded test loops over a path made of the steps `poison`, one per poison test
      batch, followed by the steps `clean`, one per clean test batch. */
  method TestPath(testMetric: MetricList, targetedTestMetric: MetricList, plan: TrainPlan<Image>,
                  predict: Predict, test: seq<Batch<Image>>, poisonTest: seq<Batch<Image>>, src: int,
                  ghost poison: seq<Result<Scores>>, ghost clean: seq<Result<Scores>>)
    returns (err: Option<Error>)
    requires testMetric != targetedTestMetric && Scoring(testMetric) && Scoring(targetedTestMetric)
    requires testMetric.values == [] && targetedTestMetric.values == []
    requires |poison| == |poisonTest| && |clean| == |test|
    requires forall k :: 0 <= k < |poison| ==> poison[k] == PreloadedTestStep(plan, predict, poisonTest[k], src)
    requires forall k :: 0 <= k < |clean| ==> clean[k] == CleanTestStep(plan, predict, test[k])
    modifies testMetric, targetedTestMetric
    ensures var spec := Accumulate(poison + clean);
      (err.None? <==> spec.Success?) && (err.Some? ==> err.value == spec.error) &&
      (err.None? ==> testMetric.values == spec.value.0 && targetedTestMetric.values == spec.value.1)
  {
    err := TestPreloadedPoison(testMetric, targetedTestMetric, plan, predict, poisonTest, src, poison, clean);
    if err.Some? {
      return;
    }
    err := TestPreloadedClean(testMetric, targetedTestMetric, plan, predict, test, poison, clean);
  }

  /** One clean test batch of the preloaded path: clean test batch j extends the scores of
      the steps `prefix` and of the first j clean steps by clean step j. */
  method CleanPathBatch(testMetric: MetricList, targetedTestMetric: MetricList, plan: TrainPlan<Image>,
                        predict: Predict, test: seq<Batch<Image>>,
                        ghost prefix: seq<Result<Scores>>, ghost clean: seq<Result<Scores>>, j: nat)
    returns (err: Option<Error>)
    requires testMetric != targetedTestMetric && Scoring(testMetric)
    requires j < |test| == |clean|
    requires clean[j] == CleanTestStep(plan, predict, test[j])
    requires Accumulate(prefix + clean[..j]) == Success((testMetric.values, targetedTestMetric.values))
    modifies testMetric
    ensures err.Some? ==> Accumulate(prefix + clean) == Failure(err.value)
    ensures err.None? ==> Accumulate(prefix + clean[..j + 1]) == Success((testMetric.values, targetedTestMetric.values))
  {
    ghost var steps := prefix + clean;
    ghost var i := |prefix| + j;
    assert steps[..i] == prefix + clean[..j];
    assert steps[..i + 1] == prefix + clean[..j + 1];
    AccumulateStep(steps, i);
    err := CleanTestBatch(testMetric, targetedTestMetric, plan, predict, test[j]);
    if err.Some? {
      AccumulateFailurePersists(steps, i + 1);
    }
  }

  /** The clean test loop of the preloaded path, started from the scores of the steps
      `prefix` before it; `clean` holds one step per clean test batch. */
  method TestPreloadedClean(testMetric: MetricList, targetedTestMetric: MetricList, plan: TrainPlan<Image>,
                            predict: Predict, test: seq<Batch<Image>>,
                            ghost prefix: seq<Result<Scores>>, ghost clean: seq<Result<Scores>>)
    returns (err: Option<Error>)
    requires testMetric != targetedTestMetric && Scoring(testMetric)
    requires |clean| == |test|
    requires forall k :: 0 <= k < |clean| ==> clean[k] == CleanTestStep(plan, predict, test[k])
    requires Accumulate(prefix) == Success((testMetric.values, targetedTestMetric.values))
    modifies testMetric
    ensures var spec := Accumulate(prefix + clean);
      (err.None? <==> spec.Success?) && (err.Some? ==> err.value == spec.error) &&
      (err.None? ==> testMetric.values == spec.value.0 && targetedTestMetric.values == spec.value.1)
  {
    assert prefix + clean[..0] == prefix;
    for j := 0 to |test|
      invariant Accumulate(prefix + clean[..j]) == Success((testMetric.values, targetedTestMetric.values))
    {
      err := CleanPathBatch(testMetric, targetedTestMetric, plan, predict, test, prefix, clean, j);
      if err.Some? {
        return;
      }
    }
    assert clean[..|test|] == clean;
    return None;
  }

  /** The poisoned test loop: every source-class test image is poisoned before prediction. */
  method TestPoisoned(testMetric: MetricList, targetedTestMetric: MetricList, plan: TrainPlan<Image>,
                      predict: Predict, attack: Attack, test: seq<Batch<Image>>, src: int, tgt: int)
    returns (err: Option<Error>)
    requires testMetric != targetedTestMetric && Scoring(testMetric) && Scoring(targetedTestMetric)
    requires testMetric.values == [] && targetedTestMetric.values == []
    modifies testMetric, targetedTestMetric
    ensures var spec := Accumulate(PoisonedTestSteps(plan, predict, attack, test, src, tgt));
      (err.None? <==> spec.Success?) && (err.Some? ==> err.value == spec.error) &&
      (err.None? ==> testMetric.values == spec.value.0 && targetedTestMetric.values == spec.value.1)
  {
    ghost var steps := PoisonedTestSteps(plan, predict, attack, test, src, tgt);
    for i := 0 to |test|
      invariant Accumulate(steps[..i]) == Success((testMetric.values, targetedTestMetric.values))
    {
      err := PoisonedTestBatch(testMetric, targetedTestMetric, plan, predict, attack, test[i], src, tgt);
      AccumulateStep(steps, i);
      if err.Some? {
        AccumulateFailurePersists(steps, i + 1);
        return;
      }
    }
    assert steps[..|test|] == steps;
    return None;
  }

  /** GTSRB._evaluate with its data and collaborators as parameters: builds the training
      set, trains as planned, validates, tests, and reports the means. */
  method Evaluate(cfg: Settings, clean: seq<Batch<Image>>, poison: seq<Batch<Image>>,
                  test: seq<Batch<Image>>, poisonTest: seq<Batch<Image>>, attack: Attack, draw: Draw,
                  detect: Detector<Image>, predict: Predict, external: ExternalScorers)
    returns (r: Result<map<string, real>>)
    ensures r == EvaluationResults(cfg, clean, poison, test, poisonTest, attack, draw, detect, predict)
  {
    if NumEvalBatchesGiven(cfg.numEvalBatches) {
      return Failure(NumEvalBatchesSet);
    }
    var all: Batch<Image>;
    if cfg.preloaded {
      var count := PreloadedPoisonCount(cfg.fractionPoisoned, cfg.numImagesTargetClass);
      if count.Failure? {
        return Failure(count.error);
      }
      var assembled := AssemblePreloaded(clean, poison);
      if assembled.Failure? {
        return Failure(assembled.error);
      }
      all := assembled.value;
    } else {
      var assembled := AssembleClean(clean);
      if assembled.Failure? {
        return Failure(assembled.error);
      }
      all := assembled.value;
      if cfg.poisonDataset {
        var poisoned := PoisonTrainingSet(all.xs, all.ys, cfg.srcClass, cfg.tgtClass, cfg.fractionPoisoned,
                                          attack, draw);
        if poisoned.Failure? {
          return Failure(poisoned.error);
        }
        all := Batch(poisoned.value.0, poisoned.value.1);
      }
    }
    assert TrainingData(cfg, clean, poison, attack, draw) == Success(all);
    var plan := PlanTraining(all, UseDefense(cfg.usePoisonFilteringDefense, cfg.checkRun), detect);
    if plan.Failure? {
      return Failure(plan.error);
    }
    var validated := Validate(plan.value, predict, test, cfg.srcClass, external);
    if validated.Failure? {
      return Failure(validated.error);
    }
    var validationMean := validated.value.0.Mean();
    if validationMean.Failure? {
      return Failure(validationMean.error);
    }
    var targetedMean := validated.value.1.Mean();
    if targetedMean.Failure? {
      return Failure(targetedMean.error);
    }
    var results := map[ValidationAccuracy := validationMean.value, ValidationAccuracyTargeted := targetedMean.value];

    var testMetric := NewAccuracyList(external);
    var targetedTestMetric := NewAccuracyList(external);
    var err: Option<Error> := None;
    if cfg.preloaded {
      err := TestPreloaded(testMetric, targetedTestMetric, plan.value, predict, test, poisonTest, cfg.srcClass);
    } else if cfg.poisonDataset {
      err := TestPoisoned(testMetric, targetedTestMetric, plan.value, predict, attack, test, cfg.srcClass, cfg.tgtClass);
    }
    if err.Some? {
      return Failure(err.value);
    }
    if cfg.poisonDataset || cfg.preloaded {
      var testMean := testMetric.Mean();
      if testMean.Failure? {
        return Failure(testMean.error);
      }
      var targetedTestMean := targetedTestMetric.Mean();
      if targetedTestMean.Failure? {
        return Failure(targetedTestMean.error);
      }
      results := results + map[TestAccuracy := testMean.value, TargetedMisclassification := targetedTestMean.value];
    }
    return Success(results);
  }
}
