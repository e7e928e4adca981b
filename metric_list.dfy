/** The metric registry and MetricList, which accumulates per-sample scores of
    one metric across batches. */
module MetricLists {
  import opened Common
  import opened Accuracy

  /** A metric function: two batch-aligned arrays to one score per sample. */
  type Scorer = (NdArray, NdArray) -> Result<seq<real>>

  /** Scorers of the norm and SNR family, whose floating-point numerics are not modelled. */
  type ExternalScorers = (string, NdArray, NdArray) -> Result<seq<real>>

  const SupportedNames: set<string> := {
    "categorical_accuracy", "top_n_categorical_accuracy", "top_5_categorical_accuracy",
    "norm", "l0", "l1", "l2", "lp", "linf", "snr", "snr_db", "snr_spectrogram",
    "snr_spectrogram_db"}

  /** Registry entries that take three arguments and so fail when a MetricList calls them with two. */
  const ThreeArgumentNames: set<string> := {"top_n_categorical_accuracy", "norm", "lp"}

  function AsReals(r: Result<seq<int>>): (q: Result<seq<real>>)
    ensures q.Success? <==> r.Success?
    ensures r.Failure? ==> q.error == r.error
    ensures r.Success? ==> (|q.value| == |r.value| &&
      forall i :: 0 <= i < |r.value| ==> q.value[i] == r.value[i] as real)
  {
    match r
    case Success(v) => Success(seq(|v|, i requires 0 <= i < |v| => v[i] as real))
    case Failure(e) => Failure(e)
  }

  /** SUPPORTED_METRICS[name]: a KeyError for any other name. */
  function Resolve(name: string, external: ExternalScorers): (r: Result<Scorer>)
    ensures r.Failure? <==> name !in SupportedNames
    ensures r.Failure? ==> r.error == UnknownMetric(name)
    ensures name == "categorical_accuracy" ==>
      forall a: NdArray, b: NdArray :: r.value(a, b) == AsReals(CategoricalAccuracy(a, b))
    ensures name == "top_5_categorical_accuracy" ==>
      forall a: NdArray, b: NdArray :: r.value(a, b) == AsReals(TopNCategoricalAccuracy(a, b, 5))
    ensures name in ThreeArgumentNames ==> forall a: NdArray, b: NdArray :: r.value(a, b) == Failure(Arity)
    ensures (name in SupportedNames - ThreeArgumentNames
               - {"categorical_accuracy", "top_5_categorical_accuracy"}) ==>
      forall a: NdArray, b: NdArray :: r.value(a, b) == external(name, a, b)
  {
    if name == "categorical_accuracy" then
      Success((a, b) => AsReals(CategoricalAccuracy(a, b)))
    else if name == "top_5_categorical_accuracy" then
      Success((a, b) => AsReals(Top5CategoricalAccuracy(a, b)))
    else if name in ThreeArgumentNames then
      Success((a: NdArray, b: NdArray) => Failure(Arity))
    else if name in SupportedNames then
      Success((a, b) => external(name, a, b))
    else Failure(UnknownMetric(name))
  }

  /** mean(): the arithmetic mean, a ZeroDivisionError when there are no values. */
  function MeanOf(values: seq<real>): (r: Result<real>)
    ensures r.Failure? <==> values == []
    ensures r.Failure? ==> r.error == ZeroDivision
    ensures r.Success? ==> r.value * |values| as real == Sum(values)
  {
    if values == [] then Failure(ZeroDivision) else Success(Sum(values) / |values| as real)
  }

  lemma {:induction false} SumBounds(values: seq<real>)
    requires forall i :: 0 <= i < |values| ==> 0.0 <= values[i] <= 1.0
    ensures 0.0 <= Sum(values) <= |values| as real
  {
    if values != [] {
      SumBounds(values[..|values| - 1]);
    }
  }

  /** The mean of per-sample accuracies is a fraction between 0 and 1. */
  lemma MeanIsFraction(values: seq<real>)
    requires values != []
    requires forall i :: 0 <= i < |values| ==> 0.0 <= values[i] <= 1.0
    ensures 0.0 <= MeanOf(values).value <= 1.0
  {
    SumBounds(values);
  }

  class MetricList {
    const name: string
    const score: Scorer
    var values: seq<real>

    /** MetricList(name, function) with an explicit, callable function. */
    constructor (name: string, score: Scorer)
      ensures this.name == name && this.score == score && values == []
    {
      this.name := name;
      this.score := score;
      values := [];
    }

    /** MetricList(name) resolved through the registry. */
    static method FromName(name: string, external: ExternalScorers) returns (r: Result<MetricList>)
      ensures r.Failure? <==> name !in SupportedNames
      ensures r.Failure? ==> r.error == UnknownMetric(name)
      ensures r.Success? ==> (fresh(r.value) && r.value.name == name && r.value.values == []
        && Resolve(name, external) == Success(r.value.score))
    {
      var s := Resolve(name, external);
      if s.Failure? {
        return Failure(s.error);
      }
      var m := new MetricList(name, s.value);
      return Success(m);
    }

    /** clear(): empties the values; the name and function are constants. */
    method Clear()
      modifies this
      ensures values == []
    {
      values := [];
    }

    /** append(a, b): extends the values by exactly the function's output. */
    method Append(a: NdArray, b: NdArray) returns (err: Option<Error>)
      modifies this
      ensures score(a, b).Success? ==> err == None && values == old(values) + score(a, b).value
      ensures score(a, b).Failure? ==> err == Some(score(a, b).error) && values == old(values)
    {
      var out := score(a, b);
      if out.Failure? {
        return Some(out.error);
      }
      values := values + out.value;
      return None;
    }

    /** len(metric_list) */
    function Length(): (n: nat)
      reads this
      ensures n == |values|
    {
      |values|
    }

    /** values(): a copy of the accumulated scores. */
    method Values() returns (r: seq<real>)
      ensures r == values
    {
      r := values;
    }

    function Mean(): (r: Result<real>)
      reads this
      ensures r == MeanOf(values)
    {
      MeanOf(values)
    }
  }

  /** After clear(), mean() fails with a division by zero whatever came before. */
  method ClearedMeanFails(m: MetricList)
    modifies m
    ensures m.Mean() == Failure(ZeroDivision)
  {
    m.Clear();
  }
}
