/** The in-memory training set of the GTSRB poisoning scenario: batches concatenated
    (interleaved with preloaded poison), filtered by the defense's keep-mask, and
    the decision whether to fit at all. */
module TrainingSet {
  import opened Common
  import opened Poisoning

  /** A batch of samples (images, in the scenario) and their integer labels. */
  datatype Batch<X> = Batch(xs: seq<X>, ys: seq<int>)

  /** Concatenation along axis 0 of the images and, separately, of the labels. */
  function Flatten<X>(bs: seq<Batch<X>>): (r: Batch<X>)
  {
    if bs == [] then Batch([], [])
    else
      var init := Flatten(bs[..|bs| - 1]);
      Batch(init.xs + bs[|bs| - 1].xs, init.ys + bs[|bs| - 1].ys)
  }

  lemma {:induction false} FlattenAppend<X>(a: seq<Batch<X>>, b: seq<Batch<X>>)
    ensures Flatten(a + b) == Batch(Flatten(a).xs + Flatten(b).xs, Flatten(a).ys + Flatten(b).ys)
    decreases |b|
  {
    if b == [] {
      assert a + b == a;
    } else {
      assert (a + b)[..|a + b| - 1] == a + b[..|b| - 1];
      FlattenAppend(a, b[..|b| - 1]);
    }
  }

  /** Clean and poison batches alternating, clean first: clean[0], poison[0], clean[1], ... */
  function Interleave<X>(clean: seq<Batch<X>>, poison: seq<Batch<X>>): (r: seq<Batch<X>>)
    requires |clean| <= |poison|
    ensures |r| == 2 * |clean|
  {
    if clean == [] then []
    else Interleave(clean[..|clean| - 1], poison) + [clean[|clean| - 1], poison[|clean| - 1]]
  }

  /** Even positions hold the clean batches and odd positions the poison batches, in order. */
  lemma {:induction false} InterleaveAlternates<X>(clean: seq<Batch<X>>, poison: seq<Batch<X>>)
    requires |clean| <= |poison|
    ensures forall i :: 0 <= i < |clean| ==>
      Interleave(clean, poison)[2 * i] == clean[i] && Interleave(clean, poison)[2 * i + 1] == poison[i]
  {
    if clean != [] {
      var n := |clean|;
      InterleaveAlternates(clean[..n - 1], poison);
      var r := Interleave(clean, poison);
      var prev := Interleave(clean[..n - 1], poison);
      assert r == prev + [clean[n - 1], poison[n - 1]];
      forall i | 0 <= i < n
        ensures r[2 * i] == clean[i] && r[2 * i + 1] == poison[i]
      {
        if i < n - 1 {
          assert r[2 * i] == prev[2 * i] && r[2 * i + 1] == prev[2 * i + 1];
          assert clean[..n - 1][i] == clean[i];
        }
      }
    }
  }

  /** One more clean/poison pair adds the clean rows, then the poison rows. */
  lemma FlattenInterleaveStep<X>(clean: seq<Batch<X>>, poison: seq<Batch<X>>)
    requires 0 < |clean| <= |poison|
    ensures var n := |clean|;
      var prev := Flatten(Interleave(clean[..n - 1], poison));
      Flatten(Interleave(clean, poison)) ==
        Batch(prev.xs + clean[n - 1].xs + poison[n - 1].xs, prev.ys + clean[n - 1].ys + poison[n - 1].ys)
  {
    var n := |clean|;
    var c, p := clean[n - 1], poison[n - 1];
    var prev := Flatten(Interleave(clean[..n - 1], poison));
    assert Interleave(clean, poison) == Interleave(clean[..n - 1], poison) + [c, p];
    FlattenAppend(Interleave(clean[..n - 1], poison), [c, p]);
    FlattenPair(c, p);
    ConcatAssoc(prev.xs, c.xs, p.xs);
    ConcatAssoc(prev.ys, c.ys, p.ys);
  }

  lemma FlattenPair<X>(c: Batch<X>, p: Batch<X>)
    ensures Flatten([c, p]) == Batch(c.xs + p.xs, c.ys + p.ys)
  {
    assert [c][..0] == [];
    assert [] + c.xs == c.xs && [] + c.ys == c.ys;
    assert Flatten([c]) == Batch(c.xs, c.ys);
    assert [c, p][..1] == [c];
  }

  /** Associativity of concatenation, as a separate step that keeps FlattenInterleaveStep small. */
  lemma ConcatAssoc<T>(a: seq<T>, b: seq<T>, c: seq<T>)
    ensures a + (b + c) == a + b + c
  {
  }

  /** The preloaded training set holds every clean and every used poison sample: its
      labels are the clean labels and the poison labels together. */
  lemma {:induction false} InterleavedContents<X>(clean: seq<Batch<X>>, poison: seq<Batch<X>>)
    requires |clean| <= |poison|
    ensures var all := Flatten(Interleave(clean, poison));
      var c := Flatten(clean);
      var p := Flatten(poison[..|clean|]);
      |all.xs| == |c.xs| + |p.xs| &&
      multiset(all.ys) == multiset(c.ys) + multiset(p.ys)
  {
    if clean != [] {
      var n := |clean|;
      InterleavedContents(clean[..n - 1], poison);
      FlattenInterleaveStep(clean, poison);
      assert poison[..n][..n - 1] == poison[..n - 1];
    }
  }

  /** The training-set loop for a preloaded attack: each clean batch is followed by
      the next poison batch; no batches at all leave nothing to concatenate. */
  method AssemblePreloaded<X>(clean: seq<Batch<X>>, poison: seq<Batch<X>>) returns (r: Result<Batch<X>>)
    ensures r.Success? <==> 0 < |clean| <= |poison|
    ensures |clean| == 0 ==> r == Failure(NothingToConcatenate)
    ensures 0 < |clean| && |poison| < |clean| ==> r == Failure(PoisonExhausted)
    ensures r.Success? ==> r.value == Flatten(Interleave(clean, poison))
  {
    var xAll: seq<X> := [];
    var yAll: seq<int> := [];
    for i := 0 to |clean|
      invariant i <= |poison|
      invariant Batch(xAll, yAll) == Flatten(Interleave(clean[..i], poison))
    {
      if i >= |poison| {
        return Failure(PoisonExhausted);
      }
      var cleanBatch := clean[i];
      var poisonBatch := poison[i];
      assert clean[..i + 1][..i] == clean[..i];
      FlattenInterleaveStep(clean[..i + 1], poison);
      xAll := xAll + cleanBatch.xs + poisonBatch.xs;
      yAll := yAll + cleanBatch.ys + poisonBatch.ys;
    }
    if |clean| == 0 {
      return Failure(NothingToConcatenate);
    }
    assert clean[..|clean|] == clean;
    return Success(Batch(xAll, yAll));
  }

  /** The training-set loop without preloaded poison: the clean batches in order. */
  method AssembleClean<X>(clean: seq<Batch<X>>) returns (r: Result<Batch<X>>)
    ensures r.Failure? <==> clean == []
    ensures r.Failure? ==> r.error == NothingToConcatenate
    ensures r.Success? ==> r.value == Flatten(clean)
  {
    var xAll: seq<X> := [];
    var yAll: seq<int> := [];
    for i := 0 to |clean|
      invariant Batch(xAll, yAll) == Flatten(clean[..i])
    {
      assert clean[..i + 1][..i] == clean[..i];
      xAll := xAll + clean[i].xs;
      yAll := yAll + clean[i].ys;
    }
    if |clean| == 0 {
      return Failure(NothingToConcatenate);
    }
    assert clean[..|clean|] == clean;
    return Success(Batch(xAll, yAll));
  }

  /** int(fraction_poisoned * num_images_target_class) for a preloaded attack: zero
      poisons raise a ValueError. */
  function PreloadedPoisonCount(fraction: real, numImagesTgtClass: int): (r: Result<int>)
    ensures r.Failure? <==> -1.0 < fraction * numImagesTgtClass as real < 1.0
    ensures r.Failure? ==> r.error == NoPreloadedPoison
    ensures r.Success? ==> r.value == TruncProduct(fraction, numImagesTgtClass) && r.value != 0
  {
    var k := TruncProduct(fraction, numImagesTgtClass);
    if k == 0 then Failure(NoPreloadedPoison) else Success(k)
  }

  /** rows[idx[0]], rows[idx[1]], ...: numpy indexing by a list of positions. */
  function Select<T>(rows: seq<T>, idx: seq<nat>): (r: seq<T>)
    requires forall k :: 0 <= k < |idx| ==> idx[k] < |rows|
    ensures |r| == |idx| && forall k :: 0 <= k < |idx| ==> r[k] == rows[idx[k]]
  {
    seq(|idx|, k requires 0 <= k < |idx| => rows[idx[k]])
  }

  /** x[is_clean == 1] and y[is_clean == 1]: the rows whose mask entry is 1, in their
      original order, the same rows for images and labels; a mask of another length
      than either raises an IndexError. */
  function KeepClean<X>(b: Batch<X>, isClean: seq<int>): (r: Result<Batch<X>>)
    ensures r.Failure? <==> |isClean| != |b.xs| || |isClean| != |b.ys|
    ensures r.Failure? ==> r.error == MaskLength
    ensures r.Success? ==>
      var kept := PositionsOf(isClean, 1);
      |r.value.xs| == |r.value.ys| == |kept| &&
      forall k :: 0 <= k < |kept| ==>
        isClean[kept[k]] == 1 && r.value.xs[k] == b.xs[kept[k]] && r.value.ys[k] == b.ys[kept[k]]
  {
    if |isClean| != |b.xs| || |isClean| != |b.ys| then Failure(MaskLength)
    else
      var kept := PositionsOf(isClean, 1);
      Success(Batch(Select(b.xs, kept), Select(b.ys, kept)))
  }

  /** Every row marked clean survives the filter and no other row does, in order. */
  lemma KeepCleanIsExact<X>(b: Batch<X>, isClean: seq<int>)
    requires |isClean| == |b.xs| == |b.ys|
    ensures var kept := PositionsOf(isClean, 1);
      (forall i :: 0 <= i < |isClean| ==> (isClean[i] == 1 <==> i in kept)) &&
      (forall k, l :: 0 <= k < l < |kept| ==> kept[k] < kept[l])
  {
  }

  /** A mask that marks every row clean keeps the training set as it is. */
  lemma AllCleanKeepsEverything<X>(b: Batch<X>, isClean: seq<int>)
    requires |isClean| == |b.xs| == |b.ys|
    requires forall i :: 0 <= i < |isClean| ==> isClean[i] == 1
    ensures KeepClean(b, isClean) == Success(b)
  {
    var kept := PositionsOf(isClean, 1);
    AllPositions(isClean, 1);
    assert Select(b.xs, kept) == b.xs;
    assert Select(b.ys, kept) == b.ys;
  }

  lemma {:induction false} AllPositions(ys: seq<int>, v: int)
    requires forall i :: 0 <= i < |ys| ==> ys[i] == v
    ensures |PositionsOf(ys, v)| == |ys| && forall k :: 0 <= k < |ys| ==> PositionsOf(ys, v)[k] == k
  {
    if ys != [] {
      AllPositions(ys[..|ys| - 1], v);
    }
  }

  /** A mask without any 1 leaves no rows. */
  lemma NoCleanRowsKeepsNothing<X>(b: Batch<X>, isClean: seq<int>)
    requires |isClean| == |b.xs| == |b.ys|
    requires forall i :: 0 <= i < |isClean| ==> isClean[i] != 1
    ensures KeepClean(b, isClean).value.xs == []
  {
    NoPositions(isClean, 1);
  }

  lemma NoPositions(ys: seq<int>, v: int)
    ensures PositionsOf(ys, v) == [] <==> forall i :: 0 <= i < |ys| ==> ys[i] != v
  {
    var r := PositionsOf(ys, v);
    assert r == [] || ys[r[0]] == v;
  }

  /** check_run turns the filtering defense off whatever the configuration says. */
  function UseDefense(configured: bool, checkRun: bool): (r: bool)
    ensures checkRun ==> !r
    ensures !checkRun ==> r == configured
  {
    if checkRun then false else configured
  }

  /** What the classifier is trained on: nothing when every row was filtered out. */
  datatype TrainPlan<X> = Fit(data: Batch<X>) | SkipTraining

  /** The defense's detect_poison on the assembled training set: one 0/1 flag per row. */
  type Detector<!X> = Batch<X> -> seq<int>

  /** Defense filtering, then fit on what remains or skip training when no row remains. */
  function PlanTraining<X>(all: Batch<X>, useDefense: bool, detect: Detector<X>): (r: Result<TrainPlan<X>>)
    ensures !useDefense ==> r == (if |all.xs| == 0 then Success(SkipTraining) else Success(Fit(all)))
    ensures useDefense ==> (r.Failure? <==> KeepClean(all, detect(all)).Failure?)
    ensures useDefense && r.Success? ==>
      r.value == (if |KeepClean(all, detect(all)).value.xs| == 0 then SkipTraining
                  else Fit(KeepClean(all, detect(all)).value))
  {
    var kept := if useDefense then KeepClean(all, detect(all)) else Success(all);
    match kept
    case Failure(e) => Failure(e)
    case Success(final) => if |final.xs| > 0 then Success(Fit(final)) else Success(SkipTraining)
  }

  /** Training is skipped exactly when the defense is on and marks no row clean, or
      when there was nothing to train on. */
  lemma SkipExactlyWhenNothingKept<X>(all: Batch<X>, useDefense: bool, detect: Detector<X>)
    requires |all.xs| == |all.ys| == |detect(all)|
    ensures var r := PlanTraining(all, useDefense, detect);
      r.Success? &&
      (r.value == SkipTraining <==>
        (if useDefense then forall i :: 0 <= i < |all.xs| ==> detect(all)[i] != 1 else all.xs == []))
  {
    NoPositions(detect(all), 1);
  }
}
