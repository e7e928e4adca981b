/** poison_dataset and the choice of which source-class samples it poisons. */
module Poisoning {
  import opened Common

  /** A three-axis integer array with its shape. */
  datatype Tensor3 = Tensor3(d0: nat, d1: nat, d2: nat, at: seq<seq<seq<int>>>)

  predicate Shaped(t: Tensor3)
  {
    |t.at| == t.d0 &&
    forall i :: 0 <= i < t.d0 ==>
      |t.at[i]| == t.d1 && (forall j :: 0 <= j < t.d1 ==> |t.at[i][j]| == t.d2)
  }

  /** An image of shape (W, H, C), or (C, W, H) once channels are moved first. */
  type Image = t: Tensor3 | Shaped(t) witness Tensor3(0, 0, 0, [])

  /** np.transpose(img, (2, 0, 1)): the channel axis moves first. */
  function ChannelsFirst(t: Image): (r: Image)
    ensures r.d0 == t.d2 && r.d1 == t.d0 && r.d2 == t.d1
    ensures forall k, i, j :: 0 <= k < t.d2 && 0 <= i < t.d0 && 0 <= j < t.d1 ==>
      r.at[k][i][j] == t.at[i][j][k]
  {
    Tensor3(t.d2, t.d0, t.d1,
      seq(t.d2, k requires 0 <= k < t.d2 =>
        seq(t.d0, i requires 0 <= i < t.d0 =>
          seq(t.d1, j requires 0 <= j < t.d1 => t.at[i][j][k]))))
  }

  /** np.transpose(img, (1, 2, 0)): the first axis moves last. */
  function ChannelsLast(t: Image): (r: Image)
    ensures r.d0 == t.d1 && r.d1 == t.d2 && r.d2 == t.d0
    ensures forall i, j, k :: 0 <= i < t.d1 && 0 <= j < t.d2 && 0 <= k < t.d0 ==>
      r.at[i][j][k] == t.at[k][i][j]
  {
    Tensor3(t.d1, t.d2, t.d0,
      seq(t.d1, i requires 0 <= i < t.d1 =>
        seq(t.d2, j requires 0 <= j < t.d2 =>
          seq(t.d0, k requires 0 <= k < t.d0 => t.at[k][i][j]))))
  }

  /** Two images of the same shape with the same entries are equal. */
  lemma SameEntries(a: Image, b: Image)
    requires a.d0 == b.d0 && a.d1 == b.d1 && a.d2 == b.d2
    requires forall i, j, k :: 0 <= i < a.d0 && 0 <= j < a.d1 && 0 <= k < a.d2 ==>
      a.at[i][j][k] == b.at[i][j][k]
    ensures a == b
  {
    forall i | 0 <= i < a.d0 ensures a.at[i] == b.at[i] {
      forall j | 0 <= j < a.d1 ensures a.at[i][j] == b.at[i][j] {
        assert |a.at[i][j]| == |b.at[i][j]| == a.d2;
      }
    }
  }

  /** The two transposes are inverse permutations: a (W, H, C) image comes back unchanged. */
  lemma ChannelRoundTrip(t: Image)
    ensures ChannelsLast(ChannelsFirst(t)) == t
  {
    SameEntries(ChannelsLast(ChannelsFirst(t)), t);
  }

  lemma ChannelRoundTripBack(t: Image)
    ensures ChannelsFirst(ChannelsLast(t)) == t
  {
    SameEntries(ChannelsFirst(ChannelsLast(t)), t);
  }

  /** attack.poison(channels-first image, [tgt]): the poisoned image and its label. */
  type Attack = (Image, int) -> (Image, int)

  /** What poison_dataset puts at position idx. */
  function PoisonedSample(img: Image, lbl: int, idx: nat, src: int, tgt: int, attack: Attack,
                          chosen: seq<int>): (Image, int)
  {
    if lbl == src && idx in chosen then
      var p := attack(ChannelsFirst(img), tgt);
      (ChannelsLast(p.0), p.1)
    else (img, lbl)
  }

  /** poison_dataset over the first ds_size samples; reading past the images or the
      labels raises an IndexError. */
  function PoisonedAll(imgs: seq<Image>, lbls: seq<int>, src: int, tgt: int, dsSize: nat,
                       attack: Attack, chosen: seq<int>): Result<(seq<Image>, seq<int>)>
  {
    if dsSize > |lbls| || dsSize > |imgs| then Failure(IndexOutOfRange)
    else Success((
      seq(dsSize, i requires 0 <= i < dsSize => PoisonedSample(imgs[i], lbls[i], i, src, tgt, attack, chosen).0),
      seq(dsSize, i requires 0 <= i < dsSize => PoisonedSample(imgs[i], lbls[i], i, src, tgt, attack, chosen).1)))
  }

  method PoisonDataset(srcImgs: seq<Image>, srcLbls: seq<int>, src: int, tgt: int, dsSize: nat,
                       attack: Attack, poisonedIndices: seq<int>)
    returns (r: Result<(seq<Image>, seq<int>)>)
    ensures r == PoisonedAll(srcImgs, srcLbls, src, tgt, dsSize, attack, poisonedIndices)
  {
    var poisonX: seq<Image> := [];
    var poisonY: seq<int> := [];
    for idx := 0 to dsSize
      invariant idx <= |srcLbls| && idx <= |srcImgs|
      invariant |poisonX| == idx && |poisonY| == idx
      invariant forall i :: 0 <= i < idx ==>
        (poisonX[i], poisonY[i]) == PoisonedSample(srcImgs[i], srcLbls[i], i, src, tgt, attack, poisonedIndices)
    {
      if idx >= |srcLbls| || idx >= |srcImgs| {
        return Failure(IndexOutOfRange);
      }
      if srcLbls[idx] == src && idx in poisonedIndices {
        var srcImg := ChannelsFirst(srcImgs[idx]);
        var p := attack(srcImg, tgt);
        poisonX := poisonX + [ChannelsLast(p.0)];
        poisonY := poisonY + [p.1];
      } else {
        poisonX := poisonX + [srcImgs[idx]];
        poisonY := poisonY + [srcLbls[idx]];
      }
    }
    ghost var expected := PoisonedAll(srcImgs, srcLbls, src, tgt, dsSize, attack, poisonedIndices).value;
    assert poisonX == expected.0 && poisonY == expected.1;
    return Success((poisonX, poisonY));
  }

  /** Every position keeps its image and label unless it holds the source label and
      is chosen; a chosen index with another label is left alone. */
  lemma OnlyChosenSourceSamplesChange(imgs: seq<Image>, lbls: seq<int>, src: int, tgt: int, dsSize: nat,
                                      attack: Attack, chosen: seq<int>, idx: nat)
    requires dsSize <= |lbls| && dsSize <= |imgs| && idx < dsSize
    ensures var out := PoisonedAll(imgs, lbls, src, tgt, dsSize, attack, chosen).value;
      (out.0[idx] != imgs[idx] || out.1[idx] != lbls[idx]) ==> lbls[idx] == src && idx in chosen
  {
  }

  /** An attack that returns the image it is given changes labels only: the channel
      transposes around it cancel out. */
  lemma IdentityAttackKeepsImages(imgs: seq<Image>, lbls: seq<int>, src: int, tgt: int,
                                  attack: Attack, chosen: seq<int>)
    requires |imgs| == |lbls|
    requires forall im: Image, l :: attack(im, l).0 == im
    ensures PoisonedAll(imgs, lbls, src, tgt, |lbls|, attack, chosen).value.0 == imgs
  {
    var out := PoisonedAll(imgs, lbls, src, tgt, |lbls|, attack, chosen).value.0;
    forall i | 0 <= i < |imgs| ensures out[i] == imgs[i] {
      ChannelRoundTrip(imgs[i]);
    }
  }

  /** An attack that keeps the (C, W, H) shape yields poisoned images of the original (W, H, C) shape. */
  lemma ShapePreservingAttackKeepsShape(imgs: seq<Image>, lbls: seq<int>, src: int, tgt: int,
                                        attack: Attack, chosen: seq<int>, idx: nat)
    requires |imgs| == |lbls| && idx < |lbls|
    requires forall im: Image, l :: (attack(im, l).0.d0, attack(im, l).0.d1, attack(im, l).0.d2) == (im.d0, im.d1, im.d2)
    ensures var out := PoisonedAll(imgs, lbls, src, tgt, |lbls|, attack, chosen).value.0[idx];
      (out.d0, out.d1, out.d2) == (imgs[idx].d0, imgs[idx].d1, imgs[idx].d2)
  {
    var p := attack(ChannelsFirst(imgs[idx]), tgt).0;
    assert (p.d0, p.d1, p.d2) == (imgs[idx].d2, imgs[idx].d0, imgs[idx].d1);
  }

  /** np.where(ys == src)[0]: the positions holding the value src, ascending. */
  function PositionsOf(ys: seq<int>, src: int): (r: seq<nat>)
    ensures forall k :: 0 <= k < |r| ==> r[k] < |ys| && ys[r[k]] == src
    ensures forall i :: 0 <= i < |ys| && ys[i] == src ==> i in r
    ensures forall k, l :: 0 <= k < l < |r| ==> r[k] < r[l]
  {
    if ys == [] then []
    else
      var init := PositionsOf(ys[..|ys| - 1], src);
      if ys[|ys| - 1] == src then init + [|ys| - 1] else init
  }

  /** How often v occurs in ys. */
  function Count(ys: seq<int>, v: int): nat
  {
    if ys == [] then 0 else Count(ys[..|ys| - 1], v) + (if ys[|ys| - 1] == v then 1 else 0)
  }

  lemma {:induction false} PositionsOfCount(ys: seq<int>, src: int)
    ensures |PositionsOf(ys, src)| == Count(ys, src)
  {
    if ys != [] {
      PositionsOfCount(ys[..|ys| - 1], src);
    }
  }

  function MaxLabel(ys: seq<int>): (m: int)
    requires ys != []
    ensures forall i :: 0 <= i < |ys| ==> ys[i] <= m
    ensures m in ys
  {
    if |ys| == 1 then ys[0]
    else
      var m := MaxLabel(ys[..|ys| - 1]);
      assert m in ys[..|ys| - 1];
      if ys[|ys| - 1] > m then ys[|ys| - 1] else m
  }

  /** np.bincount(ys)[cls]: negative labels raise a ValueError; the bin array has
      max(ys) + 1 entries (none for no labels), and an index outside
      [-len, len) raises an IndexError, a negative one counting from the end. */
  function BincountAt(ys: seq<int>, cls: int): (r: Result<nat>)
    ensures r.Failure? <==>
      (exists i :: 0 <= i < |ys| && ys[i] < 0) || ys == [] || !(-(MaxLabel(ys) + 1) <= cls <= MaxLabel(ys))
    ensures r.Failure? ==>
      r.error == (if exists i :: 0 <= i < |ys| && ys[i] < 0 then NegativeLabel else ClassOutOfRange)
    ensures r.Success? && cls >= 0 ==> r.value == Count(ys, cls)
    ensures r.Success? && cls < 0 ==> r.value == Count(ys, MaxLabel(ys) + 1 + cls)
  {
    if exists i :: 0 <= i < |ys| && ys[i] < 0 then Failure(NegativeLabel)
    else if ys == [] then Failure(ClassOutOfRange)
    else
      var bins := MaxLabel(ys) + 1;
      if cls < -bins || cls >= bins then Failure(ClassOutOfRange)
      else if cls < 0 then Success(Count(ys, bins + cls))
      else Success(Count(ys, cls))
  }

  /** A class label that occurs among non-negative labels is counted by bincount. */
  lemma BincountOfPresentClass(ys: seq<int>, src: int)
    requires forall i :: 0 <= i < |ys| ==> ys[i] >= 0
    requires src in ys
    ensures BincountAt(ys, src) == Success(|PositionsOf(ys, src)|)
  {
    PositionsOfCount(ys, src);
  }

  /** A draw of k elements without replacement from a population. */
  predicate ValidDraw(sel: seq<int>, pop: seq<nat>, k: nat)
  {
    |sel| == k && multiset(sel) <= multiset(seq(|pop|, i requires 0 <= i < |pop| => pop[i] as int))
  }

  /** np.random.choice(population, size=k, replace=False), as any function making valid draws. */
  type Draw = (seq<nat>, nat) -> seq<int>

  ghost predicate DrawsWithoutReplacement(draw: Draw)
  {
    forall pop: seq<nat>, k: nat :: k <= |pop| ==> ValidDraw(draw(pop, k), pop, k)
  }

  /** Some draw meets the constraints: the first k elements. */
  lemma PrefixDraw(pop: seq<nat>, k: nat)
    requires k <= |pop|
    ensures ValidDraw(seq(k, i requires 0 <= i < k => pop[i] as int), pop, k)
  {
    var all := seq(|pop|, i requires 0 <= i < |pop| => pop[i] as int);
    assert seq(k, i requires 0 <= i < k => pop[i] as int) == all[..k];
    assert all == all[..k] + all[k..];
  }

  /** Every index of a draw from the source positions held the source label. */
  lemma DrawnFromSource(ys: seq<int>, src: int, chosen: seq<int>, k: nat)
    requires ValidDraw(chosen, PositionsOf(ys, src), k)
    ensures forall c :: c in chosen ==> 0 <= c < |ys| && ys[c] == src
  {
    var pop := PositionsOf(ys, src);
    var all := seq(|pop|, i requires 0 <= i < |pop| => pop[i] as int);
    forall c | c in chosen ensures 0 <= c < |ys| && ys[c] == src {
      assert c in multiset(chosen);
      assert c in multiset(all);
      var i :| 0 <= i < |all| && all[i] == c;
      assert c == pop[i];
    }
  }

  /** int(fraction_poisoned * bincount(y)[src]). */
  function PoisonCount(ys: seq<int>, src: int, fraction: real): (r: Result<int>)
    ensures r.Failure? <==> BincountAt(ys, src).Failure?
    ensures r.Success? ==> r.value == TruncProduct(fraction, BincountAt(ys, src).value)
  {
    match BincountAt(ys, src)
    case Failure(e) => Failure(e)
    case Success(n) => Success(TruncProduct(fraction, n))
  }

  /** Poisoning the in-memory training set when no preloaded poison is used. */
  function PoisonedTrainingSet(xs: seq<Image>, ys: seq<int>, src: int, tgt: int, fraction: real,
                               attack: Attack, draw: Draw): Result<(seq<Image>, seq<int>)>
  {
    match PoisonCount(ys, src, fraction)
    case Failure(e) => Failure(e)
    case Success(k) => PoisonedWithCount(xs, ys, src, tgt, k, attack, draw)
  }

  /** np.random.choice refuses a negative size or one above the population; otherwise
      poison_dataset runs over the draw. */
  function PoisonedWithCount(xs: seq<Image>, ys: seq<int>, src: int, tgt: int, k: int,
                             attack: Attack, draw: Draw): Result<(seq<Image>, seq<int>)>
  {
    var positions := PositionsOf(ys, src);
    if k < 0 then Failure(NegativeSampleSize)
    else if k > |positions| then Failure(SampleTooLarge)
    else PoisonedAll(xs, ys, src, tgt, |ys|, attack, draw(positions, k))
  }

  method PoisonTrainingSet(xs: seq<Image>, ys: seq<int>, src: int, tgt: int, fraction: real,
                           attack: Attack, draw: Draw)
    returns (r: Result<(seq<Image>, seq<int>)>)
    ensures r == PoisonedTrainingSet(xs, ys, src, tgt, fraction, attack, draw)
  {
    var poisonCount := PoisonCount(ys, src, fraction);
    if poisonCount.Failure? {
      return Failure(poisonCount.error);
    }
    r := PoisonWithCount(xs, ys, src, tgt, poisonCount.value, attack, draw);
  }

  /** The selection and poisoning once the poison count is known. */
  method PoisonWithCount(xs: seq<Image>, ys: seq<int>, src: int, tgt: int, poisonCount: int,
                         attack: Attack, draw: Draw)
    returns (r: Result<(seq<Image>, seq<int>)>)
    ensures r == PoisonedWithCount(xs, ys, src, tgt, poisonCount, attack, draw)
  {
    var srcIndices := PositionsOf(ys, src);
    if poisonCount < 0 {
      return Failure(NegativeSampleSize);
    }
    if poisonCount > |srcIndices| {
      return Failure(SampleTooLarge);
    }
    var poisonedIndices := draw(srcIndices, poisonCount);
    r := PoisonDataset(xs, ys, src, tgt, |ys|, attack, poisonedIndices);
  }

  /** Once the poison count k is known, the sample size is checked and poison_dataset runs over the draw of k. */
  lemma CountedTrainingSet(xs: seq<Image>, ys: seq<int>, src: int, tgt: int, fraction: real,
                           attack: Attack, draw: Draw, k: int)
    requires PoisonCount(ys, src, fraction).Success? && PoisonCount(ys, src, fraction).value == k
    ensures PoisonedTrainingSet(xs, ys, src, tgt, fraction, attack, draw)
      == PoisonedWithCount(xs, ys, src, tgt, k, attack, draw)
  {
  }

  /** A position is poisoned exactly when it is chosen, once every chosen index holds the source label. */
  lemma ChosenSamplesArePoisoned(xs: seq<Image>, ys: seq<int>, src: int, tgt: int, attack: Attack,
                                 chosen: seq<int>, i: nat)
    requires |xs| == |ys| && i < |ys|
    requires forall c :: c in chosen ==> 0 <= c < |ys| && ys[c] == src
    ensures var out := PoisonedAll(xs, ys, src, tgt, |ys|, attack, chosen).value;
      var p := attack(ChannelsFirst(xs[i]), tgt);
      (out.0[i], out.1[i]) == if i in chosen then (ChannelsLast(p.0), p.1) else (xs[i], ys[i])
  {
  }

  /** With a fraction in [0, 1] and a source class that bincount counts, the draw
      takes exactly int(fraction * count) of the source positions, every one of them
      with the source label, and poisoning succeeds. */
  lemma PoisonCountWithinPopulation(xs: seq<Image>, ys: seq<int>, src: int, tgt: int, fraction: real,
                                    attack: Attack, draw: Draw)
    requires DrawsWithoutReplacement(draw)
    requires 0.0 <= fraction <= 1.0 && |xs| == |ys|
    requires forall i :: 0 <= i < |ys| ==> ys[i] >= 0
    requires src in ys
    ensures var positions := PositionsOf(ys, src);
      var k := PoisonCount(ys, src, fraction);
      k.Success? && 0 <= k.value <= |positions| &&
      |draw(positions, k.value)| == k.value &&
      (forall c :: c in draw(positions, k.value) ==> 0 <= c < |ys| && ys[c] == src) &&
      PoisonedTrainingSet(xs, ys, src, tgt, fraction, attack, draw)
        == PoisonedAll(xs, ys, src, tgt, |ys|, attack, draw(positions, k.value)) &&
      PoisonedTrainingSet(xs, ys, src, tgt, fraction, attack, draw).Success?
  {
    var positions := PositionsOf(ys, src);
    var k := CountWithinPopulation(ys, src, fraction);
    CountedTrainingSet(xs, ys, src, tgt, fraction, attack, draw, k);
    var chosen := draw(positions, k);
    assert ValidDraw(chosen, positions, k);
    DrawnFromSource(ys, src, chosen, k);
    assert PoisonedAll(xs, ys, src, tgt, |ys|, attack, chosen).Success?;
  }

  /** The poison count of a present class is int(fraction * positions), within the population. */
  lemma CountWithinPopulation(ys: seq<int>, src: int, fraction: real) returns (k: int)
    requires 0.0 <= fraction <= 1.0
    requires forall i :: 0 <= i < |ys| ==> ys[i] >= 0
    requires src in ys
    ensures PoisonCount(ys, src, fraction).Success? && PoisonCount(ys, src, fraction).value == k
    ensures 0 <= k <= |PositionsOf(ys, src)|
  {
    BincountOfPresentClass(ys, src);
    var n := |PositionsOf(ys, src)|;
    FractionBelow(fraction, n);
    k := TruncProduct(fraction, n);
    PoisonCountFromBincount(ys, src, fraction, n);
  }

  lemma PoisonCountFromBincount(ys: seq<int>, src: int, fraction: real, c: nat)
    requires BincountAt(ys, src).Success? && BincountAt(ys, src).value == c
    ensures PoisonCount(ys, src, fraction).Success? && PoisonCount(ys, src, fraction).value == TruncProduct(fraction, c)
  {
  }

  lemma FractionBelow(fraction: real, n: nat)
    requires 0.0 <= fraction <= 1.0
    ensures 0 <= TruncProduct(fraction, n) <= n
  {
    var x := fraction * n as real;
    assert 0.0 <= x <= n as real by {
      assert (1.0 - fraction) * n as real >= 0.0;
    }
    var t := Trunc(x);
    assert t as real <= x < t as real + 1.0;
  }

  /** A zero poison count only warns: the training set comes back as it was. */
  lemma ZeroCountLeavesDataUnchanged(xs: seq<Image>, ys: seq<int>, src: int, tgt: int, fraction: real,
                                     attack: Attack, draw: Draw)
    requires DrawsWithoutReplacement(draw)
    requires |xs| == |ys|
    requires PoisonCount(ys, src, fraction).Success? && PoisonCount(ys, src, fraction).value == 0
    ensures PoisonedTrainingSet(xs, ys, src, tgt, fraction, attack, draw) == Success((xs, ys))
  {
    var positions := PositionsOf(ys, src);
    assert draw(positions, 0) == [];
    var out := PoisonedAll(xs, ys, src, tgt, |ys|, attack, []).value;
    assert out.0 == xs && out.1 == ys;
  }

  lemma {:induction false} CountUniform(ys: seq<int>, v: int)
    requires forall i :: 0 <= i < |ys| ==> ys[i] == v
    ensures Count(ys, v) == |ys|
  {
    if ys != [] {
      CountUniform(ys[..|ys| - 1], v);
    }
  }
}
