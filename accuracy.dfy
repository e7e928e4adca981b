/** Per-sample accuracy metrics over label and score arrays
    (categorical_accuracy, top_n_categorical_accuracy, top_5_categorical_accuracy). */
module Accuracy {
  import opened Common

  /** A numpy array of rank 0, 1 or 2. Scores are integers: only their order
      matters to argmax and argsort. */
  datatype Array = Scalar(x: int) | Vec(xs: seq<int>) | Mat(width: nat, rows: seq<seq<int>>)

  /** numpy arrays are rectangular. */
  predicate WellFormed(a: Array)
  {
    a.Mat? ==> forall i :: 0 <= i < |a.rows| ==> |a.rows[i]| == a.width
  }

  /** The arrays a metric can receive. */
  type NdArray = a: Array | WellFormed(a) witness Scalar(0)

  function Ndim(a: Array): nat
  {
    match a
    case Scalar(_) => 0
    case Vec(_) => 1
    case Mat(_, _) => 2
  }

  function B2I(b: bool): int { if b then 1 else 0 }

  /** numpy argmax over one row: the FIRST index holding the maximum. */
  function Argmax(row: seq<int>): (k: nat)
    requires |row| > 0
    ensures k < |row|
    ensures forall j :: 0 <= j < |row| ==> row[j] <= row[k]
    ensures forall j :: 0 <= j < k ==> row[j] < row[k]
  {
    if |row| == 1 then 0
    else
      var k := Argmax(row[..|row| - 1]);
      if row[|row| - 1] > row[k] then |row| - 1 else k
  }

  /** The index numpy's == uses from an operand of length m when the result has length n. */
  function BIndex(m: nat, i: nat): nat { if m == 1 then 0 else i }

  /** Elementwise == of two label vectors with numpy broadcasting, as 0/1. */
  function CompareLabels(a: seq<int>, b: seq<int>): (r: Result<seq<int>>)
    ensures r.Success? <==> (|a| == |b| || |a| == 1 || |b| == 1)
    ensures |a| == |b| && r.Success? ==>
      |r.value| == |a| && forall i :: 0 <= i < |a| ==> r.value[i] == B2I(a[i] == b[i])
    ensures r.Success? ==> forall i :: 0 <= i < |r.value| ==> r.value[i] in {0, 1}
    ensures r.Success? && |a| != |b| && |a| == 1 ==>
      |r.value| == |b| && forall i :: 0 <= i < |b| ==> r.value[i] == B2I(a[0] == b[i])
    ensures r.Success? && |a| != |b| && |b| == 1 ==>
      |r.value| == |a| && forall i :: 0 <= i < |a| ==> r.value[i] == B2I(a[i] == b[0])
    ensures r.Failure? ==> r.error == Broadcast
  {
    if |a| == |b| || |a| == 1 || |b| == 1 then
      var n := if |a| == |b| then |a| else if |a| == 1 then |b| else |a|;
      Success(seq(n, i requires 0 <= i < n =>
        B2I(a[BIndex(|a|, i)] == b[BIndex(|b|, i)])))
    else Failure(Broadcast)
  }

  /** argmax(y_pred, axis=-1) over a score matrix. */
  function ArgmaxRows(width: nat, rows: seq<seq<int>>): (r: seq<int>)
    requires width > 0 && forall i :: 0 <= i < |rows| ==> |rows[i]| == width
    ensures |r| == |rows| && forall i :: 0 <= i < |rows| ==> r[i] == Argmax(rows[i])
  {
    seq(|rows|, i requires 0 <= i < |rows| => Argmax(rows[i]))
  }

  /** The ranks after the source wraps a zero-dimensional y (and y_pred) in a list. */
  function PromotedRanks(y: Array, yPred: Array): (nat, nat)
  {
    if y.Scalar? then (1, Ndim(yPred) + 1) else (Ndim(y), Ndim(yPred))
  }

  /** categorical_accuracy on a one-dimensional y, after promotion. */
  function AccuracyOnVec(ys: seq<int>, yPred: Array): Result<seq<int>>
    requires WellFormed(yPred)
  {
    match yPred
    case Vec(ps) => if |ys| == |ps| then CompareLabels(ys, ps) else Failure(DimensionMismatch)
    case Mat(w, rows) =>
      if w == 0 then Failure(EmptyArgmax) else CompareLabels(ys, ArgmaxRows(w, rows))
    case Scalar(_) => Failure(DimensionMismatch)
  }

  /** categorical_accuracy: one 0/1 per sample; label equality when the shapes agree,
      comparison with the argmax of the scores when y_pred has one more dimension. */
  function CategoricalAccuracy(y: Array, yPred: Array): (r: Result<seq<int>>)
    requires WellFormed(y) && WellFormed(yPred)
    ensures r.Success? ==> forall i :: 0 <= i < |r.value| ==> r.value[i] in {0, 1}
    ensures var (ry, rp) := PromotedRanks(y, yPred);
      ry != rp && ry + 1 != rp ==> r == Failure(DimensionMismatch)
    ensures y.Scalar? && yPred.Scalar? ==>
      r.Success? && |r.value| == 1 && r.value[0] == B2I(y.x == yPred.x)
    ensures y.Scalar? && yPred.Vec? && |yPred.xs| > 0 ==>
      r.Success? && |r.value| == 1 && r.value[0] == B2I(y.x == Argmax(yPred.xs))
    ensures y.Vec? && yPred.Vec? ==>
      (r.Success? <==> |y.xs| == |yPred.xs|) &&
      (r.Success? ==> (|r.value| == |y.xs| &&
        forall i :: 0 <= i < |y.xs| ==> r.value[i] == B2I(y.xs[i] == yPred.xs[i])))
    ensures y.Vec? && yPred.Vec? && |y.xs| != |yPred.xs| ==> r == Failure(DimensionMismatch)
    ensures y.Vec? && yPred.Mat? && yPred.width > 0 && |yPred.rows| == |y.xs| ==>
      r.Success? && |r.value| == |y.xs| &&
      forall i :: 0 <= i < |y.xs| ==> r.value[i] == B2I(y.xs[i] == Argmax(yPred.rows[i]))
    ensures y.Vec? && yPred.Mat? && yPred.width == 0 ==> r == Failure(EmptyArgmax)
  {
    match y
    case Scalar(v) =>
      (match yPred
       case Scalar(p) => CompareLabels([v], [p])
       case Vec(ps) => AccuracyOnVec([v], Mat(|ps|, [ps]))
       case Mat(_, _) => Failure(DimensionMismatch))
    case Vec(ys) => AccuracyOnVec(ys, yPred)
    case Mat(w, rows) =>
      (match yPred
       case Mat(w', rows') =>
         if w != w' || |rows| != |rows'| then Failure(DimensionMismatch)
         else if |rows| == 0 then Success([])
         else if w != 1 then Failure(NotScalar)
         else Success(seq(|rows|, i requires 0 <= i < |rows| => B2I(rows[i][0] == rows'[i][0])))
       case _ => Failure(DimensionMismatch))
  }

  /** In numpy's stable ascending argsort, index j sorts after index l. */
  predicate SortsAfter(row: seq<int>, j: int, l: int)
    requires 0 <= j < |row| && 0 <= l < |row|
  {
    row[j] > row[l] || (row[j] == row[l] && j > l)
  }

  /** How many indices sort after l: l is among the last n of the argsort iff this is below n. */
  function Rank(row: seq<int>, l: int): nat
    requires 0 <= l < |row|
  {
    |Above(row, l)|
  }

  /** The valid class indices 0 .. n-1. */
  function Indices(n: nat): (r: set<int>)
    ensures forall j :: j in r <==> 0 <= j < n
    ensures |r| == n
  {
    if n == 0 then {} else Indices(n - 1) + {n - 1}
  }

  function Above(row: seq<int>, l: int): set<int>
    requires 0 <= l < |row|
  {
    set j | j in Indices(|row|) && SortsAfter(row, j, l)
  }

  /** label in argsort(row)[-n:] */
  predicate InTopN(row: seq<int>, lbl: int, n: nat)
  {
    0 <= lbl < |row| && Rank(row, lbl) < n
  }

  /** len() of an array after promotion. */
  function Len(a: Array): Result<nat>
  {
    match a
    case Scalar(_) => Failure(Unsized)
    case Vec(xs) => Success(|xs|)
    case Mat(_, rows) => Success(|rows|)
  }

  function SameShape(a: Array, b: Array): bool
  {
    match (a, b)
    case (Scalar(_), Scalar(_)) => true
    case (Vec(p), Vec(q)) => |p| == |q|
    case (Mat(w, p), Mat(w', q)) => w == w' && |p| == |q|
    case _ => false
  }

  /** top_n_categorical_accuracy for n >= 2 once y is at least one-dimensional. */
  function TopNPromoted(y: Array, yPred: Array, n: nat): Result<seq<int>>
    requires WellFormed(yPred) && !y.Scalar?
  {
    match (Len(y), Len(yPred))
    case (Failure(e), _) => Failure(e)
    case (_, Failure(e)) => Failure(e)
    case (Success(ly), Success(lp)) =>
      if ly != lp then Failure(LengthMismatch)
      else if SameShape(y, yPred) then Failure(NoScores)
      else if y.Vec? && yPred.Mat? then
        Success(seq(|y.xs|, i requires 0 <= i < |y.xs| => B2I(InTopN(yPred.rows[i], y.xs[i], n))))
      else Failure(DimensionMismatch)
  }

  /** top_n_categorical_accuracy: 1 where the label is among the n highest-scoring classes. */
  function TopNCategoricalAccuracy(y: Array, yPred: Array, n: int): (r: Result<seq<int>>)
    requires WellFormed(y) && WellFormed(yPred)
    ensures n < 1 ==> r == Failure(InvalidN)
    ensures n == 1 ==> r == CategoricalAccuracy(y, yPred)
    ensures n >= 2 && y.Vec? && yPred.Vec? ==>
      r == Failure(if |y.xs| != |yPred.xs| then LengthMismatch else NoScores)
    ensures n >= 2 && y.Vec? && yPred.Mat? ==>
      (r.Success? <==> |yPred.rows| == |y.xs|) &&
      (r.Success? ==> (|r.value| == |y.xs| &&
        forall i :: 0 <= i < |y.xs| ==> r.value[i] == B2I(InTopN(yPred.rows[i], y.xs[i], n))))
    ensures n >= 2 && y.Scalar? && yPred.Vec? ==>
      r.Success? && |r.value| == 1 && r.value[0] == B2I(InTopN(yPred.xs, y.x, n))
  {
    if n < 1 then Failure(InvalidN)
    else if n == 1 then CategoricalAccuracy(y, yPred)
    else
      match y
      case Scalar(v) =>
        (match yPred
         case Scalar(p) => TopNPromoted(Vec([v]), Vec([p]), n)
         case Vec(ps) => TopNPromoted(Vec([v]), Mat(|ps|, [ps]), n)
         case Mat(_, _) => Failure(DimensionMismatch))
      case _ => TopNPromoted(y, yPred, n)
  }

  function Top5CategoricalAccuracy(y: Array, yPred: Array): (r: Result<seq<int>>)
    requires WellFormed(y) && WellFormed(yPred)
    ensures r == TopNCategoricalAccuracy(y, yPred, 5)
  {
    TopNCategoricalAccuracy(y, yPred, 5)
  }

  /** categorical_accuracy when y_pred has one more dimension and its row count differs
      from the label count: numpy broadcasts a length-1 side and raises otherwise. */
  lemma CategoricalAccuracyBroadcast(y: NdArray, yPred: NdArray)
    requires y.Vec? && yPred.Mat? && yPred.width > 0 && |yPred.rows| != |y.xs|
    ensures CategoricalAccuracy(y, yPred).Success? <==> |y.xs| == 1 || |yPred.rows| == 1
    ensures CategoricalAccuracy(y, yPred).Failure? ==> CategoricalAccuracy(y, yPred).error == Broadcast
    ensures |y.xs| == 1 ==>
      var r := CategoricalAccuracy(y, yPred);
      r.Success? && |r.value| == |yPred.rows| &&
      forall i :: 0 <= i < |yPred.rows| ==> r.value[i] == B2I(y.xs[0] == Argmax(yPred.rows[i]))
    ensures |yPred.rows| == 1 ==>
      var r := CategoricalAccuracy(y, yPred);
      r.Success? && |r.value| == |y.xs| &&
      forall i :: 0 <= i < |y.xs| ==> r.value[i] == B2I(y.xs[i] == Argmax(yPred.rows[0]))
  {
  }

  /** categorical_accuracy on two matrices: shapes that differ raise the dimension error;
      equal shapes compare `int()` of each row, which needs one column unless there are no rows. */
  lemma CategoricalAccuracyOnMatrices(y: NdArray, yPred: NdArray)
    requires y.Mat? && yPred.Mat?
    ensures var r := CategoricalAccuracy(y, yPred);
      (!SameShape(y, yPred) ==> r == Failure(DimensionMismatch)) &&
      (SameShape(y, yPred) && (y.width == 1 || |y.rows| == 0) ==>
        r.Success? && |r.value| == |y.rows| &&
        forall i :: 0 <= i < |y.rows| ==> r.value[i] == B2I(y.rows[i][0] == yPred.rows[i][0])) &&
      (SameShape(y, yPred) && y.width != 1 && |y.rows| > 0 ==> r == Failure(NotScalar))
  {
  }

  /** A zero-dimensional label against an empty score vector raises in argmax. */
  lemma CategoricalAccuracyEmptyScores(y: NdArray, yPred: NdArray)
    requires y.Scalar? && yPred.Vec? && |yPred.xs| == 0
    ensures CategoricalAccuracy(y, yPred) == Failure(EmptyArgmax)
  {
  }

  /** top_n_categorical_accuracy's shape errors for n of 2 or more: a zero-dimensional y_pred
      has no len(), lengths must agree, equal shapes have no ranking to take, and the
      remaining rank relations other than a label vector against a score matrix raise. */
  lemma TopNShapeErrors(y: NdArray, yPred: NdArray, n: int)
    requires n >= 2
    ensures var r := TopNCategoricalAccuracy(y, yPred, n);
      (SameShape(y, yPred) ==> r == Failure(NoScores)) &&
      (!y.Scalar? && yPred.Scalar? ==> r == Failure(Unsized)) &&
      (y.Vec? && yPred.Mat? && |yPred.rows| != |y.xs| ==> r == Failure(LengthMismatch)) &&
      (y.Scalar? && yPred.Mat? ==> r == Failure(DimensionMismatch)) &&
      (y.Mat? && !yPred.Scalar? ==>
        r == Failure(if Len(y).value != Len(yPred).value then LengthMismatch
                     else if SameShape(y, yPred) then NoScores else DimensionMismatch))
  {
  }

  /** Some index always sorts after any other but the top one, so a label is
      missing from the top n only if n is smaller than the number of classes. */
  lemma RankBelowClasses(row: seq<int>, l: int)
    requires 0 <= l < |row|
    ensures Rank(row, l) < |row|
  {
    var others := Indices(|row|) - {l};
    assert Above(row, l) <= others;
    SubsetSize(Above(row, l), others);
  }

  lemma SubsetSize(a: set<int>, b: set<int>)
    requires a <= b
    ensures |a| <= |b|
  {
    assert b == a + (b - a);
  }

  /** An index that sorts after another has fewer indices after it. */
  lemma RankDecreases(row: seq<int>, a: int, b: int)
    requires 0 <= a < |row| && 0 <= b < |row| && SortsAfter(row, a, b)
    ensures Rank(row, a) < Rank(row, b)
  {
    var aboveA, aboveB := Above(row, a), Above(row, b);
    assert a in aboveB && a !in aboveA;
    assert aboveA <= aboveB - {a};
    SubsetSize(aboveA, aboveB - {a});
  }

  /** The argsort is a permutation: distinct classes have distinct ranks. */
  lemma RankInjective(row: seq<int>, a: int, b: int)
    requires 0 <= a < |row| && 0 <= b < |row| && a != b
    ensures Rank(row, a) != Rank(row, b)
  {
    if SortsAfter(row, a, b) {
      RankDecreases(row, a, b);
    } else {
      RankDecreases(row, b, a);
    }
  }

  /** The rank of every class of a row. */
  function RankMap(row: seq<int>): (m: map<int, int>)
    ensures forall c :: c in m <==> 0 <= c < |row|
    ensures forall c :: c in m ==> m[c] == Rank(row, c) && 0 <= m[c] < |row|
  {
    forall c | 0 <= c < |row| ensures Rank(row, c) < |row| {
      RankBelowClasses(row, c);
    }
    map c | c in Indices(|row|) :: Rank(row, c)
  }

  /** The values a map takes on a set of its keys. */
  function Image(m: map<int, int>, s: set<int>): set<int>
    requires forall c :: c in s ==> c in m
  {
    set c | c in s :: m[c]
  }

  /** The members of s below k. */
  function Under(s: set<int>, k: int): (r: set<int>)
    ensures forall c :: c in r <==> c in s && c < k
  {
    set c | c in s && c < k
  }

  /** A map that is one-to-one on the members of s below k takes as many values there. */
  lemma {:induction false} InjectiveImageSize(m: map<int, int>, s: set<int>, k: nat)
    requires forall c :: c in s ==> 0 <= c && c in m
    requires forall a, b :: a in s && b in s && a != b ==> m[a] != m[b]
    ensures |Image(m, Under(s, k))| == |Under(s, k)|
    decreases k
  {
    var below := Under(s, k);
    if k == 0 {
      assert below == {};
      assert Image(m, below) == {};
    } else {
      var prev := Under(s, k - 1);
      InjectiveImageSize(m, s, k - 1);
      if k - 1 in s {
        assert below == prev + {k - 1};
        assert m[k - 1] !in Image(m, prev);
        assert Image(m, below) == Image(m, prev) + {m[k - 1]};
      } else {
        assert below == prev;
      }
    }
  }

  lemma SameSizeSubset(a: set<int>, b: set<int>)
    requires a <= b && |a| == |b|
    ensures a == b
  {
    assert b == a + (b - a);
    assert |b - a| == 0;
  }

  /** A one-to-one map from 0 .. w-1 into 0 .. w-1 takes every value there. */
  lemma InjectiveOnto(m: map<int, int>, w: nat)
    requires forall c :: c in m <==> 0 <= c < w
    requires forall c :: c in m ==> 0 <= m[c] < w
    requires forall a, b :: a in m && b in m && a != b ==> m[a] != m[b]
    ensures Image(m, Indices(w)) == Indices(w)
  {
    InjectiveImageSize(m, Indices(w), w);
    assert Under(Indices(w), w) == Indices(w);
    SameSizeSubset(Image(m, Indices(w)), Indices(w));
  }

  /** Distinct classes of a row have distinct ranks. */
  lemma RankMapInjective(row: seq<int>)
    ensures forall a, b :: a in RankMap(row) && b in RankMap(row) && a != b ==>
      RankMap(row)[a] != RankMap(row)[b]
  {
    forall a, b | 0 <= a < |row| && 0 <= b < |row| && a != b ensures Rank(row, a) != Rank(row, b) {
      RankInjective(row, a, b);
    }
  }

  /** The argsort is a permutation: every position 0 .. width-1 holds exactly one class. */
  lemma RanksArePermutation(row: seq<int>)
    ensures forall a, b :: a in RankMap(row) && b in RankMap(row) && a != b ==>
      RankMap(row)[a] != RankMap(row)[b]
    ensures forall k :: 0 <= k < |row| ==> k in Image(RankMap(row), Indices(|row|))
  {
    RankMapInjective(row);
    InjectiveOnto(RankMap(row), |row|);
  }

  /** The classes argsort(row)[-n:] holds. */
  function TopClasses(row: seq<int>, n: nat): (r: set<int>)
    ensures forall c :: c in r <==> InTopN(row, c, n)
  {
    set c | c in Indices(|row|) && InTopN(row, c, n)
  }

  /** The members of 0 .. w-1 that m sends below n. */
  function MappedBelow(m: map<int, int>, w: nat, n: int): (r: set<int>)
    requires forall c :: 0 <= c < w ==> c in m
    ensures forall c :: c in r <==> 0 <= c < w && m[c] < n
  {
    set c | c in Indices(w) && m[c] < n
  }

  /** Under a map of 0 .. w-1 onto 0 .. w-1, the members sent below n take the values 0 .. min(n, w)-1. */
  lemma ImageOfMappedBelow(m: map<int, int>, w: nat, n: nat)
    requires forall c :: c in m <==> 0 <= c < w
    requires forall c :: c in m ==> 0 <= m[c] < w
    requires forall k :: 0 <= k < w ==> k in Image(m, Indices(w))
    ensures Image(m, MappedBelow(m, w, n)) == Indices(if n < w then n else w)
  {
    var sel := MappedBelow(m, w, n);
    forall k | k in Indices(if n < w then n else w) ensures k in Image(m, sel) {
      assert k in Image(m, Indices(w));
      var c :| c in Indices(w) && m[c] == k;
      assert c in sel;
    }
  }

  /** Under a permutation of 0 .. w-1, exactly min(n, w) members map below n. */
  lemma PermutationBelowSize(m: map<int, int>, w: nat, n: nat)
    requires forall c :: c in m <==> 0 <= c < w
    requires forall c :: c in m ==> 0 <= m[c] < w
    requires forall a, b :: a in m && b in m && a != b ==> m[a] != m[b]
    requires forall k :: 0 <= k < w ==> k in Image(m, Indices(w))
    ensures |MappedBelow(m, w, n)| == if n < w then n else w
  {
    var sel := MappedBelow(m, w, n);
    InjectiveImageSize(m, sel, w);
    assert Under(sel, w) == sel;
    ImageOfMappedBelow(m, w, n);
  }

  /** The top n classes are those whose rank is below n. */
  lemma TopClassesByRank(row: seq<int>, n: nat)
    ensures TopClasses(row, n) == MappedBelow(RankMap(row), |row|, n)
  {
    var m := RankMap(row);
    var top, sel := TopClasses(row, n), MappedBelow(m, |row|, n);
    forall c | c in top ensures c in sel {
      assert m[c] == Rank(row, c);
    }
    forall c | c in sel ensures c in top {
      assert m[c] == Rank(row, c);
    }
  }

  /** argsort(row)[-n:] holds exactly min(n, width) classes. */
  lemma TopClassesSize(row: seq<int>, n: nat)
    ensures |TopClasses(row, n)| == if n < |row| then n else |row|
  {
    RanksArePermutation(row);
    PermutationBelowSize(RankMap(row), |row|, n);
    TopClassesByRank(row, n);
  }

  /** When n is at least the number of classes, every in-range label is in the top n. */
  lemma TopNCoversAllClasses(row: seq<int>, l: int, n: nat)
    requires 0 <= l < |row| <= n
    ensures InTopN(row, l, n)
  {
    RankBelowClasses(row, l);
  }

  /** The top n dominate: every label in the top n scores at least as high as every label outside. */
  lemma TopNDominates(row: seq<int>, a: int, b: int, n: nat)
    requires InTopN(row, a, n) && 0 <= b < |row| && !InTopN(row, b, n)
    ensures row[a] >= row[b]
  {
    if row[b] > row[a] {
      var aboveA, aboveB := Above(row, a), Above(row, b);
      forall j | j in aboveB ensures j in aboveA {
        assert SortsAfter(row, j, b);
      }
      assert b in aboveA && b !in aboveB;
      SubsetSize(aboveB, aboveA - {b});
    }
  }

  /** top_n_categorical_accuracy with n at least the number of classes scores every
      sample whose label is a valid class index as a hit. */
  lemma TopNAllHitsWhenNCoversClasses(ys: seq<int>, width: nat, rows: seq<seq<int>>, n: int)
    requires WellFormed(Mat(width, rows)) && |rows| == |ys| && n >= 2 && n >= width
    requires forall i :: 0 <= i < |ys| ==> 0 <= ys[i] < width
    ensures var r := TopNCategoricalAccuracy(Vec(ys), Mat(width, rows), n);
      r.Success? && |r.value| == |ys| && forall i :: 0 <= i < |ys| ==> r.value[i] == 1
  {
    forall i | 0 <= i < |ys|
      ensures InTopN(rows[i], ys[i], n)
    {
      TopNCoversAllClasses(rows[i], ys[i], n);
    }
  }
}
