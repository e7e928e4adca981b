/** Failure-carrying wrappers and the error kinds raised by the metrics layer
    and the poisoning scenario. */
module Common {

  datatype Option<+T> = None | Some(value: T)

  datatype Result<+T> = Success(value: T) | Failure(error: Error)

  /** The exceptions of the source, one constructor per raise site kind. */
  datatype Error =
    | DimensionMismatch          // ValueError: "have mismatched dimensions"
    | LengthMismatch             // ValueError: "y and y_pred are of different length"
    | NoScores                   // ValueError: "Must supply multiple predictions"
    | EmptyArgmax                // ValueError: argmax of an empty sequence
    | Broadcast                  // operands of an elementwise == cannot be broadcast
    | NotScalar                  // TypeError: int() of an array holding other than one element
    | Unsized                    // TypeError: len() of a zero-dimensional array
    | InvalidN                   // ValueError: "n must be a positive integer"
    | Arity                      // TypeError: a three-argument metric called with two
    | UnknownMetric(name: string)              // KeyError from the metric registry
    | InvalidNames               // ValueError: names neither None, str nor list
    | ZeroDivision               // ZeroDivisionError: mean of no values
    | EmptyMean(metric: string)   // ZeroDivisionError naming the empty metric
    | BenignTargeted             // ValueError: "benign task cannot be targeted"
    | UnknownProfiler(p: string) // ValueError: profiler not Basic/Deterministic
    | NoLedger                   // TypeError: membership test on a missing ledger
    | StatsTypeError             // TypeError: 0 + str on a ledger entry whose stats are 0
    | BodyRaised                 // an exception raised inside a profiled region
    | CorruptLedger              // ValueError: ledger entry missing data
    | ZeroExecutions             // ZeroDivisionError: execution_count of zero
    | NumEvalBatchesSet          // ValueError: num_eval_batches set
    | NoPreloadedPoison          // ValueError: preloaded attack poisons nothing
    | NegativeLabel              // ValueError from bincount
    | ClassOutOfRange            // IndexError from indexing the bincount
    | SampleTooLarge             // ValueError from choice without replacement
    | MaskLength                 // IndexError: keep-mask length differs from data
    | IndexOutOfRange            // IndexError: ds_size beyond the images or labels
    | NegativeSampleSize         // ValueError from choice with a negative size
    | PoisonExhausted            // the poison batches run out before the clean ones
    | NothingToConcatenate       // ValueError: concatenation of no batches
    | External(what: string)     // an error raised by an abstract collaborator

  /** Python's int() on a float: truncation toward zero. */
  function Trunc(r: real): (t: int)
    ensures r >= 0.0 ==> t as real <= r < t as real + 1.0
    ensures r < 0.0 ==> t as real - 1.0 < r <= t as real
  {
    if r >= 0.0 then r.Floor else -((-r).Floor)
  }

  /** int(f * n) for a float f and an integer n. */
  function TruncProduct(f: real, n: int): int
  {
    Trunc(f * n as real)
  }

  /** The number a string of decimal digits denotes. */
  function DecimalValue(s: string): nat
    requires forall i :: 0 <= i < |s| ==> '0' <= s[i] <= '9'
  {
    if s == [] then 0
    else DecimalValue(s[..|s| - 1]) * 10 + (s[|s| - 1] as int - '0' as int)
  }

  /** Decimal rendering of a natural number, as Python's str() on an int:
      digits that denote n, with no leading zero. */
  function NatToString(n: nat): (s: string)
    ensures |s| >= 1
    ensures forall i :: 0 <= i < |s| ==> '0' <= s[i] <= '9'
    ensures DecimalValue(s) == n
    ensures s[0] == '0' ==> s == "0"
  {
    if n < 10 then [Digit(n)]
    else
      var init := NatToString(n / 10);
      var s := init + [Digit(n % 10)];
      assert s[..|s| - 1] == init;
      s
  }

  function Digit(d: nat): (c: char)
    requires d < 10
    ensures '0' <= c <= '9' && c as int - '0' as int == d
  {
    "0123456789"[d]
  }

  /** Distinct counts render as distinct strings. */
  lemma NatToStringInjective(m: nat, n: nat)
    requires m != n
    ensures NatToString(m) != NatToString(n)
  {
  }

  /** Sum of a sequence of reals, left to right. */
  function Sum(s: seq<real>): real
  {
    if s == [] then 0.0 else Sum(s[..|s| - 1]) + s[|s| - 1]
  }

  lemma {:induction false} SumAppend(a: seq<real>, b: seq<real>)
    ensures Sum(a + b) == Sum(a) + Sum(b)
    decreases |b|
  {
    if b == [] {
      assert a + b == a;
    } else {
      assert (a + b)[..|a + b| - 1] == a + b[..|b| - 1];
      SumAppend(a, b[..|b| - 1]);
    }
  }

  /** Repeating a value n times, as Python's [v] * n. */
  function Repeat<T>(v: T, n: nat): (r: seq<T>)
    ensures |r| == n && forall i :: 0 <= i < n ==> r[i] == v
  {
    if n == 0 then [] else Repeat(v, n - 1) + [v]
  }
}
