/** The flat results mapping that MetricsLogger.results() builds, as functions
    over snapshots of its metric groups and of the resource ledger. */
module MetricsResults {
  import opened Common
  import opened MetricLists
  import opened Resources

  /** A value of the results mapping. */
  datatype Output = Values(vs: seq<real>) | Number(x: real) | Text(t: string)

  /** A metric's name and its accumulated values. */
  type Snapshot = (string, seq<real>)

  function PerSampleKey(prefix: string, name: string): string { prefix + "_" + name }
  function MeanKey(prefix: string, name: string): string { prefix + "_mean_" + name }
  function AverageKey(count: nat, name: string): string
  {
    "Avg. CPU time (s) for " + NatToString(count) + " executions of " + name
  }
  function StatsKey(name: string): string { name + " profiler stats" }

  /** The reported value of an entry's stats: its text, or the number 0. */
  function StatsOutput(s: Stats): Output
  {
    match s
    case ZeroStats => Number(0.0)
    case StatsText(t) => Text(t)
  }

  /** The results of one metric added to `acc`. */
  function MetricStep(prefix: string, s: Snapshot, means: bool, full: bool,
                      acc: map<string, Output>): Result<map<string, Output>>
  {
    var withValues := if full then acc[PerSampleKey(prefix, s.0) := Values(s.1)] else acc;
    if !means then Success(withValues)
    else match MeanOf(s.1)
      case Failure(_) => Failure(EmptyMean(PerSampleKey(prefix, s.0)))
      case Success(m) => Success(withValues[MeanKey(prefix, s.0) := Number(m)])
  }

  /** The inner loop of results() over one group, in order. */
  function GroupResults(prefix: string, snaps: seq<Snapshot>, means: bool, full: bool,
                        acc: map<string, Output>): Result<map<string, Output>>
  {
    if snaps == [] then Success(acc)
    else match GroupResults(prefix, snaps[..|snaps| - 1], means, full, acc)
      case Failure(e) => Failure(e)
      case Success(m) => MetricStep(prefix, snaps[|snaps| - 1], means, full, m)
  }

  /** The results of one ledger entry added to `acc`. */
  function LedgerStep(name: string, e: Entry, acc: map<string, Output>): Result<map<string, Output>>
  {
    if !Complete(e) then Failure(CorruptLedger)
    else if e.count.value == 0 then Failure(ZeroExecutions)
    else
      var timed := acc[AverageKey(e.count.value, name) := Number(e.totalTime.value / e.count.value as real)];
      if e.stats.Some? then Success(timed[StatsKey(name) := StatsOutput(e.stats.value)]) else Success(timed)
  }

  /** The loop of results() over the ledger, in insertion order. */
  function LedgerResults(order: seq<string>, entries: map<string, Entry>,
                         acc: map<string, Output>): Result<map<string, Output>>
    requires forall i :: 0 <= i < |order| ==> order[i] in entries
  {
    if order == [] then Success(acc)
    else match LedgerResults(order[..|order| - 1], entries, acc)
      case Failure(e) => Failure(e)
      case Success(m) => LedgerStep(order[|order| - 1], entries[order[|order| - 1]], m)
  }

  /** results(): benign, adversarial and perturbation groups, then the ledger. */
  function AllResults(benign: seq<Snapshot>, adversarial: seq<Snapshot>, perturbation: seq<Snapshot>,
                      means: bool, full: bool, order: seq<string>, entries: map<string, Entry>)
    : Result<map<string, Output>>
    requires forall i :: 0 <= i < |order| ==> order[i] in entries
  {
    match GroupResults("benign", benign, means, full, map[])
    case Failure(e) => Failure(e)
    case Success(m1) =>
      match GroupResults("adversarial", adversarial, means, full, m1)
      case Failure(e) => Failure(e)
      case Success(m2) =>
        match GroupResults("perturbation", perturbation, means, full, m2)
        case Failure(e) => Failure(e)
        case Success(m3) => LedgerResults(order, entries, m3)
  }

  /** The index of the first snapshot with no values, or |snaps| if there is none. */
  function FirstEmpty(snaps: seq<Snapshot>): (k: nat)
    ensures k <= |snaps|
    ensures forall i :: 0 <= i < k ==> snaps[i].1 != []
    ensures k < |snaps| ==> snaps[k].1 == []
  {
    if snaps == [] then 0
    else if FirstEmpty(snaps[..|snaps| - 1]) < |snaps| - 1 then FirstEmpty(snaps[..|snaps| - 1])
    else if snaps[|snaps| - 1].1 == [] then |snaps| - 1
    else |snaps|
  }

  /** A group's results fail exactly when means are requested and some metric is
      empty, and the error names the first empty metric with its prefix. */
  lemma {:induction false} GroupResultsFailure(prefix: string, snaps: seq<Snapshot>, means: bool,
                                               full: bool, acc: map<string, Output>)
    ensures var r := GroupResults(prefix, snaps, means, full, acc);
      (r.Failure? <==> means && FirstEmpty(snaps) < |snaps|) &&
      (r.Failure? ==> r.error == EmptyMean(PerSampleKey(prefix, snaps[FirstEmpty(snaps)].0)))
  {
    if snaps != [] {
      GroupResultsFailure(prefix, snaps[..|snaps| - 1], means, full, acc);
    }
  }

  /** The keys one group contributes. */
  function GroupKeys(prefix: string, snaps: seq<Snapshot>, means: bool, full: bool): set<string>
  {
    (if full then set i | 0 <= i < |snaps| :: PerSampleKey(prefix, snaps[i].0) else {}) +
    (if means then set i | 0 <= i < |snaps| :: MeanKey(prefix, snaps[i].0) else {})
  }

  /** On success a group adds exactly "{prefix}_{name}" per metric when per-sample
      values are recorded and "{prefix}_mean_{name}" when means are. */
  lemma {:induction false} GroupResultsKeys(prefix: string, snaps: seq<Snapshot>, means: bool,
                                            full: bool, acc: map<string, Output>)
    ensures var r := GroupResults(prefix, snaps, means, full, acc);
      r.Success? ==> r.value.Keys == acc.Keys + GroupKeys(prefix, snaps, means, full)
  {
    if snaps != [] {
      var init := snaps[..|snaps| - 1];
      GroupResultsKeys(prefix, init, means, full, acc);
      var last := snaps[|snaps| - 1];
      assert forall i :: 0 <= i < |init| ==> init[i] == snaps[i];
      if full {
        assert (set i | 0 <= i < |snaps| :: PerSampleKey(prefix, snaps[i].0)) ==
          (set i | 0 <= i < |init| :: PerSampleKey(prefix, init[i].0)) + {PerSampleKey(prefix, last.0)};
      }
      if means {
        assert (set i | 0 <= i < |snaps| :: MeanKey(prefix, snaps[i].0)) ==
          (set i | 0 <= i < |init| :: MeanKey(prefix, init[i].0)) + {MeanKey(prefix, last.0)};
      }
    }
  }

  /** A metric name that does not itself begin with "mean_". */
  predicate NoMeanPrefix(name: string)
  {
    |name| < 5 || name[..5] != "mean_"
  }

  lemma RegistryHasNoMeanPrefix(name: string)
    requires name in SupportedNames
    ensures NoMeanPrefix(name)
  {
    assert name[0] != 'm';
    assert |name| >= 5 ==> name[..5][0] == name[0];
  }

  /** A per-sample key and a mean key of the same group never clash. */
  lemma KeysDoNotClash(prefix: string, a: string, b: string)
    requires NoMeanPrefix(a)
    ensures PerSampleKey(prefix, a) != MeanKey(prefix, b)
  {
    var n := |prefix| + 1;
    assert PerSampleKey(prefix, a)[n..] == a;
    assert MeanKey(prefix, b)[n..] == "mean_" + b;
    assert ("mean_" + b)[..5] == "mean_";
  }

  lemma PerSampleKeyInjective(prefix: string, a: string, b: string)
    requires a != b
    ensures PerSampleKey(prefix, a) != PerSampleKey(prefix, b)
  {
    var n := |prefix| + 1;
    assert PerSampleKey(prefix, a)[n..] == a;
    assert PerSampleKey(prefix, b)[n..] == b;
  }

  /** With per-sample recording, the key of a metric whose name is unique in its
      group holds exactly that metric's accumulated values. */
  lemma {:induction false} PerSampleValue(prefix: string, snaps: seq<Snapshot>, means: bool,
                                          acc: map<string, Output>, i: nat)
    requires i < |snaps|
    requires forall j :: 0 <= j < |snaps| && j != i ==> snaps[j].0 != snaps[i].0
    requires forall j :: 0 <= j < |snaps| ==> NoMeanPrefix(snaps[j].0)
    requires GroupResults(prefix, snaps, means, true, acc).Success?
    ensures var r := GroupResults(prefix, snaps, means, true, acc).value;
      PerSampleKey(prefix, snaps[i].0) in r && r[PerSampleKey(prefix, snaps[i].0)] == Values(snaps[i].1)
  {
    var init := snaps[..|snaps| - 1];
    var last := snaps[|snaps| - 1];
    var m := GroupResults(prefix, init, means, true, acc);
    assert m.Success?;
    if i < |snaps| - 1 {
      PerSampleValue(prefix, init, means, acc, i);
      assert init[i] == snaps[i];
      PerSampleKeyInjective(prefix, last.0, snaps[i].0);
      KeysDoNotClash(prefix, snaps[i].0, last.0);
    } else {
      KeysDoNotClash(prefix, last.0, last.0);
    }
  }

  lemma MeanKeyInjective(prefix: string, a: string, b: string)
    requires a != b
    ensures MeanKey(prefix, a) != MeanKey(prefix, b)
  {
    var n := |prefix| + 6;
    assert MeanKey(prefix, a)[n..] == a;
    assert MeanKey(prefix, b)[n..] == b;
  }

  /** With means reported, the mean key of a metric whose name is unique in its
      group holds exactly the mean of that metric's accumulated values. */
  lemma {:induction false} MeanValue(prefix: string, snaps: seq<Snapshot>, full: bool,
                                     acc: map<string, Output>, i: nat)
    requires i < |snaps|
    requires forall j :: 0 <= j < |snaps| && j != i ==> snaps[j].0 != snaps[i].0
    requires forall j :: 0 <= j < |snaps| ==> NoMeanPrefix(snaps[j].0)
    requires GroupResults(prefix, snaps, true, full, acc).Success?
    ensures MeanOf(snaps[i].1).Success?
    ensures var r := GroupResults(prefix, snaps, true, full, acc).value;
      MeanKey(prefix, snaps[i].0) in r && r[MeanKey(prefix, snaps[i].0)] == Number(MeanOf(snaps[i].1).value)
  {
    var init := snaps[..|snaps| - 1];
    var last := snaps[|snaps| - 1];
    var m := GroupResults(prefix, init, true, full, acc);
    assert m.Success?;
    if i < |snaps| - 1 {
      MeanValue(prefix, init, full, acc, i);
      assert init[i] == snaps[i];
      MeanKeyInjective(prefix, last.0, snaps[i].0);
      KeysDoNotClash(prefix, last.0, snaps[i].0);
    }
  }

  /** A ledger written only by profiled regions never makes results() fail, and
      reports total_time / execution_count for every name. */
  lemma {:induction false} ReportableLedgerResults(order: seq<string>, entries: map<string, Entry>,
                                                   acc: map<string, Output>)
    requires forall i :: 0 <= i < |order| ==> order[i] in entries
    requires Reportable(entries)
    ensures var r := LedgerResults(order, entries, acc);
      r.Success? &&
      forall i :: 0 <= i < |order| ==>
        AverageKey(entries[order[i]].count.value, order[i]) in r.value
  {
    if order != [] {
      var init := order[..|order| - 1];
      ReportableLedgerResults(init, entries, acc);
      var m := LedgerResults(init, entries, acc).value;
      assert forall i :: 0 <= i < |init| ==> init[i] == order[i];
    }
  }

  /** The average time reported for an entry is its total time over its count. */
  lemma AverageTime(name: string, e: Entry, acc: map<string, Output>)
    requires Complete(e) && e.count.value >= 1
    ensures var r := LedgerStep(name, e, acc);
      r.Success? &&
      r.value[AverageKey(e.count.value, name)] == Number(e.totalTime.value / e.count.value as real) &&
      (StatsKey(name) in r.value <==> e.stats.Some? || StatsKey(name) in acc) &&
      (e.stats.Some? ==> r.value[StatsKey(name)] == StatsOutput(e.stats.value))
  {
    var timed := acc[AverageKey(e.count.value, name) := Number(e.totalTime.value / e.count.value as real)];
    if e.stats.Some? {
      assert StatsKey(name) != AverageKey(e.count.value, name) by {
        assert StatsKey(name)[..|name|] == name;
      }
    }
  }

  /** A name first profiled with Basic and then with Deterministic: the second
      run raises the TypeError, yet its count and time are recorded and the
      stats key reports the 0 left behind by the failed addition. */
  lemma BasicThenDeterministicReportsZero(name: string, t1: real, t2: real, text: string)
    ensures var (e1, ok1) := Recorded(None, false, t1, "");
      var (e2, ok2) := Recorded(Some(e1), true, t2, text);
      var r := LedgerStep(name, e2, map[]);
      ok1 && !ok2 && r.Success? &&
      r.value == map[AverageKey(2, name) := Number((t1 + t2) / 2.0), StatsKey(name) := Number(0.0)]
  {
    var (e1, _) := Recorded(None, false, t1, "");
    var (e2, _) := Recorded(Some(e1), true, t2, text);
    assert e2 == Entry(Some(2), Some(t1 + t2), Some(ZeroStats));
  }

  /** A logger whose task is categorical_accuracy and which saw one benign batch
      [1, 0, 1] against [1, 1, 1]: the benign mean is 2/3, but results() raises,
      because the adversarial group of the same metric holds no values. */
  lemma BenignOnlyLoggerRaises()
    ensures var benign := [("categorical_accuracy", [1.0, 0.0, 1.0])];
      var adversarial := [("categorical_accuracy", [])];
      var r := GroupResults("benign", benign, true, false, map[]);
      r.Success? && "benign_mean_categorical_accuracy" in r.value &&
      r.value["benign_mean_categorical_accuracy"] == Number(2.0 / 3.0) &&
      AllResults(benign, adversarial, [], true, false, [], map[])
        == Failure(EmptyMean("adversarial_categorical_accuracy"))
  {
    BenignGroupExample();
    AdversarialGroupExample(map["benign_mean_categorical_accuracy" := Number(2.0 / 3.0)]);
  }

  lemma BenignGroupExample()
    ensures GroupResults("benign", [("categorical_accuracy", [1.0, 0.0, 1.0])], true, false, map[])
      == Success(map["benign_mean_categorical_accuracy" := Number(2.0 / 3.0)])
  {
    var vs := [1.0, 0.0, 1.0];
    var benign: seq<Snapshot> := [("categorical_accuracy", vs)];
    assert benign[..0] == [];
    MeanOfExample();
    var m1 := map["benign_mean_categorical_accuracy" := Number(2.0 / 3.0)];
    assert MeanKey("benign", "categorical_accuracy") == "benign_mean_categorical_accuracy";
    assert MetricStep("benign", benign[0], true, false, map[]) == Success(m1);
  }

  lemma MeanOfExample()
    ensures MeanOf([1.0, 0.0, 1.0]) == Success(2.0 / 3.0)
  {
    var vs := [1.0, 0.0, 1.0];
    assert Sum([1.0]) == 1.0 by { assert [1.0][..0] == []; }
    assert Sum([1.0, 0.0]) == 1.0 by { assert [1.0, 0.0][..1] == [1.0]; }
    assert Sum(vs) == 2.0 by { assert vs[..2] == [1.0, 0.0]; }
  }

  lemma AdversarialGroupExample(acc: map<string, Output>)
    ensures GroupResults("adversarial", [("categorical_accuracy", [])], true, false, acc)
      == Failure(EmptyMean("adversarial_categorical_accuracy"))
  {
    var adversarial: seq<Snapshot> := [("categorical_accuracy", [])];
    assert adversarial[..0] == [];
    assert PerSampleKey("adversarial", "categorical_accuracy") == "adversarial_categorical_accuracy";
    assert MetricStep("adversarial", adversarial[0], true, false, acc)
      == Failure(EmptyMean("adversarial_categorical_accuracy"));
  }
}
