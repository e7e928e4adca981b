/** MetricsLogger: benign, adversarial and perturbation groups of MetricLists
    plus a resource ledger, producing one flat results mapping. */
module MetricsLogging {
  import opened Common
  import opened Accuracy
  import opened MetricLists
  import opened Resources
  import opened MetricsResults

  /** The `task` and `perturbation` arguments: None, one name, a list, or a value of another type. */
  datatype Names = NoNames | OneName(single: string) | NameList(list: seq<string>) | OtherType

  /** The names _generate_counters turns into MetricLists. */
  function NameSeq(names: Names): (r: Result<seq<string>>)
    ensures r.Failure? <==> names.OtherType?
    ensures r.Failure? ==> r.error == InvalidNames
    ensures names.NoNames? ==> r == Success([])
    ensures names.OneName? ==> r == Success([names.single])
    ensures names.NameList? ==> r == Success(names.list)
  {
    match names
    case NoNames => Success([])
    case OneName(n) => Success([n])
    case NameList(ns) => Success(ns)
    case OtherType => Failure(InvalidNames)
  }

  /** The index of the first name the registry does not hold, or |ns|. */
  function FirstUnknown(ns: seq<string>): (k: nat)
    ensures k <= |ns|
    ensures forall j :: 0 <= j < k ==> ns[j] in SupportedNames
    ensures k < |ns| ==> ns[k] !in SupportedNames
  {
    if ns == [] then 0
    else if ns[0] !in SupportedNames then 0
    else 1 + FirstUnknown(ns[1..])
  }

  /** The error _generate_counters raises for these names, if any. */
  function CounterError(names: Names): Option<Error>
  {
    match NameSeq(names)
    case Failure(e) => Some(e)
    case Success(ns) =>
      if FirstUnknown(ns) < |ns| then Some(UnknownMetric(ns[FirstUnknown(ns)])) else None
  }

  ghost predicate Distinct(ms: seq<MetricList>)
  {
    forall i, j :: 0 <= i < j < |ms| ==> ms[i] != ms[j]
  }

  /** Three sequences of distinct lists, no two with a list in common, join into one. */
  lemma DistinctJoin(a: seq<MetricList>, b: seq<MetricList>, c: seq<MetricList>)
    requires Distinct(a) && Distinct(b) && Distinct(c)
    requires forall i, j :: 0 <= i < |a| && 0 <= j < |b| ==> a[i] != b[j]
    requires forall i, j :: 0 <= i < |a| && 0 <= j < |c| ==> a[i] != c[j]
    requires forall i, j :: 0 <= i < |b| && 0 <= j < |c| ==> b[i] != c[j]
    ensures Distinct(a + b + c)
  {
    var ab := a + b;
    forall i, j | 0 <= i < j < |ab| ensures ab[i] != ab[j] {
      if j < |a| {
      } else if i >= |a| {
        assert b[i - |a|] != b[j - |a|];
      } else {
        assert a[i] != b[j - |a|];
      }
    }
    forall i, j | 0 <= i < j < |ab + c| ensures (ab + c)[i] != (ab + c)[j] {
      if j < |ab| {
        assert ab[i] != ab[j];
      } else if i >= |ab| {
        assert c[i - |ab|] != c[j - |ab|];
      } else if i < |a| {
        assert a[i] != c[j - |ab|];
      } else {
        assert b[i - |a|] != c[j - |ab|];
      }
    }
  }

  /** `ms` holds one empty list per name that `names` stands for, in order, each scoring
      with the registry's function for its name. */
  ghost predicate Counters(ms: seq<MetricList>, names: Names, external: ExternalScorers)
    reads ms
  {
    NameSeq(names).Success? &&
    var ns := NameSeq(names).value;
    |ms| == |ns| &&
    forall i :: 0 <= i < |ns| ==>
      ms[i].name == ns[i] && ms[i].values == [] && Resolve(ns[i], external) == Success(ms[i].score)
  }

  /** _generate_counters: one fresh, empty MetricList per name, in order. */
  method GenerateCounters(names: Names, external: ExternalScorers) returns (r: Result<seq<MetricList>>)
    ensures r.Failure? <==> CounterError(names).Some?
    ensures r.Failure? ==> r.error == CounterError(names).value
    ensures r.Success? ==>
      Counters(r.value, names, external) && Distinct(r.value) &&
      forall i :: 0 <= i < |r.value| ==> fresh(r.value[i])
  {
    var nr := NameSeq(names);
    if nr.Failure? {
      return Failure(nr.error);
    }
    var ns := nr.value;
    var lists: seq<MetricList> := [];
    for i := 0 to |ns|
      invariant |lists| == i && Distinct(lists)
      invariant forall j :: 0 <= j < i ==> ns[j] in SupportedNames
      invariant forall j :: 0 <= j < i ==>
        fresh(lists[j]) && lists[j].name == ns[j] && lists[j].values == [] &&
        Resolve(ns[j], external) == Success(lists[j].score)
    {
      var m := MetricList.FromName(ns[i], external);
      if m.Failure? {
        assert FirstUnknown(ns) == i;
        return Failure(m.error);
      }
      lists := lists + [m.value];
    }
    assert FirstUnknown(ns) == |ns|;
    return Success(lists);
  }

  /** The index of the first metric of `group` whose function fails on (a, b), or |group|. */
  function FirstFailing(group: seq<MetricList>, a: NdArray, b: NdArray): (k: nat)
    ensures k <= |group|
    ensures forall j :: 0 <= j < k ==> group[j].score(a, b).Success?
    ensures k < |group| ==> group[k].score(a, b).Failure?
  {
    if group == [] then 0
    else if group[0].score(a, b).Failure? then 0
    else 1 + FirstFailing(group[1..], a, b)
  }

  /** `for metric in group: metric.append(a, b)`, stopping at the first metric that raises. */
  twostate predicate AppendedInOrder(group: seq<MetricList>, a: NdArray, b: NdArray, new err: Option<Error>)
    reads group
  {
    var k := FirstFailing(group, a, b);
    (err.None? <==> k == |group|) &&
    (err.Some? ==> err.value == group[k].score(a, b).error) &&
    (forall j :: 0 <= j < k ==> group[j].values == old(group[j].values) + group[j].score(a, b).value) &&
    (forall j :: k <= j < |group| ==> group[j].values == old(group[j].values))
  }

  method AppendAll(group: seq<MetricList>, a: NdArray, b: NdArray) returns (err: Option<Error>)
    requires Distinct(group)
    modifies group
    ensures AppendedInOrder(group, a, b, err)
  {
    for i := 0 to |group|
      invariant forall j :: 0 <= j < i ==> group[j].score(a, b).Success?
      invariant forall j :: 0 <= j < i ==>
        group[j].values == old(group[j].values) + group[j].score(a, b).value
      invariant forall j :: i <= j < |group| ==> group[j].values == old(group[j].values)
    {
      err := group[i].Append(a, b);
      if err.Some? {
        FirstFailingIs(group, a, b, i);
        return;
      }
    }
    FirstFailingIs(group, a, b, |group|);
    return None;
  }

  lemma {:induction false} FirstFailingIs(group: seq<MetricList>, a: NdArray, b: NdArray, k: nat)
    requires k <= |group|
    requires forall j :: 0 <= j < k ==> group[j].score(a, b).Success?
    requires k < |group| ==> group[k].score(a, b).Failure?
    ensures FirstFailing(group, a, b) == k
  {
    if group != [] && k > 0 {
      FirstFailingIs(group[1..], a, b, k - 1);
    }
  }

  /** One line of log_task's summary: "Average {name} on {task_type} test examples: {mean}". */
  datatype LogLine = LogLine(metric: string, taskType: string, mean: real)

  /** The loop of log_task over one group: a line per metric, in order, until the
      first empty metric raises. */
  method LogMeans(group: seq<MetricList>, taskType: string) returns (lines: seq<LogLine>, err: Option<Error>)
    ensures var k := FirstEmpty(Snap(group));
      (err.Some? <==> k < |group|) && (err.Some? ==> err.value == ZeroDivision) &&
      |lines| == k && forall i :: 0 <= i < k ==>
        lines[i] == LogLine(group[i].name, taskType, MeanOf(group[i].values).value)
  {
    lines := [];
    for i := 0 to |group|
      invariant |lines| == i
      invariant forall j :: 0 <= j < i ==>
        group[j].values != [] && lines[j] == LogLine(group[j].name, taskType, MeanOf(group[j].values).value)
    {
      var mean := group[i].Mean();
      if mean.Failure? {
        FirstEmptyAt(Snap(group), i);
        return lines, Some(mean.error);
      }
      lines := lines + [LogLine(group[i].name, taskType, mean.value)];
    }
    FirstEmptyAt(Snap(group), |group|);
    return lines, None;
  }

  /** The first empty metric is the one after a run of non-empty ones. */
  lemma FirstEmptyAt(snaps: seq<Snapshot>, k: nat)
    requires k <= |snaps|
    requires forall j :: 0 <= j < k ==> snaps[j].1 != []
    requires k < |snaps| ==> snaps[k].1 == []
    ensures FirstEmpty(snaps) == k
  {
  }

  /** Snapshots of a group's names and values, as results() reads them. */
  function Snap(group: seq<MetricList>): (r: seq<Snapshot>)
    reads group
    ensures |r| == |group| && forall i :: 0 <= i < |group| ==> r[i] == (group[i].name, group[i].values)
  {
    seq(|group|, i reads group requires 0 <= i < |group| => (group[i].name, group[i].values))
  }

  lemma {:induction false} GroupFailurePersists(prefix: string, snaps: seq<Snapshot>, i: nat,
                                                means: bool, full: bool, acc: map<string, Output>)
    requires i <= |snaps| && GroupResults(prefix, snaps[..i], means, full, acc).Failure?
    ensures GroupResults(prefix, snaps, means, full, acc) == GroupResults(prefix, snaps[..i], means, full, acc)
    decreases |snaps| - i
  {
    if i < |snaps| {
      assert snaps[..i + 1][..i] == snaps[..i];
      GroupFailurePersists(prefix, snaps, i + 1, means, full, acc);
    } else {
      assert snaps[..i] == snaps;
    }
  }

  lemma {:induction false} LedgerFailurePersists(order: seq<string>, entries: map<string, Entry>, i: nat,
                                                 acc: map<string, Output>)
    requires forall j :: 0 <= j < |order| ==> order[j] in entries
    requires i <= |order| && LedgerResults(order[..i], entries, acc).Failure?
    ensures LedgerResults(order, entries, acc) == LedgerResults(order[..i], entries, acc)
    decreases |order| - i
  {
    if i < |order| {
      assert order[..i + 1][..i] == order[..i];
      LedgerFailurePersists(order, entries, i + 1, acc);
    } else {
      assert order[..i] == order;
    }
  }

  /** The body of results()' inner loop: one metric's values and mean added to `acc`. */
  method AddMetric(prefix: string, metric: MetricList, means: bool, full: bool,
                   acc: map<string, Output>) returns (r: Result<map<string, Output>>)
    ensures r == MetricStep(prefix, (metric.name, metric.values), means, full, acc)
  {
    var results := acc;
    if full {
      var vs := metric.Values();
      results := results[PerSampleKey(prefix, metric.name) := Values(vs)];
    }
    if means {
      var mean := metric.Mean();
      if mean.Failure? {
        return Failure(EmptyMean(PerSampleKey(prefix, metric.name)));
      }
      results := results[MeanKey(prefix, metric.name) := Number(mean.value)];
    }
    return Success(results);
  }

  lemma GroupResultsStep(prefix: string, snaps: seq<Snapshot>, i: nat, means: bool, full: bool,
                         acc: map<string, Output>, m: map<string, Output>)
    requires i < |snaps| && GroupResults(prefix, snaps[..i], means, full, acc) == Success(m)
    ensures GroupResults(prefix, snaps[..i + 1], means, full, acc) == MetricStep(prefix, snaps[i], means, full, m)
  {
    assert snaps[..i + 1][..i] == snaps[..i];
  }

  /** The inner loop of results() over one group. */
  method AddGroup(prefix: string, group: seq<MetricList>, means: bool, full: bool,
                  acc: map<string, Output>) returns (r: Result<map<string, Output>>)
    ensures r == GroupResults(prefix, Snap(group), means, full, acc)
  {
    var results := acc;
    ghost var snaps := Snap(group);
    for i := 0 to |group|
      invariant GroupResults(prefix, snaps[..i], means, full, acc) == Success(results)
    {
      GroupResultsStep(prefix, snaps, i, means, full, acc, results);
      var step := AddMetric(prefix, group[i], means, full, results);
      if step.Failure? {
        GroupFailurePersists(prefix, snaps, i + 1, means, full, acc);
        return step;
      }
      results := step.value;
    }
    assert snaps[..|group|] == snaps;
    return Success(results);
  }

  /** The loop of results() over the ledger. */
  method AddLedger(ledger: Ledger, acc: map<string, Output>) returns (r: Result<map<string, Output>>)
    requires ledger.Valid()
    ensures r == LedgerResults(ledger.order, ledger.entries, acc)
  {
    var order := ledger.order;
    var results := acc;
    for i := 0 to |order|
      invariant LedgerResults(order[..i], ledger.entries, acc) == Success(results)
    {
      var name := order[i];
      assert order[..i + 1][..i] == order[..i];
      var entry := ledger.entries[name];
      if entry.count.None? || entry.totalTime.None? {
        LedgerFailurePersists(order, ledger.entries, i + 1, acc);
        return Failure(CorruptLedger);
      }
      var count := entry.count.value;
      if count == 0 {
        LedgerFailurePersists(order, ledger.entries, i + 1, acc);
        return Failure(ZeroExecutions);
      }
      results := results[AverageKey(count, name) := Number(entry.totalTime.value / count as real)];
      if entry.stats.Some? {
        results := results[StatsKey(name) := StatsOutput(entry.stats.value)];
      }
    }
    assert order[..|order|] == order;
    return Success(results);
  }

  class MetricsLogger {
    const tasks: seq<MetricList>
    const adversarialTasks: seq<MetricList>
    const perturbations: seq<MetricList>
    const means: bool
    const full: bool
    const resources: Ledger

    /** Every MetricList of the logger, in the order clear() visits them. */
    function Lists(): seq<MetricList>
    {
      tasks + adversarialTasks + perturbations
    }

    ghost predicate Valid()
      reads this, resources
    {
      Distinct(Lists()) && resources.Valid()
    }

    constructor Init(tasks: seq<MetricList>, adversarialTasks: seq<MetricList>,
                     perturbations: seq<MetricList>, means: bool, full: bool)
      requires Distinct(tasks + adversarialTasks + perturbations)
      ensures this.tasks == tasks && this.adversarialTasks == adversarialTasks
      ensures this.perturbations == perturbations && this.means == means && this.full == full
      ensures fresh(resources) && resources.entries == map[] && resources.order == []
      ensures Valid()
    {
      this.tasks := tasks;
      this.adversarialTasks := adversarialTasks;
      this.perturbations := perturbations;
      this.means := means;
      this.full := full;
      resources := new Ledger();
    }

    /** MetricsLogger(task, perturbation, means, record_metric_per_sample, profiler_type,
        computational_resource_dict). The last two arguments are accepted and ignored:
        the ledger always starts empty. */
    static method Create(task: Names, perturbation: Names, means: bool, recordMetricPerSample: bool,
                         profilerType: Option<string>, computationalResourceDict: Ledger?,
                         external: ExternalScorers)
      returns (r: Result<MetricsLogger>)
      ensures r.Failure? <==> CounterError(task).Some? || CounterError(perturbation).Some?
      ensures r.Failure? ==> (r.error ==
        if CounterError(task).Some? then CounterError(task).value else CounterError(perturbation).value)
      ensures r.Success? ==>
        var l := r.value;
        fresh(l) && fresh(l.resources) && l.Valid() &&
        l.resources.entries == map[] && l.resources.order == [] &&
        l.means == means && l.full == recordMetricPerSample &&
        Counters(l.tasks, task, external) &&
        Counters(l.adversarialTasks, task, external) &&
        Counters(l.perturbations, perturbation, external) &&
        (forall i :: 0 <= i < |l.tasks| ==> fresh(l.tasks[i]) && fresh(l.adversarialTasks[i])) &&
        (forall i :: 0 <= i < |l.perturbations| ==> fresh(l.perturbations[i]))
    {
      var t := GenerateCounters(task, external);
      if t.Failure? {
        return Failure(t.error);
      }
      var adv := GenerateCounters(task, external);
      var p := GenerateCounters(perturbation, external);
      if p.Failure? {
        return Failure(p.error);
      }
      DistinctJoin(t.value, adv.value, p.value);
      var l := new MetricsLogger.Init(t.value, adv.value, p.value, means, recordMetricPerSample);
      return Success(l);
    }

    /** clear(): empties every metric of all three groups. */
    method Clear()
      requires Valid()
      modifies Lists()
      ensures Valid()
      ensures forall m :: m in Lists() ==> m.values == []
    {
      var all := Lists();
      for i := 0 to |all|
        invariant forall j :: 0 <= j < i ==> all[j].values == []
      {
        all[i].Clear();
      }
    }

    /** update_task(y, y_pred, adversarial): appends to the adversarial or the benign
        group only; the other groups keep their values. */
    method UpdateTask(y: NdArray, yPred: NdArray, adversarial: bool) returns (err: Option<Error>)
      requires Valid()
      modifies if adversarial then adversarialTasks else tasks
      ensures Valid()
      ensures AppendedInOrder(if adversarial then adversarialTasks else tasks, y, yPred, err)
      ensures forall m :: m in perturbations ==> m.values == old(m.values)
      ensures forall m :: m in (if adversarial then tasks else adversarialTasks) ==> m.values == old(m.values)
    {
      assert Distinct(tasks) && Distinct(adversarialTasks) by {
        forall i, j | 0 <= i < j < |tasks| ensures tasks[i] != tasks[j] {
          assert Lists()[i] == tasks[i] && Lists()[j] == tasks[j];
        }
        forall i, j | 0 <= i < j < |adversarialTasks|
          ensures adversarialTasks[i] != adversarialTasks[j]
        {
          assert Lists()[|tasks| + i] == adversarialTasks[i];
          assert Lists()[|tasks| + j] == adversarialTasks[j];
        }
      }
      DisjointGroups();
      if adversarial {
        err := AppendAll(adversarialTasks, y, yPred);
      } else {
        err := AppendAll(tasks, y, yPred);
      }
    }

    /** update_perturbation(x, x_adv): appends to the perturbation group only. */
    method UpdatePerturbation(x: NdArray, xAdv: NdArray) returns (err: Option<Error>)
      requires Valid()
      modifies perturbations
      ensures Valid()
      ensures AppendedInOrder(perturbations, x, xAdv, err)
      ensures forall m :: m in tasks + adversarialTasks ==> m.values == old(m.values)
    {
      assert Distinct(perturbations) by {
        var base := |tasks| + |adversarialTasks|;
        forall i, j | 0 <= i < j < |perturbations| ensures perturbations[i] != perturbations[j] {
          assert Lists()[base + i] == perturbations[i];
          assert Lists()[base + j] == perturbations[j];
        }
      }
      DisjointGroups();
      err := AppendAll(perturbations, x, xAdv);
    }

    /** The three groups of a valid logger share no MetricList. */
    lemma DisjointGroups()
      requires Valid()
      ensures forall i, j :: 0 <= i < |tasks| && 0 <= j < |adversarialTasks| ==> tasks[i] != adversarialTasks[j]
      ensures forall i, j :: 0 <= i < |tasks| && 0 <= j < |perturbations| ==> tasks[i] != perturbations[j]
      ensures forall i, j :: 0 <= i < |adversarialTasks| && 0 <= j < |perturbations| ==>
        adversarialTasks[i] != perturbations[j]
    {
      var all := Lists();
      var base := |tasks| + |adversarialTasks|;
      forall i, j | 0 <= i < |tasks| && 0 <= j < |adversarialTasks| ensures tasks[i] != adversarialTasks[j] {
        assert all[i] == tasks[i] && all[|tasks| + j] == adversarialTasks[j];
      }
      forall i, j | 0 <= i < |tasks| && 0 <= j < |perturbations| ensures tasks[i] != perturbations[j] {
        assert all[i] == tasks[i] && all[base + j] == perturbations[j];
      }
      forall i, j | 0 <= i < |adversarialTasks| && 0 <= j < |perturbations|
        ensures adversarialTasks[i] != perturbations[j]
      {
        assert all[|tasks| + i] == adversarialTasks[i] && all[base + j] == perturbations[j];
      }
    }

    /** log_task(adversarial, targeted): a benign run cannot be targeted; otherwise the
        metrics of the chosen group log their means in order, until the first empty one
        raises a ZeroDivisionError. */
    method LogTask(adversarial: bool, targeted: bool) returns (lines: seq<LogLine>, err: Option<Error>)
      ensures targeted && !adversarial ==> lines == [] && err == Some(BenignTargeted)
      ensures !(targeted && !adversarial) ==>
        var group := if adversarial then adversarialTasks else tasks;
        var taskType := (if targeted then "targeted " else "") + (if adversarial then "adversarial" else "benign");
        var k := FirstEmpty(Snap(group));
        (err.Some? <==> k < |group|) && (err.Some? ==> err.value == ZeroDivision) &&
        |lines| == k && forall i :: 0 <= i < k ==>
          lines[i] == LogLine(group[i].name, taskType, MeanOf(group[i].values).value)
    {
      if targeted && !adversarial {
        return [], Some(BenignTargeted);
      }
      var group := if adversarial then adversarialTasks else tasks;
      var taskType := (if targeted then "targeted " else "") + (if adversarial then "adversarial" else "benign");
      lines, err := LogMeans(group, taskType);
    }

    /** results(): the flat mapping of per-sample values, means and ledger summaries. */
    method Results() returns (r: Result<map<string, Output>>)
      requires Valid()
      ensures r == AllResults(Snap(tasks), Snap(adversarialTasks), Snap(perturbations), means, full,
                              resources.order, resources.entries)
    {
      var m1 := AddGroup("benign", tasks, means, full, map[]);
      if m1.Failure? {
        return m1;
      }
      var m2 := AddGroup("adversarial", adversarialTasks, means, full, m1.value);
      if m2.Failure? {
        return m2;
      }
      var m3 := AddGroup("perturbation", perturbations, means, full, m2.value);
      if m3.Failure? {
        return m3;
      }
      r := AddLedger(resources, m3.value);
    }
  }
}
