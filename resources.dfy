/** The computational-resource ledger and the scoped profiling region
    (resource_context) that records into it. */
module Resources {
  import opened Common

  /** What the "stats" key of an entry holds: the profiler text, or the 0 that
      the defaultdict stores when "stats" is read before it was ever set. */
  datatype Stats = ZeroStats | StatsText(text: string)

  /** One ledger entry, a dictionary whose keys may be absent. */
  datatype Entry = Entry(count: Option<nat>, totalTime: Option<real>, stats: Option<Stats>)

  /** A defaultdict(lambda: 0) reads an absent numeric key as zero. */
  function CountOf(e: Entry): nat { if e.count.Some? then e.count.value else 0 }
  function TimeOf(e: Entry): real { if e.totalTime.Some? then e.totalTime.value else 0.0 }

  /** Holds execution_count and total_time, so results() can read it. */
  predicate Complete(e: Entry)
  {
    e.count.Some? && e.totalTime.Some?
  }

  /** The name-keyed ledger; `order` is the dictionary's insertion order. */
  class Ledger {
    var order: seq<string>
    var entries: map<string, Entry>

    ghost predicate Valid()
      reads this
    {
      (forall i, j :: 0 <= i < j < |order| ==> order[i] != order[j]) &&
      (forall k :: k in entries <==> k in order)
    }

    constructor ()
      ensures Valid() && order == [] && entries == map[]
    {
      order := [];
      entries := map[];
    }
  }

  /** The entry after one profiled run of `elapsed` seconds, and whether the
      update completed. A Deterministic run adds its text to the stats; on an
      entry whose stats are not text the addition fails after the count and
      time were updated: reading the absent key stores 0 there first, and
      `0 + text` raises. */
  function Recorded(previous: Option<Entry>, deterministic: bool, elapsed: real, text: string)
    : (r: (Entry, bool))
    ensures CountOf(r.0) == (if previous.Some? then CountOf(previous.value) else 0) + 1
    ensures TimeOf(r.0) == (if previous.Some? then TimeOf(previous.value) else 0.0) + elapsed
    ensures Complete(r.0)
    ensures r.1 <==> !deterministic || previous.None? ||
                     (previous.value.stats.Some? && previous.value.stats.value.StatsText?)
    ensures !deterministic ==> r.0.stats == (if previous.Some? then previous.value.stats else None)
    ensures deterministic && r.1 ==>
      r.0.stats == Some(StatsText((if previous.Some? then previous.value.stats.value.text else "") + text))
    ensures deterministic && !r.1 ==> r.0.stats == Some(ZeroStats)
  {
    var e := if previous.Some? then previous.value
             else Entry(None, None, if deterministic then Some(StatsText("")) else None);
    var bumped := Entry(Some(CountOf(e) + 1), Some(TimeOf(e) + elapsed), e.stats);
    if !deterministic then (bumped, true)
    else match bumped.stats
      case None => (bumped.(stats := Some(ZeroStats)), false)
      case Some(ZeroStats) => (bumped, false)
      case Some(StatsText(t)) => (bumped.(stats := Some(StatsText(t + text))), true)
  }

  /** resource_context(name, profiler, ledger) around a body that takes `elapsed`
      seconds, yields the profiler text `text`, and may raise. */
  method ResourceContext(name: string, profiler: Option<string>, ledger: Ledger?,
                         elapsed: real, text: string, bodyRaises: bool)
    returns (err: Option<Error>)
    requires ledger != null ==> ledger.Valid()
    modifies ledger
    ensures ledger != null ==> ledger.Valid()
    ensures profiler.None? ==>
      err == (if bodyRaises then Some(BodyRaised) else None) &&
      (ledger != null ==> unchanged(ledger))
    ensures profiler.Some? && profiler.value !in {"Basic", "Deterministic"} ==>
      err == Some(UnknownProfiler(profiler.value)) && (ledger != null ==> unchanged(ledger))
    ensures profiler.Some? && profiler.value in {"Basic", "Deterministic"} && bodyRaises ==>
      err == Some(BodyRaised) && (ledger != null ==> unchanged(ledger))
    ensures profiler.Some? && profiler.value in {"Basic", "Deterministic"} && !bodyRaises ==>
      if ledger == null then err == Some(NoLedger) else
        var previous := if name in old(ledger.entries) then Some(old(ledger.entries)[name]) else None;
        var (e, ok) := Recorded(previous, profiler.value == "Deterministic", elapsed, text);
        ledger.entries == old(ledger.entries)[name := e] &&
        ledger.order == (if name in old(ledger.entries) then old(ledger.order) else old(ledger.order) + [name]) &&
        err == (if ok then None else Some(StatsTypeError))
  {
    if profiler.None? {
      return if bodyRaises then Some(BodyRaised) else None;
    }
    if profiler.value !in {"Basic", "Deterministic"} {
      return Some(UnknownProfiler(profiler.value));
    }
    if bodyRaises {
      return Some(BodyRaised);
    }
    if ledger == null {
      return Some(NoLedger);
    }
    var previous := None;
    if name in ledger.entries {
      previous := Some(ledger.entries[name]);
    } else {
      ledger.order := ledger.order + [name];
    }
    var (e, ok) := Recorded(previous, profiler.value == "Deterministic", elapsed, text);
    ledger.entries := ledger.entries[name := e];
    err := if ok then None else Some(StatsTypeError);
  }

  /** Every entry the ledger holds can be reported by results(). */
  ghost predicate Reportable(entries: map<string, Entry>)
  {
    forall k :: k in entries ==> Complete(entries[k]) && CountOf(entries[k]) >= 1
  }

  /** A ledger written only by profiled regions stays reportable, and each
      region raises the count of its own name by one and no other name's. */
  lemma RecordingKeepsReportable(entries: map<string, Entry>, name: string,
                                 deterministic: bool, elapsed: real, text: string)
    requires Reportable(entries)
    ensures var previous := if name in entries then Some(entries[name]) else None;
      var after := entries[name := Recorded(previous, deterministic, elapsed, text).0];
      Reportable(after) &&
      CountOf(after[name]) == (if name in entries then CountOf(entries[name]) else 0) + 1 &&
      forall k :: k in entries && k != name ==> after[k] == entries[k]
  {
  }
}
