/**
 * The agent-run ledger (`agent-runs.json`) held in memory: upsert by run id
 * (`appendAgentRun`), the start-up sweep that fails runs a crash left
 * `running` (`closeDanglingRuns`), and the two writes a command-line run makes.
 */
module Ledger {
  import opened Wrappers
  import opened RunOutcome

  /** The JSON values run metadata holds. */
  datatype Json = JNull | JBool(b: bool) | JInt(i: int) | JString(s: string) | JStrings(items: seq<string>)

  /** `AgentRunRecord`. */
  datatype RunRecord = RunRecord(
    id: string,
    capability: string,
    status: RunStatus,
    summary: string,
    started: string,
    completed: Option<string>,
    logPath: Option<string>,
    metadata: Option<map<string, Json>>)

  predicate IsTerminal(s: RunStatus) {
    s != Running
  }

  function Ids(records: seq<RunRecord>): (ids: seq<string>)
    ensures |ids| == |records|
    ensures forall i :: 0 <= i < |records| ==> ids[i] == records[i].id
  {
    seq(|records|, i requires 0 <= i < |records| => records[i].id)
  }

  /** How many records carry `id`. */
  function CountId(records: seq<RunRecord>, id: string): nat {
    multiset(Ids(records))[id]
  }

  predicate UniqueIds(records: seq<RunRecord>) {
    forall i, j :: 0 <= i < j < |records| ==> records[i].id != records[j].id
  }

  // ---- appendAgentRun ----

  /** `records.findIndex((entry) => entry.id === id)`. */
  function FindIndex(records: seq<RunRecord>, id: string): (k: int)
    ensures -1 <= k < |records|
    ensures k == -1 <==> forall i :: 0 <= i < |records| ==> records[i].id != id
    ensures k >= 0 ==> records[k].id == id && forall i :: 0 <= i < k ==> records[i].id != id
  {
    if records == [] then -1
    else if records[0].id == id then 0
    else
      var k := FindIndex(records[1..], id);
      if k == -1 then -1 else k + 1
  }

  /** The ledger after `appendAgentRun(record)`. */
  function Upsert(records: seq<RunRecord>, record: RunRecord): (r: seq<RunRecord>)
    ensures |r| == |records| + (if FindIndex(records, record.id) >= 0 then 0 else 1)
    ensures record in r
  {
    var k := FindIndex(records, record.id);
    if k >= 0 then
      assert records[k := record][k] == record;
      records[k := record]
    else
      assert (records + [record])[|records|] == record;
      records + [record]
  }

  /** With a record of that id present, the first one is replaced where it stands; nothing else moves. */
  lemma UpsertReplacesFirst(records: seq<RunRecord>, record: RunRecord, k: nat)
    requires k < |records| && records[k].id == record.id
    requires forall i :: 0 <= i < k ==> records[i].id != record.id
    ensures |Upsert(records, record)| == |records|
    ensures Upsert(records, record)[k] == record
    ensures forall i :: 0 <= i < |records| && i != k ==> Upsert(records, record)[i] == records[i]
  {
    assert FindIndex(records, record.id) == k;
  }

  /** With no record of that id, the record goes at the end and the rest is unchanged. */
  lemma UpsertAppends(records: seq<RunRecord>, record: RunRecord)
    requires forall i :: 0 <= i < |records| ==> records[i].id != record.id
    ensures Upsert(records, record) == records + [record]
  {
  }

  /** The upserted record is in the ledger, and it is the first with its id. */
  lemma UpsertFinds(records: seq<RunRecord>, record: RunRecord)
    ensures var r := Upsert(records, record);
      0 <= FindIndex(r, record.id) && r[FindIndex(r, record.id)] == record
  {
    var k := FindIndex(records, record.id);
    var r := Upsert(records, record);
    if k >= 0 {
      assert r[k] == record;
      assert forall i :: 0 <= i < k ==> r[i].id != record.id;
      assert FindIndex(r, record.id) == k;
    } else {
      assert r[|records|] == record;
      assert forall i :: 0 <= i < |records| ==> r[i].id != record.id;
      assert FindIndex(r, record.id) == |records|;
    }
  }

  /** Upsert adds a copy of the id only when there was none, and never changes another id's count. */
  lemma UpsertCounts(records: seq<RunRecord>, record: RunRecord, other: string)
    ensures CountId(Upsert(records, record), record.id)
         == if CountId(records, record.id) == 0 then 1 else CountId(records, record.id)
    ensures other != record.id ==> CountId(Upsert(records, record), other) == CountId(records, other)
  {
    var k := FindIndex(records, record.id);
    if k >= 0 {
      assert Ids(records[k := record]) == Ids(records);
      assert record.id in multiset(Ids(records)) by {
        assert Ids(records)[k] == record.id;
      }
    } else {
      assert Ids(records + [record]) == Ids(records) + [record.id];
      assert record.id !in Ids(records);
    }
  }

  /** A ledger whose ids are distinct keeps them distinct. */
  lemma UpsertKeepsIdsUnique(records: seq<RunRecord>, record: RunRecord)
    requires UniqueIds(records)
    ensures UniqueIds(Upsert(records, record))
  {
    var k := FindIndex(records, record.id);
    var r := Upsert(records, record);
    if k >= 0 {
      forall i, j | 0 <= i < j < |r|
        ensures r[i].id != r[j].id
      {
        assert r[i].id == records[i].id && r[j].id == records[j].id;
      }
    }
  }

  // ---- closeDanglingRuns ----

  const RecoveredSummary := "Run auto-marked as failed after interrupted execution."
  const AutoRecoveredKey := "autoRecovered"

  /** `typeof metadata.autoRecovered === "boolean"` and true. */
  predicate IsAutoRecovered(r: RunRecord) {
    r.metadata.Some? && AutoRecoveredKey in r.metadata.value && r.metadata.value[AutoRecoveredKey] == JBool(true)
  }

  predicate NeedsRecovery(r: RunRecord) {
    r.status == Running && !IsAutoRecovered(r)
  }

  /** The rewrite of one stale `running` record. */
  function Recover(r: RunRecord, timestamp: string): (rec: RunRecord)
    ensures rec.id == r.id && IsTerminal(rec.status) && IsAutoRecovered(rec)
  {
    r.(status := Failed,
       completed := Some(r.completed.GetOr(timestamp)),
       summary := RecoveredSummary,
       metadata := Some(r.metadata.GetOr(map[])[AutoRecoveredKey := JBool(true)]))
  }

  /** One record of the sweep's `map`. */
  function SweepOne(r: RunRecord, timestamp: string): (s: RunRecord)
    ensures s.id == r.id && !NeedsRecovery(s)
    ensures !NeedsRecovery(r) ==> s == r
  {
    if NeedsRecovery(r) then Recover(r, timestamp) else r
  }

  /** `records.map(...)`. */
  function SweepAll(records: seq<RunRecord>, timestamp: string): (swept: seq<RunRecord>)
    ensures |swept| == |records|
    ensures forall i :: 0 <= i < |records| ==> swept[i] == SweepOne(records[i], timestamp)
  {
    if records == [] then []
    else SweepAll(records[..|records| - 1], timestamp) + [SweepOne(records[|records| - 1], timestamp)]
  }

  predicate AnyNeedsRecovery(records: seq<RunRecord>) {
    exists i :: 0 <= i < |records| && NeedsRecovery(records[i])
  }

  /**
   * The sweep keeps length, order and ids; leaves records that are terminal
   * or already recovered as they were; and turns each stale record into a
   * failure with the fixed summary, its own completion time or the sweep's,
   * and its metadata plus `autoRecovered: true`.
   */
  lemma SweepEffect(records: seq<RunRecord>, timestamp: string, i: nat)
    requires i < |records|
    ensures var r := records[i]; var s := SweepAll(records, timestamp)[i];
      s.id == r.id && s.capability == r.capability && s.started == r.started && s.logPath == r.logPath
      && (!NeedsRecovery(r) ==> s == r)
      && (NeedsRecovery(r) ==>
            s.status == Failed && s.summary == RecoveredSummary
            && s.completed == (if r.completed.Some? then r.completed else Some(timestamp))
            && s.metadata.Some? && IsAutoRecovered(s)
            && (forall k :: k in r.metadata.GetOr(map[]) && k != AutoRecoveredKey ==>
                  k in s.metadata.value && s.metadata.value[k] == r.metadata.value[k])
            && s.metadata.value.Keys == r.metadata.GetOr(map[]).Keys + {AutoRecoveredKey})
  {
  }

  /** After a sweep nothing needs recovery. */
  lemma SweepLeavesNoStaleRun(records: seq<RunRecord>, timestamp: string)
    ensures !AnyNeedsRecovery(SweepAll(records, timestamp))
  {
    var s := SweepAll(records, timestamp);
    forall i | 0 <= i < |s|
      ensures !NeedsRecovery(s[i])
    {
      assert s[i] == SweepOne(records[i], timestamp);
    }
  }

  /** A sweep over a ledger with nothing stale changes nothing. */
  lemma SweepWithoutStaleRuns(records: seq<RunRecord>, timestamp: string)
    requires !AnyNeedsRecovery(records)
    ensures SweepAll(records, timestamp) == records
  {
    var s := SweepAll(records, timestamp);
    forall i | 0 <= i < |records|
      ensures s[i] == records[i]
    {
      assert !NeedsRecovery(records[i]);
    }
  }

  /** A second sweep, at any time, changes nothing. */
  lemma SweepIdempotent(records: seq<RunRecord>, t1: string, t2: string)
    ensures SweepAll(SweepAll(records, t1), t2) == SweepAll(records, t1)
  {
    SweepLeavesNoStaleRun(records, t1);
    SweepWithoutStaleRuns(SweepAll(records, t1), t2);
  }

  lemma SweepPrefix(records: seq<RunRecord>, timestamp: string, i: nat)
    requires i < |records|
    ensures SweepAll(records[..i + 1], timestamp) == SweepAll(records[..i], timestamp) + [SweepOne(records[i], timestamp)]
  {
    assert records[..i + 1][..i] == records[..i];
  }

  // ---- The two records a command-line run writes ----

  const StartedSummary := "Agent CLI run started."

  /** The parts of the metadata the model carries: where and how the run was asked for. */
  datatype RunContext = RunContext(
    workspaceRoot: string,
    check: bool,
    prompt: Option<string>,
    provenance: string,
    requested: seq<string>,
    loaded: seq<string>,
    missing: seq<string>)

  /** The metadata common to both writes; `check` is recorded false for a capability without check mode. */
  function BaseMetadata(ctx: RunContext, supportsCheck: bool): (m: map<string, Json>)
    ensures "check" in m && m["check"] == JBool(supportsCheck && ctx.check)
    ensures "prompt" in m <==> ctx.prompt.Some?
    ensures AutoRecoveredKey !in m
  {
    var m := map[
      "workspaceRoot" := JString(ctx.workspaceRoot),
      "check" := JBool(if supportsCheck then ctx.check else false),
      "provenance" := JString(ctx.provenance),
      "secretsRequested" := JStrings(ctx.requested),
      "secretsLoaded" := JStrings(ctx.loaded),
      "secretsMissing" := JStrings(ctx.missing)];
    // JSON.stringify drops a key whose value is undefined
    if ctx.prompt.Some? then m["prompt" := JString(ctx.prompt.value)] else m
  }

  function StartedRecord(runId: string, capability: string, started: string, logPath: string,
                         ctx: RunContext, supportsCheck: bool): RunRecord {
    RunRecord(runId, capability, Running, StartedSummary, started, None, Some(logPath),
              Some(BaseMetadata(ctx, supportsCheck)))
  }

  function OptionalJson(m: map<string, Json>, key: string, v: Option<string>): map<string, Json> {
    if v.Some? then m[key := JString(v.value)] else m
  }

  /** The final metadata adds the exit code (`null` kept) and the trimmed last chunks, when there are chunks. */
  function FinishedMetadata(ctx: RunContext, supportsCheck: bool, result: RunResult): (m: map<string, Json>)
    ensures "exitCode" in m && m["exitCode"] == (if result.exitCode.Some? then JInt(result.exitCode.value) else JNull)
    ensures "stdoutTail" in m <==> result.stdout != []
    ensures "stderrTail" in m <==> result.stderr != []
    ensures AutoRecoveredKey !in m
  {
    var m := BaseMetadata(ctx, supportsCheck)["exitCode" :=
      if result.exitCode.Some? then JInt(result.exitCode.value) else JNull];
    OptionalJson(OptionalJson(m, "stdoutTail", LastTrimmed(result.stdout)), "stderrTail", LastTrimmed(result.stderr))
  }

  function FinishedRecord(runId: string, capability: string, started: string, completed: string, logPath: string,
                          ctx: RunContext, supportsCheck: bool, result: RunResult): RunRecord {
    var s := SummariseResult(result);
    RunRecord(runId, capability, s.status, s.summary, started, Some(completed), Some(logPath),
              Some(FinishedMetadata(ctx, supportsCheck, result)))
  }

  /**
   * The two writes of one run, when the ledger held at most one record with
   * the run's id (a fresh UUID holds none): afterwards there is exactly one,
   * it is the finished record, and its status is terminal.
   */
  lemma TwoStepWriteLeavesOneTerminalRecord(records: seq<RunRecord>, started: RunRecord, finished: RunRecord)
    requires started.id == finished.id && CountId(records, started.id) <= 1
    requires finished.status in {Succeeded, Failed}
    ensures var r := Upsert(Upsert(records, started), finished);
      CountId(r, finished.id) == 1 && 0 <= FindIndex(r, finished.id)
      && r[FindIndex(r, finished.id)] == finished && IsTerminal(r[FindIndex(r, finished.id)].status)
  {
    UpsertCounts(records, started, started.id);
    UpsertCounts(Upsert(records, started), finished, finished.id);
    UpsertFinds(Upsert(records, started), finished);
  }

  /** A finished command-line run survives later sweeps untouched. */
  lemma FinishedRunSurvivesSweep(runId: string, capability: string, started: string, completed: string, logPath: string,
                                 ctx: RunContext, supportsCheck: bool, result: RunResult, timestamp: string)
    ensures var f := FinishedRecord(runId, capability, started, completed, logPath, ctx, supportsCheck, result);
      SweepOne(f, timestamp) == f && IsTerminal(f.status)
  {
  }

  /** A crash between the two writes leaves a `running` record that the next start-up fails. */
  lemma InterruptedRunIsRecovered(runId: string, capability: string, started: string, logPath: string,
                                  ctx: RunContext, supportsCheck: bool, timestamp: string)
    ensures var s := StartedRecord(runId, capability, started, logPath, ctx, supportsCheck);
      NeedsRecovery(s)
      && SweepOne(s, timestamp).status == Failed
      && SweepOne(s, timestamp).completed == Some(timestamp)
  {
  }

  // ---- The ledger file, kept in memory ----

  class RunLedger {
    var records: seq<RunRecord>

    /** The ledger of a workspace with no `agent-runs.json` yet. */
    constructor ()
      ensures records == []
    {
      records := [];
    }

    /** `appendAgentRun`. */
    method AppendAgentRun(record: RunRecord)
      modifies this
      ensures records == Upsert(old(records), record)
    {
      var existingIndex := FindIndex(records, record.id);
      if existingIndex >= 0 {
        records := records[existingIndex := record];
      } else {
        records := records + [record];
      }
    }

    /** `closeDanglingRuns`: rewrites the ledger only when some record was stale. */
    method CloseDanglingRuns(timestamp: string) returns (wrote: bool)
      modifies this
      ensures wrote <==> AnyNeedsRecovery(old(records))
      ensures !wrote ==> records == old(records)
      ensures records == SweepAll(old(records), timestamp)
    {
      var current := records;
      var updated: seq<RunRecord> := [];
      var mutated := false;
      for i := 0 to |current|
        invariant records == current
        invariant updated == SweepAll(current[..i], timestamp)
        invariant mutated <==> exists j :: 0 <= j < i && NeedsRecovery(current[j])
      {
        var record := current[i];
        SweepPrefix(current, timestamp, i);
        if record.status != Running || IsAutoRecovered(record) {
          updated := updated + [record];
        } else {
          mutated := true;
          updated := updated + [Recover(record, timestamp)];
        }
      }
      assert current[..|current|] == current;
      if mutated {
        records := updated;
      } else {
        SweepWithoutStaleRuns(current, timestamp);
      }
      wrote := mutated;
    }

    /** The ledger side of `main`: the `running` record, then, once the child is done, the finished one. */
    method RecordCliRun(runId: string, capability: string, started: string, completed: string, logPath: string,
                        ctx: RunContext, supportsCheck: bool, result: RunResult) returns (outcome: Summary)
      modifies this
      ensures outcome == SummariseResult(result)
      ensures records == Upsert(Upsert(old(records), StartedRecord(runId, capability, started, logPath, ctx, supportsCheck)),
                                FinishedRecord(runId, capability, started, completed, logPath, ctx, supportsCheck, result))
    {
      AppendAgentRun(StartedRecord(runId, capability, started, logPath, ctx, supportsCheck));
      outcome := SummariseResult(result);
      AppendAgentRun(FinishedRecord(runId, capability, started, completed, logPath, ctx, supportsCheck, result));
    }
  }
}
