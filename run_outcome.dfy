/**
 * What the agent runner makes of one capability run: the pure helpers around
 * `runCapability` (approval answer, payload, artefact file name, child
 * environment, how a spawn error resolves) and `summariseResult`, which turns
 * the exit code and the captured output chunks into the ledger's terminal
 * status and one-line summary.
 */
module RunOutcome {
  import opened Wrappers
  import opened JsText
  import Secrets

  /** `AgentRunRecord["status"]`. */
  datatype RunStatus = Running | Succeeded | Failed | Cancelled

  /** `RunResult`: the exit code (`null` when the child was killed by a signal) and the chunks read. */
  datatype RunResult = RunResult(exitCode: Option<int>, stdout: seq<string>, stderr: seq<string>)

  datatype Summary = Summary(status: RunStatus, summary: string)

  const Tz := "Africa/Johannesburg"
  const TailLimit := 160
  const SuccessText := "Run succeeded."
  const FailureText := "Run failed (exit "
  const TailMarker := " Tail: "

  // ---- summariseResult ----

  /** `chunks.at(-1)?.trim()`: the last chunk, trimmed, when there is one. */
  function LastTrimmed(chunks: seq<string>): Option<string> {
    if chunks == [] then None else Some(Trim(chunks[|chunks| - 1]))
  }

  /**
   * The failure tail. `??` only falls through on a missing chunk, so stdout is
   * consulted only when there is no stderr chunk at all; a blank last stderr
   * chunk gives an empty tail.
   */
  function FailureTail(r: RunResult): string {
    match LastTrimmed(r.stderr)
    case Some(t) => t
    case None => LastTrimmed(r.stdout).GetOr("")
  }

  /** The success tail: the trimmed last stdout chunk, or nothing. */
  function SuccessTail(r: RunResult): string {
    LastTrimmed(r.stdout).GetOr("")
  }

  /** `result.exitCode ?? -1`. */
  function ReportedExit(r: RunResult): int {
    r.exitCode.GetOr(-1)
  }

  /** The sentence, then ` Tail: ` and at most 160 characters of the tail when the tail is not empty. */
  function WithTail(sentence: string, tail: string): string {
    if |tail| > 0 then sentence + TailMarker + Slice(tail, TailLimit) else sentence
  }

  function SummariseResult(r: RunResult): (s: Summary)
    ensures s.status == Succeeded <==> r.exitCode == Some(0)
    ensures s.status == Failed <==> r.exitCode != Some(0)
  {
    if r.exitCode == Some(0) then
      Summary(Succeeded, WithTail(SuccessText, SuccessTail(r)))
    else
      Summary(Failed, WithTail(FailureText + IntToString(ReportedExit(r)) + ").", FailureTail(r)))
  }

  // ---- Reading a summary back ----

  /** What a summary line says: whether the run succeeded, the exit code reported, and the tail shown. */
  datatype Reading = Reading(succeeded: bool, exit: int, tail: string)

  /** Length of the leading run of characters that may belong to a rendered integer. */
  function NumberSpan(s: string): (n: nat)
    ensures n <= |s|
    ensures forall i :: 0 <= i < n ==> IsDigit(s[i]) || s[i] == '-'
  {
    if s != [] && (IsDigit(s[0]) || s[0] == '-') then 1 + NumberSpan(s[1..]) else 0
  }

  /** What follows the sentence's full stop: nothing, or the tail marker and the tail. */
  function ReadTail(rest: string): Option<string> {
    if rest == [] then Some("")
    else if StartsWith(rest, TailMarker) && |rest| > |TailMarker| then Some(rest[|TailMarker|..])
    else None
  }

  /** Parses a summary line; `None` for text `SummariseResult` cannot have produced. */
  function ReadSummary(s: string): Option<Reading> {
    if StartsWith(s, SuccessText) then
      match ReadTail(s[|SuccessText|..])
      case Some(t) => Some(Reading(true, 0, t))
      case None => None
    else if StartsWith(s, FailureText) then
      var rest := s[|FailureText|..];
      var k := NumberSpan(rest);
      if 0 < k && k + 2 <= |rest| && rest[k..k + 2] == ")." && (rest[0] == '-' || IsDigit(rest[0]))
        && (forall i :: 1 <= i < k ==> IsDigit(rest[i]))
      then
        match ReadTail(rest[k + 2..])
        case Some(t) => Some(Reading(false, ParseInt(rest[..k]), t))
        case None => None
      else None
    else None
  }

  lemma ReadTailOfWithTail(sentence: string, tail: string)
    ensures WithTail(sentence, tail) == sentence + (WithTail(sentence, tail)[|sentence|..])
    ensures ReadTail(WithTail(sentence, tail)[|sentence|..]) == Some(Slice(tail, TailLimit))
  {
    if |tail| > 0 {
      var rest := TailMarker + Slice(tail, TailLimit);
      assert WithTail(sentence, tail)[|sentence|..] == rest;
      assert rest[..|TailMarker|] == TailMarker;
      assert rest[|TailMarker|..] == Slice(tail, TailLimit);
    }
  }

  lemma {:induction false} NumberSpanStopsAt(a: string, b: string)
    requires forall i :: 0 <= i < |a| ==> IsDigit(a[i]) || a[i] == '-'
    requires b != [] && !IsDigit(b[0]) && b[0] != '-'
    ensures NumberSpan(a + b) == |a|
    decreases |a|
  {
    if a == [] {
      assert a + b == b;
    } else {
      assert (a + b)[1..] == a[1..] + b;
      NumberSpanStopsAt(a[1..], b);
    }
  }

  /** A success line reads back as success with exit 0 and the tail cut to 160. */
  lemma ReadSuccessLine(tail: string)
    ensures ReadSummary(WithTail(SuccessText, tail)) == Some(Reading(true, 0, Slice(tail, TailLimit)))
  {
    ReadTailOfWithTail(SuccessText, tail);
    assert WithTail(SuccessText, tail)[..|SuccessText|] == SuccessText;
  }

  lemma ReadFailureRest(code: string, n: int, after: string)
    requires |code| > 0 && (code[0] == '-' || IsDigit(code[0]))
    requires forall i :: 1 <= i < |code| ==> IsDigit(code[i])
    requires ParseInt(code) == n
    requires ReadTail(after).Some?
    ensures var rest := code + ")." + after;
      var k := NumberSpan(rest);
      k == |code| && k + 2 <= |rest| && rest[k..k + 2] == ")." && rest[..k] == code && rest[k + 2..] == after
  {
    var rest := code + ")." + after;
    assert rest == code + (")." + after);
    NumberSpanStopsAt(code, ")." + after);
    assert rest[..|code|] == code;
    assert rest[|code|..|code| + 2] == ").";
    assert rest[|code| + 2..] == after;
  }

  lemma ReadFailureParts(s: string, code: string, n: int, after: string, t: string)
    requires !StartsWith(s, SuccessText) && StartsWith(s, FailureText)
    requires s[|FailureText|..] == code + ")." + after
    requires |code| > 0 && (code[0] == '-' || IsDigit(code[0]))
    requires forall i :: 1 <= i < |code| ==> IsDigit(code[i])
    requires ParseInt(code) == n
    requires ReadTail(after) == Some(t)
    ensures ReadSummary(s) == Some(Reading(false, n, t))
  {
    ReadFailureRest(code, n, after);
  }

  /** A failure line reads back as failure with the rendered exit code and the tail cut to 160. */
  lemma ReadFailureLine(n: int, tail: string)
    ensures ReadSummary(WithTail(FailureText + IntToString(n) + ").", tail))
      == Some(Reading(false, n, Slice(tail, TailLimit)))
  {
    var code := IntToString(n);
    IntToStringRoundTrip(n);
    var sentence := FailureText + code + ").";
    var s := WithTail(sentence, tail);
    ReadTailOfWithTail(sentence, tail);
    var after := s[|sentence|..];
    assert !StartsWith(s, SuccessText) by {
      assert s[4] == 'f';
    }
    assert StartsWith(s, FailureText) by {
      assert s[..|FailureText|] == FailureText;
    }
    assert s[|FailureText|..] == code + ")." + after;
    ReadFailureParts(s, code, n, after, Slice(tail, TailLimit));
  }

  /**
   * Every summary reads back as what it reports: success exactly for exit
   * code 0, the exit code (a missing one as -1) on failure, and the tail cut
   * to 160 characters: the trimmed last stdout chunk on success, the failure
   * tail otherwise.
   */
  lemma SummaryReadsBack(r: RunResult)
    ensures ReadSummary(SummariseResult(r).summary) == Some(
      if r.exitCode == Some(0) then Reading(true, 0, Slice(SuccessTail(r), TailLimit))
      else Reading(false, ReportedExit(r), Slice(FailureTail(r), TailLimit)))
  {
    if r.exitCode == Some(0) {
      ReadSuccessLine(SuccessTail(r));
    } else {
      ReadFailureLine(ReportedExit(r), FailureTail(r));
    }
  }

  /** No summary ever reports a run as still running or as cancelled, and the tail is never longer than 160. */
  lemma SummaryBounds(r: RunResult)
    ensures SummariseResult(r).status in {Succeeded, Failed}
    ensures ReadSummary(SummariseResult(r).summary).Some?
    ensures var t := ReadSummary(SummariseResult(r).summary).value.tail;
      |t| <= TailLimit && t <= (if r.exitCode == Some(0) then SuccessTail(r) else FailureTail(r))
  {
    SummaryReadsBack(r);
  }

  /** A blank last stderr chunk hides the stdout tail (the `??` quirk). */
  lemma BlankStderrHidesStdout(code: int, out: string, err: string)
    requires code != 0
    requires forall i :: 0 <= i < |err| ==> IsSpace(err[i])
    ensures ReadSummary(SummariseResult(RunResult(Some(code), [out], [err])).summary)
      == Some(Reading(false, code, ""))
  {
    TrimAllSpace(err);
    SummaryReadsBack(RunResult(Some(code), [out], [err]));
  }

  /** With no stderr chunk at all the failure tail is the trimmed last stdout chunk. */
  lemma NoStderrFallsBackToStdout(r: RunResult)
    requires r.exitCode != Some(0) && r.stderr == [] && r.stdout != []
    ensures ReadSummary(SummariseResult(r).summary).Some?
    ensures ReadSummary(SummariseResult(r).summary).value.tail
      == Slice(Trim(r.stdout[|r.stdout| - 1]), TailLimit)
  {
    SummaryReadsBack(r);
  }

  // The runner's own test cases.

  lemma SucceededWithStdoutTail()
    ensures SummariseResult(RunResult(Some(0), ["all good", "final line"], [])).summary
      == "Run succeeded. Tail: final line"
  {
    TrimUnpadded("final line");
    var r := RunResult(Some(0), ["all good", "final line"], []);
    SuccessWithShortTail(r, "final line");
    assert SuccessText + TailMarker + "final line" == "Run succeeded. Tail: final line";
  }

  lemma FailedWithStderrTail()
    ensures SummariseResult(RunResult(Some(1), ["info"], ["minor", "boom"]))
      == Summary(Failed, "Run failed (exit 1). Tail: boom")
  {
    TrimUnpadded("boom");
    var r := RunResult(Some(1), ["info"], ["minor", "boom"]);
    FailureWithShortTail(r, 1, "boom");
    assert NatToString(1) == "1";
    assert FailureText + "1" + ")." + TailMarker + "boom" == "Run failed (exit 1). Tail: boom";
  }

  /** A success whose last stdout chunk trims to a short, non-empty tail. */
  lemma SuccessWithShortTail(r: RunResult, tail: string)
    requires r.exitCode == Some(0) && r.stdout != [] && Trim(r.stdout[|r.stdout| - 1]) == tail
    requires 0 < |tail| <= TailLimit
    ensures SummariseResult(r).summary == SuccessText + TailMarker + tail
  {
  }

  /** A failure whose last stderr chunk trims to a short, non-empty tail. */
  lemma FailureWithShortTail(r: RunResult, code: int, tail: string)
    requires r.exitCode == Some(code) && code != 0
    requires r.stderr != [] && Trim(r.stderr[|r.stderr| - 1]) == tail
    requires 0 < |tail| <= TailLimit
    ensures SummariseResult(r) == Summary(Failed, FailureText + IntToString(code) + ")." + TailMarker + tail)
  {
  }

  lemma NullExitReportedAsMinusOne()
    ensures SummariseResult(RunResult(None, [], [])) == Summary(Failed, "Run failed (exit -1).")
  {
    assert NatToString(1) == "1";
  }

  // ---- How the child's exit resolves (`runCapability`'s promise) ----

  /** `error.code` when it is a number; `None` when it is absent or a string such as `ENOENT`. */
  datatype SpawnError = SpawnError(message: string, numericCode: Option<int>)

  datatype ChildEnd = Closed(code: Option<int>) | Errored(error: SpawnError)

  /**
   * The run result once the child has ended: a `close` passes its code on
   * (`null` included); an `error` appends its message to stderr and resolves
   * to the numeric error code, or to 1.
   */
  function ResolveRun(end: ChildEnd, stdout: seq<string>, stderr: seq<string>): (r: RunResult)
    ensures r.stdout == stdout
    ensures end.Closed? ==> r.exitCode == end.code && r.stderr == stderr
    ensures end.Errored? ==> r.stderr == stderr + [end.error.message]
    ensures end.Errored? ==> r.exitCode.Some?
    ensures end.Errored? && end.error.numericCode.Some? ==> r.exitCode == end.error.numericCode
    ensures end.Errored? && end.error.numericCode.None? ==> r.exitCode == Some(1)
  {
    match end
    case Closed(code) => RunResult(code, stdout, stderr)
    case Errored(e) => RunResult(Some(e.numericCode.GetOr(1)), stdout, stderr + [e.message])
  }

  /** A spawn error without a numeric code is a failure with exit 1 whose tail is the error message. */
  lemma SpawnErrorSummary(message: string, stdout: seq<string>, stderr: seq<string>)
    ensures var r := ResolveRun(Errored(SpawnError(message, None)), stdout, stderr);
      SummariseResult(r).status == Failed
      && ReadSummary(SummariseResult(r).summary) == Some(Reading(false, 1, Slice(Trim(message), TailLimit)))
  {
    SummaryReadsBack(ResolveRun(Errored(SpawnError(message, None)), stdout, stderr));
  }

  // ---- requestApproval's answer ----

  /** `!answer` is false for the empty answer, then `trim().toLowerCase()` must be `y` or `yes`. */
  function IsApproval(answer: string): (approved: bool)
    ensures approved ==> |Trim(answer)| == 1 || |Trim(answer)| == 3
  {
    answer != "" && (var n := ToLower(Trim(answer)); n == "y" || n == "yes")
  }

  /** Approval is `y` or `yes` in any letter case, surrounded by any white space, and nothing else. */
  lemma ApprovalAnswers(answer: string)
    ensures var t := Trim(answer);
      IsApproval(answer) <==>
        (|t| == 1 && t[0] in {'y', 'Y'})
        || (|t| == 3 && t[0] in {'y', 'Y'} && t[1] in {'e', 'E'} && t[2] in {'s', 'S'})
  {
    var t := Trim(answer);
    if answer == "" {
      TrimAllSpace(answer);
    }
    if |t| == 1 {
      assert ToLower(t) == [LowerChar(t[0])];
    } else if |t| == 3 {
      assert ToLower(t) == [LowerChar(t[0]), LowerChar(t[1]), LowerChar(t[2])];
    } else {
      assert |ToLower(t)| == |t|;
    }
  }

  // ---- The payload and the artefact file name ----

  /** `CAPABILITY_PAYLOAD` before serialisation. */
  datatype Payload = Payload(input: Option<string>, check: Option<bool>, output: string)

  function BuildPayload(cap: Secrets.CapabilitySummary, check: bool, prompt: Option<string>, output: string): (p: Payload)
    ensures p.input.Some? <==> prompt.Some? && Trim(prompt.value) != ""
    ensures p.input.Some? ==> p.input.value == Trim(prompt.value)
    ensures p.check.Some? <==> cap.supportsCheck
    ensures p.check.Some? ==> p.check.value == check
    ensures p.output == output
  {
    Payload(
      if prompt.Some? && |Trim(prompt.value)| > 0 then Some(Trim(prompt.value)) else None,
      if cap.supportsCheck then Some(check) else None,
      output)
  }

  /** A payload input is never blank and never padded. */
  lemma PayloadInputUnpadded(cap: Secrets.CapabilitySummary, check: bool, prompt: Option<string>, output: string)
    ensures var p := BuildPayload(cap, check, prompt, output);
      p.input.Some? ==> |p.input.value| > 0 && !IsSpace(p.input.value[0]) && !IsSpace(p.input.value[|p.input.value| - 1])
  {
    if prompt.Some? {
      TrimIsStrippedSlice(prompt.value);
    }
  }

  /** The payload a run sends: `check` is asked for only when the option is set and the capability supports it. */
  lemma RunPayloadCheck(cap: Secrets.CapabilitySummary, optionCheck: bool, prompt: Option<string>, output: string)
    ensures var p := BuildPayload(cap, optionCheck && cap.supportsCheck, prompt, output);
      (p.check == Some(true) <==> optionCheck && cap.supportsCheck)
      && (!cap.supportsCheck <==> p.check.None?)
  {
  }

  /** `timestampLabel`: `:` and `+` become `-`. */
  function TimestampLabel(timestamp: string): (tag: string)
    ensures |tag| == |timestamp|
    ensures forall i :: 0 <= i < |tag| ==> tag[i] == (if timestamp[i] in {':', '+'} then '-' else timestamp[i])
    ensures forall i :: 0 <= i < |tag| ==> tag[i] != ':' && tag[i] != '+'
  {
    ReplaceChars(timestamp, {':', '+'}, '-')
  }

  /** `agent-run-<id with . as -><-><label>.json`. */
  function ArtifactFileName(capabilityId: string, timestamp: string): (name: string)
    ensures |name| == 16 + |capabilityId| + |timestamp|
    ensures name[..10] == "agent-run-"
    ensures name[10..10 + |capabilityId|] == ReplaceChars(capabilityId, {'.'}, '-')
    ensures name[10 + |capabilityId|..] == FileNameTail(timestamp)
  {
    ConcatParts("agent-run-", ReplaceChars(capabilityId, {'.'}, '-'), FileNameTail(timestamp));
    "agent-run-" + ReplaceChars(capabilityId, {'.'}, '-') + FileNameTail(timestamp)
  }

  /** What follows the id part: `-<label>.json`. */
  function FileNameTail(timestamp: string): (tail: string)
    ensures |tail| == 6 + |timestamp|
    ensures tail[0] == '-' && tail[1..1 + |timestamp|] == TimestampLabel(timestamp)
    ensures tail[1 + |timestamp|..] == ".json"
  {
    ConcatParts("-", TimestampLabel(timestamp), ".json");
    "-" + TimestampLabel(timestamp) + ".json"
  }

  /** Two ids map to the same id part exactly when they differ only by `.` against `-`. */
  predicate SameUpToDots(a: string, b: string) {
    |a| == |b| && forall i :: 0 <= i < |a| ==> a[i] == b[i] || (a[i] in {'.', '-'} && b[i] in {'.', '-'})
  }

  /** For one timestamp, two capabilities share an artefact file exactly when their ids agree up to `.`/`-`. */
  lemma ArtifactNamesCollide(a: string, b: string, timestamp: string)
    ensures ArtifactFileName(a, timestamp) == ArtifactFileName(b, timestamp) <==> SameUpToDots(a, b)
  {
    var ra := ReplaceChars(a, {'.'}, '-');
    var rb := ReplaceChars(b, {'.'}, '-');
    if ArtifactFileName(a, timestamp) == ArtifactFileName(b, timestamp) {
      assert |a| == |b|;
      assert ra == rb;
    }
    DashedIdsAgree(a, b);
  }

  lemma ConcatParts(p: string, r: string, t: string)
    ensures (p + r + t)[|p|..|p| + |r|] == r && (p + r + t)[|p| + |r|..] == t
  {
  }

  /** Replacing dots by dashes identifies exactly the ids that agree up to `.`/`-`. */
  lemma DashedIdsAgree(a: string, b: string)
    ensures ReplaceChars(a, {'.'}, '-') == ReplaceChars(b, {'.'}, '-') <==> SameUpToDots(a, b)
  {
    var ra := ReplaceChars(a, {'.'}, '-');
    var rb := ReplaceChars(b, {'.'}, '-');
    if ra == rb {
      forall i | 0 <= i < |a|
        ensures a[i] == b[i] || (a[i] in {'.', '-'} && b[i] in {'.', '-'})
      {
        assert ra[i] == rb[i];
      }
    }
    if SameUpToDots(a, b) {
      forall i | 0 <= i < |a|
        ensures ra[i] == rb[i]
      {
      }
    }
  }

  /** An id with a dot and the same id with a dash in its place write the same artefact file. */
  lemma DotAndDashCollide(front: string, back: string, timestamp: string)
    ensures ArtifactFileName(front + "." + back, timestamp) == ArtifactFileName(front + "-" + back, timestamp)
  {
    var a := front + "." + back;
    var b := front + "-" + back;
    assert SameUpToDots(a, b) by {
      forall i | 0 <= i < |a|
        ensures a[i] == b[i] || (a[i] in {'.', '-'} && b[i] in {'.', '-'})
      {
        if i < |front| {
          assert a[i] == front[i] == b[i];
        } else if i > |front| {
          assert a[i] == back[i - |front| - 1] == b[i];
        }
      }
    }
    ArtifactNamesCollide(a, b, timestamp);
  }

  // ---- The child's environment ----

  const PayloadKey := "CAPABILITY_PAYLOAD"

  /**
   * `{...process.env, WORKSPACE_ROOT, TZ}`, then the secrets assigned over it,
   * then the serialised payload: later layers win.
   */
  function ChildEnv(processEnv: map<string, string>, workspaceRoot: string,
                    secretEnv: map<string, string>, payloadJson: string): (env: map<string, string>)
    ensures env.Keys == processEnv.Keys + secretEnv.Keys + {"WORKSPACE_ROOT", "TZ", PayloadKey}
  {
    (processEnv + map["WORKSPACE_ROOT" := workspaceRoot, "TZ" := Tz] + secretEnv)[PayloadKey := payloadJson]
  }

  /** Which layer each variable comes from: the payload, then a secret, then the runner's own two, then the parent's. */
  lemma ChildEnvPrecedence(processEnv: map<string, string>, workspaceRoot: string,
                           secretEnv: map<string, string>, payloadJson: string, k: string)
    requires k in ChildEnv(processEnv, workspaceRoot, secretEnv, payloadJson)
    ensures var v := ChildEnv(processEnv, workspaceRoot, secretEnv, payloadJson)[k];
      v == if k == PayloadKey then payloadJson
           else if k in secretEnv then secretEnv[k]
           else if k == "TZ" then Tz
           else if k == "WORKSPACE_ROOT" then workspaceRoot
           else processEnv[k]
  {
  }
}
