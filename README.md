# n00t agent runner and control centre, modelled in Dafny

This project models the decision and data logic of two parts of the n00t
automation workspace.

**The agent runner** (`apps/agent-runner/src/index.ts`) is the command-line
tool that runs a discovered capability. The model covers:

- how it reads its flags (`parseArgs`);
- which secret env files a run asks for (`patternMatchesCapability`,
  `wildcardToRegExp`, `buildSecretRequestList`);
- what it sends the child: the approval answer, the payload, the artefact
  file name and the environment;
- how the child's end resolves to a run result, and how `summariseResult`
  turns that result into a terminal status and a one-line summary;
- how the run ledger `agent-runs.json` is kept: upsert by run id
  (`appendAgentRun`), the start-up sweep that fails runs a crash left
  `running` (`closeDanglingRuns`), and the two writes of one command-line run.

**The control centre** (`packages/ui/index.tsx`) is the React component
operators use to launch capabilities over a WebSocket. The model covers:

- its transcript reducer: `appendMessage` and `appendStream`, which
  coalesces streamed output into one assistant message per run, capability
  and channel;
- the state rules of `handleServerMessage`;
- the `send` guard, the `cancelRun` request, the `isRunning` badge, capability
  selection and "Reset chat".

Modules:

| module | file | models |
|---|---|---|
| `Wrappers` | wrappers.dfy | `Option` |
| `JsText` | js_text.dfy | the JavaScript string operations used: `trim`, `toLowerCase`, `startsWith`, `replace` of single characters, `slice`, and `${n}` for integers |
| `Glob` | glob.dfy | `wildcardToRegExp`: the regular-expression source it builds, how that source parses, and what it matches |
| `Secrets`, `SecretsExample` | secrets.dfy | `patternMatchesCapability` and `buildSecretRequestList` (a method over an insertion-ordered set), and the runner's own test case |
| `CliArgs` | cli_args.dfy | `parseArgs` (a method with the index walk) against a recursive reading `ParseFrom` |
| `RunOutcome` | run_outcome.dfy | `summariseResult`, the spawn-error resolution, the approval answer, the payload, the artefact file name and the child environment |
| `Ledger` | ledger.dfy | run records, upsert, the recovery sweep, and the class `RunLedger` whose methods update the ledger in place |
| `Transcript` | transcript.dfy | the control centre's reducer as pure functions over its state |
| `ControlCentre` | control_centre.dfy | the component as the class `Centre`, whose methods update its state fields event by event |

Strings are sequences of Unicode characters. Timestamps, run ids and file
paths are opaque strings passed in as parameters.

## Model

| member | source | states |
|---|---|---|
| JsText.TrimIsStrippedSlice | apps/agent-runner/src/index.ts:161 | `trim` returns a slice of its input: only white space is cut from either end, and the result neither starts nor ends with white space |
| JsText.Trim | apps/agent-runner/src/index.ts:161 | `trim()` is defined by its body; its contract says it never lengthens the string and leaves no white space at either end. Properties in TrimIsStrippedSlice, TrimIdempotent, TrimUnpadded, TrimAllSpace |
| JsText.TrimIdempotent | apps/agent-runner/src/index.ts:161 | trimming an already trimmed file name changes nothing |
| JsText.TrimUnpadded | apps/agent-runner/src/index.ts:161 | a string with no white space at either end is its own trim |
| JsText.TrimAllSpace | apps/agent-runner/src/index.ts:177 | a string of white space only, the empty string included, trims to the empty string |
| JsText.ToLower | apps/agent-runner/src/index.ts:462 | `toLowerCase` keeps the length and lowercases each character where it stands |
| JsText.ReplaceChars | apps/agent-runner/src/index.ts:485-488 | a global single-character replacement keeps the length, and exactly the characters of the class become the replacement |
| JsText.Slice | apps/agent-runner/src/index.ts:541 | `slice(0, n)` is a prefix of length min(n, length) |
| JsText.NatToString | apps/agent-runner/src/index.ts:549 | the decimal rendering is non-empty and all digits, with no leading zero |
| JsText.NatToStringRoundTrip | apps/agent-runner/src/index.ts:549 | the decimal rendering of a natural number reads back as that number |
| JsText.IntToStringRoundTrip | apps/agent-runner/src/index.ts:549 | `${n}` is an optional minus sign followed by digits, and reads back as `n`, negative codes included |
| Glob.WildcardToRegExp | apps/agent-runner/src/index.ts:89-93 | the anchored source built by escaping, then expanding `*` to `.*` and `?` to `.`, compiles to the glob reading of the pattern: every other character, regex metacharacters included, is a literal |
| Glob.PassesArePieces | apps/agent-runner/src/index.ts:90-91 | the three `replace` passes amount to rewriting each pattern character on its own: `*` to `.*`, `?` to `.`, an escaped character to a backslash and itself |
| Glob.ParsePieces | apps/agent-runner/src/index.ts:91-92 | the rewritten text parses back, as `new RegExp` reads it, to one atom per pattern character |
| Glob.Test | apps/agent-runner/src/index.ts:103-104 | `RegExp.prototype.test` on the anchored fragment is defined by its body; its contract says a pattern without `*` only matches strings of its own length. Properties in LiteralGlobMatchesItself, PrefixGlob, StarMatchesOneLine, MarkMatchesOneChar |
| Glob.LiteralGlobMatchesItself | apps/agent-runner/src/index.ts:103-106 | without wildcards, the glob matches exactly the pattern itself |
| Glob.PrefixGlob | apps/agent-runner/src/index.ts:89-93 | `q*` matches exactly the strings that start with `q` and continue without a line terminator |
| Glob.StarMatchesOneLine | apps/agent-runner/src/index.ts:91 | `*` matches any run of characters that holds no line terminator |
| Glob.MarkMatchesOneChar | apps/agent-runner/src/index.ts:91 | `?` matches exactly one character other than a line terminator |
| Secrets.PatternMatchesCapability | apps/agent-runner/src/index.ts:95-107 | an empty pattern never matches; `tag:X` matches if and only if X is among the tags (absent tags match nothing); any other pattern matches if and only if the glob reading matches the id, which without wildcards means equality |
| Secrets.DedupeIsOrderedSet | apps/agent-runner/src/index.ts:157-182 | the insertion-ordered set holds no duplicates and holds exactly the items added |
| Secrets.DedupePrefix | apps/agent-runner/src/index.ts:157-182 | adding more items never moves an item already present |
| Secrets.TrimmedFilesTrimmed | apps/agent-runner/src/index.ts:160-165 | every file an entry contributes is trimmed and non-empty |
| Secrets.MappingFilesTrimmed | apps/agent-runner/src/index.ts:158-167 | every file the matching entries contribute is trimmed and non-empty |
| Secrets.BuildSecretRequestList | apps/agent-runner/src/index.ts:152-183 | the list is the insertion-ordered set of: the matching entries' files, then `erpnext.env` for an `erpnext.` id and again for a `needs:erpnext` tag, then the command-line files |
| Secrets.AddMatchingEntries | apps/agent-runner/src/index.ts:157-167 | the mapping loop adds each matching entry's trimmed, non-blank files in entry order |
| Secrets.AddEntryFiles | apps/agent-runner/src/index.ts:160-165 | the inner loop adds each trimmed file unless it is blank |
| Secrets.AddCommandLineFiles | apps/agent-runner/src/index.ts:176-180 | the command-line loop adds each non-empty, non-blank file, trimmed |
| Secrets.RequestListContents | apps/agent-runner/src/index.ts:152-183 | the request list has no duplicates, only trimmed non-empty names, and exactly the candidate files |
| Secrets.RequestListOrder | apps/agent-runner/src/index.ts:157-182 | the mapping-derived files come first in their own order, followed by `erpnext.env`, followed by the command-line files |
| Secrets.ErpnextFilesTrimmed | apps/agent-runner/src/index.ts:169-174 | the `erpnext.env` the runner adds is itself trimmed and non-empty |
| SecretsExample.SyncCapGlobMatches | tests/agent-runner.test.ts:159 | `erpnext.*` matches the capability `erpnext.sync` |
| SecretsExample.SyncCapTagMatches | tests/agent-runner.test.ts:139-155 | `tag:needs:erpnext` matches the test capability, and both erpnext rules add `erpnext.env` |
| SecretsExample.TestCandidates | tests/agent-runner.test.ts:151-161 | for two matching entries and one command-line file, the candidates come in entry order, then the two erpnext additions, then the command-line file |
| SecretsExample.DedupeOfTestCandidates | tests/agent-runner.test.ts:161-168 | the repeated `erpnext.env` keeps its first place and the set comes out in first-seen order |
| SecretsExample.MergesMappingAndCommandLine | tests/agent-runner.test.ts:151-169 | the runner's test: the request list is `erpnext.env`, `common.env`, `addon.env`, `extra.env` |
| CliArgs.ParseArgs | apps/agent-runner/src/index.ts:251-303 | the index walk yields the options that reading the arguments token by token from the defaults gives |
| CliArgs.SwitchCase | apps/agent-runner/src/index.ts:261-300 | each `case` sets the option its flag names; the value flags also step past their value, and `--env` / `--env-file` do so even with no value |
| CliArgs.CheckSpellings | apps/agent-runner/src/index.ts:272-277 | the check cases are taken by exactly `--check` and `--no-check` |
| CliArgs.EnvSpellings | apps/agent-runner/src/index.ts:288-289 | the env-file case is taken by exactly `--env` and `--env-file` |
| CliArgs.ApplyCheck | apps/agent-runner/src/index.ts:272-277 | only `--check` and `--no-check` touch the check flag, setting it true and false |
| CliArgs.ApplyEnv | apps/agent-runner/src/index.ts:288-294 | only `--env` / `--env-file` followed by a non-empty value add an env file, and they add that value |
| CliArgs.ApplyIgnoresNext | apps/agent-runner/src/index.ts:272-297 | a flag without a value does not look at the next argument |
| CliArgs.FlagStep | apps/agent-runner/src/index.ts:259-301 | a flag without a value uses up one argument |
| CliArgs.ValueStep | apps/agent-runner/src/index.ts:262-294 | a value flag uses up itself and the next argument |
| CliArgs.UnknownTokenIgnored | apps/agent-runner/src/index.ts:298-299 | an unknown token is skipped and changes nothing |
| CliArgs.ParseConcat | apps/agent-runner/src/index.ts:259-301 | reading a complete prefix and then the rest equals reading the whole |
| CliArgs.CheckUntouched | apps/agent-runner/src/index.ts:272-277 | arguments without `--check` or `--no-check` leave the check flag as it was |
| CliArgs.LastCheckFlagWins | apps/agent-runner/src/index.ts:272-277 | the last `--check` / `--no-check` decides the check flag |
| CliArgs.ValueFlagConsumesNext | apps/agent-runner/src/index.ts:267-271 | `--prompt` / `-p` takes the next argument as the prompt, even when it looks like a flag, and skips it |
| CliArgs.TrailingEnvFlagAddsNothing | apps/agent-runner/src/index.ts:288-294 | `--env` as the last argument adds nothing |
| CliArgs.EmptyEnvValueSkipped | apps/agent-runner/src/index.ts:290-293 | `--env ""` uses up the empty value and records nothing |
| CliArgs.EnvFilesCollected | apps/agent-runner/src/index.ts:288-294 | env files are only appended, each one non-empty and taken from the arguments |
| CliArgs.NoFlagsGiveDefaults | tests/agent-runner.test.ts:40-52 | no arguments give check=true, planOnly, dryRunOnly and autoApprove false, no env files and no values |
| CliArgs.ParsesBooleanAndValueFlags | tests/agent-runner.test.ts:54-77 | the runner's test of boolean and value flags yields exactly the expected options |
| CliArgs.CollectsEnvBundles | tests/agent-runner.test.ts:79-90 | `--env-file` and `--env` values are collected in order, and `--auto-approve` is set |
| RunOutcome.SummariseResult | apps/agent-runner/src/index.ts:535-552 | the status is `succeeded` if and only if the exit code is 0, and `failed` otherwise, a missing code included |
| RunOutcome.SummaryReadsBack | apps/agent-runner/src/index.ts:535-552 | the summary reads back as what it reports: success exactly for exit 0; otherwise the exit code, with a missing one as -1; and a tail cut to 160 characters, taken from the last stdout chunk on success and from the failure tail otherwise |
| RunOutcome.ReadSuccessLine | apps/agent-runner/src/index.ts:538-543 | a success line reads back as success with the tail cut to 160 |
| RunOutcome.ReadFailureLine | apps/agent-runner/src/index.ts:546-550 | a failure line reads back as failure with the rendered exit code and the tail cut to 160 |
| RunOutcome.SummaryBounds | apps/agent-runner/src/index.ts:535-552 | no summary reports running or cancelled, and the tail shown is a prefix of at most 160 characters of the chosen chunk |
| RunOutcome.BlankStderrHidesStdout | apps/agent-runner/src/index.ts:545 | a blank last stderr chunk gives an empty tail: `??` does not fall through to stdout |
| RunOutcome.NoStderrFallsBackToStdout | apps/agent-runner/src/index.ts:545 | with no stderr chunk, the failure tail is the trimmed last stdout chunk |
| RunOutcome.SuccessWithShortTail | apps/agent-runner/src/index.ts:537-541 | a success with a short trimmed last stdout chunk reads `Run succeeded. Tail: <chunk>` |
| RunOutcome.FailureWithShortTail | apps/agent-runner/src/index.ts:545-549 | a failure with a short trimmed last stderr chunk reads `Run failed (exit <code>). Tail: <chunk>` |
| RunOutcome.SucceededWithStdoutTail | tests/agent-runner.test.ts:107-118 | the runner's success test gives `Run succeeded. Tail: final line` |
| RunOutcome.FailedWithStderrTail | tests/agent-runner.test.ts:120-131 | the runner's failure test gives status failed and `Run failed (exit 1). Tail: boom` |
| RunOutcome.NullExitReportedAsMinusOne | apps/agent-runner/src/index.ts:550 | a null exit code with no output is reported as `Run failed (exit -1).` |
| RunOutcome.ResolveRun | apps/agent-runner/src/index.ts:520-532 | a `close` passes its code on, null included; an `error` appends its message to stderr and resolves to its numeric error code when it has one, and to 1 otherwise |
| RunOutcome.SpawnErrorSummary | apps/agent-runner/src/index.ts:521-524 | a spawn error without a numeric code becomes a failure with exit 1 whose tail is the error message |
| RunOutcome.IsApproval | apps/agent-runner/src/index.ts:461-463 | the approval test is defined by its body; its contract says an approving answer is one or three characters once trimmed. Properties in ApprovalAnswers |
| RunOutcome.ApprovalAnswers | apps/agent-runner/src/index.ts:461-463 | the answer approves if and only if, once trimmed, it is `y` or `yes` in any letter case |
| RunOutcome.BuildPayload | apps/agent-runner/src/index.ts:478-490 | `input` is present exactly for a prompt that is not blank, and is then the trimmed prompt; `check` is present exactly when the capability supports it; `output` is the artefact path |
| RunOutcome.PayloadInputUnpadded | apps/agent-runner/src/index.ts:479-481 | a payload input is never blank and never padded |
| RunOutcome.RunPayloadCheck | apps/agent-runner/src/index.ts:482-484 | as `main` calls it, the payload asks for check mode exactly when the option is set and the capability supports it |
| RunOutcome.TimestampLabel | apps/agent-runner/src/index.ts:485 | each `:` and `+` of the timestamp becomes `-` and every other character stays where it is, so the label holds no `:` or `+` |
| RunOutcome.ArtifactFileName | apps/agent-runner/src/index.ts:486-489 | the file name is `agent-run-`, then the id with dots as dashes, then the tail, at fixed positions |
| RunOutcome.FileNameTail | apps/agent-runner/src/index.ts:485-489 | the tail is `-`, the timestamp label and `.json`, at fixed positions |
| RunOutcome.ArtifactNamesCollide | apps/agent-runner/src/index.ts:485-489 | for one timestamp, two capability ids share an artefact file if and only if they agree up to `.` against `-` |
| RunOutcome.DashedIdsAgree | apps/agent-runner/src/index.ts:488 | replacing dots by dashes identifies exactly the ids that agree up to `.` against `-` |
| RunOutcome.DotAndDashCollide | apps/agent-runner/src/index.ts:488 | an id with a dot and the same id with a dash in its place write the same file |
| RunOutcome.ChildEnv | apps/agent-runner/src/index.ts:472-491 | the child sees the parent's variables, `WORKSPACE_ROOT`, `TZ`, the secrets and `CAPABILITY_PAYLOAD` |
| RunOutcome.ChildEnvPrecedence | apps/agent-runner/src/index.ts:472-491 | later layers win: the payload first, then a secret, then the runner's `TZ` (Africa/Johannesburg) and `WORKSPACE_ROOT`, then the parent's value |
| Ledger.FindIndex | apps/agent-runner/src/index.ts:356 | `findIndex` is -1 exactly when no record has the id, and otherwise the first record that has it |
| Ledger.Upsert | apps/agent-runner/src/index.ts:354-363 | the ledger after `appendAgentRun` is defined by its body; its contract says it grows by one exactly when the id was absent and always holds the record. Properties in UpsertReplacesFirst, UpsertAppends, UpsertFinds, UpsertCounts, UpsertKeepsIdsUnique |
| Ledger.UpsertReplacesFirst | apps/agent-runner/src/index.ts:357-358 | with a record of that id present, the first one is replaced where it stands; the length and every other record are unchanged |
| Ledger.UpsertAppends | apps/agent-runner/src/index.ts:359-360 | with no record of that id, the record is appended at the end |
| Ledger.UpsertFinds | apps/agent-runner/src/index.ts:354-363 | the upserted record is afterwards the first with its id |
| Ledger.UpsertCounts | apps/agent-runner/src/index.ts:354-363 | an upsert adds a copy of its id only when there was none, and never changes another id's count |
| Ledger.UpsertKeepsIdsUnique | apps/agent-runner/src/index.ts:354-363 | a ledger with distinct ids keeps them distinct |
| Ledger.RunLedger.constructor | apps/agent-runner/src/index.ts:339-342 | a workspace without a ledger file starts from the empty ledger |
| Ledger.RunLedger.AppendAgentRun | apps/agent-runner/src/index.ts:354-363 | the ledger becomes the upsert of the record |
| Ledger.Recover | apps/agent-runner/src/index.ts:377-385 | the rewrite of a stale record is defined by its body; its contract says it keeps the id, is terminal and is marked auto-recovered. Properties in SweepEffect |
| Ledger.SweepOne | apps/agent-runner/src/index.ts:369-386 | one record of the sweep's `map` is defined by its body; its contract says it keeps the id, never needs recovery afterwards, and leaves a record that needs none unchanged. Properties in SweepEffect, SweepIdempotent |
| Ledger.SweepAll | apps/agent-runner/src/index.ts:369-386 | the sweep keeps the length and rewrites each record on its own |
| Ledger.SweepEffect | apps/agent-runner/src/index.ts:369-386 | records that are not `running`, or that carry a boolean-true `autoRecovered`, are untouched. Every other record keeps its id, capability, start and log path, and becomes `failed` with the fixed summary. It keeps its own completion time or takes the sweep's, and its metadata gains `autoRecovered: true` with all other keys kept |
| Ledger.SweepLeavesNoStaleRun | apps/agent-runner/src/index.ts:369-386 | after a sweep no record needs recovery |
| Ledger.SweepWithoutStaleRuns | apps/agent-runner/src/index.ts:369-389 | a sweep over a ledger with nothing stale changes nothing |
| Ledger.SweepIdempotent | apps/agent-runner/src/index.ts:365-390 | a second sweep, at any time, changes nothing |
| Ledger.RunLedger.CloseDanglingRuns | apps/agent-runner/src/index.ts:365-390 | the ledger becomes the sweep of the old ledger; it is written exactly when some record was stale, and otherwise stays unchanged |
| Ledger.BaseMetadata | apps/agent-runner/src/index.ts:641-649 | `check` is recorded as the option only for a capability with check mode, and false otherwise; `prompt` is present only when given; no `autoRecovered` key |
| Ledger.FinishedMetadata | apps/agent-runner/src/index.ts:680-692 | the final metadata records the exit code, null kept, and has a stdout or stderr tail exactly when there was such a chunk |
| Ledger.TwoStepWriteLeavesOneTerminalRecord | apps/agent-runner/src/index.ts:634-693 | after the `running` write and the terminal write of one run id, the ledger holds exactly one record with that id: the finished one, in a terminal state |
| Ledger.FinishedRunSurvivesSweep | apps/agent-runner/src/index.ts:672-693 | a finished run record is terminal and later sweeps leave it as it is |
| Ledger.InterruptedRunIsRecovered | apps/agent-runner/src/index.ts:634-650 | a run interrupted between its two writes is left `running`, and the next sweep fails it with the sweep's time |
| Ledger.RunLedger.RecordCliRun | apps/agent-runner/src/index.ts:634-693 | the ledger receives the `running` record, then the finished record with the status and summary `summariseResult` gives |
| Transcript.AppendMessage | packages/ui/index.tsx:202-211 | the message is appended at the end and the earlier messages are kept |
| Transcript.FindStream | packages/ui/index.tsx:220-226 | `findIndex` is -1 exactly when no assistant message has the run, capability and channel, and otherwise the first one that has them |
| Transcript.AppendStream | packages/ui/index.tsx:213-253 | `appendStream` is defined by its body; its contract says the transcript grows by one exactly when the run has no stream message yet. Properties in AppendStreamMerges, AppendStreamAppends, AppendStreamKeepsStreamsUnique |
| Transcript.AppendStreamMerges | packages/ui/index.tsx:227-239 | with a stream message present, the first one gains the text at its end where it stands; the length and every other message are unchanged |
| Transcript.AppendStreamAppends | packages/ui/index.tsx:240-251 | with none, exactly one assistant message with the text, run, capability and channel is appended |
| Transcript.AppendStreamKeepsStreamsUnique | packages/ui/index.tsx:219-251 | at most one assistant message per run, capability and channel stays so |
| Transcript.AppendMessageKeepsStreamsUnique | packages/ui/index.tsx:202-211 | appending a message that is not an assistant message keeps that invariant |
| Transcript.ChannelOf | packages/ui/index.tsx:156 | the channel is stderr if and only if the event says `stderr`, and stdout otherwise |
| Transcript.CompleteStatus | packages/ui/index.tsx:166-172 | `cancelled` exactly when the event says so; otherwise `ok` exactly for exit code 0 and `failed` for anything else, a missing code included |
| Transcript.UpdateExecution | packages/ui/index.tsx:173-175 | only an execution with the event's run id takes the new status; any other is returned as it was |
| Transcript.Step | packages/ui/index.tsx:125-200 | `handleServerMessage` for a given view of the selection is defined by its body; its contract says no event touches the draft or the check toggle or shortens the transcript, and only a capabilities event changes the list or the selection. Properties in StepKeepsStreamsUnique, OutputEvent, CompleteEvent |
| Transcript.StepAsWritten | packages/ui/index.tsx:85-134 | the handler as written, seeing the selection of the first render; its contract says every non-empty capabilities event selects the first capability. Properties in AsWrittenRefreshDropsSelection, AsWrittenCompletionLosesId |
| Transcript.StepIntended | packages/ui/index.tsx:125-200 | the handler seeing the current selection; its contract says an existing selection is never replaced by an event. Properties in IntendedRefreshKeepsSelection, IntendedCompletionUsesSelection |
| Transcript.StepKeepsStreamsUnique | packages/ui/index.tsx:125-200 | no event breaks the one-stream-message invariant, and none touches the draft or the check toggle |
| Transcript.OutputEvent | packages/ui/index.tsx:152-160 | output that is blank once trimmed leaves the state unchanged; anything else goes, untrimmed, to its run's stream, which never shrinks the transcript |
| Transcript.CompleteEvent | packages/ui/index.tsx:162-185 | completion changes the execution only when the run ids match, and appends exactly one event message carrying the status |
| Transcript.IsRunning | packages/ui/index.tsx:350-353 | `isRunning` is defined by its body; its contract says only the active execution's capability can show the badge. Properties in StartedRunIsRunning, CompletedRunStopsRunning, OtherRunLeavesBadge |
| Transcript.StartedRunIsRunning | packages/ui/index.tsx:137-150 | a started run shows its capability as running |
| Transcript.CompletedRunStopsRunning | packages/ui/index.tsx:350-353 | once its run completes, a capability shows as running if and only if the run was cancelled |
| Transcript.OtherRunLeavesBadge | packages/ui/index.tsx:173-175 | completion of another run leaves the badge as it was |
| Transcript.Send | packages/ui/index.tsx:255-306 | `send` is defined by its body; its contract says every send appends exactly one message and keeps the list, the selection and the execution; a request names the selected capability. Properties in SendGuard, RefusedSendOnlyWarns, AcceptedSend |
| Transcript.SendGuard | packages/ui/index.tsx:255-300 | a run is requested if and only if the socket is open, a capability is selected, and the trimmed draft is not empty or the capability supports check mode |
| Transcript.RefusedSendOnlyWarns | packages/ui/index.tsx:256-284 | a refused send appends exactly one failure or warning notice and changes nothing else |
| Transcript.AcceptedSend | packages/ui/index.tsx:286-305 | an accepted send shows the trimmed prompt or a placeholder, requests the selected capability with the trimmed prompt and the toggle, clears the draft, and clears the toggle for a capability without check mode |
| Transcript.CancelRequestFor | packages/ui/index.tsx:308-317 | a cancel request is made exactly when there is an active execution |
| Transcript.CancelNamesLaunchedRun | packages/ui/index.tsx:137-150 | cancelling right after a launch names that launch's run and capability |
| Transcript.AsWrittenRefreshDropsSelection | packages/ui/index.tsx:128-134 | as written, every capabilities refresh reselects the first capability |
| Transcript.AsWrittenRefreshExample | packages/ui/index.tsx:128-134 | a concrete refresh that replaces the operator's selection |
| Transcript.AsWrittenCompletionLosesId | packages/ui/index.tsx:164-165 | as written, a completion without a capability id is reported under the empty id |
| Transcript.IntendedRefreshKeepsSelection | packages/ui/index.tsx:128-134 | a refresh stores the list and selects the first capability only when nothing is selected |
| Transcript.IntendedCompletionUsesSelection | packages/ui/index.tsx:164-165 | a completion without a capability id is reported under the selected capability |
| ControlCentre.Centre.constructor | packages/ui/index.tsx:65-81 | the component starts with no capabilities, no selection, only the system message, an empty draft, the toggle off and no execution |
| ControlCentre.Centre.HandleServerMessage | packages/ui/index.tsx:125-200 | the fields change as the reducer says for the event, reading the selection current when the event arrives, and keep the one-stream-message invariant |
| ControlCentre.Centre.Send | packages/ui/index.tsx:255-306 | the fields and the request sent are those of the `send` rules |
| ControlCentre.Centre.CancelRun | packages/ui/index.tsx:308-317 | a cancel naming the active run and its capability is sent exactly when there is an execution and a socket |
| ControlCentre.Centre.Select | packages/ui/index.tsx:358-362 | clicking a capability selects it, and one without check mode clears the toggle; nothing else changes |
| ControlCentre.Centre.ResetChat | packages/ui/index.tsx:482-485 | "Reset chat" restores the system message and empties the draft; nothing else changes |

## Left out

- Ledger file and telemetry I/O and JSON (de)serialisation (`readAgentRuns`, `writeAgentRuns`, `emitTelemetryEvent`): the ledger is an in-memory sequence. A missing file is the empty ledger of `RunLedger`'s constructor; an unreadable or malformed file is not modelled.
- RunOutcome.ChildEnv: `CAPABILITY_PAYLOAD` holds `JSON.stringify` of the payload (apps/agent-runner/src/index.ts:491); JSON serialisation is not modelled, so `payloadJson` is an opaque parameter that nothing ties to `BuildPayload`.
- `johannesburgTimestamp`: it depends on the time-zone database. Timestamps are opaque strings passed in.
- `durationSeconds`: floating-point millisecond arithmetic. The metadata model omits it, along with `workspaceRoot`-relative path computation (`path.relative`), which is a parameter.
- `prepareSecrets`, `loadSecretMapping` (file read, JSON parsing, module-level cache) and `labelSecretFile`: the mapping entries are an input to `BuildSecretRequestList`.
- Console output, readline, `formatPlan`, `listCapabilities`, `chooseCapability`, `simulateRun` and the rest of `main`: only the approval rule and the two ledger writes are modelled.
- Process spawning and stream capture in `runCapability`: the child's end and its chunk lists are inputs to `ResolveRun`.
- `String(...)` coercion of event fields in the control centre: event fields are `Option<string>`, so a non-string value (a number run id, say) is not modelled.
- A `capabilities` event whose payload is malformed: the event always carries a list.
- Message ids and timestamps (`generateId`, `new Date()`), the WebSocket lifecycle and connection status, and rendering: the socket is modelled only as "open" for `send` and "present" for `cancelRun`.
- The `localeCompare` sort of the capability list: it is locale-dependent and only affects display.
- Fields of capabilities and messages that the rules never read.
- RunOutcome.SummariseResult: the 160-character cut is counted in Unicode characters, whereas JavaScript's `slice` counts UTF-16 code units; the two differ only for characters outside the Basic Multilingual Plane.
- JsText.ToLower: only ASCII letters are lowercased. No other character lowercases to `y`, `e` or `s`, so `IsApproval` is exact.
- Glob.MarkMatchesOneChar: the regular expression is compiled without the `u` flag, so in JavaScript `.` (from `?`) matches one UTF-16 code unit, whereas the model matches one Unicode character. For an id with a character outside the Basic Multilingual Plane the two disagree: `a?` matches `a` followed by one such character in the model but not in JavaScript, and `a??` the other way round. `*` (`.*`) matches the same strings either way.
- Glob.WildcardToRegExp: `new RegExp` is modelled only for the fragment of regular-expression syntax that the built source uses. Other source text is outside that fragment and is not reached.
- ControlCentre.Centre.HandleServerMessage: the class follows the intended reading of the selection (see Findings), not the stale one. `Transcript.StepAsWritten` models the code as written.

## Findings

| source | as written | input that shows it | evidently intended | confidence | as-written member | corrected member |
|---|---|---|---|---|---|---|
| packages/ui/index.tsx:85-134 | The socket's `onmessage` is installed once, by an effect that depends only on `endpoint`. It therefore always calls the `handleServerMessage` of the first render, where `selectedCapability` is `null`. As a result, every `capabilities` event reselects the first capability, and an `execution-complete` event without `capabilityId` never falls back to the selected id (line 165). | The operator selects `b.run`, then the server sends `capabilities` with `[a.run, b.run]`: the selection jumps to `a.run` | A refresh keeps an existing selection, and a completion falls back to the selected capability | not executed | Transcript.AsWrittenRefreshDropsSelection | Transcript.IntendedRefreshKeepsSelection |
