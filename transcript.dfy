/**
 * The control centre's transcript reducer: how streamed output, server
 * events and the operator's send action change the message list and the
 * active execution. Message ids and timestamps are not modelled.
 */
module Transcript {
  import opened Wrappers
  import opened JsText

  datatype Role = System | User | Assistant | Event
  datatype StreamChannel = StdoutChannel | StderrChannel | TranscriptChannel
  datatype StatusIndicator = Ok | Warning | Failed | Informational | Cancelled | Unknown

  /** `ControlMessage` without its id and timestamp. */
  datatype Message = Message(
    role: Role,
    text: string,
    capabilityId: Option<string>,
    stream: StreamChannel,
    status: Option<StatusIndicator>,
    runId: Option<string>)

  datatype ExecutionState = ExecutionState(runId: string, capabilityId: string, status: StatusIndicator)

  /** The fields of a capability the reducer reads. */
  datatype Capability = Capability(id: string, supportsCheck: bool)

  /** The component's state. */
  datatype UiState = UiState(
    capabilities: seq<Capability>,
    selected: Option<Capability>,
    messages: seq<Message>,
    draft: string,
    runCheck: bool,
    execution: Option<ExecutionState>)

  const ReadyText := "n00ton Control Centre ready. Select a capability and provide a prompt to launch automation."
  const SystemMessage := Message(System, ReadyText, None, TranscriptChannel, Some(Informational), None)
  const InitialState := UiState([], None, [SystemMessage], "", false, None)

  // ---- appendMessage and appendStream ----

  function AppendMessage(messages: seq<Message>, m: Message): (r: seq<Message>)
    ensures |r| == |messages| + 1 && r[..|messages|] == messages && r[|messages|] == m
  {
    messages + [m]
  }

  /** The assistant message collecting one run's output on one channel. */
  predicate IsStreamOf(m: Message, runId: string, capabilityId: string, channel: StreamChannel) {
    m.runId == Some(runId) && m.capabilityId == Some(capabilityId) && m.stream == channel && m.role == Assistant
  }

  /** The `findIndex` of `appendStream`. */
  function FindStream(messages: seq<Message>, runId: string, capabilityId: string, channel: StreamChannel): (k: int)
    ensures -1 <= k < |messages|
    ensures k == -1 <==> forall i :: 0 <= i < |messages| ==> !IsStreamOf(messages[i], runId, capabilityId, channel)
    ensures k >= 0 ==> IsStreamOf(messages[k], runId, capabilityId, channel)
    ensures k >= 0 ==> forall i :: 0 <= i < k ==> !IsStreamOf(messages[i], runId, capabilityId, channel)
  {
    if messages == [] then -1
    else if IsStreamOf(messages[0], runId, capabilityId, channel) then 0
    else
      var k := FindStream(messages[1..], runId, capabilityId, channel);
      if k == -1 then -1 else k + 1
  }

  /** `appendStream`: merge into the run's stream message, or open one at the end. */
  function AppendStream(messages: seq<Message>, runId: string, capabilityId: string,
                        channel: StreamChannel, text: string): (r: seq<Message>)
    ensures |r| == |messages| + (if FindStream(messages, runId, capabilityId, channel) >= 0 then 0 else 1)
  {
    var k := FindStream(messages, runId, capabilityId, channel);
    if k >= 0 then
      messages[..k] + [messages[k].(text := messages[k].text + text)] + messages[k + 1..]
    else
      messages + [Message(Assistant, text, Some(capabilityId), channel, None, Some(runId))]
  }

  /** With a stream message present, the first one gains the text where it stands; nothing else changes. */
  lemma AppendStreamMerges(messages: seq<Message>, runId: string, capabilityId: string,
                           channel: StreamChannel, text: string, k: nat)
    requires k < |messages| && IsStreamOf(messages[k], runId, capabilityId, channel)
    requires forall i :: 0 <= i < k ==> !IsStreamOf(messages[i], runId, capabilityId, channel)
    ensures var r := AppendStream(messages, runId, capabilityId, channel, text);
      |r| == |messages|
      && r[k] == messages[k].(text := messages[k].text + text)
      && forall i :: 0 <= i < |messages| && i != k ==> r[i] == messages[i]
  {
    assert FindStream(messages, runId, capabilityId, channel) == k;
    var merged := messages[k].(text := messages[k].text + text);
    var r := messages[..k] + [merged] + messages[k + 1..];
    assert AppendStream(messages, runId, capabilityId, channel, text) == r;
    forall i | 0 <= i < |messages| && i != k
      ensures r[i] == messages[i]
    {
      if i < k {
        assert r[i] == messages[..k][i];
      } else {
        assert r[i] == messages[k + 1..][i - k - 1];
      }
    }
  }

  /** With none, exactly one new assistant message with the text goes at the end. */
  lemma AppendStreamAppends(messages: seq<Message>, runId: string, capabilityId: string,
                            channel: StreamChannel, text: string)
    requires forall i :: 0 <= i < |messages| ==> !IsStreamOf(messages[i], runId, capabilityId, channel)
    ensures AppendStream(messages, runId, capabilityId, channel, text)
         == messages + [Message(Assistant, text, Some(capabilityId), channel, None, Some(runId))]
  {
  }

  /** The key an assistant message is coalesced under. */
  function StreamKey(m: Message): (Option<string>, Option<string>, StreamChannel) {
    (m.runId, m.capabilityId, m.stream)
  }

  /** At most one assistant message per run, capability and channel. */
  predicate UniqueStreams(messages: seq<Message>) {
    forall i, j :: 0 <= i < j < |messages| && messages[i].role == Assistant && messages[j].role == Assistant
      ==> StreamKey(messages[i]) != StreamKey(messages[j])
  }

  lemma AppendStreamKeepsStreamsUnique(messages: seq<Message>, runId: string, capabilityId: string,
                                       channel: StreamChannel, text: string)
    requires UniqueStreams(messages)
    ensures UniqueStreams(AppendStream(messages, runId, capabilityId, channel, text))
  {
    var k := FindStream(messages, runId, capabilityId, channel);
    var r := AppendStream(messages, runId, capabilityId, channel, text);
    if k >= 0 {
      AppendStreamMerges(messages, runId, capabilityId, channel, text, k);
      forall i, j | 0 <= i < j < |r| && r[i].role == Assistant && r[j].role == Assistant
        ensures StreamKey(r[i]) != StreamKey(r[j])
      {
        assert StreamKey(r[i]) == StreamKey(messages[i]) && r[i].role == messages[i].role;
        assert StreamKey(r[j]) == StreamKey(messages[j]) && r[j].role == messages[j].role;
      }
    } else {
      forall i, j | 0 <= i < j < |r| && r[i].role == Assistant && r[j].role == Assistant
        ensures StreamKey(r[i]) != StreamKey(r[j])
      {
        if j == |messages| {
          assert !IsStreamOf(messages[i], runId, capabilityId, channel);
        }
      }
    }
  }

  lemma AppendMessageKeepsStreamsUnique(messages: seq<Message>, m: Message)
    requires UniqueStreams(messages) && m.role != Assistant
    ensures UniqueStreams(AppendMessage(messages, m))
  {
  }

  // ---- handleServerMessage ----

  /** A parsed server event; fields the payload lacks (or sends as null) are `None`. */
  datatype ServerEvent =
    | CapabilitiesEvent(list: seq<Capability>)
    | ExecutionStarted(runId: Option<string>, capabilityId: Option<string>)
    | ExecutionOutput(runId: Option<string>, capabilityId: Option<string>, channel: Option<string>, text: Option<string>)
    | ExecutionComplete(runId: Option<string>, capabilityId: Option<string>, exitCode: Option<int>, status: Option<string>)
    | ErrorEvent(message: Option<string>, capabilityId: Option<string>)
    | OtherEvent

  /** `payload.channel === "stderr" ? "stderr" : "stdout"`. */
  function ChannelOf(channel: Option<string>): (c: StreamChannel)
    ensures c == StderrChannel <==> channel == Some("stderr")
    ensures c != TranscriptChannel
  {
    if channel == Some("stderr") then StderrChannel else StdoutChannel
  }

  /** The status an `execution-complete` event reports. */
  function CompleteStatus(status: Option<string>, exitCode: Option<int>): (s: StatusIndicator)
    ensures s == Cancelled <==> status == Some("cancelled")
    ensures s == Ok <==> status != Some("cancelled") && exitCode == Some(0)
    ensures s == Failed <==> status != Some("cancelled") && exitCode != Some(0)
  {
    if status == Some("cancelled") then Cancelled
    else if exitCode == Some(0) then Ok
    else Failed
  }

  function LaunchText(capabilityId: string): string {
    "Launching " + capabilityId + "\U{2026}"
  }

  /** `${exitCode}` with `null` for a missing code. */
  function CompleteText(capabilityId: string, exitCode: Option<int>): string {
    capabilityId + " finished with status " + (if exitCode.Some? then IntToString(exitCode.value) else "null")
  }

  /** `setExecution`'s updater: only the execution with the event's run id takes the new status. */
  function UpdateExecution(current: Option<ExecutionState>, runId: string, status: StatusIndicator): (r: Option<ExecutionState>)
    ensures r.Some? <==> current.Some?
    ensures current.Some? && current.value.runId == runId ==> r == Some(current.value.(status := status))
    ensures current.Some? && current.value.runId != runId ==> r == current
  {
    if current.Some? && current.value.runId == runId then Some(current.value.(status := status)) else current
  }

  /**
   * One server event. `seen` is the selection the handler consults: the
   * selection at the time the socket was opened for the code as written, the
   * current selection for the intended behaviour (see `StepAsWritten` and
   * `StepIntended`).
   */
  function Step(st: UiState, ev: ServerEvent, seen: Option<Capability>): (r: UiState)
    ensures r.draft == st.draft && r.runCheck == st.runCheck
    ensures |r.messages| >= |st.messages|
    ensures !ev.CapabilitiesEvent? ==> r.capabilities == st.capabilities && r.selected == st.selected
  {
    match ev
    case CapabilitiesEvent(list) =>
      st.(capabilities := list, selected := if seen.None? && |list| > 0 then Some(list[0]) else st.selected)
    case ExecutionStarted(runId, capabilityId) =>
      var r := runId.GetOr("");
      var c := capabilityId.GetOr("");
      st.(execution := Some(ExecutionState(r, c, Informational)),
          messages := AppendMessage(st.messages,
            Message(Event, LaunchText(c), Some(c), TranscriptChannel, Some(Informational), Some(r))))
    case ExecutionOutput(runId, capabilityId, channel, text) =>
      var t := text.GetOr("");
      if |Trim(t)| == 0 then st
      else st.(messages := AppendStream(st.messages, runId.GetOr(""), capabilityId.GetOr(""), ChannelOf(channel), t))
    case ExecutionComplete(runId, capabilityId, exitCode, status) =>
      var r := runId.GetOr("");
      var c := if capabilityId.Some? then capabilityId.value else if seen.Some? then seen.value.id else "";
      var s := CompleteStatus(status, exitCode);
      st.(execution := UpdateExecution(st.execution, r, s),
          messages := AppendMessage(st.messages,
            Message(Event, CompleteText(c, exitCode), Some(c), TranscriptChannel, Some(s), Some(r))))
    case ErrorEvent(message, capabilityId) =>
      st.(messages := AppendMessage(st.messages,
            Message(Event, message.GetOr("Unknown error"), capabilityId, TranscriptChannel, Some(Failed), None)))
    case OtherEvent => st
  }

  /** The handler as written: it was captured when the socket opened, when nothing was selected yet. */
  function StepAsWritten(st: UiState, ev: ServerEvent): (r: UiState)
    ensures ev.CapabilitiesEvent? && |ev.list| > 0 ==> r.selected == Some(ev.list[0])
  {
    Step(st, ev, None)
  }

  /** The handler reading the selection current at the time of the event. */
  function StepIntended(st: UiState, ev: ServerEvent): (r: UiState)
    ensures st.selected.Some? ==> r.selected == st.selected
  {
    Step(st, ev, st.selected)
  }

  /** Every event keeps at most one assistant message per stream, and never touches the draft or the check toggle. */
  lemma StepKeepsStreamsUnique(st: UiState, ev: ServerEvent, seen: Option<Capability>)
    requires UniqueStreams(st.messages)
    ensures UniqueStreams(Step(st, ev, seen).messages)
    ensures Step(st, ev, seen).draft == st.draft && Step(st, ev, seen).runCheck == st.runCheck
  {
    match ev
    case ExecutionOutput(runId, capabilityId, channel, text) =>
      if |Trim(text.GetOr(""))| > 0 {
        AppendStreamKeepsStreamsUnique(st.messages, runId.GetOr(""), capabilityId.GetOr(""), ChannelOf(channel), text.GetOr(""));
      }
    case _ =>
  }

  /** Output that is blank once trimmed is dropped; anything else goes, untrimmed, to its run's stdout or stderr stream. */
  lemma OutputEvent(st: UiState, runId: Option<string>, capabilityId: Option<string>, channel: Option<string>,
                    text: string, seen: Option<Capability>)
    ensures var r := Step(st, ExecutionOutput(runId, capabilityId, channel, Some(text)), seen);
      (|Trim(text)| == 0 ==> r == st)
      && (|Trim(text)| > 0 ==>
            r == st.(messages := AppendStream(st.messages, runId.GetOr(""), capabilityId.GetOr(""), ChannelOf(channel), text))
            && |r.messages| >= |st.messages|)
  {
    var r := Step(st, ExecutionOutput(runId, capabilityId, channel, Some(text)), seen);
    var m := AppendStream(st.messages, runId.GetOr(""), capabilityId.GetOr(""), ChannelOf(channel), text);
    assert Some(text).GetOr("") == text;
    if |Trim(text)| > 0 {
      assert r == st.(messages := m);
    }
  }

  /**
   * `execution-complete` changes the active execution only when its run id
   * matches, and appends exactly one event message carrying the status.
   */
  lemma CompleteEvent(st: UiState, runId: Option<string>, capabilityId: Option<string>, exitCode: Option<int>,
                      status: Option<string>, seen: Option<Capability>)
    ensures var r := Step(st, ExecutionComplete(runId, capabilityId, exitCode, status), seen);
      var s := CompleteStatus(status, exitCode);
      (st.execution.Some? && st.execution.value.runId == runId.GetOr("") ==>
         r.execution == Some(st.execution.value.(status := s)))
      && (st.execution.None? || st.execution.value.runId != runId.GetOr("") ==> r.execution == st.execution)
      && |r.messages| == |st.messages| + 1 && r.messages[..|st.messages|] == st.messages
      && r.messages[|st.messages|].role == Event && r.messages[|st.messages|].status == Some(s)
      && r.capabilities == st.capabilities && r.selected == st.selected
  {
  }

  // ---- The `isRunning` badge ----

  /** `isRunning`: the badge of the active execution's capability while the run has no final status. */
  function IsRunning(execution: Option<ExecutionState>, cap: Capability): (running: bool)
    ensures running ==> execution.Some? && execution.value.capabilityId == cap.id
  {
    execution.Some? && execution.value.capabilityId == cap.id
    && execution.value.status != Ok && execution.value.status != Failed
  }

  /** A started run shows its capability as running. */
  lemma StartedRunIsRunning(st: UiState, runId: string, cap: Capability, seen: Option<Capability>)
    ensures IsRunning(Step(st, ExecutionStarted(Some(runId), Some(cap.id)), seen).execution, cap)
  {
  }

  /**
   * When its run completes, the capability stops showing as running unless
   * the run was cancelled: a cancelled run keeps the badge.
   */
  lemma CompletedRunStopsRunning(st: UiState, cap: Capability, exitCode: Option<int>, status: Option<string>,
                                 seen: Option<Capability>)
    requires st.execution.Some? && st.execution.value.capabilityId == cap.id
    ensures var r := Step(st, ExecutionComplete(Some(st.execution.value.runId), Some(cap.id), exitCode, status), seen);
      IsRunning(r.execution, cap) <==> status == Some("cancelled")
  {
  }

  /** Completion of some other run leaves the badge as it was. */
  lemma OtherRunLeavesBadge(st: UiState, runId: string, cap: Capability, ev: ServerEvent, seen: Option<Capability>)
    requires ev.ExecutionComplete? && ev.runId == Some(runId)
    requires st.execution.Some? && st.execution.value.runId != runId
    ensures IsRunning(Step(st, ev, seen).execution, cap) == IsRunning(st.execution, cap)
  {
  }

  // ---- send ----

  datatype RunRequest = RunRequest(capabilityId: string, prompt: string, check: bool)
  datatype CancelRequest = CancelRequest(runId: string, capabilityId: string)

  const NotReadyText := "WebSocket connection is not ready. Unable to send request."
  const SelectFirstText := "Select a capability first."
  const NeedPromptText := "Provide a prompt or choose a capability that supports check mode."
  const NoPromptText := "(No prompt provided)"

  function Notice(text: string, status: StatusIndicator): Message {
    Message(Event, text, None, TranscriptChannel, Some(status), None)
  }

  /** The state after `send` and the request it put on the socket, if any. */
  function Send(st: UiState, socketOpen: bool): (r: (UiState, Option<RunRequest>))
    ensures |r.0.messages| == |st.messages| + 1 && r.0.messages[..|st.messages|] == st.messages
    ensures r.0.capabilities == st.capabilities && r.0.selected == st.selected && r.0.execution == st.execution
    ensures r.1.Some? ==> st.selected.Some? && r.1.value.capabilityId == st.selected.value.id
  {
    if !socketOpen then
      (st.(messages := AppendMessage(st.messages, Notice(NotReadyText, Failed))), None)
    else if st.selected.None? then
      (st.(messages := AppendMessage(st.messages, Notice(SelectFirstText, Warning))), None)
    else
      var cap := st.selected.value;
      var trimmed := Trim(st.draft);
      if |trimmed| == 0 && !cap.supportsCheck then
        (st.(messages := AppendMessage(st.messages, Notice(NeedPromptText, Warning))), None)
      else
        var shown := if |trimmed| > 0 then trimmed else NoPromptText;
        (st.(messages := AppendMessage(st.messages, Message(User, shown, Some(cap.id), TranscriptChannel, None, None)),
             runCheck := if cap.supportsCheck then st.runCheck else false,
             draft := ""),
         Some(RunRequest(cap.id, trimmed, st.runCheck)))
  }

  /** A run is requested exactly when the socket is open, a capability is selected, and there is a prompt or check mode. */
  lemma SendGuard(st: UiState, socketOpen: bool)
    ensures Send(st, socketOpen).1.Some? <==>
      socketOpen && st.selected.Some? && (|Trim(st.draft)| > 0 || st.selected.value.supportsCheck)
  {
  }

  /** A refused send appends exactly one failure or warning notice and changes nothing else. */
  lemma RefusedSendOnlyWarns(st: UiState, socketOpen: bool)
    requires Send(st, socketOpen).1.None?
    ensures var r := Send(st, socketOpen).0;
      r == st.(messages := st.messages + [r.messages[|st.messages|]])
      && r.messages[|st.messages|].role == Event
      && r.messages[|st.messages|].status in {Some(Failed), Some(Warning)}
  {
  }

  /**
   * An accepted send shows the operator's trimmed prompt (or a placeholder),
   * asks for the selected capability with the trimmed prompt and the check
   * toggle, clears the draft, and turns the toggle off for a capability
   * without check mode.
   */
  lemma AcceptedSend(st: UiState, socketOpen: bool)
    requires Send(st, socketOpen).1.Some?
    ensures var (r, req) := Send(st, socketOpen);
      var cap := st.selected.value;
      req.value == RunRequest(cap.id, Trim(st.draft), st.runCheck)
      && r.draft == "" && (r.runCheck <==> st.runCheck && cap.supportsCheck)
      && r.messages == st.messages + [r.messages[|st.messages|]]
      && r.messages[|st.messages|].role == User
      && r.messages[|st.messages|].text == (if |Trim(st.draft)| > 0 then Trim(st.draft) else NoPromptText)
      && r.execution == st.execution && r.selected == st.selected
  {
  }

  /** `cancelRun`: the request names the active run; with none, nothing is sent. */
  function CancelRequestFor(execution: Option<ExecutionState>): (req: Option<CancelRequest>)
    ensures req.Some? <==> execution.Some?
  {
    if execution.None? then None
    else Some(CancelRequest(execution.value.runId, execution.value.capabilityId))
  }

  /** Cancelling right after a launch names that launch's run and capability. */
  lemma CancelNamesLaunchedRun(st: UiState, runId: string, capabilityId: string, seen: Option<Capability>)
    ensures CancelRequestFor(Step(st, ExecutionStarted(Some(runId), Some(capabilityId)), seen).execution)
         == Some(CancelRequest(runId, capabilityId))
  {
  }

  // ---- The stale-selection finding ----

  /** As written, a capabilities refresh reselects the first capability over the operator's choice. */
  lemma AsWrittenRefreshDropsSelection(st: UiState, list: seq<Capability>)
    requires |list| > 0
    ensures StepAsWritten(st, CapabilitiesEvent(list)).selected == Some(list[0])
  {
  }

  lemma AsWrittenRefreshExample()
    ensures var chosen := Capability("b.run", false);
      var st := InitialState.(selected := Some(chosen));
      StepAsWritten(st, CapabilitiesEvent([Capability("a.run", true), chosen])).selected != st.selected
  {
  }

  /** As written, a completion without a capability id is reported under the empty id, whatever is selected. */
  lemma AsWrittenCompletionLosesId(st: UiState, runId: Option<string>, exitCode: Option<int>, status: Option<string>)
    ensures var r := StepAsWritten(st, ExecutionComplete(runId, None, exitCode, status));
      r.messages[|st.messages|].capabilityId == Some("")
  {
  }

  /** Intended: a refresh selects the first capability only when nothing is selected. */
  lemma IntendedRefreshKeepsSelection(st: UiState, list: seq<Capability>)
    ensures st.selected.Some? ==> StepIntended(st, CapabilitiesEvent(list)).selected == st.selected
    ensures st.selected.None? && |list| > 0 ==> StepIntended(st, CapabilitiesEvent(list)).selected == Some(list[0])
    ensures StepIntended(st, CapabilitiesEvent(list)).capabilities == list
  {
  }

  /** Intended: a completion without a capability id is reported under the selected capability. */
  lemma IntendedCompletionUsesSelection(st: UiState, runId: Option<string>, exitCode: Option<int>, status: Option<string>)
    requires st.selected.Some?
    ensures var r := StepIntended(st, ExecutionComplete(runId, None, exitCode, status));
      r.messages[|st.messages|].capabilityId == Some(st.selected.value.id)
  {
  }
}
