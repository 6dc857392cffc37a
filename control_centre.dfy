/**
 * The control-centre component's state, updated in place event by event:
 * server messages, the operator's send, cancel, selection and reset. Each
 * method is proved to advance the state as the reducer in `Transcript`
 * says, with the selection read when the event arrives.
 */
module ControlCentre {
  import opened Wrappers
  import opened JsText
  import opened Transcript

  class Centre {
    var capabilities: seq<Capability>
    var selected: Option<Capability>
    var messages: seq<Message>
    var draft: string
    var runCheck: bool
    var execution: Option<ExecutionState>

    function State(): UiState
      reads this
    {
      UiState(capabilities, selected, messages, draft, runCheck, execution)
    }

    /** At most one assistant message per run, capability and channel. */
    predicate Valid()
      reads this
    {
      UniqueStreams(messages)
    }

    constructor ()
      ensures State() == InitialState && Valid()
    {
      capabilities := [];
      selected := None;
      messages := [SystemMessage];
      draft := "";
      runCheck := false;
      execution := None;
    }

    /** `handleServerMessage`. */
    method HandleServerMessage(ev: ServerEvent)
      requires Valid()
      modifies this
      ensures Valid()
      ensures State() == StepIntended(old(State()), ev)
    {
      StepKeepsStreamsUnique(State(), ev, selected);
      match ev
      case CapabilitiesEvent(list) =>
        capabilities := list;
        if selected.None? && |list| > 0 {
          selected := Some(list[0]);
        }
      case ExecutionStarted(runId, capabilityId) =>
        var r := runId.GetOr("");
        var c := capabilityId.GetOr("");
        execution := Some(ExecutionState(r, c, Informational));
        messages := AppendMessage(messages,
          Message(Event, LaunchText(c), Some(c), TranscriptChannel, Some(Informational), Some(r)));
      case ExecutionOutput(runId, capabilityId, channel, text) =>
        var t := text.GetOr("");
        if |Trim(t)| > 0 {
          messages := AppendStream(messages, runId.GetOr(""), capabilityId.GetOr(""), ChannelOf(channel), t);
        }
      case ExecutionComplete(runId, capabilityId, exitCode, status) =>
        var r := runId.GetOr("");
        var c := if capabilityId.Some? then capabilityId.value else if selected.Some? then selected.value.id else "";
        var s := CompleteStatus(status, exitCode);
        execution := UpdateExecution(execution, r, s);
        messages := AppendMessage(messages,
          Message(Event, CompleteText(c, exitCode), Some(c), TranscriptChannel, Some(s), Some(r)));
      case ErrorEvent(message, capabilityId) =>
        messages := AppendMessage(messages,
          Message(Event, message.GetOr("Unknown error"), capabilityId, TranscriptChannel, Some(Failed), None));
      case OtherEvent =>
    }

    /** `send`: returns the run request written to the socket, if any. */
    method Send(socketOpen: bool) returns (request: Option<RunRequest>)
      requires Valid()
      modifies this
      ensures Valid()
      ensures (State(), request) == Transcript.Send(old(State()), socketOpen)
    {
      if !socketOpen {
        messages := AppendMessage(messages, Notice(NotReadyText, Failed));
        return None;
      }
      if selected.None? {
        messages := AppendMessage(messages, Notice(SelectFirstText, Warning));
        return None;
      }
      var cap := selected.value;
      var trimmed := Trim(draft);
      if |trimmed| == 0 && !cap.supportsCheck {
        messages := AppendMessage(messages, Notice(NeedPromptText, Warning));
        return None;
      }
      messages := AppendMessage(messages,
        Message(User, if |trimmed| > 0 then trimmed else NoPromptText, Some(cap.id), TranscriptChannel, None, None));
      request := Some(RunRequest(cap.id, trimmed, runCheck));
      if !cap.supportsCheck {
        runCheck := false;
      }
      draft := "";
    }

    /** `cancelRun`: the request for the active run, when there is a socket to send it on. */
    method CancelRun(socketPresent: bool) returns (request: Option<CancelRequest>)
      ensures request.Some? <==> socketPresent && execution.Some?
      ensures request.Some? ==> request.value == CancelRequest(execution.value.runId, execution.value.capabilityId)
    {
      if execution.None? || !socketPresent {
        return None;
      }
      request := CancelRequestFor(execution);
    }

    /** Clicking a capability selects it; one without check mode also clears the check toggle. */
    method Select(cap: Capability)
      requires Valid()
      modifies this
      ensures Valid()
      ensures State() == old(State()).(selected := Some(cap), runCheck := cap.supportsCheck && old(runCheck))
    {
      selected := Some(cap);
      if !cap.supportsCheck {
        runCheck := false;
      }
    }

    /** "Reset chat": back to the system message and an empty draft. */
    method ResetChat()
      requires Valid()
      modifies this
      ensures Valid()
      ensures State() == old(State()).(messages := [SystemMessage], draft := "")
    {
      draft := "";
      messages := [SystemMessage];
    }
  }
}
