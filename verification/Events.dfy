/** The events of a conversation, as far as the controller and the replay manager look at them. */
module Events {

  datatype Option<+T> = None | Some(value: T)

  datatype Source = AGENT | USER | ENVIRONMENT

  datatype AgentState =
    | LOADING | RUNNING | AWAITING_USER_INPUT | PAUSED | STOPPED | FINISHED | REJECTED | ERROR
    | AWAITING_USER_CONFIRMATION | USER_CONFIRMED | USER_REJECTED | RATE_LIMITED

  datatype Confirmation = CONFIRMED | DECLINED | AWAITING_CONFIRMATION

  datatype ToolCall = ToolCall(functionName: string, callId: string)

  /** The two synthetic errors a reset can emit, and every other error. */
  datatype ErrorKind = NotExecutedStopped | NotExecutedError | OtherError

  datatype Body =
    // actions
    | ChangeState(target: AgentState)
    | Message(content: string, waitForResponse: bool)
    | SystemMessage
    | DelegateAction(task: Option<string>)
    | Finish
    | Reject
    | LoopRecovery(option: int)
    | Recall(query: string, workspaceContext: bool)
    | Condensation
    | CondensationRequest
    | Runnable                      // the eight runnable action classes
    | NullAction
    | OtherAction
    // observations
    | StateChanged(state: AgentState)
    | NullObservation
    | DelegateObservation
    | ErrorObservation(kind: ErrorKind)
    | LoopDetection
    | OtherObservation

  const INVALID_ID := -1

  datatype Event = Event(id: int, source: Option<Source>, cause: Option<int>, tool: Option<ToolCall>,
                         hidden: bool, confirmation: Option<Confirmation>, body: Body)
  {
    predicate IsObservation() {
      body.StateChanged? || body.NullObservation? || body.DelegateObservation? || body.ErrorObservation?
      || body.LoopDetection? || body.OtherObservation?
    }

    predicate IsAction() {
      !IsObservation()
    }

    predicate IsUserMessage() {
      body.Message? && source == Some(USER)
    }

    /** One of the errors that only a reset of a controller writes. */
    predicate IsSynthetic() {
      body.ErrorObservation? && body.kind != OtherError
    }
  }

  /** An event as its constructor leaves it: no id, no source, no cause. */
  function Fresh(body: Body): Event {
    Event(INVALID_ID, None, None, None, false, None, body)
  }
}
