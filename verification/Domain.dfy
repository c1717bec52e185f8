/** The values that travel between the parts of the onboarding service: catalog
    steps, the journey read-model, the executor's commands and what answers them. */
module Domain {

  type Time = nat

  datatype Option<+T> = None | Some(value: T)

  datatype Status = InProgress | Completed

  /** One catalog entry. An empty action means record-only, an empty signal means
      system-driven. */
  datatype StepDef = StepDef(name: string, action: string, signal: string, marksComplete: bool)

  datatype StepSummary = StepSummary(name: string, status: Status, completedAt: Time)

  datatype Journey = Journey(
    userId: string,
    orgId: string,
    currentStep: string,
    status: Status,
    verticalName: string,
    version: int,
    steps: seq<StepSummary>,
    startedAt: Time,
    completedAt: Option<Time>)

  datatype Payload = Payload(displayName: string, verticalName: string, tncAccepted: string)

  datatype WorkflowInput = WorkflowInput(userId: string, version: int)

  datatype ActionInput = ActionInput(
    userId: string, orgId: string, displayName: string, tncAccepted: string, email: string)

  datatype StepEvent = StepEvent(
    userId: string, orgId: string, step: string, timestamp: Time, started: bool, completed: bool)

  /** An activity the workflow asks the server to run. */
  datatype Command =
    | Persist(journey: Journey)
    | Act(action: string, input: ActionInput)
    | Emit(event: StepEvent)

  /** The recorded result of one activity; `time` is that of the workflow task that
      delivers it. Activities without a result answer with empty strings. */
  datatype Reply =
    | Success(orgId: string, email: string, time: Time)
    | Failure(time: Time)

  /** A recorded signal. */
  datatype Message = Message(channel: string, payload: Payload, time: Time)

  function Max(a: Time, b: Time): Time {
    if a < b then b else a
  }
}
