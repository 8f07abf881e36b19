// Durable values of a session: harness/session, harness/sessionstore, harness/inbox,
// harness/llm and harness/operation.
module Session {

  datatype Option<T> = None | Some(value: T)

  datatype Error =
    | InvalidInput | EmptyTurnID | WrongPreviousTurn | TurnExists | TurnNotOwned | AlreadyResponded
    | EmptyCallID | InvalidOperation | OperationExists | InvalidReferences
    | UnknownOperation | OperationChangedType
    | TurnNotFound | InvalidSessionID | BadLog | BadItem | StorageFailed | Interrupted | NoSession

  datatype Result<T> = Ok(value: T) | Err(error: Error) {
    predicate IsFailure() { Err? }

    function PropagateFailure<U>(): Result<U>
      requires Err?
    {
      Err(error)
    }

    function Extract(): T
      requires Ok?
    {
      value
    }
  }

  type Id = string

  // ---- Operations ----

  datatype OpStatus = Ready | Awaiting | Canceling | Completed | Failed | Canceled | Unsupported(name: string)

  predicate IsTerminal(status: OpStatus) {
    status in {Completed, Failed, Canceled}
  }

  // A JSON value; its syntax is not looked into.
  datatype Json = Absent | Json(text: string, valid: bool)

  datatype Operation = Operation(
    id: Id, kind: string, version: nat, status: OpStatus, state: Json, idempotency: Json, maxOutputLength: int)

  // validateOperation
  predicate ValidOperation(value: Operation) {
    && value.id != "" && value.kind != "" && value.version != 0
    && !value.status.Unsupported?
    && (value.state.Json? ==> value.state.valid)
    && (value.idempotency.Json? ==> value.idempotency.valid)
  }

  // ---- Inputs ----

  datatype InputKind = External | Control | Crash | OtherKind(name: string)

  datatype ControlMode = StopHard | StopWhenIdle | Heartbeat | UpdateSettings

  datatype ControlMessage = ControlMessage(mode: ControlMode, reason: string, effort: string)

  // A payload with what decoding it as a string or as a control message gives.
  datatype Payload = Payload(json: Json, text: Option<string>, control: Option<ControlMessage>)

  datatype Input = Input(id: Id, kind: InputKind, payload: Payload)

  // Input.Validate
  predicate ValidInput(input: Input) {
    && input.id != ""
    && (input.kind == External || input.kind == Crash || (input.kind == Control && input.payload.control.Some?))
    && (input.payload.json.Json? ==> input.payload.json.valid)
  }

  // ---- Turns, responses and tool calls ----

  datatype TurnType = Regular | Compaction

  datatype Turn = Turn(id: Id, previousTurnID: Id, turnType: TurnType)

  datatype Role = User | Assistant | System

  datatype ResultKind = Text | Image

  datatype ResultOutput = ResultOutput(kind: ResultKind, value: string)

  datatype Call = Call(callID: Id, name: string, arguments: string)

  // A part of the model's context. final tells a tool result that completes its call
  // from the placeholder of a running one; the two can carry the same output.
  datatype Item =
    | Message(role: Role, text: string)
    | ToolCall(call: Call)
    | ToolResult(callID: Id, output: seq<ResultOutput>, final: bool)
    | Reasoning(raw: string)

  datatype ModelResponse = ModelResponse(turnID: Id, output: seq<Item>)

  datatype CallStatus = CallStatus(error: string, errorTruncated: bool, waitingFor: seq<Id>)

  datatype ToolCallStatus =
    ToolCallStatus(turnID: Id, callID: Id, status: CallStatus, operations: seq<Operation>)

  // ---- Items of a session ----

  datatype Data =
    | ForkData(parentID: Id, previousTurnID: Id)
    | InputData(input: Input)
    | TurnData(turn: Turn)
    | ResponseData(response: ModelResponse)
    | StatusData(status: ToolCallStatus)

  // A recorded time; 0 is the zero time.
  type Time = int

  datatype SessionItem = SessionItem(sequence: nat, recordedAt: Time, data: Data)

  datatype SessionInfo = SessionInfo(id: Id, createdAt: Time)

  // validateSessionID
  predicate ValidSessionID(id: Id) {
    id != "" && forall i | 0 <= i < |id| ::
      'a' <= id[i] <= 'z' || 'A' <= id[i] <= 'Z' || '0' <= id[i] <= '9' || id[i] == '-'
  }
}
