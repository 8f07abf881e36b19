// The part of the coordinator's state that its session determines, and how items
// change it: harness/coordinator/loop.go.
module CoordinatorState {
  import opened Session
  import opened SessionState
  import opened ContextBuilder

  // What translating a call gives: a status, and the operations it submitted.
  datatype Translation = Translation(status: CallStatus, submitted: seq<Operation>)

  // The tool registry: which tools there are, how a call translates, and how its
  // operations read as a result (None is an error). A translation may differ each
  // time, which the number stands for.
  datatype Registry = Registry(
    resolves: string -> bool,
    translate: (Call, nat) -> Translation,
    translateResult: (string, Id, CallStatus, seq<Operation>) -> Option<seq<ResultOutput>>)

  // toolCallState
  datatype CallState = CallState(call: Call, status: Option<CallStatus>, operations: set<Id>)

  // loopState without what a run forgets, and with the context builder.
  datatype Core = Core(
    turnID: Id,
    turnType: TurnType,
    toolCalls: map<CallKey, CallState>,
    operations: map<Id, Operation>,
    available: nat,
    delivered: nat,
    turnInputs: nat,
    context: Context)

  function NewCore(context: Context): Core {
    Core("", Regular, map[], map[], 0, 0, 0, context)
  }

  // ---- Adding items ----

  function AddCalls(toolCalls: map<CallKey, CallState>, turnID: Id, output: seq<Item>): map<CallKey, CallState> {
    if output == [] then toolCalls
    else
      var before := AddCalls(toolCalls, turnID, output[..|output| - 1]);
      var last := output[|output| - 1];
      if last.ToolCall? then before[(turnID, last.call.callID) := CallState(last.call, None, {})] else before
  }

  // addOperationToLocalState for each value in turn.
  function Overlay(operations: map<Id, Operation>, values: seq<Operation>): map<Id, Operation> {
    if values == [] then operations
    else
      var last := values[|values| - 1];
      Overlay(operations, values[..|values| - 1])[last.id := last]
  }

  function IDSet(ids: seq<Id>): set<Id> {
    set i | 0 <= i < |ids| :: ids[i]
  }

  function Key(status: ToolCallStatus): CallKey {
    (status.turnID, status.callID)
  }

  // addToolCallOperationsToLocalState
  function NoteStatus(core: Core, status: ToolCallStatus): Core {
    if Key(status) !in core.toolCalls then core
    else
      var call := core.toolCalls[Key(status)];
      core.(toolCalls := core.toolCalls[Key(status) :=
              call.(status := Some(status.status), operations := call.operations + IDSet(status.status.waitingFor))])
  }

  predicate AllTerminal(operations: map<Id, Operation>, ids: set<Id>) {
    forall id | id in ids :: id in operations && IsTerminal(operations[id].status)
  }

  // toolCallRequiresTranslator
  predicate RequiresTranslator(status: ToolCallStatus) {
    status.status.error == "" || status.status.waitingFor != [] || status.operations != []
  }

  // finishToolCall, without the grace set.
  function Finish(core: Core, key: CallKey): Core {
    core.(toolCalls := core.toolCalls - {key}, available := core.available + 1)
  }

  // Every operation waited for is one of the call's and is known.
  predicate Collectable(core: Core, call: CallState, waitingFor: seq<Id>) {
    forall i | 0 <= i < |waitingFor| :: waitingFor[i] in call.operations && waitingFor[i] in core.operations
  }

  function Collect(operations: map<Id, Operation>, waitingFor: seq<Id>): seq<Operation>
    requires forall i | 0 <= i < |waitingFor| :: waitingFor[i] in operations
  {
    seq(|waitingFor|, i requires 0 <= i < |waitingFor| => operations[waitingFor[i]])
  }

  // addToolResultToLocalState
  function ShowResult(reg: Registry, core: Core, status: ToolCallStatus): Result<Core> {
    var key := Key(status);
    if key !in core.toolCalls then Ok(core)
    else
      var call := core.toolCalls[key];
      if !reg.resolves(call.call.name) then
        if RequiresTranslator(status) then Ok(core)
        else
          Ok(Finish(core.(context := AddResult(core.context, status.callID, [ResultOutput(Text, status.status.error)], false)),
                    key))
      else if !Collectable(core, call, status.status.waitingFor) then Ok(core)
      else
        match reg.translateResult(call.call.name, status.callID, status.status,
                                  Collect(core.operations, status.status.waitingFor))
        case None => Err(BadItem)
        case Some(output) =>
          var running := !AllTerminal(core.operations, call.operations);
          var shown := core.(context := AddResult(core.context, status.callID, output, running));
          Ok(if running then shown else Finish(shown, key))
  }

  // addItemToLocalState
  function AddItem(reg: Registry, core: Core, data: Data): Result<Core> {
    match data
    case ForkData(_, _) => Ok(core.(toolCalls := map[], operations := map[]))
    case InputData(input) =>
      if !ValidInput(input) then Err(InvalidInput)
      else if input.kind == External then
        if input.payload.text.None? then Err(InvalidInput)
        else
          Ok(core.(context := AddMessage(core.context, input.payload.text.value), available := core.available + 1))
      else if input.kind == Control && input.payload.control.Some? then
        var request := input.payload.control.value;
        Ok(core.(context := AddControl(core.context, request),
                 available := core.available + (if request.mode == Heartbeat then 1 else 0)))
      else Ok(core)
    case TurnData(turn) =>
      Ok(core.(turnID := turn.id, turnType := turn.turnType, turnInputs := core.available,
               context := Committed(core.context)))
    case ResponseData(response) =>
      if core.turnType == Compaction && response.turnID == core.turnID then Ok(core)
      else
        Ok(core.(context := AddResponse(core.context, response.output),
                 delivered := if response.turnID == core.turnID then core.turnInputs else core.delivered,
                 toolCalls := AddCalls(core.toolCalls, response.turnID, response.output)))
    case StatusData(status) =>
      ShowResult(reg, NoteStatus(core.(operations := Overlay(core.operations, status.operations)), status), status)
  }

  // ---- Restoring ----

  // restoreItem
  function RestoreItem(reg: Registry, core: Core, data: Data): Result<Core> {
    if && data.StatusData? && RequiresTranslator(data.status)
       && Key(data.status) in core.toolCalls && !reg.resolves(core.toolCalls[Key(data.status)].call.name)
    then Err(BadItem)
    else AddItem(reg, core, data)
  }

  // loadHistory
  function Replay(reg: Registry, start: Core, items: seq<SessionItem>): Result<Core> {
    if items == [] then Ok(start)
    else
      var before :- Replay(reg, start, items[..|items| - 1]);
      RestoreItem(reg, before, items[|items| - 1].data)
  }

  // restore: the history, and then the operations that the store hands back.
  function Restore(reg: Registry, context: Context, stored: Stored): Result<Core> {
    var replayed :- Replay(reg, NewCore(context), stored.items);
    Ok(replayed.(operations := Overlay(replayed.operations, Resume(stored).operations)))
  }

  // ---- What a run does to its session ----

  datatype Live = Live(core: Core, stored: Stored)

  function Stripped(data: Data): Data {
    if data.StatusData? then StatusData(data.status.(operations := [])) else data
  }

  function OperationsOf(data: Data): seq<Operation> {
    if data.StatusData? then data.status.operations else []
  }

  // Adding an item to the local state and then to the session.
  function Persist(reg: Registry, live: Live, data: Data, at: Time): Result<Live> {
    var core :- AddItem(reg, live.core, data);
    var stored :- Append(live.stored, Stripped(data), OperationsOf(data), at);
    Ok(Live(core, stored))
  }

  function Submit(operations: seq<Operation>): seq<Operation> {
    seq(|operations|, i requires 0 <= i < |operations| => operations[i].(status := Ready))
  }

  // The translation of a call; a tool that is not there gives an error.
  function Translated(reg: Registry, call: Call, attempt: nat): Translation {
    if reg.resolves(call.name) then
      var t := reg.translate(call, attempt);
      t.(submitted := Submit(t.submitted))
    else Translation(CallStatus("tool \"" + call.name + "\" is not available", false, []), [])
  }

  function ScheduledStatus(reg: Registry, key: CallKey, call: Call, attempt: nat): ToolCallStatus {
    var t := Translated(reg, call, attempt);
    ToolCallStatus(key.0, key.1, t.status, t.submitted)
  }

  function ReconciledStatus(core: Core, key: CallKey): ToolCallStatus
    requires CanReconcile(core, key)
  {
    var status := core.toolCalls[key].status.value;
    ToolCallStatus(key.0, key.1, status, Collect(core.operations, status.waitingFor))
  }

  predicate CanReconcile(core: Core, key: CallKey) {
    && key in core.toolCalls
    && core.toolCalls[key].status.Some?
    && AllTerminal(core.operations, core.toolCalls[key].operations)
    && forall i | 0 <= i < |core.toolCalls[key].status.value.waitingFor| ::
         core.toolCalls[key].status.value.waitingFor[i] in core.operations
  }

  // The steps by which a coordinator changes its state or its session.
  datatype Action =
    | TakeInput(input: Input, at: Time)
    | StartTurn(turnID: Id, at: Time)
    | TakeResponse(output: seq<Item>, at: Time)
    | Schedule(key: CallKey, attempt: nat, at: Time)
    | Reconcile(key: CallKey, at: Time)
    | TakeUpdate(update: Operation)
    | Restart

  // No call is left without a status.
  predicate AllScheduled(core: Core) {
    forall key | key in core.toolCalls :: core.toolCalls[key].status.Some?
  }

  // When the loop takes each step.
  predicate Enabled(core: Core, action: Action) {
    match action
    case StartTurn(_, _) => AllScheduled(core)
    case Schedule(key, _, _) => key in core.toolCalls && core.toolCalls[key].status.None?
    case Reconcile(key, _) => CanReconcile(core, key)
    case _ => true
  }

  // A step, when nothing refuses it.
  function Apply(reg: Registry, context: Context, live: Live, action: Action): Result<Live> {
    if !Enabled(live.core, action) then Err(BadItem)
    else
      match action
      case TakeInput(input, at) => Persist(reg, live, InputData(input), at)
      case StartTurn(turnID, at) => Persist(reg, live, TurnData(Turn(turnID, live.core.turnID, Regular)), at)
      case TakeResponse(output, at) => Persist(reg, live, ResponseData(ModelResponse(live.core.turnID, output)), at)
      case Schedule(key, attempt, at) =>
        var status := ScheduledStatus(reg, key, live.core.toolCalls[key].call, attempt);
        var ready := live.core.(operations := Overlay(live.core.operations, status.operations));
        Persist(reg, live.(core := ready), StatusData(status), at)
      case Reconcile(key, at) => Persist(reg, live, StatusData(ReconciledStatus(live.core, key)), at)
      case TakeUpdate(update) =>
        var stored :- Save(live.stored, update);
        Ok(Live(live.core.(operations := live.core.operations[update.id := update]), stored))
      case Restart =>
        var core :- Restore(reg, context, live.stored);
        Ok(live.(core := core))
  }

  // The steps of a run in turn, for as long as none is refused.
  function Run(reg: Registry, context: Context, start: Live, actions: seq<Action>): Result<Live> {
    if actions == [] then Ok(start)
    else
      var before :- Run(reg, context, start, actions[..|actions| - 1]);
      Apply(reg, context, before, actions[|actions| - 1])
  }
}
