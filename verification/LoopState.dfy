// The coordinator's local state, updated in place as items are added to it:
// harness/coordinator/loop.go.
module LoopStates {
  import opened Session
  import opened SessionState
  import opened ContextBuilder
  import opened CoordinatorState

  // The grace calls once calls have been closed.
  function GraceAfter(grace: set<CallKey>, data: Data, before: set<CallKey>, after: set<CallKey>): set<CallKey> {
    if data.ForkData? then {} else grace - (before - after)
  }

  function KeysOf(statuses: seq<ToolCallStatus>): set<CallKey> {
    set i | 0 <= i < |statuses| :: Key(statuses[i])
  }

  lemma OneMoreKey(statuses: seq<ToolCallStatus>, i: nat)
    requires i < |statuses|
    ensures KeysOf(statuses[..i + 1]) == KeysOf(statuses[..i]) + {Key(statuses[i])}
  {
    assert statuses[..i + 1][i] == statuses[i];
    forall key | key in KeysOf(statuses[..i])
      ensures key in KeysOf(statuses[..i + 1])
    {
      var j :| 0 <= j < i && Key(statuses[..i][j]) == key;
      assert Key(statuses[..i + 1][j]) == key;
    }
  }

  class LoopState {
    const reg: Registry
    const builder: Builder

    var currentTurnID: Id
    var currentTurnType: TurnType
    var toolCalls: map<CallKey, CallState>
    var operations: map<Id, Operation>
    var availableInputs: nat
    var deliveredInputs: nat
    var currentTurnInputs: nat
    var callModel: bool
    var graceArmed: bool
    var graceToolCalls: set<CallKey>

    ghost function Core(): Core
      reads this, builder
    {
      CoordinatorState.Core(currentTurnID, currentTurnType, toolCalls, operations,
                            availableInputs, deliveredInputs, currentTurnInputs, builder.Value())
    }

    // The grace timer is armed exactly while calls have grace.
    ghost predicate GraceOK()
      reads this
    {
      graceArmed <==> graceToolCalls != {}
    }

    // newLoopState
    constructor (reg: Registry, builder: Builder)
      ensures this.reg == reg && this.builder == builder
      ensures Core() == NewCore(builder.Value())
      ensures GraceOK() && graceToolCalls == {} && !callModel
    {
      this.reg := reg;
      this.builder := builder;
      currentTurnID, currentTurnType := "", Regular;
      toolCalls, operations := map[], map[];
      availableInputs, deliveredInputs, currentTurnInputs := 0, 0, 0;
      callModel, graceArmed, graceToolCalls := false, false, {};
    }

    method ClearToolGrace()
      modifies this`graceArmed, this`graceToolCalls
      ensures GraceOK() && graceToolCalls == {}
    {
      graceToolCalls := {};
      graceArmed := false;
    }

    // The calls of a response get time to end.
    method GiveGrace(statuses: seq<ToolCallStatus>)
      modifies this`graceArmed, this`graceToolCalls
      ensures graceArmed && graceToolCalls == old(graceToolCalls) + KeysOf(statuses)
    {
      for i := 0 to |statuses|
        invariant graceToolCalls == old(graceToolCalls) + KeysOf(statuses[..i])
      {
        OneMoreKey(statuses, i);
        graceToolCalls := graceToolCalls + {Key(statuses[i])};
      }
      assert statuses[..|statuses|] == statuses;
      graceArmed := true;
    }

    method PendingInputs() returns (pending: int)
      ensures pending == availableInputs - deliveredInputs
    {
      pending := availableInputs - deliveredInputs;
    }

    // operationIsTerminal over the operations of a call.
    method ToolCallOperationsAreTerminal(key: CallKey) returns (terminal: bool)
      ensures terminal == AllTerminal(operations, if key in toolCalls then toolCalls[key].operations else {})
    {
      var call: set<Id> := if key in toolCalls then toolCalls[key].operations else {};
      var todo := call;
      while todo != {}
        invariant todo <= call && AllTerminal(operations, call - todo)
      {
        var id :| id in todo;
        if id !in operations || !IsTerminal(operations[id].status) {
          return false;
        }
        todo := todo - {id};
      }
      assert call - todo == call;
      return true;
    }

    method AddToolCalls(turnID: Id, output: seq<Item>)
      modifies this`toolCalls
      ensures toolCalls == AddCalls(old(toolCalls), turnID, output)
    {
      var i := 0;
      while i < |output|
        invariant 0 <= i <= |output|
        invariant toolCalls == AddCalls(old(toolCalls), turnID, output[..i])
      {
        assert output[..i + 1][..i] == output[..i];
        if output[i].ToolCall? {
          toolCalls := toolCalls[(turnID, output[i].call.callID) := CallState(output[i].call, None, {})];
        }
        i := i + 1;
      }
      assert output[..|output|] == output;
    }

    method AddOperation(value: Operation)
      modifies this`operations
      ensures operations == old(operations)[value.id := value]
    {
      operations := operations[value.id := value];
    }

    method AddOperations(values: seq<Operation>)
      modifies this`operations
      ensures operations == Overlay(old(operations), values)
    {
      var i := 0;
      while i < |values|
        invariant 0 <= i <= |values|
        invariant operations == Overlay(old(operations), values[..i])
      {
        assert values[..i + 1][..i] == values[..i];
        AddOperation(values[i]);
        i := i + 1;
      }
      assert values[..|values|] == values;
    }

    method AddToolCallOperations(status: ToolCallStatus)
      modifies this`toolCalls
      ensures Core() == NoteStatus(old(Core()), status)
    {
      var key := Key(status);
      if key !in toolCalls {
        return;
      }
      var call := toolCalls[key].(status := Some(status.status));
      var ids := status.status.waitingFor;
      ghost var before := call.operations;
      var i := 0;
      while i < |ids|
        invariant 0 <= i <= |ids|
        invariant call.operations == before + IDSet(ids[..i])
        invariant call == toolCalls[key].(status := Some(status.status), operations := call.operations)
      {
        assert IDSet(ids[..i + 1]) == IDSet(ids[..i]) + {ids[i]} by { IDSetLonger(ids, i); }
        call := call.(operations := call.operations + {ids[i]});
        i := i + 1;
      }
      assert ids[..|ids|] == ids;
      toolCalls := toolCalls[key := call];
    }

    method FinishToolCall(key: CallKey)
      requires GraceOK() && key in toolCalls
      modifies this`toolCalls, this`graceToolCalls, this`graceArmed, this`availableInputs
      ensures GraceOK() && Core() == Finish(old(Core()), key) && graceToolCalls == old(graceToolCalls) - {key}
    {
      toolCalls := toolCalls - {key};
      graceToolCalls := graceToolCalls - {key};
      if graceToolCalls == {} {
        ClearToolGrace();
      }
      availableInputs := availableInputs + 1;
    }

    // The known operations of a call in the order in which it waits for them; None when
    // one is not the call's or not known.
    method CollectOperations(call: CallState, waitingFor: seq<Id>) returns (collected: Option<seq<Operation>>)
      ensures collected == if Collectable(Core(), call, waitingFor) then Some(Collect(operations, waitingFor)) else None
    {
      var values: seq<Operation> := [];
      var i := 0;
      while i < |waitingFor|
        invariant 0 <= i <= |waitingFor| && |values| == i
        invariant forall j | 0 <= j < i ::
                    waitingFor[j] in call.operations && waitingFor[j] in operations && values[j] == operations[waitingFor[j]]
      {
        if waitingFor[i] !in call.operations || waitingFor[i] !in operations {
          return None;
        }
        values := values + [operations[waitingFor[i]]];
        i := i + 1;
      }
      assert values == Collect(operations, waitingFor);
      return Some(values);
    }

    method AddToolResult(status: ToolCallStatus) returns (r: Result<()>)
      requires GraceOK()
      modifies this`toolCalls, this`graceToolCalls, this`graceArmed, this`availableInputs, builder
      ensures GraceOK()
      ensures match ShowResult(reg, old(Core()), status)
        case Ok(next) =>
          r.Ok? && Core() == next && graceToolCalls == old(graceToolCalls) - (old(toolCalls).Keys - toolCalls.Keys)
        case Err(_) => r.Err?
    {
      hide AddResult, Collectable, Collect, AllTerminal;
      var key := Key(status);
      if key !in toolCalls {
        assert toolCalls.Keys - toolCalls.Keys == {};
        return Ok(());
      }
      var call := toolCalls[key];
      if !reg.resolves(call.call.name) {
        if !RequiresTranslator(status) {
          builder.AddToolResult(status.callID, [ResultOutput(Text, status.status.error)], false);
          FinishToolCall(key);
          assert old(toolCalls).Keys - toolCalls.Keys == {key};
        }
        assert toolCalls == old(toolCalls) ==> old(toolCalls).Keys - toolCalls.Keys == {};
        return Ok(());
      }
      var collected := CollectOperations(call, status.status.waitingFor);
      if collected.None? {
        assert toolCalls.Keys - toolCalls.Keys == {};
        return Ok(());
      }
      var result := reg.translateResult(call.call.name, status.callID, status.status, collected.value);
      if result.None? {
        return Err(BadItem);
      }
      var terminal := ToolCallOperationsAreTerminal(key);
      builder.AddToolResult(status.callID, result.value, !terminal);
      if terminal {
        FinishToolCall(key);
        assert old(toolCalls).Keys - toolCalls.Keys == {key};
      } else {
        assert toolCalls.Keys - toolCalls.Keys == {};
      }
      return Ok(());
    }

    // addItemToLocalState
    method AddItemToLocalState(data: Data) returns (r: Result<()>)
      requires GraceOK()
      modifies this, builder
      ensures GraceOK() && callModel == old(callModel)
      ensures match AddItem(reg, old(Core()), data)
        case Ok(next) =>
          r.Ok? && Core() == next
          && graceToolCalls == GraceAfter(old(graceToolCalls), data, old(toolCalls).Keys, toolCalls.Keys)
        case Err(_) => r.Err?
    {
      hide AddResult, ShowResult, NoteStatus, AddCalls, Overlay, ValidInput, AddMessage, Committed, AddControl;
      match data
      case ForkData(_, _) =>
        toolCalls := map[];
        operations := map[];
        ClearToolGrace();
        return Ok(());
      case InputData(input) =>
        if !ValidInput(input) {
          return Err(InvalidInput);
        }
        if input.kind == External {
          if input.payload.text.None? {
            return Err(InvalidInput);
          }
          builder.AddExternalInput(input.payload.text.value);
          availableInputs := availableInputs + 1;
        }
        if input.kind == Control && input.payload.control.Some? {
          var request := input.payload.control.value;
          builder.AddControlMessage(request);
          if request.mode == Heartbeat {
            availableInputs := availableInputs + 1;
          }
        }
        assert toolCalls.Keys - toolCalls.Keys == {};
        return Ok(());
      case TurnData(turn) =>
        currentTurnID := turn.id;
        currentTurnType := turn.turnType;
        currentTurnInputs := availableInputs;
        builder.Commit();
        assert toolCalls.Keys - toolCalls.Keys == {};
        return Ok(());
      case ResponseData(response) =>
        if currentTurnType == Compaction && response.turnID == currentTurnID {
          assert toolCalls.Keys - toolCalls.Keys == {};
          return Ok(());
        }
        builder.AddModelResponse(response.output);
        if response.turnID == currentTurnID {
          deliveredInputs := currentTurnInputs;
        }
        AddToolCalls(response.turnID, response.output);
        CallsStay(old(toolCalls), response.turnID, response.output);
        assert old(toolCalls).Keys - toolCalls.Keys == {};
        return Ok(());
      case StatusData(status) =>
        AddOperations(status.operations);
        AddToolCallOperations(status);
        SameCalls(old(Core()).(operations := operations), status);
        assert toolCalls.Keys == old(toolCalls).Keys;
        r := AddToolResult(status);
    }
  }

  lemma IDSetLonger(ids: seq<Id>, i: nat)
    requires i < |ids|
    ensures IDSet(ids[..i + 1]) == IDSet(ids[..i]) + {ids[i]}
  {
    assert ids[..i + 1][i] == ids[i];
    forall id | id in IDSet(ids[..i])
      ensures id in IDSet(ids[..i + 1])
    {
      var j :| 0 <= j < i && ids[..i][j] == id;
      assert ids[..i + 1][j] == id;
    }
  }

  lemma {:induction false} CallsStay(toolCalls: map<CallKey, CallState>, turnID: Id, output: seq<Item>)
    ensures toolCalls.Keys <= AddCalls(toolCalls, turnID, output).Keys
    decreases |output|
  {
    if output != [] {
      CallsStay(toolCalls, turnID, output[..|output| - 1]);
    }
  }

  lemma SameCalls(core: Core, status: ToolCallStatus)
    ensures NoteStatus(core, status).toolCalls.Keys == core.toolCalls.Keys
  {
  }
}
