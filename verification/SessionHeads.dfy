// The head of a session that appends update in place, and the loops over stored
// items: harness/sessionstore/localfile/state.go. Each is proved against the function
// of SessionState that it carries out.
module SessionHeads {
  import opened Session
  import opened SessionState
  import CodecProofs

  // The outcome of an append is the one the specification gives, and an append that
  // is refused changes nothing.
  predicate Carries(spec: Result<(Head, SessionItem)>, before: Head, after: Head, r: Result<SessionItem>) {
    match spec
    case Ok(next) => after == next.0 && r == Ok(next.1)
    case Err(error) => after == before && r == Err(error)
  }

  class SessionHead {
    const session: SessionInfo
    var operations: seq<Operation>
    var itemSequence: nat
    var latestTurnID: Id
    var turns: set<Id>
    var ownedTurns: set<Id>
    var respondedTurns: set<Id>
    var toolCallStatuses: set<CallKey>
    var operationPositions: map<Id, nat>

    ghost function Value(): Head
      reads this
    {
      Head(session, operations, itemSequence, latestTurnID, turns, ownedTurns, respondedTurns, toolCallStatuses,
           operationPositions)
    }

    // newSessionHead
    constructor (session: SessionInfo)
      ensures Value() == NewHead(session)
    {
      this.session := session;
      operations, itemSequence, latestTurnID := [], 0, "";
      turns, ownedTurns, respondedTurns, toolCallStatuses, operationPositions := {}, {}, {}, {}, map[];
    }

    method AppendInput(input: Input, at: Time) returns (r: Result<SessionItem>)
      modifies this
      ensures Carries(AppendToHead(old(Value()), InputData(input), [], at), old(Value()), Value(), r)
    {
      if !ValidInput(input) {
        return Err(InvalidInput);
      }
      var item := AppendItem(InputData(input), at);
      return Ok(item);
    }

    method AppendTurn(turn: Turn, at: Time) returns (r: Result<SessionItem>)
      modifies this
      ensures Carries(AppendToHead(old(Value()), TurnData(turn), [], at), old(Value()), Value(), r)
    {
      if turn.id == "" {
        return Err(EmptyTurnID);
      }
      if turn.previousTurnID != latestTurnID {
        return Err(WrongPreviousTurn);
      }
      if turn.id in turns {
        return Err(TurnExists);
      }
      turns := turns + {turn.id};
      ownedTurns := ownedTurns + {turn.id};
      latestTurnID := turn.id;
      var item := AppendItem(TurnData(turn), at);
      return Ok(item);
    }

    method AppendModelResponse(response: ModelResponse, at: Time) returns (r: Result<SessionItem>)
      modifies this
      ensures Carries(AppendToHead(old(Value()), ResponseData(response), [], at), old(Value()), Value(), r)
    {
      if response.turnID !in ownedTurns {
        return Err(TurnNotOwned);
      }
      if response.turnID in respondedTurns {
        return Err(AlreadyResponded);
      }
      respondedTurns := respondedTurns + {response.turnID};
      var item := AppendItem(ResponseData(response), at);
      return Ok(item);
    }

    method AppendToolCallStatus(status: ToolCallStatus, initialized: seq<Operation>, at: Time)
      returns (r: Result<SessionItem>)
      modifies this
      ensures Carries(AppendToHead(old(Value()), StatusData(status), initialized, at), old(Value()), Value(), r)
    {
      hide ValidOperation, ValidReferences;
      if status.turnID !in ownedTurns {
        return Err(TurnNotOwned);
      }
      if status.callID == "" {
        return Err(EmptyCallID);
      }
      var key := (status.turnID, status.callID);
      if key in toolCallStatuses {
        var item := AppendItem(StatusData(status), at);
        return Ok(item);
      }
      var allNew := CheckNew(initialized);
      if !allNew {
        return Err(InvalidOperation);
      }
      if !ValidReferences(status.status, initialized) {
        return Err(InvalidReferences);
      }
      toolCallStatuses := toolCallStatuses + {key};
      ghost var start := Value();
      var i := 0;
      while i < |initialized|
        invariant 0 <= i <= |initialized|
        invariant Value() == AddOperations(start, initialized[..i])
      {
        assert initialized[..i + 1][..i] == initialized[..i];
        operationPositions := operationPositions[initialized[i].id := |operations|];
        operations := operations + [initialized[i]];
        i := i + 1;
      }
      assert initialized[..|initialized|] == initialized;
      var item := AppendItem(StatusData(status), at);
      return Ok(item);
    }

    // The operations of a first status: each valid, none repeated, none known.
    method CheckNew(initialized: seq<Operation>) returns (allNew: bool)
      ensures allNew <==> Initializable(Value(), initialized)
    {
      hide ValidOperation;
      var seen: set<Id> := {};
      var i := 0;
      while i < |initialized|
        invariant 0 <= i <= |initialized|
        invariant Initializable(Value(), initialized[..i])
        invariant forall id :: id in seen <==> exists j :: 0 <= j < i && initialized[j].id == id
      {
        var value := initialized[i];
        if !ValidOperation(value) || value.id in seen || value.id in operationPositions {
          return false;
        }
        seen := seen + {value.id};
        i := i + 1;
      }
      assert initialized[..|initialized|] == initialized;
      return true;
    }

    method SaveOperation(value: Operation) returns (r: Result<()>)
      requires CodecProofs.HeadOK(Value())
      modifies this
      ensures match SessionState.SaveOperation(old(Value()), value)
        case Ok(next) => Value() == next && r == Ok(())
        case Err(error) => Value() == old(Value()) && r == Err(error)
    {
      hide ValidOperation;
      if !ValidOperation(value) {
        return Err(InvalidOperation);
      }
      if value.id !in operationPositions {
        return Err(UnknownOperation);
      }
      var index := operationPositions[value.id];
      var existing := operations[index];
      if existing.kind != value.kind || existing.version != value.version {
        return Err(OperationChangedType);
      }
      operations := operations[index := value];
      return Ok(());
    }

    method AppendItem(data: Data, at: Time) returns (item: SessionItem)
      modifies `itemSequence
      ensures (Value(), item) == NextItem(old(Value()), data, at)
    {
      itemSequence := itemSequence + 1;
      item := SessionItem(itemSequence, at, data);
    }

    method ResetOwnedState()
      modifies this
      ensures Value() == ResetOwned(old(Value()))
    {
      ownedTurns := {};
      respondedTurns := {};
      toolCallStatuses := {};
      operations := [];
      operationPositions := map[];
    }

    // The part of inheritItem that concerns the head; the item to keep is returned.
    method InheritItem(item: SessionItem) returns (kept: SessionItem)
      modifies this
      ensures forall items: seq<SessionItem> ::
                Inherit(Stored(old(Value()), items), item) == Stored(Value(), items + [kept])
    {
      itemSequence := item.sequence;
      kept := item;
      match item.data
      case TurnData(turn) =>
        turns := turns + {turn.id};
        ownedTurns := ownedTurns + {turn.id};
        latestTurnID := turn.id;
      case ResponseData(response) => respondedTurns := respondedTurns + {response.turnID};
      case StatusData(status) =>
        kept := item.(data := StatusData(status.(operations := [])));
        toolCallStatuses := toolCallStatuses + {(status.turnID, status.callID)};
      case ForkData(_, _) => ResetOwnedState();
      case InputData(_) =>
    }
  }

  method NoteSnapshots(before: set<Id>, operations: seq<Operation>) returns (pending: set<Id>)
    ensures pending == NotePending(before, operations)
  {
    pending := before;
    var i := 0;
    while i < |operations|
      invariant 0 <= i <= |operations|
      invariant pending == NotePending(before, operations[..i])
    {
      assert operations[..i + 1][..i] == operations[..i];
      var value := operations[i];
      if IsTerminal(value.status) {
        pending := pending - {value.id};
      } else {
        pending := pending + {value.id};
      }
      i := i + 1;
    }
    assert operations[..i] == operations;
  }

  // resume
  method ComputeResume(head: SessionHead, items: seq<SessionItem>) returns (r: ResumeState)
    ensures r == Resume(Stored(head.Value(), items))
  {
    var externalInputIDs: seq<Id> := [];
    var pending: set<Id> := {};
    var i := 0;
    while i < |items|
      invariant 0 <= i <= |items|
      invariant externalInputIDs == ExternalIDs(items[..i]) && pending == Pending(items[..i])
    {
      assert items[..i + 1][..i] == items[..i];
      match items[i].data {
      case InputData(input) =>
        if input.kind == External {
          externalInputIDs := externalInputIDs + [input.id];
        }
      case StatusData(status) =>
        pending := NoteSnapshots(pending, status.operations);
      case _ =>
      }
      i := i + 1;
    }
    assert items[..|items|] == items;
    var operations: seq<Operation> := [];
    i := 0;
    while i < |head.operations|
      invariant 0 <= i <= |head.operations|
      invariant operations == Unfinished(head.operations[..i], pending)
    {
      assert head.operations[..i + 1][..i] == head.operations[..i];
      var value := head.operations[i];
      if !IsTerminal(value.status) || value.id in pending {
        operations := operations + [value];
      }
      i := i + 1;
    }
    assert head.operations[..|head.operations|] == head.operations;
    r := ResumeState(head.session, operations, externalInputIDs);
  }

  // forkStoredState
  method ForkStoredState(parentID: Id, parentItems: seq<SessionItem>, id: Id, previousTurnID: Id, createdAt: Time)
    returns (r: Result<SessionHead>, items: seq<SessionItem>)
    ensures r.Ok? ==> fresh(r.value)
    ensures forall parent: Stored | parent.items == parentItems && parent.head.session.id == parentID ::
      match ForkOf(parent, id, previousTurnID, createdAt)
      case Ok(child) => r.Ok? && Stored(r.value.Value(), items) == child
      case Err(error) => r == Err(error)
  {
    hide Inherit;
    items := [];
    var boundary, index := -1, 0;
    while index < |parentItems|
      invariant 0 <= index <= |parentItems| && -1 <= boundary < index
      invariant Boundary(parentItems, previousTurnID, 0, -1) == Boundary(parentItems, previousTurnID, index, boundary)
    {
      var data := parentItems[index].data;
      if boundary >= 0 && data.TurnData? {
        break;
      }
      if BelongsTo(data, previousTurnID) {
        boundary := index;
      }
      index := index + 1;
    }
    assert boundary == Boundary(parentItems, previousTurnID, 0, -1);
    if boundary < 0 {
      return Err(TurnNotFound), [];
    }
    var head := new SessionHead(SessionInfo(id, createdAt));
    ghost var start := NewStored(SessionInfo(id, createdAt));
    var inherited := parentItems[..boundary + 1];
    index := 0;
    while index < |inherited|
      invariant 0 <= index <= |inherited|
      invariant Stored(head.Value(), items) == InheritAll(start, inherited[..index])
      invariant fresh(head)
    {
      assert inherited[..index + 1][..index] == inherited[..index];
      var kept := head.InheritItem(inherited[index]);
      items := items + [kept];
      index := index + 1;
    }
    assert inherited[..|inherited|] == inherited;
    var item := head.AppendItem(ForkData(parentID, previousTurnID), createdAt);
    items := items + [item];
    head.ResetOwnedState();
    return Ok(head), items;
  }
}
