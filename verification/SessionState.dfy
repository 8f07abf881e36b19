// The state a session log describes: harness/sessionstore/localfile/state.go.
module SessionState {
  import opened Session

  type CallKey = (Id, Id)

  // sessionHead
  datatype Head = Head(
    session: SessionInfo,
    operations: seq<Operation>,
    itemSequence: nat,
    latestTurnID: Id,
    turns: set<Id>,
    ownedTurns: set<Id>,
    respondedTurns: set<Id>,
    toolCallStatuses: set<CallKey>,
    operationPositions: map<Id, nat>)

  // storedState
  datatype Stored = Stored(head: Head, items: seq<SessionItem>)

  function NewHead(session: SessionInfo): Head {
    Head(session, [], 0, "", {}, {}, {}, {}, map[])
  }

  function NewStored(session: SessionInfo): Stored {
    Stored(NewHead(session), [])
  }

  function NextItem(head: Head, data: Data, at: Time): (Head, SessionItem) {
    (head.(itemSequence := head.itemSequence + 1), SessionItem(head.itemSequence + 1, at, data))
  }

  predicate DistinctIDs(operations: seq<Operation>) {
    forall i, j | 0 <= i < j < |operations| :: operations[i].id != operations[j].id
  }

  // Operations that a first status may initialize.
  predicate Initializable(head: Head, operations: seq<Operation>) {
    && (forall i | 0 <= i < |operations| :: ValidOperation(operations[i]))
    && (forall i | 0 <= i < |operations| :: operations[i].id !in head.operationPositions)
    && DistinctIDs(operations)
  }

  predicate DistinctStrings(ids: seq<Id>) {
    forall i, j | 0 <= i < j < |ids| :: ids[i] != ids[j]
  }

  // validateStatusOperationReferences
  predicate ValidReferences(status: CallStatus, operations: seq<Operation>) {
    if status.error != "" then status.waitingFor == [] && operations == []
    else
      && operations != []
      && |status.waitingFor| == |operations|
      && DistinctStrings(status.waitingFor)
      && forall i | 0 <= i < |status.waitingFor| ::
           exists j :: 0 <= j < |operations| && operations[j].id == status.waitingFor[i]
  }

  // Operations added after those of the head, each at the position of its place.
  function AddOperations(head: Head, operations: seq<Operation>): (r: Head)
    ensures r == head.(operations := head.operations + operations, operationPositions := r.operationPositions)
  {
    if operations == [] then head
    else
      var longer := AddOperations(head, operations[..|operations| - 1]);
      var last := operations[|operations| - 1];
      longer.(operations := longer.operations + [last],
              operationPositions := longer.operationPositions[last.id := |longer.operations|])
  }

  // The appends of sessionHead. A status comes without its operations, which are
  // passed beside it.
  function AppendToHead(head: Head, data: Data, operations: seq<Operation>, at: Time): Result<(Head, SessionItem)> {
    match data
    case ForkData(_, _) => Err(BadItem)
    case InputData(input) => if !ValidInput(input) then Err(InvalidInput) else Ok(NextItem(head, data, at))
    case TurnData(turn) =>
      if turn.id == "" then Err(EmptyTurnID)
      else if turn.previousTurnID != head.latestTurnID then Err(WrongPreviousTurn)
      else if turn.id in head.turns then Err(TurnExists)
      else
        Ok(NextItem(head.(turns := head.turns + {turn.id}, ownedTurns := head.ownedTurns + {turn.id},
                          latestTurnID := turn.id), data, at))
    case ResponseData(response) =>
      if response.turnID !in head.ownedTurns then Err(TurnNotOwned)
      else if response.turnID in head.respondedTurns then Err(AlreadyResponded)
      else Ok(NextItem(head.(respondedTurns := head.respondedTurns + {response.turnID}), data, at))
    case StatusData(status) =>
      if status.turnID !in head.ownedTurns then Err(TurnNotOwned)
      else if status.callID == "" then Err(EmptyCallID)
      else if (status.turnID, status.callID) in head.toolCallStatuses then Ok(NextItem(head, data, at))
      else if !Initializable(head, operations) then Err(InvalidOperation)
      else if !ValidReferences(status.status, operations) then Err(InvalidReferences)
      else
        Ok(NextItem(AddOperations(head.(toolCallStatuses := head.toolCallStatuses + {(status.turnID, status.callID)}),
                                  operations), data, at))
  }

  // The item as the state keeps it, its operations put back into a status.
  function Recorded(item: SessionItem, operations: seq<Operation>): SessionItem {
    if item.data.StatusData? then item.(data := StatusData(item.data.status.(operations := operations))) else item
  }

  // The appends of storedState.
  function Append(stored: Stored, data: Data, operations: seq<Operation>, at: Time): Result<Stored> {
    var (head, item) :- AppendToHead(stored.head, data, operations, at);
    Ok(Stored(head, stored.items + [Recorded(item, operations)]))
  }

  // saveOperation
  function SaveOperation(head: Head, value: Operation): Result<Head> {
    if !ValidOperation(value) then Err(InvalidOperation)
    else if value.id !in head.operationPositions then Err(UnknownOperation)
    else
      var index := head.operationPositions[value.id];
      if index >= |head.operations| then Err(UnknownOperation)
      else if head.operations[index].kind != value.kind || head.operations[index].version != value.version then
        Err(OperationChangedType)
      else Ok(head.(operations := head.operations[index := value]))
  }

  function Save(stored: Stored, value: Operation): Result<Stored> {
    var head :- SaveOperation(stored.head, value);
    Ok(stored.(head := head))
  }

  // ---- Forks ----

  // resetOwnedState
  function ResetOwned(head: Head): Head {
    head.(ownedTurns := {}, respondedTurns := {}, toolCallStatuses := {}, operations := [], operationPositions := map[])
  }

  function Bare(item: SessionItem): SessionItem {
    Recorded(item, [])
  }

  // inheritItem
  function Inherit(stored: Stored, item: SessionItem): Stored {
    var head := stored.head.(itemSequence := item.sequence);
    var next := match item.data
      case TurnData(turn) =>
        head.(turns := head.turns + {turn.id}, ownedTurns := head.ownedTurns + {turn.id}, latestTurnID := turn.id)
      case ResponseData(response) => head.(respondedTurns := head.respondedTurns + {response.turnID})
      case StatusData(status) => head.(toolCallStatuses := head.toolCallStatuses + {(status.turnID, status.callID)})
      case ForkData(_, _) => ResetOwned(head)
      case InputData(_) => head;
    Stored(next, stored.items + [Bare(item)])
  }

  function InheritAll(stored: Stored, items: seq<SessionItem>): Stored {
    if items == [] then stored
    else Inherit(InheritAll(stored, items[..|items| - 1]), items[|items| - 1])
  }

  // appendFork
  function AppendFork(stored: Stored, parentID: Id, previousTurnID: Id, at: Time): Stored {
    var (head, item) := NextItem(stored.head, ForkData(parentID, previousTurnID), at);
    Stored(ResetOwned(head), stored.items + [item])
  }

  // Whether an item is the turn, its response or a status of one of its calls.
  predicate BelongsTo(data: Data, turnID: Id) {
    match data
    case TurnData(turn) => turn.id == turnID
    case ResponseData(response) => response.turnID == turnID
    case StatusData(status) => status.turnID == turnID
    case _ => false
  }

  // The index of the last item of the turn before another turn begins; -1 without one.
  function Boundary(items: seq<SessionItem>, turnID: Id, n: nat, found: int): int
    requires n <= |items| && -1 <= found < n
    decreases |items| - n
  {
    if n == |items| || (found >= 0 && items[n].data.TurnData?) then found
    else Boundary(items, turnID, n + 1, if BelongsTo(items[n].data, turnID) then n else found)
  }

  // forkStoredState
  function ForkOf(parent: Stored, id: Id, previousTurnID: Id, at: Time): Result<Stored> {
    var boundary := Boundary(parent.items, previousTurnID, 0, -1);
    if !(0 <= boundary < |parent.items|) then Err(TurnNotFound)
    else
      var inherited := InheritAll(NewStored(SessionInfo(id, at)), parent.items[..boundary + 1]);
      Ok(AppendFork(inherited, parent.head.session.id, previousTurnID, at))
  }

  // ---- Resume ----

  // The operation snapshots of an item.
  function Snapshots(item: SessionItem): seq<Operation> {
    if item.data.StatusData? then item.data.status.operations else []
  }

  function NotePending(pending: set<Id>, operations: seq<Operation>): set<Id> {
    if operations == [] then pending
    else
      var before := NotePending(pending, operations[..|operations| - 1]);
      var last := operations[|operations| - 1];
      if IsTerminal(last.status) then before - {last.id} else before + {last.id}
  }

  // The operations whose latest snapshot in the items is unfinished.
  function Pending(items: seq<SessionItem>): set<Id> {
    if items == [] then {}
    else NotePending(Pending(items[..|items| - 1]), Snapshots(items[|items| - 1]))
  }

  function Unfinished(operations: seq<Operation>, pending: set<Id>): seq<Operation> {
    if operations == [] then []
    else
      var last := operations[|operations| - 1];
      Unfinished(operations[..|operations| - 1], pending)
      + (if !IsTerminal(last.status) || last.id in pending then [last] else [])
  }

  function ExternalIDs(items: seq<SessionItem>): seq<Id> {
    if items == [] then []
    else
      var last := items[|items| - 1].data;
      ExternalIDs(items[..|items| - 1]) + (if last.InputData? && last.input.kind == External then [last.input.id] else [])
  }

  datatype ResumeState = ResumeState(session: SessionInfo, operations: seq<Operation>, externalInputIDs: seq<Id>)

  // resume
  function Resume(stored: Stored): ResumeState {
    ResumeState(stored.head.session, Unfinished(stored.head.operations, Pending(stored.items)), ExternalIDs(stored.items))
  }
}
