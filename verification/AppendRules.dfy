// What a session accepts: the store's checks in terms of what they guard.
module AppendRules {
  import opened Session
  import opened SessionState
  import opened CodecProofs

  // A JSON value that is there can be read.
  predicate Readable(json: Json) {
    json != Absent ==> json.valid
  }

  // An operation that can be stored: it says what it is and where it stands.
  predicate IsStorable(value: Operation) {
    && value.id != "" && value.kind != "" && value.version > 0
    && value.status in {Ready, Awaiting, Canceling, Completed, Failed, Canceled}
    && Readable(value.state) && Readable(value.idempotency)
  }

  // An input of a known kind with an ID; a control message can be read as one.
  predicate IsWellFormedInput(input: Input) {
    && input.id != "" && Readable(input.payload.json)
    && match input.kind
       case Control => input.payload.control.Some?
       case OtherKind(_) => false
       case _ => true
  }

  // The operations of a first status: they can be stored, have IDs of their own, and are
  // those that the call waits for; a call that failed at once has none.
  predicate Starts(head: Head, status: CallStatus, operations: seq<Operation>) {
    && (forall i | 0 <= i < |operations| :: IsStorable(operations[i]) && operations[i].id !in head.operationPositions)
    && DistinctIDs(operations) && DistinctStrings(status.waitingFor)
    && WaitedFor(status.waitingFor) == IDs(operations)
    && (status.error == "" <==> operations != [])
  }

  function WaitedFor(ids: seq<Id>): set<Id> {
    set i | 0 <= i < |ids| :: ids[i]
  }

  lemma {:induction false} DistinctAreAsMany(ids: seq<Id>)
    requires DistinctStrings(ids)
    ensures |WaitedFor(ids)| == |ids|
    decreases |ids|
  {
    if ids == [] {
      assert WaitedFor(ids) == {};
    } else {
      var shorter, last := ids[..|ids| - 1], ids[|ids| - 1];
      DistinctAreAsMany(shorter);
      assert ids == shorter + [last];
      assert WaitedFor(ids) == WaitedFor(shorter) + {last};
    }
  }

  function OperationIDs(operations: seq<Operation>): seq<Id> {
    seq(|operations|, i requires 0 <= i < |operations| => operations[i].id)
  }

  lemma IDsOfDistinct(operations: seq<Operation>)
    requires DistinctIDs(operations)
    ensures |IDs(operations)| == |operations|
  {
    var ids := OperationIDs(operations);
    DistinctAreAsMany(ids);
    forall id
      ensures id in WaitedFor(ids) <==> id in IDs(operations)
    {
      if id in IDs(operations) {
        var i :| 0 <= i < |operations| && operations[i].id == id;
        assert ids[i] == id;
      }
    }
    assert WaitedFor(ids) == IDs(operations);
  }

  lemma SubsetOfSameSize(a: set<Id>, b: set<Id>)
    requires a <= b && |a| == |b|
    ensures a == b
  {
    assert b == a + (b - a);
    assert |b| == |a| + |b - a|;
  }

  lemma ReferencesAreExact(status: CallStatus, operations: seq<Operation>)
    requires DistinctIDs(operations)
    ensures ValidReferences(status, operations)
      <==> && DistinctStrings(status.waitingFor) && WaitedFor(status.waitingFor) == IDs(operations)
           && (status.error == "" <==> operations != [])
  {
    var ids := status.waitingFor;
    if ValidReferences(status, operations) {
      forall id | id in WaitedFor(ids)
        ensures id in IDs(operations)
      {
        var i :| 0 <= i < |ids| && ids[i] == id;
        var j :| 0 <= j < |operations| && operations[j].id == ids[i];
      }
      DistinctAreAsMany(ids);
      IDsOfDistinct(operations);
      SubsetOfSameSize(WaitedFor(ids), IDs(operations));
    }
    if DistinctStrings(ids) && WaitedFor(ids) == IDs(operations) {
      DistinctAreAsMany(ids);
      IDsOfDistinct(operations);
      forall i | 0 <= i < |ids|
        ensures exists j :: 0 <= j < |operations| && operations[j].id == ids[i]
      {
        assert ids[i] in IDs(operations);
      }
    }
  }

  // Exactly what is appended: a turn under a new ID that names the latest turn as the one
  // before it, the only response to a turn of the session's own, a status of a call of such
  // a turn that is not the first or starts as it should, and inputs.
  lemma AppendsAreExact(head: Head, data: Data, operations: seq<Operation>, at: Time)
    ensures AppendToHead(head, data, operations, at).Ok? <==>
      match data
      case ForkData(_, _) => false
      case InputData(input) => IsWellFormedInput(input)
      case TurnData(turn) => turn.id != "" && turn.id !in head.turns && turn.previousTurnID == head.latestTurnID
      case ResponseData(response) => response.turnID in head.ownedTurns - head.respondedTurns
      case StatusData(status) =>
        && status.callID != "" && status.turnID in head.ownedTurns
        && ((status.turnID, status.callID) in head.toolCallStatuses || Starts(head, status.status, operations))
    ensures AppendToHead(head, data, operations, at).Ok? ==>
      AppendToHead(head, data, operations, at).value.1 == SessionItem(head.itemSequence + 1, at, data)
  {
    hide IDs, ValidReferences, DistinctStrings, AddOperations;
    if data.StatusData? && DistinctIDs(operations) {
      ReferencesAreExact(data.status.status, operations);
    }
  }

  // And what is saved: an operation that can be stored, over one that the session has
  // initialized, of the same type and version.
  lemma SavesAreExact(head: Head, value: Operation)
    requires HeadOK(head)
    ensures SaveOperation(head, value).Ok? <==>
      && IsStorable(value)
      && exists i :: 0 <= i < |head.operations| && head.operations[i].id == value.id
           && head.operations[i].kind == value.kind && head.operations[i].version == value.version
    ensures SaveOperation(head, value).Ok? ==>
      forall i | 0 <= i < |head.operations| ::
        SaveOperation(head, value).value.operations[i] == if head.operations[i].id == value.id then value else head.operations[i]
  {
  }
}
