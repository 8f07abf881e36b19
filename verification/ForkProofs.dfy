// Forks: their initial logs decode to them, and they own nothing they inherited.
module ForkProofs {
  import opened Utf8
  import opened Session
  import opened SessionState
  import opened Codec
  import opened CodecProofs

  // ---- Initial logs ----

  function Encoded(e: Encoding, records: seq<Record>): seq<Bytes> {
    seq(|records|, i requires 0 <= i < |records| => e.encode(records[i]))
  }

  lemma {:induction false} LinesOfEncoding(e: Encoding, records: seq<Record>)
    requires Lawful(e)
    ensures Lines(EncodeLines(e, records)) == Encoded(e, records)
    ensures Whole(EncodeLines(e, records))
    decreases |records|
  {
    hide Lines;
    if records == [] {
      NoLines();
    } else {
      var shorter, last := records[..|records| - 1], records[|records| - 1];
      LinesOfEncoding(e, shorter);
      assert NEWLINE !in e.encode(last);
      LinesOfLonger(EncodeLines(e, shorter), e.encode(last));
      assert Encoded(e, records) == Encoded(e, shorter) + [e.encode(last)];
    }
  }

  lemma NoLines()
    ensures Lines([]) == []
  {
  }

  // One more than the index of the last fork; 0 without one.
  function AfterLastFork(items: seq<SessionItem>): (n: nat)
    ensures n <= |items|
  {
    if items == [] then 0
    else if items[|items| - 1].data.ForkData? then |items|
    else AfterLastFork(items[..|items| - 1])
  }

  function LogRecords(session: SessionInfo, items: seq<SessionItem>): seq<Record> {
    [SessionRecord(FORMAT_VERSION, session)] + RecordsOf(items)
  }

  lemma RecordsOfLonger(session: SessionInfo, items: seq<SessionItem>)
    requires items != []
    ensures var shorter, last := items[..|items| - 1], items[|items| - 1];
      && RecordsOf(items) == RecordsOf(shorter) + [RecordOf(last)]
      && LogRecords(session, items) == LogRecords(session, shorter) + [RecordOf(last)]
  {
  }

  predicate NoSnapshots(items: seq<SessionItem>) {
    forall i | 0 <= i < |items| :: Snapshots(items[i]) == []
  }

  lemma {:induction false} ScanOfInitialLog(e: Encoding, session: SessionInfo, items: seq<SessionItem>)
    requires Lawful(e) && ValidSessionID(session.id) && session.createdAt != 0
    requires Encodable(items)
    ensures ScanLines(e, Encoded(e, LogRecords(session, items)))
      == Ok(Scan(Some(session), RecordsOf(items), |items|, AfterLastFork(items)))
    decreases |items|
  {
    var records := LogRecords(session, items);
    var lines := Encoded(e, records);
    var n := |lines| - 1;
    assert e.decode(e.encode(records[n])) == Some(records[n]);
    if items == [] {
      assert lines[..n] == [];
      assert RecordsOf(items) == [];
    } else {
      var shorter := items[..|items| - 1];
      ScanOfInitialLog(e, session, shorter);
      RecordsOfLonger(session, items);
      assert lines[..n] == Encoded(e, LogRecords(session, shorter));
    }
  }

  lemma BareTwice(stored: Stored, item: SessionItem)
    ensures Bare(Bare(item)) == Bare(item)
    ensures Inherit(stored, Bare(item)) == Inherit(stored, item)
  {
  }

  lemma {:induction false} ReplayOfInherited(start: Stored, inherited: nat, items: seq<SessionItem>)
    requires |items| <= inherited && NoSnapshots(items)
    ensures ReplayRecords(start, inherited, RecordsOf(items)) == Ok(Replay(InheritAll(start, items), |items|))
    decreases |items|
  {
    hide Inherit;
    if items == [] {
      assert RecordsOf(items) == [];
    } else {
      var shorter, last := items[..|items| - 1], items[|items| - 1];
      ReplayOfInherited(start, inherited, shorter);
      RecordsOfLonger(start.head.session, items);
      ReplayLonger(start, inherited, RecordsOf(shorter), RecordOf(last));
      BareTwice(InheritAll(start, shorter), last);
    }
  }

  // The initial log of a session whose items are all inherited.
  lemma InitialLogDecodes(e: Encoding, session: SessionInfo, items: seq<SessionItem>)
    requires Lawful(e) && ValidSessionID(session.id) && session.createdAt != 0
    requires Encodable(items) && NoSnapshots(items) && AfterLastFork(items) == |items|
    ensures InitialLog(e, session, items).Ok?
    ensures var log := InitialLog(e, session, items).value;
      Decode(e, log) == Ok(Decoded(InheritAll(NewStored(session), items), |log|))
  {
    hide ScanLines, ReplayRecords, Lines, InheritAll;
    var log := InitialLog(e, session, items).value;
    LinesOfEncoding(e, LogRecords(session, items));
    WholeIsCommitted(log);
    assert log[..|log|] == log;
    ScanOfInitialLog(e, session, items);
    ReplayOfInherited(NewStored(session), |items|, items);
  }

  // ---- Forks ----

  function AllBare(items: seq<SessionItem>): seq<SessionItem> {
    seq(|items|, i requires 0 <= i < |items| => Bare(items[i]))
  }

  lemma {:induction false} InheritedItems(stored: Stored, items: seq<SessionItem>)
    ensures InheritAll(stored, items).items == stored.items + AllBare(items)
    ensures InheritAll(stored, AllBare(items)) == InheritAll(stored, items)
    ensures InheritAll(stored, items).head.session == stored.head.session
    ensures items != [] ==> InheritAll(stored, items).head.itemSequence == items[|items| - 1].sequence
    decreases |items|
  {
    if items == [] {
      assert stored.items + AllBare(items) == stored.items;
      assert AllBare(items) == items;
    } else {
      var shorter, last := items[..|items| - 1], items[|items| - 1];
      InheritedItems(stored, shorter);
      BareTwice(InheritAll(stored, shorter), last);
      assert AllBare(items) == AllBare(shorter) + [Bare(last)];
      assert AllBare(items)[..|items| - 1] == AllBare(shorter);
    }
  }

  // Fork round trip: for any parent, itself a fork or not, the initial log of the fork
  // decodes to the fork, which holds the parent's items up to the boundary without
  // their operations, and then the fork item, in contiguous sequence.
  lemma ForkRoundTrip(e: Encoding, parent: Stored, id: Id, previousTurnID: Id, at: Time)
    requires Lawful(e) && ValidSessionID(id) && at != 0
    requires Canonical(parent) && ForkOf(parent, id, previousTurnID, at).Ok?
    ensures var child := ForkOf(parent, id, previousTurnID, at).value;
      var boundary := Boundary(parent.items, previousTurnID, 0, -1);
      && 0 <= boundary < |parent.items|
      && Canonical(child)
      && child.items == AllBare(parent.items[..boundary + 1])
           + [SessionItem(boundary + 2, at, ForkData(parent.head.session.id, previousTurnID))]
      && InitialLog(e, child.head.session, child.items).Ok?
      && var log := InitialLog(e, child.head.session, child.items).value;
         Decode(e, log) == Ok(Decoded(child, |log|))
  {
    hide Boundary, Decode, InitialLog, Inherit;
    var boundary := Boundary(parent.items, previousTurnID, 0, -1);
    var items := parent.items[..boundary + 1];
    var session := SessionInfo(id, at);
    var child := ForkOf(parent, id, previousTurnID, at).value;
    InheritedItems(NewStored(session), items);
    var bare := AllBare(items);
    assert child.items[..|child.items| - 1] == bare;
    ForkIsInherited(InheritAll(NewStored(session), items), parent.head.session.id, previousTurnID, at);
    assert InheritAll(NewStored(session), child.items) == child;
    ForkIsCanonical(child);
    InitialLogDecodes(e, session, child.items);
  }

  lemma ForkIsInherited(stored: Stored, parentID: Id, previousTurnID: Id, at: Time)
    ensures var (_, item) := NextItem(stored.head, ForkData(parentID, previousTurnID), at);
      AppendFork(stored, parentID, previousTurnID, at) == Inherit(stored, item)
  {
  }

  lemma ForkIsCanonical(child: Stored)
    requires child.head.itemSequence == |child.items| && Encodable(child.items)
    requires child.head.operations == [] && child.head.operationPositions == map[]
    ensures Canonical(child)
  {
  }

  predicate OwnsNothing(head: Head) {
    && head.ownedTurns == {} && head.respondedTurns == {} && head.toolCallStatuses == {}
    && head.operations == [] && head.operationPositions == map[]
  }

  predicate KnowsTurns(head: Head, items: seq<SessionItem>) {
    forall i | 0 <= i < |items| && items[i].data.TurnData? :: items[i].data.turn.id in head.turns
  }

  // Isolation: a fork owns no turn, call or operation it inherited, but knows the IDs
  // of the turns; nothing is handed back to be run, and the external inputs of the
  // inherited history count as seen.
  lemma ForkOwnsNothing(parent: Stored, id: Id, previousTurnID: Id, at: Time)
    requires ForkOf(parent, id, previousTurnID, at).Ok?
    ensures var child := ForkOf(parent, id, previousTurnID, at).value;
      && OwnsNothing(child.head)
      && KnowsTurns(child.head, child.items)
      && Resume(child).operations == []
      && Resume(child).externalInputIDs == ExternalIDs(parent.items[..Boundary(parent.items, previousTurnID, 0, -1) + 1])
  {
    hide Boundary, Inherit, InheritAll, KnowsTurns;
    var items := parent.items[..Boundary(parent.items, previousTurnID, 0, -1) + 1];
    var child := ForkOf(parent, id, previousTurnID, at).value;
    InheritedItems(NewStored(SessionInfo(id, at)), items);
    InheritedTurnsAreKnown(NewStored(SessionInfo(id, at)), items);
    ExternalIDsOfBare(items);
    BareTurnsAreKnown(child.head, items, child.items[|child.items| - 1]);
    assert child.items[..|child.items| - 1] == AllBare(items);
    assert child.items == AllBare(items) + [child.items[|child.items| - 1]];
  }

  lemma BareTurnsAreKnown(head: Head, items: seq<SessionItem>, last: SessionItem)
    requires !last.data.TurnData?
    ensures (forall i | 0 <= i < |items| && items[i].data.TurnData? :: items[i].data.turn.id in head.turns)
            ==> KnowsTurns(head, AllBare(items) + [last])
  {
    forall i | 0 <= i < |items|
      ensures Bare(items[i]).data.TurnData? ==> Bare(items[i]) == items[i]
    {
    }
  }

  // ---- The later life of a fork ----

  // What is done to a session: an append, or a save of an operation.
  datatype Change = Appended(data: Data, operations: seq<Operation>, at: Time) | Saved(operation: Operation)

  function Changed(stored: Stored, change: Change): Result<Stored> {
    match change
    case Appended(data, operations, at) => Append(stored, data, operations, at)
    case Saved(operation) => Save(stored, operation)
  }

  // The changes in turn, for as long as none is refused.
  function ChangedAll(stored: Stored, changes: seq<Change>): Result<Stored> {
    if changes == [] then Ok(stored)
    else
      var before :- ChangedAll(stored, changes[..|changes| - 1]);
      Changed(before, changes[|changes| - 1])
  }

  // The change is a turn, a response or a status of one of these turns.
  predicate Names(change: Change, turns: set<Id>) {
    change.Appended? && exists turnID :: turnID in turns && IsOfTurn(change.data, turnID)
  }

  // The change initializes an operation under the ID.
  predicate Initializes(change: Change, id: Id) {
    change.Appended? && change.data.StatusData? && id in IDs(change.operations)
  }

  // The turns of others stay known and are never owned.
  predicate Isolated(head: Head, inherited: set<Id>) {
    && inherited <= head.turns && head.ownedTurns !! inherited
    && head.respondedTurns !! inherited
    && forall key | key in head.toolCallStatuses :: key.0 !in inherited
  }

  // The operations are those that these changes have initialized.
  predicate OwnOperations(head: Head, changes: seq<Change>) {
    forall id | id in head.operationPositions :: exists i :: 0 <= i < |changes| && Initializes(changes[i], id)
  }

  lemma ChangeKeepsIsolation(stored: Stored, change: Change, inherited: set<Id>)
    requires Isolated(stored.head, inherited) && Changed(stored, change).Ok?
    ensures Isolated(Changed(stored, change).value.head, inherited) && !Names(change, inherited)
  {
    hide ValidOperation, ValidInput, Initializable, ValidReferences;
  }

  lemma ChangeKeepsOperations(stored: Stored, change: Change, id: Id)
    requires Changed(stored, change).Ok? && HeadOK(stored.head)
    ensures HeadOK(Changed(stored, change).value.head)
    ensures id in Changed(stored, change).value.head.operationPositions ==>
      id in stored.head.operationPositions || Initializes(change, id)
    ensures change.Saved? ==> change.operation.id in stored.head.operationPositions
  {
    hide ValidOperation, ValidInput, ValidReferences, HeadOK, IDs, AddOperations;
    match change
    case Appended(data, operations, at) =>
      var after := Changed(stored, change).value.head;
      if data.StatusData? && (data.status.turnID, data.status.callID) !in stored.head.toolCallStatuses {
        var head := stored.head.(toolCallStatuses := stored.head.toolCallStatuses
                                                     + {(data.status.turnID, data.status.callID)});
        SameHeadOK(stored.head, head);
        AddKeepsPositions(head, operations);
        SameHeadOK(AddOperations(head, operations), after);
      } else {
        SameHeadOK(stored.head, after);
      }
    case Saved(operation) => SavedHeadOK(stored.head, operation);
  }

  lemma SameHeadOK(a: Head, b: Head)
    requires HeadOK(a) && b.operations == a.operations && b.operationPositions == a.operationPositions
    ensures HeadOK(b)
  {
  }

  lemma SavedHeadOK(head: Head, operation: Operation)
    requires HeadOK(head) && SaveOperation(head, operation).Ok?
    ensures var after := SaveOperation(head, operation).value;
      HeadOK(after) && after.operationPositions == head.operationPositions && operation.id in head.operationPositions
  {
    hide ValidOperation;
  }

  lemma {:induction false} ChangesKeepIsolation(child: Stored, inherited: set<Id>, changes: seq<Change>)
    requires OwnsNothing(child.head) && inherited <= child.head.turns && ChangedAll(child, changes).Ok?
    ensures var head := ChangedAll(child, changes).value.head;
      Isolated(head, inherited) && HeadOK(head) && OwnOperations(head, changes)
    ensures forall i | 0 <= i < |changes| :: !Names(changes[i], inherited)
    ensures forall i | 0 <= i < |changes| && changes[i].Saved? ::
              exists j :: 0 <= j < i && Initializes(changes[j], changes[i].operation.id)
    decreases |changes|
  {
    hide Changed, Isolated, HeadOK, Initializes, Names;
    if changes == [] {
      NothingIsOwned(child.head, inherited);
    } else {
      var shorter, last := changes[..|changes| - 1], changes[|changes| - 1];
      ChangesKeepIsolation(child, inherited, shorter);
      var before := ChangedAll(child, shorter).value;
      ChangeKeepsIsolation(before, last, inherited);
      forall id
        ensures id in Changed(before, last).value.head.operationPositions ==>
          exists i :: 0 <= i < |changes| && Initializes(changes[i], id)
      {
        ChangeKeepsOperations(before, last, id);
        if id in before.head.operationPositions {
          var i :| 0 <= i < |shorter| && Initializes(shorter[i], id);
          assert Initializes(changes[i], id);
        }
      }
      ChangeKeepsOperations(before, last, "");
      if last.Saved? {
        var i :| 0 <= i < |shorter| && Initializes(shorter[i], last.operation.id);
        assert Initializes(changes[i], last.operation.id);
      }
      assert forall i | 0 <= i < |shorter| :: changes[i] == shorter[i];
    }
  }

  lemma NothingIsOwned(head: Head, inherited: set<Id>)
    requires OwnsNothing(head) && inherited <= head.turns
    ensures Isolated(head, inherited) && HeadOK(head) && OwnOperations(head, [])
  {
  }

  // A fork stays isolated for its whole life: no response or status of an inherited turn
  // is ever accepted, nor another turn under its ID, and a save only under an ID that the
  // fork itself has initialized an operation with before.
  lemma ForkStaysIsolated(parent: Stored, id: Id, previousTurnID: Id, at: Time, changes: seq<Change>)
    requires ForkOf(parent, id, previousTurnID, at).Ok?
    requires ChangedAll(ForkOf(parent, id, previousTurnID, at).value, changes).Ok?
    ensures var inherited := ForkOf(parent, id, previousTurnID, at).value;
      var child := ChangedAll(inherited, changes).value;
      && KnowsTurns(inherited.head, inherited.items)
      && inherited.head.turns <= child.head.turns && child.head.ownedTurns !! inherited.head.turns
      && (forall i | 0 <= i < |changes| :: !Names(changes[i], inherited.head.turns))
      && (forall i | 0 <= i < |changes| && changes[i].Saved? ::
            exists j :: 0 <= j < i && Initializes(changes[j], changes[i].operation.id))
  {
    hide ForkOf, ChangedAll, KnowsTurns, Names, Initializes, Resume;
    ForkOwnsNothing(parent, id, previousTurnID, at);
    var inherited := ForkOf(parent, id, previousTurnID, at).value;
    ChangesKeepIsolation(inherited, inherited.head.turns, changes);
  }

  lemma {:induction false} InheritedTurnsAreKnown(stored: Stored, items: seq<SessionItem>)
    ensures forall i | 0 <= i < |items| && items[i].data.TurnData? ::
              items[i].data.turn.id in InheritAll(stored, items).head.turns
    decreases |items|
  {
    if items != [] {
      var shorter := items[..|items| - 1];
      InheritedTurnsAreKnown(stored, shorter);
      forall i | 0 <= i < |items| && items[i].data.TurnData?
        ensures items[i].data.turn.id in InheritAll(stored, items).head.turns
      {
        if i < |shorter| {
          assert shorter[i] == items[i];
        }
      }
    }
  }

  lemma {:induction false} ExternalIDsOfBare(items: seq<SessionItem>)
    ensures ExternalIDs(AllBare(items)) == ExternalIDs(items)
    decreases |items|
  {
    if items != [] {
      ExternalIDsOfBare(items[..|items| - 1]);
      assert AllBare(items)[..|items| - 1] == AllBare(items[..|items| - 1]);
    }
  }

  // An item of a turn: the turn itself, a response to it or a status of one of its calls.
  predicate IsOfTurn(data: Data, turnID: Id) {
    || (data.TurnData? && data.turn.id == turnID)
    || (data.ResponseData? && data.response.turnID == turnID)
    || (data.StatusData? && data.status.turnID == turnID)
  }

  // What the search for the fork's end finds. first is where the turn starts.
  predicate EndsTurn(items: seq<SessionItem>, turnID: Id, first: nat, boundary: nat) {
    && first <= boundary < |items|
    && IsOfTurn(items[first].data, turnID) && IsOfTurn(items[boundary].data, turnID)
    && (forall k | 0 <= k < first :: !IsOfTurn(items[k].data, turnID))
    && (forall k | first < k <= boundary :: !items[k].data.TurnData?)
    && (forall k | boundary < k < |items| && IsOfTurn(items[k].data, turnID) ::
          exists t :: boundary < t <= k && items[t].data.TurnData?)
  }

  // A fork goes up to and with the last item of the turn before another turn begins;
  // it fails exactly when nothing in the history belongs to the turn.
  lemma BoundaryEndsTurn(items: seq<SessionItem>, turnID: Id) returns (first: nat)
    ensures var boundary := Boundary(items, turnID, 0, -1);
      if boundary < 0 then boundary == -1 && forall k | 0 <= k < |items| :: !IsOfTurn(items[k].data, turnID)
      else EndsTurn(items, turnID, first, boundary)
  {
    first := SearchForTurn(items, turnID, 0);
  }

  lemma {:induction false} SearchForTurn(items: seq<SessionItem>, turnID: Id, n: nat) returns (first: nat)
    requires n <= |items| && forall k | 0 <= k < n :: !IsOfTurn(items[k].data, turnID)
    ensures var boundary := Boundary(items, turnID, n, -1);
      if boundary < 0 then boundary == -1 && forall k | 0 <= k < |items| :: !IsOfTurn(items[k].data, turnID)
      else EndsTurn(items, turnID, first, boundary)
    decreases |items| - n
  {
    first := n;
    if n < |items| {
      if IsOfTurn(items[n].data, turnID) {
        SearchForEnd(items, turnID, n, n + 1, n);
      } else {
        first := SearchForTurn(items, turnID, n + 1);
      }
    }
  }

  lemma {:induction false} SearchForEnd(items: seq<SessionItem>, turnID: Id, first: nat, n: nat, found: nat)
    requires first <= found < n <= |items|
    requires IsOfTurn(items[first].data, turnID) && IsOfTurn(items[found].data, turnID)
    requires forall k | 0 <= k < first :: !IsOfTurn(items[k].data, turnID)
    requires forall k | first < k < n :: !items[k].data.TurnData?
    requires forall k | found < k < n :: !IsOfTurn(items[k].data, turnID)
    ensures var boundary := Boundary(items, turnID, n, found);
      0 <= boundary && EndsTurn(items, turnID, first, boundary)
    decreases |items| - n
  {
    if n < |items| && !items[n].data.TurnData? {
      SearchForEnd(items, turnID, first, n + 1, if IsOfTurn(items[n].data, turnID) then n else found);
    } else if n < |items| {
      forall k | found < k < |items| && IsOfTurn(items[k].data, turnID)
        ensures exists t :: found < t <= k && items[t].data.TurnData?
      {
        assert items[n].data.TurnData? && n <= k;
      }
    }
  }

  // ---- Resume ----

  // All snapshots of the history, in order.
  function History(items: seq<SessionItem>): seq<Operation> {
    if items == [] then [] else History(items[..|items| - 1]) + Snapshots(items[|items| - 1])
  }

  // The latest snapshot of the operation is there and is unfinished.
  predicate LatestUnfinished(history: seq<Operation>, id: Id) {
    exists k :: 0 <= k < |history| && history[k].id == id && !IsTerminal(history[k].status)
                && forall j | k < j < |history| :: history[j].id != id
  }

  lemma LatestAfter(history: seq<Operation>, last: Operation, id: Id)
    ensures LatestUnfinished(history + [last], id)
      <==> if last.id == id then !IsTerminal(last.status) else LatestUnfinished(history, id)
  {
    var longer := history + [last];
    assert longer[|history|] == last;
    if last.id != id && LatestUnfinished(history, id) {
      var k :| 0 <= k < |history| && history[k].id == id && !IsTerminal(history[k].status)
               && forall j | k < j < |history| :: history[j].id != id;
      assert longer[k].id == id;
    }
    if last.id != id && LatestUnfinished(longer, id) {
      var k :| 0 <= k < |longer| && longer[k].id == id && !IsTerminal(longer[k].status)
               && forall j | k < j < |longer| :: longer[j].id != id;
      assert history[k].id == id;
      assert forall j | k < j < |history| :: history[j] == longer[j];
    }
  }

  lemma {:induction false} NotePendingMeaning(pending: set<Id>, history: seq<Operation>, operations: seq<Operation>, id: Id)
    requires id in pending <==> LatestUnfinished(history, id)
    ensures id in NotePending(pending, operations) <==> LatestUnfinished(history + operations, id)
    decreases |operations|
  {
    hide LatestUnfinished;
    if operations == [] {
      assert history + operations == history;
    } else {
      var shorter, last := operations[..|operations| - 1], operations[|operations| - 1];
      NotePendingMeaning(pending, history, shorter, id);
      LatestAfter(history + shorter, last, id);
      assert history + operations == history + shorter + [last];
    }
  }

  lemma {:induction false} PendingMeaning(items: seq<SessionItem>, id: Id)
    ensures id in Pending(items) <==> LatestUnfinished(History(items), id)
    decreases |items|
  {
    if items != [] {
      PendingMeaning(items[..|items| - 1], id);
      NotePendingMeaning(Pending(items[..|items| - 1]), History(items[..|items| - 1]), Snapshots(items[|items| - 1]), id);
    }
  }

  lemma {:induction false} UnfinishedMeaning(operations: seq<Operation>, pending: set<Id>, value: Operation)
    ensures value in Unfinished(operations, pending)
      <==> value in operations && (!IsTerminal(value.status) || value.id in pending)
    decreases |operations|
  {
    if operations != [] {
      UnfinishedMeaning(operations[..|operations| - 1], pending, value);
    }
  }

  // Resume hands back exactly the operations whose latest saved state is unfinished,
  // or whose latest snapshot in the history is.
  lemma ResumeIsExact(stored: Stored, value: Operation)
    ensures value in Resume(stored).operations
      <==> value in stored.head.operations
           && (!IsTerminal(value.status) || LatestUnfinished(History(stored.items), value.id))
  {
    hide LatestUnfinished;
    UnfinishedMeaning(stored.head.operations, Pending(stored.items), value);
    PendingMeaning(stored.items, value.id);
  }
}
