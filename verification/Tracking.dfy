// What every run keeps, whatever updates come: replaying the session gives the live
// state except for the values of operations.
module Tracking {
  import opened Session
  import opened SessionState
  import opened ContextBuilder
  import opened CoordinatorState
  import opened CodecProofs

  // ---- The replayed state and the live state ----

  function WithoutOperations(core: Core): Core {
    core.(operations := map[])
  }

  // Each value is under its own ID.
  predicate Named(operations: map<Id, Operation>) {
    forall id | id in operations :: operations[id].id == id
  }

  // A call without a status waits for nothing and has none in the session; one with a
  // status waits for the operations that it names, and its tool is there.
  predicate CallCoherent(reg: Registry, key: CallKey, call: CallState, operations: map<Id, Operation>, head: Head) {
    && key.0 in head.respondedTurns
    && call.call.callID == key.1
    && match call.status
       case None => call.operations == {} && key !in head.toolCallStatuses
       case Some(status) =>
         && call.operations == IDSet(status.waitingFor)
         && call.operations <= operations.Keys
         && key in head.toolCallStatuses
         && reg.resolves(call.call.name)
  }

  predicate CallsCoherent(reg: Registry, core: Core, head: Head) {
    && (forall key | key in core.toolCalls :: CallCoherent(reg, key, core.toolCalls[key], core.operations, head))
    && (forall key | key in head.toolCallStatuses :: key.0 in head.respondedTurns)
  }

  // The live state and the replay of its session differ only in the values of
  // operations: all three know the same ones.
  predicate Tracks(reg: Registry, live: Live, replayed: Core) {
    && WithoutOperations(replayed) == WithoutOperations(live.core)
    && HeadOK(live.stored.head)
    && Named(replayed.operations) && Named(live.core.operations)
    && replayed.operations.Keys == live.core.operations.Keys == live.stored.head.operationPositions.Keys
    && CallsCoherent(reg, live.core, live.stored.head)
  }

  predicate Tracked(reg: Registry, context: Context, live: Live) {
    var replayed := Replay(reg, NewCore(context), live.stored.items);
    replayed.Ok? && Tracks(reg, live, replayed.value)
  }

  // ---- Overlaying ----

  lemma {:induction false} OverlayMisses(operations: map<Id, Operation>, values: seq<Operation>, id: Id)
    requires id !in IDs(values)
    ensures id in Overlay(operations, values) <==> id in operations
    ensures id in operations ==> Overlay(operations, values)[id] == operations[id]
    decreases |values|
  {
    if values != [] {
      var shorter, last := values[..|values| - 1], values[|values| - 1];
      IDsOfLonger(shorter, last);
      assert values == shorter + [last];
      OverlayMisses(operations, shorter, id);
    }
  }

  // The value an overlay gives to an ID among its values does not depend on what was
  // there before.
  lemma {:induction false} OverlayHits(a: map<Id, Operation>, b: map<Id, Operation>, values: seq<Operation>, id: Id)
    requires id in IDs(values)
    ensures id in Overlay(a, values) && id in Overlay(b, values)
    ensures Overlay(a, values)[id] == Overlay(b, values)[id] && Overlay(a, values)[id] in values
    decreases |values|
  {
    var shorter, last := values[..|values| - 1], values[|values| - 1];
    IDsOfLonger(shorter, last);
    assert values == shorter + [last];
    if id != last.id {
      OverlayHits(a, b, shorter, id);
    }
  }

  lemma {:induction false} OverlayIDs(operations: map<Id, Operation>, values: seq<Operation>)
    ensures Overlay(operations, values).Keys == operations.Keys + IDs(values)
    ensures forall id | id in Overlay(operations, values) && id in IDs(values) :: Overlay(operations, values)[id].id == id
    decreases |values|
  {
    if values == [] {
      assert IDs(values) == {};
    } else {
      var shorter, last := values[..|values| - 1], values[|values| - 1];
      IDsOfLonger(shorter, last);
      assert values == shorter + [last];
      OverlayIDs(operations, shorter);
    }
  }

  lemma OverlayKeepsNames(operations: map<Id, Operation>, values: seq<Operation>)
    requires Named(operations)
    ensures Named(Overlay(operations, values))
  {
    hide Overlay, IDs;
    OverlayIDs(operations, values);
    forall id | id in Overlay(operations, values) && id !in IDs(values)
      ensures Overlay(operations, values)[id].id == id
    {
      OverlayMisses(operations, values, id);
    }
  }

  // ---- Restoring ----

  lemma {:induction false} UnfinishedIDs(operations: seq<Operation>, pending: set<Id>, id: Id)
    ensures id in IDs(Unfinished(operations, pending))
      <==> exists i :: 0 <= i < |operations| && operations[i].id == id
             && (!IsTerminal(operations[i].status) || id in pending)
    ensures forall value | value in Unfinished(operations, pending) :: value in operations
    decreases |operations|
  {
    if operations != [] {
      var shorter, last := operations[..|operations| - 1], operations[|operations| - 1];
      UnfinishedIDs(shorter, pending, id);
      if !IsTerminal(last.status) || last.id in pending {
        IDsOfLonger(Unfinished(shorter, pending), last);
      } else {
        assert Unfinished(operations, pending) == Unfinished(shorter, pending);
      }
      if i :| 0 <= i < |shorter| && shorter[i].id == id && (!IsTerminal(shorter[i].status) || id in pending) {
        assert operations[i].id == id;
      }
    }
  }

  lemma UnfinishedAreKnown(head: Head, pending: set<Id>)
    requires HeadOK(head)
    ensures IDs(Unfinished(head.operations, pending)) <= head.operationPositions.Keys
  {
    hide Unfinished;
    forall id | id in IDs(Unfinished(head.operations, pending))
      ensures id in head.operationPositions
    {
      UnfinishedIDs(head.operations, pending, id);
    }
  }

  // Restoring the session of any tracked state succeeds and gives the state back, all
  // but the values of operations, of which it knows the same ones.
  lemma RestoreTracks(reg: Registry, context: Context, live: Live)
    requires Tracked(reg, context, live)
    ensures Restore(reg, context, live.stored).Ok?
    ensures var core := Restore(reg, context, live.stored).value;
      && WithoutOperations(core) == WithoutOperations(live.core)
      && core.operations.Keys == live.core.operations.Keys && Named(core.operations)
  {
    hide Replay, Overlay, Unfinished, Pending, IDs, HeadOK, CallsCoherent, Named;
    var head, pending := live.stored.head, Pending(live.stored.items);
    var replayed := Replay(reg, NewCore(context), live.stored.items).value;
    UnfinishedAreKnown(head, pending);
    OverlayIDs(replayed.operations, Unfinished(head.operations, pending));
    OverlayKeepsNames(replayed.operations, Unfinished(head.operations, pending));
  }

  // ---- Steps ----

  // Items other than statuses do not look at operations.
  lemma OtherItemsIgnoreOperations(reg: Registry, a: Core, b: Core, data: Data)
    requires WithoutOperations(a) == WithoutOperations(b) && !data.StatusData? && !data.ForkData?
    ensures AddItem(reg, a, data).Ok? == AddItem(reg, b, data).Ok?
    ensures AddItem(reg, a, data).Ok? ==>
      var x, y := AddItem(reg, a, data).value, AddItem(reg, b, data).value;
      WithoutOperations(x) == WithoutOperations(y) && x.operations == a.operations && y.operations == b.operations
  {
    hide AddCalls, AddControl, ValidInput;
  }

  // A status looks only at the operations that it and its call wait for.
  predicate SameFor(a: map<Id, Operation>, b: map<Id, Operation>, ids: set<Id>) {
    forall id | id in ids :: (id in a <==> id in b) && (id in a ==> a[id] == b[id])
  }

  lemma ShowResultIsLocal(reg: Registry, a: Core, b: Core, status: ToolCallStatus)
    requires WithoutOperations(a) == WithoutOperations(b)
    requires Key(status) in a.toolCalls ==> SameFor(a.operations, b.operations, a.toolCalls[Key(status)].operations)
    ensures ShowResult(reg, a, status).Ok? == ShowResult(reg, b, status).Ok?
    ensures ShowResult(reg, a, status).Ok? ==>
      var x, y := ShowResult(reg, a, status).value, ShowResult(reg, b, status).value;
      WithoutOperations(x) == WithoutOperations(y) && x.operations == a.operations && y.operations == b.operations
  {
    hide AddResult;
    if Key(status) in a.toolCalls {
      var call := a.toolCalls[Key(status)];
      assert AllTerminal(a.operations, call.operations) == AllTerminal(b.operations, call.operations);
      if Collectable(a, call, status.status.waitingFor) {
        assert Collectable(b, call, status.status.waitingFor);
        assert Collect(a.operations, status.status.waitingFor) == Collect(b.operations, status.status.waitingFor);
      } else {
        assert !Collectable(b, call, status.status.waitingFor);
      }
    }
  }

  // A status that carries a snapshot of everything its call waits for has the same
  // effect on the replayed state as on the live one.
  lemma StatusIsSelfContained(reg: Registry, a: Core, b: Core, status: ToolCallStatus)
    requires WithoutOperations(a) == WithoutOperations(b)
    requires Key(status) in a.toolCalls ==>
      a.toolCalls[Key(status)].operations + IDSet(status.status.waitingFor) <= IDs(status.operations)
    ensures var x, y := AddItem(reg, a, StatusData(status)), AddItem(reg, b, StatusData(status));
      && x.Ok? == y.Ok?
      && (x.Ok? ==>
            && WithoutOperations(x.value) == WithoutOperations(y.value)
            && x.value.operations == Overlay(a.operations, status.operations)
            && y.value.operations == Overlay(b.operations, status.operations))
  {
    hide ShowResult, Overlay, IDSet;
    var x := NoteStatus(a.(operations := Overlay(a.operations, status.operations)), status);
    var y := NoteStatus(b.(operations := Overlay(b.operations, status.operations)), status);
    forall id | id in IDs(status.operations) {
      OverlayHits(a.operations, b.operations, status.operations, id);
    }
    ShowResultIsLocal(reg, x, y, status);
  }

  lemma ReplayLonger(reg: Registry, context: Context, items: seq<SessionItem>, item: SessionItem)
    requires Replay(reg, NewCore(context), items).Ok?
    ensures Replay(reg, NewCore(context), items + [item])
      == RestoreItem(reg, Replay(reg, NewCore(context), items).value, item.data)
  {
    hide RestoreItem;
    assert (items + [item])[..|items|] == items;
  }

  // ---- Inputs, turns and responses ----

  lemma {:induction false} AddedCalls(toolCalls: map<CallKey, CallState>, turnID: Id, output: seq<Item>)
    ensures var r := AddCalls(toolCalls, turnID, output);
      && (forall key | key in toolCalls :: key in r)
      && (forall key | key in r :: (key in toolCalls && r[key] == toolCalls[key])
            || (key.0 == turnID && r[key].status.None? && r[key].operations == {} && r[key].call.callID == key.1))
      && (forall key | key in toolCalls && key.0 != turnID :: r[key] == toolCalls[key])
    decreases |output|
  {
    if output != [] {
      AddedCalls(toolCalls, turnID, output[..|output| - 1]);
    }
  }

  // The head after an input, a turn or a response.
  lemma PlainAppend(stored: Stored, data: Data, at: Time)
    requires !data.StatusData? && Append(stored, data, [], at).Ok?
    ensures var next := Append(stored, data, [], at).value;
      && next.head.operations == stored.head.operations
      && next.head.operationPositions == stored.head.operationPositions
      && next.head.toolCallStatuses == stored.head.toolCallStatuses
      && next.head.respondedTurns
         == stored.head.respondedTurns + (if data.ResponseData? then {data.response.turnID} else {})
      && (data.ResponseData? ==> data.response.turnID !in stored.head.respondedTurns)
      && next.items == stored.items + [SessionItem(stored.head.itemSequence + 1, at, data)]
  {
  }

  lemma SameOperationsHeadOK(a: Head, b: Head)
    requires HeadOK(a) && a.operations == b.operations && a.operationPositions == b.operationPositions
    ensures HeadOK(b)
  {
  }

  lemma PlainItemKeepsCalls(reg: Registry, live: Live, data: Data, at: Time)
    requires CallsCoherent(reg, live.core, live.stored.head)
    requires !data.StatusData? && !data.ForkData? && Persist(reg, live, data, at).Ok?
    ensures var next := Persist(reg, live, data, at).value;
      CallsCoherent(reg, next.core, next.stored.head)
  {
    hide Append, AddCalls, AddControl, ValidInput;
    PlainAppend(live.stored, data, at);
    var next := Persist(reg, live, data, at).value;
    if data.ResponseData? {
      AddedCalls(live.core.toolCalls, data.response.turnID, data.response.output);
    }
    forall key | key in next.core.toolCalls
      ensures CallCoherent(reg, key, next.core.toolCalls[key], next.core.operations, next.stored.head)
    {
      if key in live.core.toolCalls && next.core.toolCalls[key] == live.core.toolCalls[key] {
        assert CallCoherent(reg, key, live.core.toolCalls[key], live.core.operations, live.stored.head);
      }
    }
  }

  lemma PlainItemTracks(reg: Registry, context: Context, live: Live, data: Data, at: Time)
    requires Tracked(reg, context, live)
    requires !data.StatusData? && !data.ForkData? && Persist(reg, live, data, at).Ok?
    ensures Tracked(reg, context, Persist(reg, live, data, at).value)
  {
    hide Append, Replay, HeadOK, ValidInput, AddControl, AddCalls, CallsCoherent, Named;
    var next := Persist(reg, live, data, at).value;
    var replayed := Replay(reg, NewCore(context), live.stored.items).value;
    PlainAppend(live.stored, data, at);
    var item := SessionItem(live.stored.head.itemSequence + 1, at, data);
    ReplayLonger(reg, context, live.stored.items, item);
    OtherItemsIgnoreOperations(reg, replayed, live.core, data);
    SameOperationsHeadOK(live.stored.head, next.stored.head);
    PlainItemKeepsCalls(reg, live, data, at);
  }

  // ---- Statuses ----

  lemma OverlayTwice(operations: map<Id, Operation>, values: seq<Operation>)
    ensures Overlay(Overlay(operations, values), values) == Overlay(operations, values)
  {
    hide Overlay, IDs;
    var once := Overlay(operations, values);
    var twice := Overlay(once, values);
    OverlayIDs(operations, values);
    OverlayIDs(once, values);
    forall id | id in once
      ensures id in twice && twice[id] == once[id]
    {
      if id in IDs(values) {
        OverlayHits(operations, once, values, id);
      } else {
        OverlayMisses(once, values, id);
      }
    }
    assert twice.Keys == once.Keys;
  }

  // Values that are there already change nothing.
  lemma {:induction false} OverlayOfPresent(operations: map<Id, Operation>, values: seq<Operation>)
    requires forall i | 0 <= i < |values| :: values[i].id in operations && operations[values[i].id] == values[i]
    ensures Overlay(operations, values) == operations
    decreases |values|
  {
    if values != [] {
      OverlayOfPresent(operations, values[..|values| - 1]);
    }
  }

  // What is known of a status when it goes into the session.
  predicate Recordable(reg: Registry, live: Live, status: ToolCallStatus) {
    && Key(status) in live.core.toolCalls
    && var call := live.core.toolCalls[Key(status)];
    && call.operations + IDSet(status.status.waitingFor) <= IDs(status.operations)
    && (call.operations == {} || call.operations == IDSet(status.status.waitingFor))
    && (!reg.resolves(call.call.name) ==> !RequiresTranslator(status))
  }

  // The head of a session after a status, which adds operations or nothing.
  predicate HeadTakes(before: Head, after: Head, status: ToolCallStatus) {
    && HeadOK(after)
    && after.operationPositions.Keys == before.operationPositions.Keys + IDs(status.operations)
    && after.respondedTurns == before.respondedTurns
    && after.toolCallStatuses == before.toolCallStatuses + {Key(status)}
  }

  // Showing a result closes the call or leaves the calls as they are.
  lemma ShowResultCalls(reg: Registry, core: Core, status: ToolCallStatus)
    requires ShowResult(reg, core, status).Ok?
    ensures var next := ShowResult(reg, core, status).value;
      && next.operations == core.operations
      && (next.toolCalls == core.toolCalls || next.toolCalls == core.toolCalls - {Key(status)})
  {
    hide AddResult, Collect, Collectable, AllTerminal;
  }

  lemma StatusKeepsCalls(reg: Registry, live: Live, status: ToolCallStatus, after: Head)
    requires CallsCoherent(reg, live.core, live.stored.head)
    requires Recordable(reg, live, status) && AddItem(reg, live.core, StatusData(status)).Ok?
    requires after.respondedTurns == live.stored.head.respondedTurns
    requires after.toolCallStatuses == live.stored.head.toolCallStatuses + {Key(status)}
    ensures CallsCoherent(reg, AddItem(reg, live.core, StatusData(status)).value, after)
  {
    hide ShowResult, Overlay, IDSet, IDs;
    OverlayIDs(live.core.operations, status.operations);
    var noted := NoteStatus(live.core.(operations := Overlay(live.core.operations, status.operations)), status);
    ShowResultCalls(reg, noted, status);
    ResolvedWhenShown(reg, noted, status);
    var next := AddItem(reg, live.core, StatusData(status)).value;
    forall key | key in next.toolCalls
      ensures CallCoherent(reg, key, next.toolCalls[key], next.operations, after)
    {
      assert CallCoherent(reg, key, live.core.toolCalls[key], live.core.operations, live.stored.head);
    }
  }

  // A call whose tool is not there is closed by a status that needs no translator.
  lemma ResolvedWhenShown(reg: Registry, core: Core, status: ToolCallStatus)
    requires Key(status) in core.toolCalls && ShowResult(reg, core, status).Ok?
    requires !reg.resolves(core.toolCalls[Key(status)].call.name) ==> !RequiresTranslator(status)
    ensures Key(status) in ShowResult(reg, core, status).value.toolCalls ==>
      reg.resolves(core.toolCalls[Key(status)].call.name)
  {
    hide AddResult, Collect, Collectable, AllTerminal;
  }

  lemma StatusTracks(reg: Registry, context: Context, live: Live, status: ToolCallStatus, at: Time)
    requires Tracked(reg, context, live)
    requires Recordable(reg, live, status) && Persist(reg, live, StatusData(status), at).Ok?
    requires HeadTakes(live.stored.head, Persist(reg, live, StatusData(status), at).value.stored.head, status)
    ensures Tracked(reg, context, Persist(reg, live, StatusData(status), at).value)
  {
    hide AddItem, AppendToHead, Replay, HeadOK, CallsCoherent, Overlay, Named, IDs;
    var next := Persist(reg, live, StatusData(status), at).value;
    var replayed := Replay(reg, NewCore(context), live.stored.items).value;
    var item := next.stored.items[|live.stored.items|];
    assert next.stored.items == live.stored.items + [item];
    StatusItem(live.stored, status, at);
    ReplayLonger(reg, context, live.stored.items, item);
    StatusIsSelfContained(reg, replayed, live.core, status);
    OverlayIDs(replayed.operations, status.operations);
    OverlayIDs(live.core.operations, status.operations);
    OverlayKeepsNames(replayed.operations, status.operations);
    OverlayKeepsNames(live.core.operations, status.operations);
    StatusKeepsCalls(reg, live, status, next.stored.head);
  }

  lemma StatusItem(stored: Stored, status: ToolCallStatus, at: Time)
    requires Append(stored, StatusData(status.(operations := [])), status.operations, at).Ok?
    ensures var next := Append(stored, StatusData(status.(operations := [])), status.operations, at).value;
      && |next.items| == |stored.items| + 1
      && next.items[|stored.items|].data == StatusData(status)
      && next.items[..|stored.items|] == stored.items
  {
  }

  lemma WaitedForAreInitialized(status: CallStatus, operations: seq<Operation>)
    requires ValidReferences(status, operations)
    ensures IDSet(status.waitingFor) <= IDs(operations)
  {
    forall id | id in IDSet(status.waitingFor)
      ensures id in IDs(operations)
    {
      var i :| 0 <= i < |status.waitingFor| && status.waitingFor[i] == id;
      var j :| 0 <= j < |operations| && operations[j].id == status.waitingFor[i];
    }
  }

  // The first status of a call.
  lemma ScheduleIsRecordable(reg: Registry, context: Context, live: Live, key: CallKey, attempt: nat, at: Time)
    requires Tracked(reg, context, live)
    requires Apply(reg, context, live, Schedule(key, attempt, at)).Ok?
    ensures var status := ScheduledStatus(reg, key, live.core.toolCalls[key].call, attempt);
      && key !in live.stored.head.toolCallStatuses
      && Recordable(reg, live, status)
  {
    hide AddItem, Replay, Overlay, HeadOK, AddOperations, Initializable, ValidReferences, IDSet, IDs;
    var call := live.core.toolCalls[key];
    var status := ScheduledStatus(reg, key, call.call, attempt);
    assert CallCoherent(reg, key, call, live.core.operations, live.stored.head);
    FirstStatus(live.stored, status, at);
    WaitedForAreInitialized(status.status, status.operations);
    assert call.operations == {};
    assert !reg.resolves(call.call.name) ==> !RequiresTranslator(status);
  }

  lemma ScheduleTracks(reg: Registry, context: Context, live: Live, key: CallKey, attempt: nat, at: Time)
    requires Tracked(reg, context, live)
    requires Apply(reg, context, live, Schedule(key, attempt, at)).Ok?
    ensures var status := ScheduledStatus(reg, key, live.core.toolCalls[key].call, attempt);
      Persist(reg, live, StatusData(status), at) == Apply(reg, context, live, Schedule(key, attempt, at))
    ensures Tracked(reg, context, Apply(reg, context, live, Schedule(key, attempt, at)).value)
  {
    hide AddItem, Replay, Overlay, HeadOK, AddOperations, Initializable, ValidReferences, CallsCoherent, Recordable,
         ScheduledStatus;
    var status := ScheduledStatus(reg, key, live.core.toolCalls[key].call, attempt);
    ScheduleIsRecordable(reg, context, live, key, attempt, at);
    ScheduledKey(reg, key, live.core.toolCalls[key].call, attempt);
    FirstStatus(live.stored, status, at);
    AddFromOverlay(reg, live.core, status);
    StatusTracks(reg, context, live, status, at);
  }

  lemma ScheduledKey(reg: Registry, key: CallKey, call: Call, attempt: nat)
    ensures Key(ScheduledStatus(reg, key, call, attempt)) == key
  {
  }

  // Adding the operations before the item makes no difference to adding the item.
  lemma AddFromOverlay(reg: Registry, core: Core, status: ToolCallStatus)
    ensures AddItem(reg, core.(operations := Overlay(core.operations, status.operations)), StatusData(status))
      == AddItem(reg, core, StatusData(status))
  {
    hide ShowResult, Overlay;
    OverlayTwice(core.operations, status.operations);
  }

  lemma FirstStatus(stored: Stored, status: ToolCallStatus, at: Time)
    requires HeadOK(stored.head) && Key(status) !in stored.head.toolCallStatuses
    requires Append(stored, StatusData(status.(operations := [])), status.operations, at).Ok?
    ensures ValidReferences(status.status, status.operations) && Initializable(stored.head, status.operations)
    ensures HeadTakes(stored.head,
                      Append(stored, StatusData(status.(operations := [])), status.operations, at).value.head, status)
  {
    hide ValidReferences, HeadOK, AddOperations, ValidOperation;
    var head := stored.head.(toolCallStatuses := stored.head.toolCallStatuses + {Key(status)});
    SameOperationsHeadOK(stored.head, head);
    AddKeepsPositions(head, status.operations);
    var added := AddOperations(head, status.operations);
    SameOperationsHeadOK(added, added.(itemSequence := added.itemSequence + 1));
  }

  // The status of a call whose operations have all ended.
  lemma ReconcileIsRecordable(reg: Registry, context: Context, live: Live, key: CallKey)
    requires Tracked(reg, context, live) && CanReconcile(live.core, key)
    ensures var status := ReconciledStatus(live.core, key);
      && key in live.stored.head.toolCallStatuses
      && Overlay(live.core.operations, status.operations) == live.core.operations
      && IDs(status.operations) <= live.core.operations.Keys
      && live.core.toolCalls[key].operations == IDSet(status.status.waitingFor)
      && Recordable(reg, live, status)
  {
    hide AddItem, Replay, Overlay, HeadOK, IDSet, IDs, Named;
    var call := live.core.toolCalls[key];
    assert CallCoherent(reg, key, call, live.core.operations, live.stored.head);
    SnapshotIsPresent(live.core.operations, call.status.value.waitingFor);
  }

  lemma ReconcileTracks(reg: Registry, context: Context, live: Live, key: CallKey, at: Time)
    requires Tracked(reg, context, live)
    requires Apply(reg, context, live, Reconcile(key, at)).Ok?
    ensures Tracked(reg, context, Apply(reg, context, live, Reconcile(key, at)).value)
  {
    hide AddItem, Replay, Overlay, HeadOK, CallsCoherent, Recordable, IDs, Named, IDSet;
    var status := ReconciledStatus(live.core, key);
    ReconcileIsRecordable(reg, context, live, key);
    SecondStatus(live.stored, status, at);
    assert live.stored.head.operationPositions.Keys + IDs(status.operations) == live.stored.head.operationPositions.Keys;
    StatusTracks(reg, context, live, status, at);
  }

  lemma SecondStatus(stored: Stored, status: ToolCallStatus, at: Time)
    requires HeadOK(stored.head) && Key(status) in stored.head.toolCallStatuses
    requires Append(stored, StatusData(status.(operations := [])), status.operations, at).Ok?
    ensures var after := Append(stored, StatusData(status.(operations := [])), status.operations, at).value.head;
      && HeadOK(after)
      && after.operations == stored.head.operations && after.operationPositions == stored.head.operationPositions
      && after.respondedTurns == stored.head.respondedTurns
      && after.toolCallStatuses == stored.head.toolCallStatuses + {Key(status)}
  {
    hide HeadOK;
    var after := stored.head.(itemSequence := stored.head.itemSequence + 1);
    SameOperationsHeadOK(stored.head, after);
    assert stored.head.toolCallStatuses + {Key(status)} == stored.head.toolCallStatuses;
  }

  lemma SnapshotIsPresent(operations: map<Id, Operation>, waitingFor: seq<Id>)
    requires Named(operations) && forall i | 0 <= i < |waitingFor| :: waitingFor[i] in operations
    ensures IDs(Collect(operations, waitingFor)) == IDSet(waitingFor) <= operations.Keys
    ensures Overlay(operations, Collect(operations, waitingFor)) == operations
  {
    var values := Collect(operations, waitingFor);
    assert forall i | 0 <= i < |waitingFor| :: values[i].id == waitingFor[i];
    OverlayOfPresent(operations, values);
  }

  // ---- Updates ----

  lemma UpdateTracks(reg: Registry, context: Context, live: Live, update: Operation)
    requires Tracked(reg, context, live)
    requires Apply(reg, context, live, TakeUpdate(update)).Ok?
    ensures update.id in live.core.operations
    ensures Tracked(reg, context, Apply(reg, context, live, TakeUpdate(update)).value)
  {
    hide Replay, CallsCoherent, HeadOK, ValidOperation;
    var next := Apply(reg, context, live, TakeUpdate(update)).value;
    SaveKeepsHead(live.stored.head, update);
    UpdateKeepsCalls(reg, live, next);
  }

  lemma SaveKeepsHead(head: Head, update: Operation)
    requires HeadOK(head) && SaveOperation(head, update).Ok?
    ensures var after := SaveOperation(head, update).value;
      && HeadOK(after) && after == head.(operations := after.operations) && update.id in head.operationPositions
  {
    hide ValidOperation;
  }

  lemma UpdateKeepsCalls(reg: Registry, live: Live, next: Live)
    requires CallsCoherent(reg, live.core, live.stored.head)
    requires next.core.toolCalls == live.core.toolCalls && live.core.operations.Keys <= next.core.operations.Keys
    requires next.stored.head.respondedTurns == live.stored.head.respondedTurns
    requires next.stored.head.toolCallStatuses == live.stored.head.toolCallStatuses
    ensures CallsCoherent(reg, next.core, next.stored.head)
  {
    hide IDSet;
    forall key | key in next.core.toolCalls
      ensures CallCoherent(reg, key, next.core.toolCalls[key], next.core.operations, next.stored.head)
    {
      assert CallCoherent(reg, key, live.core.toolCalls[key], live.core.operations, live.stored.head);
    }
  }

  lemma RestartTracks(reg: Registry, context: Context, live: Live)
    requires Tracked(reg, context, live)
    ensures Apply(reg, context, live, Restart).Ok?
    ensures var core := Apply(reg, context, live, Restart).value.core;
      && Apply(reg, context, live, Restart).value == Live(core, live.stored)
      && WithoutOperations(core) == WithoutOperations(live.core)
      && Tracked(reg, context, Live(core, live.stored))
  {
    hide Restore, Replay, CallsCoherent, HeadOK, Named;
    RestoreTracks(reg, context, live);
    var next := Live(Restore(reg, context, live.stored).value, live.stored);
    assert next.core.toolCalls == WithoutOperations(next.core).toolCalls;
    UpdateKeepsCalls(reg, live, next);
  }

  // ---- Runs ----

  // Every step keeps what is tracked, whatever it is that comes in.
  lemma ActionTracks(reg: Registry, context: Context, live: Live, action: Action)
    requires Tracked(reg, context, live) && Apply(reg, context, live, action).Ok?
    ensures Tracked(reg, context, Apply(reg, context, live, action).value)
  {
    hide Tracked, Persist, Restore;
    match action
    case TakeInput(input, at) => PlainItemTracks(reg, context, live, InputData(input), at);
    case StartTurn(turnID, at) =>
      PlainItemTracks(reg, context, live, TurnData(Turn(turnID, live.core.turnID, Regular)), at);
    case TakeResponse(output, at) =>
      PlainItemTracks(reg, context, live, ResponseData(ModelResponse(live.core.turnID, output)), at);
    case Schedule(key, attempt, at) => ScheduleTracks(reg, context, live, key, attempt, at);
    case Reconcile(key, at) => ReconcileTracks(reg, context, live, key, at);
    case TakeUpdate(update) => UpdateTracks(reg, context, live, update);
    case Restart => RestartTracks(reg, context, live);
  }

  // After every step of every run, with restarts at any points and any updates that the
  // store accepts: restoring the session succeeds, and gives back the tool calls, the
  // turn, the input counters and the model input, and knows the same operations.
  lemma {:induction false} RunsAreTracked(reg: Registry, context: Context, start: Live, actions: seq<Action>)
    requires Tracked(reg, context, start) && Run(reg, context, start, actions).Ok?
    ensures var live := Run(reg, context, start, actions).value;
      && Tracked(reg, context, live)
      && Restore(reg, context, live.stored).Ok?
      && var core := Restore(reg, context, live.stored).value;
         WithoutOperations(core) == WithoutOperations(live.core) && core.operations.Keys == live.core.operations.Keys
    decreases |actions|
  {
    hide Tracked, Apply, Restore;
    if actions != [] {
      RunsAreTracked(reg, context, start, actions[..|actions| - 1]);
      ActionTracks(reg, context, Run(reg, context, start, actions[..|actions| - 1]).value, actions[|actions| - 1]);
    }
    RestoreTracks(reg, context, Run(reg, context, start, actions).value);
  }

  // ---- Where runs start ----

  lemma NewSessionIsTracked(reg: Registry, context: Context, session: SessionInfo)
    ensures Tracked(reg, context, Live(NewCore(context), NewStored(session)))
  {
  }
}
