// Replaying a session gives back the live coordinator.
module ReplayProofs {
  import opened Session
  import opened SessionState
  import opened ContextBuilder
  import opened CoordinatorState
  import opened CodecProofs
  import opened Tracking
  import opened ForkProofs
  import opened ForkLoads

  // ---- The values of operations ----

  // The live operations are the saved ones.
  predicate Mirrors(operations: map<Id, Operation>, head: Head) {
    && operations.Keys == head.operationPositions.Keys
    && forall id | id in operations ::
         head.operationPositions[id] < |head.operations| && operations[id] == head.operations[head.operationPositions[id]]
  }

  // A snapshot of an operation that has ended is its last value.
  predicate SnapshotsAgree(snapshots: map<Id, Operation>, operations: map<Id, Operation>) {
    && snapshots.Keys == operations.Keys
    && forall id | id in snapshots && IsTerminal(snapshots[id].status) :: operations[id] == snapshots[id]
  }

  predicate PendingAgrees(pending: set<Id>, snapshots: map<Id, Operation>) {
    && (forall id | id in pending :: id in snapshots && !IsTerminal(snapshots[id].status))
    && (forall id | id in snapshots && !IsTerminal(snapshots[id].status) :: id in pending)
  }

  // The saved operations are the live ones, and what the history does not know of them
  // is what resuming hands back.
  predicate Synced(live: Live, replayed: Core) {
    && Mirrors(live.core.operations, live.stored.head)
    && SnapshotsAgree(replayed.operations, live.core.operations)
    && PendingAgrees(Pending(live.stored.items), replayed.operations)
  }

  predicate Replayable(reg: Registry, context: Context, live: Live) {
    Tracked(reg, context, live) && Synced(live, Replay(reg, NewCore(context), live.stored.items).value)
  }

  // ---- Restoring ----

  // The snapshots that replaying the history leaves.
  function Replayed(reg: Registry, context: Context, live: Live): map<Id, Operation>
    requires Tracked(reg, context, live)
  {
    Replay(reg, NewCore(context), live.stored.items).value.operations
  }

  // What restoring makes of an operation: the saved value when that is unfinished or its
  // snapshot is, else the snapshot.
  lemma RestoredValue(live: Live, replayed: Core, id: Id)
    requires HeadOK(live.stored.head) && Mirrors(live.core.operations, live.stored.head)
    requires PendingAgrees(Pending(live.stored.items), replayed.operations)
    requires id in live.core.operations && id in replayed.operations
    ensures var overlaid := Overlay(replayed.operations, Resume(live.stored).operations);
      id in overlaid && overlaid[id]
      == if IsTerminal(live.core.operations[id].status) && IsTerminal(replayed.operations[id].status)
         then replayed.operations[id] else live.core.operations[id]
  {
    hide Overlay, Pending, Unfinished;
    var head, pending := live.stored.head, Pending(live.stored.items);
    var values := Unfinished(head.operations, pending);
    UnfinishedIDs(head.operations, pending, id);
    var at := head.operationPositions[id];
    assert head.operations[at].id == id && head.operations[at] == live.core.operations[id];
    if id in IDs(values) {
      OverlayHits(replayed.operations, replayed.operations, values, id);
      OverlayIDs(replayed.operations, values);
    } else {
      OverlayMisses(replayed.operations, values, id);
    }
  }

  // Overlaying what resume hands back makes every replayed operation the saved one.
  lemma OverlayRestoresOperations(reg: Registry, live: Live, replayed: Core)
    requires Tracks(reg, live, replayed) && Synced(live, replayed)
    ensures Overlay(replayed.operations, Resume(live.stored).operations) == live.core.operations
  {
    hide Overlay, Unfinished, Pending, IDs, Mirrors, CallsCoherent, PendingAgrees, HeadOK, Named;
    var values := Resume(live.stored).operations;
    var overlaid := Overlay(replayed.operations, values);
    OverlayIDs(replayed.operations, values);
    UnfinishedAreKnown(live.stored.head, Pending(live.stored.items));
    forall id | id in overlaid
      ensures id in live.core.operations && overlaid[id] == live.core.operations[id]
    {
      RestoredValue(live, replayed, id);
    }
    assert replayed.operations.Keys <= overlaid.Keys;
  }

  // Replay equivalence: replaying the items of the session and then overlaying what
  // resume hands back gives the live state, all of it.
  lemma RestoreIsLive(reg: Registry, context: Context, live: Live)
    requires Replayable(reg, context, live)
    ensures Restore(reg, context, live.stored) == Ok(live.core)
  {
    hide Replay, Overlay, Resume, Mirrors, SnapshotsAgree, PendingAgrees, CallsCoherent, HeadOK, Named;
    OverlayRestoresOperations(reg, live, Replay(reg, NewCore(context), live.stored.items).value);
  }

  // ---- Steps ----

  lemma {:induction false} PendingFollows(pending: set<Id>, snapshots: map<Id, Operation>, values: seq<Operation>)
    requires PendingAgrees(pending, snapshots)
    ensures PendingAgrees(NotePending(pending, values), Overlay(snapshots, values))
    decreases |values|
  {
    if values != [] {
      PendingFollows(pending, snapshots, values[..|values| - 1]);
    }
  }

  // Overlaying the same values on both sides keeps them in agreement.
  lemma SnapshotsFollow(snapshots: map<Id, Operation>, operations: map<Id, Operation>, values: seq<Operation>)
    requires SnapshotsAgree(snapshots, operations)
    ensures SnapshotsAgree(Overlay(snapshots, values), Overlay(operations, values))
  {
    hide Overlay, IDs;
    OverlayIDs(snapshots, values);
    OverlayIDs(operations, values);
    var a, b := Overlay(snapshots, values), Overlay(operations, values);
    forall id | id in a && IsTerminal(a[id].status)
      ensures b[id] == a[id]
    {
      if id in IDs(values) {
        OverlayHits(snapshots, operations, values, id);
      } else {
        OverlayMisses(snapshots, values, id);
        OverlayMisses(operations, values, id);
      }
    }
  }

  lemma PendingLonger(items: seq<SessionItem>, item: SessionItem)
    ensures Pending(items + [item]) == NotePending(Pending(items), Snapshots(item))
  {
    hide NotePending;
    assert (items + [item])[..|items|] == items;
  }

  lemma PlainItemFollows(reg: Registry, context: Context, live: Live, data: Data, at: Time)
    requires Replayable(reg, context, live)
    requires !data.StatusData? && !data.ForkData? && Persist(reg, live, data, at).Ok?
    ensures Replayable(reg, context, Persist(reg, live, data, at).value)
  {
    hide Append, Replay, Pending, HeadOK, ValidInput, AddControl, AddCalls, CallsCoherent, Named;
    PlainItemTracks(reg, context, live, data, at);
    var replayed := Replay(reg, NewCore(context), live.stored.items).value;
    PlainAppend(live.stored, data, at);
    var item := SessionItem(live.stored.head.itemSequence + 1, at, data);
    Tracking.ReplayLonger(reg, context, live.stored.items, item);
    PendingLonger(live.stored.items, item);
    OtherItemsIgnoreOperations(reg, replayed, live.core, data);
  }

  // ---- Statuses ----

  lemma {:induction false} AddedOperationsMirror(operations: map<Id, Operation>, head: Head, values: seq<Operation>)
    requires Mirrors(operations, head) && HeadOK(head)
    requires DistinctIDs(values) && forall i | 0 <= i < |values| :: values[i].id !in head.operationPositions
    ensures Mirrors(Overlay(operations, values), AddOperations(head, values))
    decreases |values|
  {
    hide HeadOK;
    if values != [] {
      var shorter, last := values[..|values| - 1], values[|values| - 1];
      AddedOperationsMirror(operations, head, shorter);
      AddKeepsPositions(head, shorter);
      NotAmong(values);
      OneMoreMirrors(Overlay(operations, shorter), AddOperations(head, shorter), last);
    }
  }

  lemma OneMoreMirrors(operations: map<Id, Operation>, head: Head, last: Operation)
    requires Mirrors(operations, head) && last.id !in head.operationPositions
    ensures Mirrors(operations[last.id := last],
                    head.(operations := head.operations + [last],
                          operationPositions := head.operationPositions[last.id := |head.operations|]))
  {
  }

  lemma StatusFollows(reg: Registry, context: Context, live: Live, status: ToolCallStatus, at: Time)
    requires Replayable(reg, context, live)
    requires Recordable(reg, live, status) && Persist(reg, live, StatusData(status), at).Ok?
    requires var head := Persist(reg, live, StatusData(status), at).value.stored.head;
      && HeadTakes(live.stored.head, head, status)
      && Mirrors(Overlay(live.core.operations, status.operations), head)
    ensures Replayable(reg, context, Persist(reg, live, StatusData(status), at).value)
  {
    hide AddItem, AppendToHead, Replay, Pending, HeadOK, CallsCoherent, SnapshotsAgree, PendingAgrees, Mirrors, Overlay,
         Named, IDs;
    StatusTracks(reg, context, live, status, at);
    var next := Persist(reg, live, StatusData(status), at).value;
    var replayed := Replay(reg, NewCore(context), live.stored.items).value;
    var item := next.stored.items[|live.stored.items|];
    assert next.stored.items == live.stored.items + [item];
    StatusItem(live.stored, status, at);
    Tracking.ReplayLonger(reg, context, live.stored.items, item);
    PendingLonger(live.stored.items, item);
    StatusIsSelfContained(reg, replayed, live.core, status);
    PendingFollows(Pending(live.stored.items), replayed.operations, status.operations);
    SnapshotsFollow(replayed.operations, live.core.operations, status.operations);
  }

  lemma ScheduleFollows(reg: Registry, context: Context, live: Live, key: CallKey, attempt: nat, at: Time)
    requires Replayable(reg, context, live)
    requires Apply(reg, context, live, Schedule(key, attempt, at)).Ok?
    ensures Replayable(reg, context, Apply(reg, context, live, Schedule(key, attempt, at)).value)
  {
    hide AddItem, AppendToHead, Replay, Pending, Overlay, HeadOK, Mirrors, SnapshotsAgree, PendingAgrees, CallsCoherent, Named,
         Recordable, ScheduledStatus;
    var status := ScheduledStatus(reg, key, live.core.toolCalls[key].call, attempt);
    ScheduleIsRecordable(reg, context, live, key, attempt, at);
    ScheduledKey(reg, key, live.core.toolCalls[key].call, attempt);
    ScheduleTracks(reg, context, live, key, attempt, at);
    FirstStatus(live.stored, status, at);
    FirstStatusMirrors(live, status, at);
    StatusFollows(reg, context, live, status, at);
  }

  lemma FirstStatusMirrors(live: Live, status: ToolCallStatus, at: Time)
    requires HeadOK(live.stored.head) && Mirrors(live.core.operations, live.stored.head)
    requires Key(status) !in live.stored.head.toolCallStatuses
    requires Append(live.stored, StatusData(status.(operations := [])), status.operations, at).Ok?
    ensures Mirrors(Overlay(live.core.operations, status.operations),
                    Append(live.stored, StatusData(status.(operations := [])), status.operations, at).value.head)
  {
    hide ValidReferences, Mirrors, HeadOK, AddOperations, Overlay, ValidOperation;
    var head := live.stored.head.(toolCallStatuses := live.stored.head.toolCallStatuses + {Key(status)});
    SameMirrors(live.core.operations, live.stored.head, head);
    SameOperationsHeadOK(live.stored.head, head);
    AddedOperationsMirror(live.core.operations, head, status.operations);
    var added := AddOperations(head, status.operations);
    SameMirrors(Overlay(live.core.operations, status.operations), added, added.(itemSequence := added.itemSequence + 1));
  }

  lemma SameMirrors(operations: map<Id, Operation>, a: Head, b: Head)
    requires Mirrors(operations, a)
    requires a.operations == b.operations && a.operationPositions == b.operationPositions
    ensures Mirrors(operations, b)
  {
  }

  lemma ReconcileFollows(reg: Registry, context: Context, live: Live, key: CallKey, at: Time)
    requires Replayable(reg, context, live)
    requires Apply(reg, context, live, Reconcile(key, at)).Ok?
    ensures Replayable(reg, context, Apply(reg, context, live, Reconcile(key, at)).value)
  {
    hide AddItem, Replay, Pending, Overlay, SnapshotsAgree, PendingAgrees, HeadOK, Mirrors, CallsCoherent, Recordable,
         Named, IDs, IDSet;
    var status := ReconciledStatus(live.core, key);
    ReconcileIsRecordable(reg, context, live, key);
    SecondStatus(live.stored, status, at);
    var after := Append(live.stored, StatusData(status.(operations := [])), status.operations, at).value.head;
    SameMirrors(live.core.operations, live.stored.head, after);
    assert live.stored.head.operationPositions.Keys + IDs(status.operations) == live.stored.head.operationPositions.Keys;
    StatusFollows(reg, context, live, status, at);
  }

  // ---- Operation updates ----

  // An update is for a known operation that has not ended: the manager queues nothing
  // after a terminal update, and dispatches no operation that has ended.
  predicate Expected(core: Core, update: Operation) {
    update.id in core.operations && !IsTerminal(core.operations[update.id].status)
  }

  lemma UpdateFollows(reg: Registry, context: Context, live: Live, update: Operation)
    requires Replayable(reg, context, live) && Expected(live.core, update)
    requires Apply(reg, context, live, TakeUpdate(update)).Ok?
    ensures Replayable(reg, context, Apply(reg, context, live, TakeUpdate(update)).value)
  {
    hide Replay, Pending, PendingAgrees, SaveOperation, CallsCoherent, HeadOK, Mirrors, SnapshotsAgree, Named;
    UpdateTracks(reg, context, live, update);
    SaveMirrors(live.core.operations, live.stored.head, update);
    UpdateAgrees(Replay(reg, NewCore(context), live.stored.items).value.operations, live.core.operations, update);
  }

  lemma SaveMirrors(operations: map<Id, Operation>, head: Head, update: Operation)
    requires HeadOK(head) && Mirrors(operations, head) && SaveOperation(head, update).Ok?
    ensures var after := SaveOperation(head, update).value;
      && HeadOK(after) && Mirrors(operations[update.id := update], after)
      && after.respondedTurns == head.respondedTurns && after.toolCallStatuses == head.toolCallStatuses
  {
    hide ValidOperation;
  }

  lemma UpdateAgrees(snapshots: map<Id, Operation>, operations: map<Id, Operation>, update: Operation)
    requires SnapshotsAgree(snapshots, operations)
    requires update.id in operations && !IsTerminal(operations[update.id].status)
    ensures SnapshotsAgree(snapshots, operations[update.id := update])
  {
  }

  // ---- Runs ----

  // What the environment is taken to do: updates come only for operations that have
  // not ended.
  predicate EnvironmentKeeps(core: Core, action: Action) {
    match action
    case TakeUpdate(update) => Expected(core, update)
    case _ => true
  }

  lemma ActionFollows(reg: Registry, context: Context, live: Live, action: Action)
    requires Replayable(reg, context, live) && EnvironmentKeeps(live.core, action)
    requires Apply(reg, context, live, action).Ok?
    ensures Replayable(reg, context, Apply(reg, context, live, action).value)
  {
    hide Replayable, Persist, Restore;
    match action
    case TakeInput(input, at) => PlainItemFollows(reg, context, live, InputData(input), at);
    case StartTurn(turnID, at) =>
      PlainItemFollows(reg, context, live, TurnData(Turn(turnID, live.core.turnID, Regular)), at);
    case TakeResponse(output, at) =>
      PlainItemFollows(reg, context, live, ResponseData(ModelResponse(live.core.turnID, output)), at);
    case Schedule(key, attempt, at) => ScheduleFollows(reg, context, live, key, attempt, at);
    case Reconcile(key, at) => ReconcileFollows(reg, context, live, key, at);
    case TakeUpdate(update) => UpdateFollows(reg, context, live, update);
    case Restart => RestoreIsLive(reg, context, live);
  }

  // The environment kept to it at every step of the run.
  predicate EnvironmentKept(reg: Registry, context: Context, start: Live, actions: seq<Action>) {
    forall n | 0 <= n < |actions| && Run(reg, context, start, actions[..n]).Ok? ::
      EnvironmentKeeps(Run(reg, context, start, actions[..n]).value.core, actions[n])
  }

  lemma EnvironmentOfShorter(reg: Registry, context: Context, start: Live, actions: seq<Action>)
    requires actions != [] && EnvironmentKept(reg, context, start, actions)
    ensures EnvironmentKept(reg, context, start, actions[..|actions| - 1])
    ensures var before := Run(reg, context, start, actions[..|actions| - 1]);
      before.Ok? ==> EnvironmentKeeps(before.value.core, actions[|actions| - 1])
  {
    hide Run, EnvironmentKeeps;
    var shorter := actions[..|actions| - 1];
    assert forall n | 0 <= n <= |shorter| :: shorter[..n] == actions[..n];
  }

  // And as long as no update comes late, it is the live state, all of it: after every
  // step of every run, with restarts at any points, restoring the session gives also the
  // live value of every operation.
  lemma {:induction false} RunsAreReplayable(reg: Registry, context: Context, start: Live, actions: seq<Action>)
    requires Replayable(reg, context, start)
    requires EnvironmentKept(reg, context, start, actions) && Run(reg, context, start, actions).Ok?
    ensures var live := Run(reg, context, start, actions).value;
      Replayable(reg, context, live) && Restore(reg, context, live.stored) == Ok(live.core)
    decreases |actions|
  {
    hide Replayable, Apply, Restore, EnvironmentKept;
    if actions != [] {
      EnvironmentOfShorter(reg, context, start, actions);
      RunsAreReplayable(reg, context, start, actions[..|actions| - 1]);
      ActionFollows(reg, context, Run(reg, context, start, actions[..|actions| - 1]).value, actions[|actions| - 1]);
    }
    RestoreIsLive(reg, context, Run(reg, context, start, actions).value);
  }

  // ---- Where runs start ----

  lemma NewSessionIsReplayable(reg: Registry, context: Context, session: SessionInfo)
    ensures Replayable(reg, context, Live(NewCore(context), NewStored(session)))
  {
  }

  // Every fork of a session that coordinators have written is such a start.
  lemma ForkIsReplayable(reg: Registry, context: Context, parent: Live, id: Id, previousTurnID: Id, at: Time)
    requires Forkable(reg, context, parent) && ForkOf(parent.stored, id, previousTurnID, at).Ok?
    ensures var child := ForkOf(parent.stored, id, previousTurnID, at).value;
      Restore(reg, context, child).Ok? && Replayable(reg, context, Live(Restore(reg, context, child).value, child))
  {
    hide ForkOf, Forkable, Restore, Replayable, NoSnapshots;
    ForksLoad(reg, context, parent, id, previousTurnID, at);
    ForkItems(parent.stored, id, previousTurnID, at);
    LoadedForkIsReplayable(reg, context, ForkOf(parent.stored, id, previousTurnID, at).value);
  }

  lemma LoadedForkIsReplayable(reg: Registry, context: Context, child: Stored)
    requires OwnsNothing(child.head) && NoSnapshots(child.items)
    requires child.items != [] && child.items[|child.items| - 1].data.ForkData?
    requires Restore(reg, context, child).Ok?
    ensures Replayable(reg, context, Live(Restore(reg, context, child).value, child))
  {
    hide AddItem;
    NothingPending(child.items);
    var inherited := child.items[..|child.items| - 1];
    ForkForgets(reg, Replay(reg, NewCore(context), inherited).value, child.items[|child.items| - 1].data);
  }

  lemma {:induction false} NothingPending(items: seq<SessionItem>)
    requires forall i | 0 <= i < |items| :: Snapshots(items[i]) == []
    ensures Pending(items) == {}
    decreases |items|
  {
    if items != [] {
      NothingPending(items[..|items| - 1]);
    }
  }
}
