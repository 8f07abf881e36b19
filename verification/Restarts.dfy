// What a restart makes of each operation, over every run and whatever updates come.
module Restarts {
  import opened Session
  import opened SessionState
  import opened ContextBuilder
  import opened CoordinatorState
  import opened CodecProofs
  import opened Tracking
  import opened ReplayProofs

  // The operations as the store has them.
  function SavedOperations(head: Head): map<Id, Operation> {
    map id | id in head.operationPositions && head.operationPositions[id] < |head.operations|
      :: head.operations[head.operationPositions[id]]
  }

  lemma SavedMirrors(head: Head)
    requires HeadOK(head)
    ensures Mirrors(SavedOperations(head), head)
  {
  }

  lemma MirrorIsSaved(operations: map<Id, Operation>, head: Head)
    requires Mirrors(operations, head)
    ensures operations == SavedOperations(head)
  {
  }

  // The same operations have ended in both.
  predicate EndsAgree(a: map<Id, Operation>, b: map<Id, Operation>) {
    && a.Keys == b.Keys
    && forall id | id in a :: IsTerminal(a[id].status) <==> IsTerminal(b[id].status)
  }

  // What every run keeps: resuming knows which snapshots are unfinished, and the
  // coordinator and the store agree on which operations have ended.
  predicate Noted(reg: Registry, context: Context, live: Live) {
    && Tracked(reg, context, live)
    && PendingAgrees(Pending(live.stored.items), Replayed(reg, context, live))
    && EndsAgree(live.core.operations, SavedOperations(live.stored.head))
  }

  // ---- Restarts ----

  // A restart takes the saved value of an operation, unless that and its snapshot in the
  // history are both terminal: then it takes the snapshot. So an operation has ended in
  // the restarted coordinator if and only if it has in the store, and the saved value is
  // lost exactly when it is a second end, other than the one in the history.
  lemma RestartedOperation(reg: Registry, context: Context, live: Live, id: Id)
    requires Noted(reg, context, live) && id in SavedOperations(live.stored.head)
    ensures id in Replayed(reg, context, live)
    ensures Restore(reg, context, live.stored).Ok? && id in Restore(reg, context, live.stored).value.operations
    ensures var restored := Restore(reg, context, live.stored).value.operations[id];
      var saved, snapshot := SavedOperations(live.stored.head)[id], Replayed(reg, context, live)[id];
      && restored == (if IsTerminal(saved.status) && IsTerminal(snapshot.status) then snapshot else saved)
      && (IsTerminal(restored.status) <==> IsTerminal(saved.status))
      && (restored == saved <==> saved == snapshot || !IsTerminal(saved.status) || !IsTerminal(snapshot.status))
  {
    hide Replay, Overlay, Resume, PendingAgrees, CallsCoherent, HeadOK, Named, Mirrors, Pending;
    RestoreTracks(reg, context, live);
    SavedMirrors(live.stored.head);
    var replayed := Replay(reg, NewCore(context), live.stored.items).value;
    RestoredValue(live.(core := live.core.(operations := SavedOperations(live.stored.head))), replayed, id);
  }

  // ---- Steps ----

  lemma PlainItemNotes(reg: Registry, context: Context, live: Live, data: Data, at: Time)
    requires Noted(reg, context, live)
    requires !data.StatusData? && !data.ForkData? && Persist(reg, live, data, at).Ok?
    ensures Noted(reg, context, Persist(reg, live, data, at).value)
  {
    hide Append, Replay, Pending, HeadOK, ValidInput, AddControl, AddCalls, CallsCoherent, Named, PendingAgrees;
    PlainItemTracks(reg, context, live, data, at);
    PlainAppend(live.stored, data, at);
    var item := SessionItem(live.stored.head.itemSequence + 1, at, data);
    Tracking.ReplayLonger(reg, context, live.stored.items, item);
    PendingLonger(live.stored.items, item);
    OtherItemsIgnoreOperations(reg, Replay(reg, NewCore(context), live.stored.items).value, live.core, data);
  }

  lemma OverlayKeepsEnds(a: map<Id, Operation>, b: map<Id, Operation>, values: seq<Operation>)
    requires EndsAgree(a, b)
    ensures EndsAgree(Overlay(a, values), Overlay(b, values))
  {
    hide Overlay, IDs;
    OverlayIDs(a, values);
    OverlayIDs(b, values);
    forall id | id in Overlay(a, values)
      ensures IsTerminal(Overlay(a, values)[id].status) <==> IsTerminal(Overlay(b, values)[id].status)
    {
      if id in IDs(values) {
        OverlayHits(a, b, values, id);
      } else {
        OverlayMisses(a, values, id);
        OverlayMisses(b, values, id);
      }
    }
  }

  // A recorded status notes its snapshots, whatever it does to the saved operations.
  lemma StatusNotes(reg: Registry, context: Context, live: Live, status: ToolCallStatus, at: Time)
    requires Noted(reg, context, live) && Recordable(reg, live, status) && Persist(reg, live, StatusData(status), at).Ok?
    requires var next := Persist(reg, live, StatusData(status), at).value;
      && Tracked(reg, context, next)
      && EndsAgree(Overlay(live.core.operations, status.operations), SavedOperations(next.stored.head))
    ensures Noted(reg, context, Persist(reg, live, StatusData(status), at).value)
  {
    hide AddItem, AppendToHead, Replay, Pending, HeadOK, CallsCoherent, PendingAgrees, Overlay, Named, EndsAgree;
    var next := Persist(reg, live, StatusData(status), at).value;
    var replayed := Replay(reg, NewCore(context), live.stored.items).value;
    var item := next.stored.items[|live.stored.items|];
    assert next.stored.items == live.stored.items + [item];
    StatusItem(live.stored, status, at);
    Tracking.ReplayLonger(reg, context, live.stored.items, item);
    PendingLonger(live.stored.items, item);
    StatusIsSelfContained(reg, replayed, live.core, status);
    PendingFollows(Pending(live.stored.items), replayed.operations, status.operations);
  }

  lemma ScheduleNotes(reg: Registry, context: Context, live: Live, key: CallKey, attempt: nat, at: Time)
    requires Noted(reg, context, live) && Apply(reg, context, live, Schedule(key, attempt, at)).Ok?
    ensures Noted(reg, context, Apply(reg, context, live, Schedule(key, attempt, at)).value)
  {
    hide AddItem, AppendToHead, Replay, Pending, Overlay, HeadOK, Mirrors, PendingAgrees, CallsCoherent, Named, EndsAgree,
         Recordable, ScheduledStatus, SavedOperations;
    var status := ScheduledStatus(reg, key, live.core.toolCalls[key].call, attempt);
    ScheduleIsRecordable(reg, context, live, key, attempt, at);
    ScheduledKey(reg, key, live.core.toolCalls[key].call, attempt);
    ScheduleTracks(reg, context, live, key, attempt, at);
    SavedMirrors(live.stored.head);
    FirstStatusMirrors(live.(core := live.core.(operations := SavedOperations(live.stored.head))), status, at);
    var next := Persist(reg, live, StatusData(status), at).value;
    MirrorIsSaved(Overlay(SavedOperations(live.stored.head), status.operations), next.stored.head);
    OverlayKeepsEnds(live.core.operations, SavedOperations(live.stored.head), status.operations);
    StatusNotes(reg, context, live, status, at);
  }

  lemma ReconcileNotes(reg: Registry, context: Context, live: Live, key: CallKey, at: Time)
    requires Noted(reg, context, live) && Apply(reg, context, live, Reconcile(key, at)).Ok?
    ensures Noted(reg, context, Apply(reg, context, live, Reconcile(key, at)).value)
  {
    hide AddItem, AppendToHead, Replay, Pending, Overlay, HeadOK, PendingAgrees, CallsCoherent, Named, EndsAgree, Recordable,
         IDSet, IDs;
    var status := ReconciledStatus(live.core, key);
    ReconcileIsRecordable(reg, context, live, key);
    ReconcileTracks(reg, context, live, key, at);
    SecondStatus(live.stored, status, at);
    StatusNotes(reg, context, live, status, at);
  }

  lemma UpdateNotes(reg: Registry, context: Context, live: Live, update: Operation)
    requires Noted(reg, context, live) && Apply(reg, context, live, TakeUpdate(update)).Ok?
    ensures Noted(reg, context, Apply(reg, context, live, TakeUpdate(update)).value)
    ensures SavedOperations(Apply(reg, context, live, TakeUpdate(update)).value.stored.head)
      == SavedOperations(live.stored.head)[update.id := update]
  {
    hide Replay, Pending, PendingAgrees, SaveOperation, CallsCoherent, HeadOK, Mirrors, Named, SavedOperations;
    UpdateTracks(reg, context, live, update);
    SavedMirrors(live.stored.head);
    SaveMirrors(SavedOperations(live.stored.head), live.stored.head, update);
    MirrorIsSaved(SavedOperations(live.stored.head)[update.id := update], SaveOperation(live.stored.head, update).value);
  }

  lemma RestartNotes(reg: Registry, context: Context, live: Live)
    requires Noted(reg, context, live)
    ensures Apply(reg, context, live, Restart).Ok?
    ensures Noted(reg, context, Apply(reg, context, live, Restart).value)
  {
    hide Replay, Pending, PendingAgrees, CallsCoherent, HeadOK, Named, SavedOperations, Restore;
    RestartTracks(reg, context, live);
    RestoreTracks(reg, context, live);
    forall id | id in SavedOperations(live.stored.head) {
      RestartedOperation(reg, context, live, id);
    }
  }

  lemma ActionNotes(reg: Registry, context: Context, live: Live, action: Action)
    requires Noted(reg, context, live) && Apply(reg, context, live, action).Ok?
    ensures Noted(reg, context, Apply(reg, context, live, action).value)
  {
    hide Noted, Persist, Restore;
    match action
    case TakeInput(input, at) => PlainItemNotes(reg, context, live, InputData(input), at);
    case StartTurn(turnID, at) =>
      PlainItemNotes(reg, context, live, TurnData(Turn(turnID, live.core.turnID, Regular)), at);
    case TakeResponse(output, at) =>
      PlainItemNotes(reg, context, live, ResponseData(ModelResponse(live.core.turnID, output)), at);
    case Schedule(key, attempt, at) => ScheduleNotes(reg, context, live, key, attempt, at);
    case Reconcile(key, at) => ReconcileNotes(reg, context, live, key, at);
    case TakeUpdate(update) => UpdateNotes(reg, context, live, update);
    case Restart => RestartNotes(reg, context, live);
  }

  // ---- Runs ----

  lemma {:induction false} RunsAreNoted(reg: Registry, context: Context, start: Live, actions: seq<Action>)
    requires Noted(reg, context, start) && Run(reg, context, start, actions).Ok?
    ensures Noted(reg, context, Run(reg, context, start, actions).value)
    decreases |actions|
  {
    hide Noted, Apply;
    if actions != [] {
      RunsAreNoted(reg, context, start, actions[..|actions| - 1]);
      ActionNotes(reg, context, Run(reg, context, start, actions[..|actions| - 1]).value, actions[|actions| - 1]);
    }
  }

  // After every step of every run, with restarts at any points and whatever updates the
  // store accepts, late ones too: an operation has ended in the coordinator if and only
  // if it has in the store, before and after a restart, and what the restart makes of it
  // is told by its saved value and its snapshot in the history.
  lemma OperationsAfterRestart(reg: Registry, context: Context, start: Live, actions: seq<Action>, id: Id)
    requires Noted(reg, context, start) && Run(reg, context, start, actions).Ok?
    requires id in Run(reg, context, start, actions).value.core.operations
    ensures var live := Run(reg, context, start, actions).value;
      && Tracked(reg, context, live)
      && id in SavedOperations(live.stored.head) && id in Replayed(reg, context, live)
      && Restore(reg, context, live.stored).Ok? && id in Restore(reg, context, live.stored).value.operations
      && var saved, snapshot := SavedOperations(live.stored.head)[id], Replayed(reg, context, live)[id];
         var restored := Restore(reg, context, live.stored).value.operations[id];
         && (IsTerminal(live.core.operations[id].status) <==> IsTerminal(saved.status))
         && (IsTerminal(restored.status) <==> IsTerminal(saved.status))
         && restored == (if IsTerminal(saved.status) && IsTerminal(snapshot.status) then snapshot else saved)
         && (restored == saved <==> saved == snapshot || !IsTerminal(saved.status) || !IsTerminal(snapshot.status))
  {
    hide Run, Tracked, SavedOperations, PendingAgrees, Restore, Replay, Pending;
    RunsAreNoted(reg, context, start, actions);
    RestartedOperation(reg, context, Run(reg, context, start, actions).value, id);
  }

  // When a restart sees an update, in any state that a run leads to, after late updates
  // too: exactly when it does not end the operation, or the snapshot in the history has
  // not ended, or the two are the same. What the restart makes of the other operations
  // does not depend on it.
  lemma UpdateIsSeenExactly(reg: Registry, context: Context, live: Live, update: Operation)
    requires Noted(reg, context, live) && Apply(reg, context, live, TakeUpdate(update)).Ok?
    ensures var next := Apply(reg, context, live, TakeUpdate(update)).value;
      && update.id in Replayed(reg, context, live)
      && Restore(reg, context, live.stored).Ok? && Restore(reg, context, next.stored).Ok?
      && var before, after := Restore(reg, context, live.stored).value, Restore(reg, context, next.stored).value;
         var snapshot := Replayed(reg, context, live)[update.id];
         && update.id in after.operations
         && (after.operations[update.id] == update
             <==> update == snapshot || !IsTerminal(update.status) || !IsTerminal(snapshot.status))
         && after.operations - {update.id} == before.operations - {update.id}
  {
    hide Replay, Restore, PendingAgrees, SavedOperations, CallsCoherent, HeadOK, Named, SaveOperation, Pending;
    UpdateNotes(reg, context, live, update);
    UpdateTracks(reg, context, live, update);
    var next := Apply(reg, context, live, TakeUpdate(update)).value;
    RestoreTracks(reg, context, live);
    RestoreTracks(reg, context, next);
    RestartedOperation(reg, context, next, update.id);
    var before, after := Restore(reg, context, live.stored).value, Restore(reg, context, next.stored).value;
    forall id | id in live.core.operations && id != update.id
      ensures id in before.operations && id in after.operations && after.operations[id] == before.operations[id]
    {
      RestartedOperation(reg, context, live, id);
      RestartedOperation(reg, context, next, id);
    }
  }

  lemma NewSessionIsNoted(reg: Registry, context: Context, session: SessionInfo)
    ensures Noted(reg, context, Live(NewCore(context), NewStored(session)))
  {
  }

  // Where no update has come late everything is noted.
  lemma ReplayableIsNoted(reg: Registry, context: Context, live: Live)
    requires Replayable(reg, context, live)
    ensures Noted(reg, context, live)
  {
    hide Replay, Pending, PendingAgrees, SnapshotsAgree, Tracks, SavedOperations, Mirrors;
    MirrorIsSaved(live.core.operations, live.stored.head);
  }
}
