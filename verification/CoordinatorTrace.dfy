// What a coordinator has done, as the steps of a run, and what single steps leave
// alone.
module CoordinatorTrace {
  import opened Session
  import opened SessionState
  import opened ContextBuilder
  import opened CoordinatorState
  import opened CodecProofs
  import opened Tracking
  import opened ReplayProofs
  import opened Requests
  import RequestShape

  // Where a session started, the steps taken since (by this process and by earlier
  // ones), where they led, and whether no update has come late.
  datatype Trace = Trace(start: Live, actions: seq<Action>, live: Live, kept: bool)

  ghost predicate Reached(reg: Registry, context: Context, trace: Trace) {
    && Tracked(reg, context, trace.start)
    && Run(reg, context, trace.start, trace.actions) == Ok(trace.live)
    && (trace.kept ==>
          Replayable(reg, context, trace.start) && EnvironmentKept(reg, context, trace.start, trace.actions))
  }

  function After(reg: Registry, context: Context, trace: Trace, action: Action): Trace
    requires Apply(reg, context, trace.live, action).Ok?
  {
    Trace(trace.start, trace.actions + [action], Apply(reg, context, trace.live, action).value,
          trace.kept && EnvironmentKeeps(trace.live.core, action))
  }

  lemma StepIsReached(reg: Registry, context: Context, trace: Trace, action: Action)
    requires Reached(reg, context, trace) && Apply(reg, context, trace.live, action).Ok?
    ensures Reached(reg, context, After(reg, context, trace, action))
    ensures Sent(reg, context, trace.start, trace.actions + [action])
      == Sent(reg, context, trace.start, trace.actions) + SentBy(trace.live, action)
  {
    hide Apply, Tracked, Synced, EnvironmentKeeps, SentBy;
    var longer := trace.actions + [action];
    assert longer[..|longer| - 1] == trace.actions;
    if trace.kept && EnvironmentKeeps(trace.live.core, action) {
      forall n | 0 <= n < |longer| && Run(reg, context, trace.start, longer[..n]).Ok?
        ensures EnvironmentKeeps(Run(reg, context, trace.start, longer[..n]).value.core, longer[n])
      {
        if n < |trace.actions| {
          assert longer[..n] == trace.actions[..n];
        }
      }
    }
  }

  // What has been taken in: inputs, updates and the outputs of the model, each in order.
  datatype Intake = Intake(inputs: seq<Input>, updates: seq<Operation>, outputs: seq<seq<Item>>)

  function Take(intake: Intake, action: Action): Intake {
    match action
    case TakeInput(input, _) => intake.(inputs := intake.inputs + [input])
    case TakeUpdate(update) => intake.(updates := intake.updates + [update])
    case TakeResponse(output, _) => intake.(outputs := intake.outputs + [output])
    case _ => intake
  }

  function Taken(actions: seq<Action>): Intake {
    if actions == [] then Intake([], [], []) else Take(Taken(actions[..|actions| - 1]), actions[|actions| - 1])
  }

  lemma TakenLonger(actions: seq<Action>, action: Action)
    ensures Taken(actions + [action]) == Take(Taken(actions), action)
  {
    assert (actions + [action])[..|actions|] == actions;
  }

  // The session of a trace gives back its state except for values of operations; these
  // too, as long as no update has come late.
  lemma ReachedIsTracked(reg: Registry, context: Context, trace: Trace)
    requires Reached(reg, context, trace)
    ensures Tracked(reg, context, trace.live)
    ensures Restore(reg, context, trace.live.stored).Ok?
    ensures WithoutOperations(Restore(reg, context, trace.live.stored).value) == WithoutOperations(trace.live.core)
  {
    hide Run, EnvironmentKept, Restore, Tracked, Synced;
    RunsAreTracked(reg, context, trace.start, trace.actions);
  }

  lemma ReachedIsReplayable(reg: Registry, context: Context, trace: Trace)
    requires Reached(reg, context, trace) && trace.kept
    ensures Replayable(reg, context, trace.live)
    ensures Restore(reg, context, trace.live.stored) == Ok(trace.live.core)
  {
    hide Run, EnvironmentKept, Restore, Replayable;
    RunsAreReplayable(reg, context, trace.start, trace.actions);
  }

  // ---- What a status leaves alone ----

  predicate OthersUnchanged(a: map<CallKey, CallState>, b: map<CallKey, CallState>, key: CallKey) {
    && b.Keys <= a.Keys
    && (forall other | other in a && other != key :: other in b && b[other] == a[other])
  }

  lemma StatusTouchesOneCall(reg: Registry, core: Core, status: ToolCallStatus)
    requires AddItem(reg, core, StatusData(status)).Ok?
    ensures var next := AddItem(reg, core, StatusData(status)).value;
      && OthersUnchanged(core.toolCalls, next.toolCalls, Key(status))
      && (Key(status) in next.toolCalls ==> next.toolCalls[Key(status)].status == Some(status.status))
      && next.operations == Overlay(core.operations, status.operations)
  {
    hide Overlay, AddResult, Collect, Collectable, AllTerminal, IDSet;
  }

  // A call waits for what its status says.
  predicate Waits(call: CallState) {
    call.status.Some? ==> forall i | 0 <= i < |call.status.value.waitingFor| ::
      call.status.value.waitingFor[i] in call.operations
  }

  predicate AllWait(core: Core) {
    forall key | key in core.toolCalls :: Waits(core.toolCalls[key])
  }

  lemma StatusKeepsWaits(reg: Registry, core: Core, status: ToolCallStatus)
    requires AllWait(core) && AddItem(reg, core, StatusData(status)).Ok?
    ensures AllWait(AddItem(reg, core, StatusData(status)).value)
  {
    hide Overlay, AddResult, Collect, Collectable, AllTerminal;
  }

  lemma ItemKeepsWaits(reg: Registry, core: Core, data: Data)
    requires AllWait(core) && AddItem(reg, core, data).Ok?
    ensures AllWait(AddItem(reg, core, data).value)
  {
    hide AddCalls, AddControl, ValidInput, ShowResult, NoteStatus;
    match data
    case ResponseData(response) => AddedCalls(core.toolCalls, response.turnID, response.output);
    case StatusData(status) => StatusKeepsWaits(reg, core, status);
    case _ =>
  }

  lemma ItemKeepsCalls(reg: Registry, core: Core, data: Data)
    requires (data.InputData? || data.TurnData?) && AddItem(reg, core, data).Ok?
    ensures var next := AddItem(reg, core, data).value;
      next.toolCalls == core.toolCalls && next.operations == core.operations
  {
    hide ValidInput, AddControl;
  }

  // ---- Dispatched operations ----

  // Every unfinished operation is among the dispatched ones, which are known and have
  // different IDs.
  predicate Covered(operations: map<Id, Operation>, dispatched: seq<Operation>) {
    && (forall id | id in operations && !IsTerminal(operations[id].status) :: id in IDs(dispatched))
    && IDs(dispatched) <= operations.Keys
    && DistinctIDs(dispatched)
  }

  // The state has these values.
  predicate AreHeld(operations: map<Id, Operation>, values: seq<Operation>) {
    forall i | 0 <= i < |values| :: values[i].id in operations && operations[values[i].id] == values[i]
  }

  lemma NewOperationsHeld(operations: map<Id, Operation>, held: seq<Operation>, values: seq<Operation>)
    requires AreHeld(operations, held) && DistinctIDs(values)
    requires forall i | 0 <= i < |values| :: values[i].id !in operations
    ensures AreHeld(Overlay(operations, values), held + values)
  {
    hide Overlay;
    OverlayIDs(operations, values);
    forall i | 0 <= i < |held|
      ensures held[i].id in Overlay(operations, values) && Overlay(operations, values)[held[i].id] == held[i]
    {
      OverlayMisses(operations, values, held[i].id);
    }
    forall i | 0 <= i < |values|
      ensures values[i].id in Overlay(operations, values) && Overlay(operations, values)[values[i].id] == values[i]
    {
      OverlayHits(operations, operations, values, values[i].id);
      var j :| 0 <= j < |values| && values[j] == Overlay(operations, values)[values[i].id];
      assert values[j].id == values[i].id;
      assert j == i;
    }
  }

  function OperationsIn(statuses: seq<ToolCallStatus>): seq<Operation> {
    if statuses == [] then []
    else OperationsIn(statuses[..|statuses| - 1]) + statuses[|statuses| - 1].operations
  }

  lemma OperationsInLonger(statuses: seq<ToolCallStatus>, status: ToolCallStatus)
    ensures OperationsIn(statuses + [status]) == OperationsIn(statuses) + status.operations
  {
    assert (statuses + [status])[..|statuses|] == statuses;
  }

  lemma NewOperationsCovered(operations: map<Id, Operation>, dispatched: seq<Operation>, values: seq<Operation>)
    requires Covered(operations, dispatched) && DistinctIDs(values)
    requires forall i | 0 <= i < |values| :: values[i].id !in operations
    ensures Covered(Overlay(operations, values), dispatched + values)
  {
    hide Overlay;
    OverlayIDs(operations, values);
    var all := dispatched + values;
    forall id
      ensures id in IDs(all) <==> id in IDs(dispatched) || id in IDs(values)
    {
      IDsOfConcat(dispatched, values, id);
    }
    forall id | id in Overlay(operations, values) && !IsTerminal(Overlay(operations, values)[id].status)
      ensures id in IDs(all)
    {
      if id !in IDs(values) {
        OverlayMisses(operations, values, id);
      }
    }
    forall i, j | 0 <= i < j < |all|
      ensures all[i].id != all[j].id
    {
      if i < |dispatched| <= j {
        assert dispatched[i].id in IDs(dispatched);
      }
    }
  }

  lemma IDsOfConcat(a: seq<Operation>, b: seq<Operation>, id: Id)
    ensures id in IDs(a + b) <==> id in IDs(a) || id in IDs(b)
  {
    var all := a + b;
    if id in IDs(a) {
      var i :| 0 <= i < |a| && a[i].id == id;
      assert all[i].id == id;
    }
    if id in IDs(b) {
      var i :| 0 <= i < |b| && b[i].id == id;
      assert all[|a| + i].id == id;
    }
  }

  // The operations that a first status submits are new and ready to run.
  lemma ScheduledAreNew(reg: Registry, context: Context, live: Live, key: CallKey, attempt: nat, at: Time)
    requires Tracked(reg, context, live) && Apply(reg, context, live, Schedule(key, attempt, at)).Ok?
    ensures var operations := ScheduledStatus(reg, key, live.core.toolCalls[key].call, attempt).operations;
      && DistinctIDs(operations)
      && (forall i | 0 <= i < |operations| :: operations[i].status == Ready && operations[i].id !in live.core.operations)
  {
    hide AddItem, Replay, HeadOK, CallsCoherent, Named, ValidReferences, ValidOperation, Recordable;
    ScheduleIsRecordable(reg, context, live, key, attempt, at);
    ScheduledKey(reg, key, live.core.toolCalls[key].call, attempt);
  }

  // A call that waits for what it submitted stays open; it is shown as running.
  lemma WaitingCallStaysOpen(reg: Registry, context: Context, live: Live, key: CallKey, attempt: nat, at: Time)
    requires Tracked(reg, context, live) && Apply(reg, context, live, Schedule(key, attempt, at)).Ok?
    requires var status := ScheduledStatus(reg, key, live.core.toolCalls[key].call, attempt).status;
      status.error == "" && status.waitingFor != []
    ensures key in Apply(reg, context, live, Schedule(key, attempt, at)).value.core.toolCalls
  {
    hide Tracked, Append, Overlay, IDSet, AddResult, Collectable, Collect, ScheduledStatus;
    var call := live.core.toolCalls[key];
    var status := ScheduledStatus(reg, key, call.call, attempt);
    ScheduleIsRecordable(reg, context, live, key, attempt, at);
    ScheduledKey(reg, key, call.call, attempt);
    ScheduledAreNew(reg, context, live, key, attempt, at);
    WaitedForIsUnfinished(live.core.operations, call, status);
    AddFromOverlay(reg, live.core, status);
  }

  lemma WaitedForIsUnfinished(operations: map<Id, Operation>, call: CallState, status: ToolCallStatus)
    requires status.status.waitingFor != [] && IDSet(status.status.waitingFor) <= IDs(status.operations)
    requires forall i | 0 <= i < |status.operations| :: status.operations[i].status == Ready
    ensures !AllTerminal(Overlay(operations, status.operations), call.operations + IDSet(status.status.waitingFor))
  {
    hide Overlay;
    var id := status.status.waitingFor[0];
    assert id in IDSet(status.status.waitingFor);
    OverlayHits(operations, operations, status.operations, id);
  }

  // A call that waits for nothing has ended at once.
  lemma EndedCallCloses(reg: Registry, context: Context, live: Live, key: CallKey, attempt: nat, at: Time)
    requires Tracked(reg, context, live) && Apply(reg, context, live, Schedule(key, attempt, at)).Ok?
    requires var status := ScheduledStatus(reg, key, live.core.toolCalls[key].call, attempt).status;
      status.error != "" || status.waitingFor == []
    ensures key !in Apply(reg, context, live, Schedule(key, attempt, at)).value.core.toolCalls
  {
    hide Append, Overlay, AddItem, Recordable, ScheduledStatus, HeadOK, HeadTakes, Replay, Initializable;
    var call := live.core.toolCalls[key];
    var status := ScheduledStatus(reg, key, call.call, attempt);
    ScheduleIsRecordable(reg, context, live, key, attempt, at);
    ScheduledKey(reg, key, call.call, attempt);
    FirstStatus(live.stored, status, at);
    AddFromOverlay(reg, live.core, status);
    assert CallCoherent(reg, key, call, live.core.operations, live.stored.head);
    var output, running := RequestShape.RecordedStatusIsShown(reg, live, status);
    assert status.status.waitingFor == [];
    assert call.operations + IDSet([]) == {};
  }

  // A call whose operations have all ended is closed by its final status.
  lemma ReconciledCallCloses(reg: Registry, context: Context, live: Live, key: CallKey, at: Time)
    requires Tracked(reg, context, live) && Apply(reg, context, live, Reconcile(key, at)).Ok?
    ensures var next := Apply(reg, context, live, Reconcile(key, at)).value.core;
      key !in next.toolCalls && next.operations == live.core.operations
  {
    hide Tracked, Append, Overlay, IDSet, AddItem, AllTerminal, Collect, Recordable;
    var status := ReconciledStatus(live.core, key);
    ReconcileIsRecordable(reg, context, live, key);
    var output, running := RequestShape.RecordedStatusIsShown(reg, live, status);
    var call := live.core.toolCalls[key];
    assert call.operations + IDSet(status.status.waitingFor) == call.operations;
    StatusTouchesOneCall(reg, live.core, status);
  }

  // ---- A hard stop ----

  // Since the n-th step no turn was started, no response taken and nothing scheduled.
  predicate QuietSince(actions: seq<Action>, n: nat) {
    && n <= |actions|
    && forall i | n <= i < |actions| :: actions[i].TakeInput? || actions[i].Reconcile? || actions[i].TakeUpdate?
  }
}
