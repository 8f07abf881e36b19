// What the store and the translators accept of what the coordinator does: exactly when
// a step is refused.
module Acceptance {
  import opened Session
  import opened SessionState
  import opened ContextBuilder
  import opened CoordinatorState
  import opened CodecProofs
  import opened Tracking
  import opened Restarts
  import opened Requests
  import Accounting
  import AppendRules
  import RequestShape
  import ForkLoads

  // The coordinator and the store agree on the current turn, and whatever has a response
  // or a status is the session's own.
  predicate TurnsAgree(live: Live) {
    var head := live.stored.head;
    && live.core.turnID == head.latestTurnID
    && head.respondedTurns <= head.ownedTurns <= head.turns
    && (forall key | key in head.toolCallStatuses :: key.1 != "")
  }

  lemma StatusKeepsTurn(reg: Registry, core: Core, status: ToolCallStatus)
    requires AddItem(reg, core, StatusData(status)).Ok?
    ensures AddItem(reg, core, StatusData(status)).value.turnID == core.turnID
  {
    hide Overlay, AddResult, Collect, Collectable, AllTerminal, IDSet;
  }

  lemma ItemKeepsTurn(reg: Registry, core: Core, data: Data)
    requires AddItem(reg, core, data).Ok?
    ensures AddItem(reg, core, data).value.turnID == if data.TurnData? then data.turn.id else core.turnID
  {
    hide AddCalls, ValidInput, ShowResult, NoteStatus, AddControl;
    if data.StatusData? {
      StatusKeepsTurn(reg, core, data.status);
    }
  }

  lemma AppendKeepsTurns(stored: Stored, data: Data, operations: seq<Operation>, at: Time)
    requires Append(stored, data, operations, at).Ok?
    requires stored.head.respondedTurns <= stored.head.ownedTurns <= stored.head.turns
    requires forall key | key in stored.head.toolCallStatuses :: key.1 != ""
    ensures var head := Append(stored, data, operations, at).value.head;
      && head.latestTurnID == (if data.TurnData? then data.turn.id else stored.head.latestTurnID)
      && head.respondedTurns <= head.ownedTurns <= head.turns
      && (forall key | key in head.toolCallStatuses :: key.1 != "")
  {
    hide ValidInput, Initializable, ValidReferences;
  }

  lemma PersistKeepsTurns(reg: Registry, live: Live, data: Data, at: Time)
    requires TurnsAgree(live) && Persist(reg, live, data, at).Ok?
    ensures TurnsAgree(Persist(reg, live, data, at).value)
  {
    hide AddItem, Append;
    ItemKeepsTurn(reg, live.core, data);
    AppendKeepsTurns(live.stored, Stripped(data), OperationsOf(data), at);
  }

  lemma ActionKeepsTurns(reg: Registry, context: Context, live: Live, action: Action)
    requires Tracked(reg, context, live) && TurnsAgree(live) && Apply(reg, context, live, action).Ok?
    ensures TurnsAgree(Apply(reg, context, live, action).value)
  {
    hide Tracked, Persist, Overlay, Restore, ScheduledStatus, ReconciledStatus, ValidOperation;
    match action
    case TakeInput(input, at) => PersistKeepsTurns(reg, live, InputData(input), at);
    case StartTurn(turnID, at) => PersistKeepsTurns(reg, live, TurnData(Turn(turnID, live.core.turnID, Regular)), at);
    case TakeResponse(output, at) =>
      PersistKeepsTurns(reg, live, ResponseData(ModelResponse(live.core.turnID, output)), at);
    case Schedule(key, attempt, at) =>
      var status := ScheduledStatus(reg, key, live.core.toolCalls[key].call, attempt);
      var ready := live.core.(operations := Overlay(live.core.operations, status.operations));
      PersistKeepsTurns(reg, live.(core := ready), StatusData(status), at);
    case Reconcile(key, at) => PersistKeepsTurns(reg, live, StatusData(ReconciledStatus(live.core, key)), at);
    case TakeUpdate(_) =>
    case Restart => RestartTracks(reg, context, live);
  }

  // Over every run, restarts included, the coordinator and the store stay in agreement.
  lemma {:induction false} RunsKeepTurns(reg: Registry, context: Context, start: Live, actions: seq<Action>)
    requires Tracked(reg, context, start) && TurnsAgree(start)
    requires Run(reg, context, start, actions).Ok?
    ensures TurnsAgree(Run(reg, context, start, actions).value)
    decreases |actions|
  {
    hide Tracked, Apply, TurnsAgree;
    if actions != [] {
      RunsKeepTurns(reg, context, start, actions[..|actions| - 1]);
      RunsAreTracked(reg, context, start, actions[..|actions| - 1]);
      ActionKeepsTurns(reg, context, Run(reg, context, start, actions[..|actions| - 1]).value, actions[|actions| - 1]);
    }
  }

  // ---- When a step is refused ----

  // A turn under a new ID is never refused: the turn before it is the one that the store
  // has, across restarts too.
  lemma TurnIsAccepted(reg: Registry, context: Context, live: Live, turnID: Id, at: Time)
    requires TurnsAgree(live) && AllScheduled(live.core)
    ensures Apply(reg, context, live, StartTurn(turnID, at)).Ok? <==> turnID != "" && turnID !in live.stored.head.turns
  {
  }

  // The current turn is the session's own and has no response yet.
  predicate Awaits(live: Live) {
    live.core.turnID in live.stored.head.ownedTurns - live.stored.head.respondedTurns
  }

  // A response is taken exactly then.
  lemma ResponseIsAccepted(reg: Registry, context: Context, live: Live, output: seq<Item>, at: Time)
    ensures Apply(reg, context, live, TakeResponse(output, at)).Ok? <==> Awaits(live)
  {
    hide AddCalls;
  }

  // Once a turn has been started its response is taken, whatever it is and whatever comes
  // in before it, restarts included, unless another turn is started or it was taken.
  lemma {:induction false} StartedTurnIsAnswered(reg: Registry, context: Context, live: Live, turnID: Id, at: Time,
                                                 actions: seq<Action>, output: seq<Item>, later: Time)
    requires Tracked(reg, context, live) && TurnsAgree(live) && Apply(reg, context, live, StartTurn(turnID, at)).Ok?
    requires forall i | 0 <= i < |actions| :: !actions[i].StartTurn? && !actions[i].TakeResponse?
    requires var started := Apply(reg, context, live, StartTurn(turnID, at)).value;
      Run(reg, context, started, actions).Ok?
    ensures var started := Apply(reg, context, live, StartTurn(turnID, at)).value;
      Apply(reg, context, Run(reg, context, started, actions).value, TakeResponse(output, later)).Ok?
  {
    hide Run, Tracked, AddCalls;
    var started := Apply(reg, context, live, StartTurn(turnID, at)).value;
    ActionTracks(reg, context, live, StartTurn(turnID, at));
    StillAwaits(reg, context, started, actions);
    ResponseIsAccepted(reg, context, Run(reg, context, started, actions).value, output, later);
  }

  lemma {:induction false} StillAwaits(reg: Registry, context: Context, start: Live, actions: seq<Action>)
    requires Tracked(reg, context, start) && Awaits(start) && Run(reg, context, start, actions).Ok?
    requires forall i | 0 <= i < |actions| :: !actions[i].StartTurn? && !actions[i].TakeResponse?
    ensures Awaits(Run(reg, context, start, actions).value)
    decreases |actions|
  {
    hide Tracked, Apply;
    if actions != [] {
      var shorter, last := actions[..|actions| - 1], actions[|actions| - 1];
      StillAwaits(reg, context, start, shorter);
      RunsAreTracked(reg, context, start, shorter);
      TurnsOfAction(reg, context, Run(reg, context, start, shorter).value, last);
    }
  }

  // An input is refused exactly when it is not well formed, or an external one without a
  // text.
  lemma InputIsAccepted(reg: Registry, context: Context, live: Live, input: Input, at: Time)
    ensures Apply(reg, context, live, TakeInput(input, at)).Ok?
      <==> AppendRules.IsWellFormedInput(input) && (input.kind == External ==> input.payload.text.Some?)
  {
    hide AddControl, AddMessage;
  }

  // An update is refused exactly when it is not valid, is of no known operation, or is of
  // another type or version than the saved one; that it is late does not matter.
  lemma UpdateIsAccepted(reg: Registry, context: Context, live: Live, update: Operation)
    requires Tracked(reg, context, live)
    ensures update.id in live.core.operations ==> update.id in SavedOperations(live.stored.head)
    ensures Apply(reg, context, live, TakeUpdate(update)).Ok?
      <==> && AppendRules.IsStorable(update) && update.id in live.core.operations
           && SavedOperations(live.stored.head)[update.id].kind == update.kind
           && SavedOperations(live.stored.head)[update.id].version == update.version
  {
    hide Replay, CallsCoherent, Named;
    SavedMirrors(live.stored.head);
  }

  // The translator of a tool that is there can read its result, once the operations it
  // waits for are known.
  predicate CanShow(reg: Registry, name: string, status: ToolCallStatus, operations: map<Id, Operation>) {
    var ids := status.status.waitingFor;
    reg.resolves(name) && (forall i | 0 <= i < |ids| :: ids[i] in operations) ==>
      reg.translateResult(name, status.callID, status.status, Collect(operations, ids)).Some?
  }

  // The first status of a call is accepted exactly when its operations are valid, new and
  // those it waits for, its call ID is not empty, and the translator can read its result.
  lemma FirstStatusIsAccepted(reg: Registry, context: Context, live: Live, key: CallKey, attempt: nat, at: Time)
    requires Tracked(reg, context, live) && TurnsAgree(live)
    requires key in live.core.toolCalls && live.core.toolCalls[key].status.None?
    ensures var call := live.core.toolCalls[key].call;
      var status := ScheduledStatus(reg, key, call, attempt);
      Apply(reg, context, live, Schedule(key, attempt, at)).Ok?
      <==> && key.1 != ""
           && AppendRules.Starts(live.stored.head, status.status, status.operations)
           && CanShow(reg, call.name, status, Overlay(live.core.operations, status.operations))
  {
    hide AddItem, Replay, Overlay, Named, AppendToHead, AppendRules.Starts, ScheduledStatus, CanShow;
    var call := live.core.toolCalls[key];
    var status := ScheduledStatus(reg, key, call.call, attempt);
    assert CallCoherent(reg, key, call, live.core.operations, live.stored.head);
    ScheduledKey(reg, key, call.call, attempt);
    AddFromOverlay(reg, live.core, status);
    FirstStatusIsShown(reg, live.core, status);
    AppendRules.AppendsAreExact(live.stored.head, StatusData(status.(operations := [])), status.operations, at);
  }

  lemma FirstStatusIsShown(reg: Registry, core: Core, status: ToolCallStatus)
    requires Key(status) in core.toolCalls && core.toolCalls[Key(status)].operations == {}
    ensures AddItem(reg, core, StatusData(status)).Ok?
      <==> CanShow(reg, core.toolCalls[Key(status)].call.name, status, Overlay(core.operations, status.operations))
  {
    hide Overlay, AllTerminal, AddResult;
    var ids := status.status.waitingFor;
    assert forall i | 0 <= i < |ids| :: ids[i] in IDSet(ids);
  }

  // A call with an empty ID is never scheduled, by this process or a later one, and while
  // it is open no request can be sent: the session has come to its end.
  predicate IsStuck(core: Core, key: CallKey) {
    key in core.toolCalls && key.1 == "" && core.toolCalls[key].status.None?
  }

  // Such a call is taken with the response that asks for it.
  lemma EmptyCallIDIsTaken(reg: Registry, context: Context, live: Live, output: seq<Item>, at: Time)
    requires live.core.turnType == Regular && Accounting.HasCall(output, "")
    requires Apply(reg, context, live, TakeResponse(output, at)).Ok?
    ensures IsStuck(Apply(reg, context, live, TakeResponse(output, at)).value.core, (live.core.turnID, ""))
  {
    hide AddCalls;
    RequestShape.ResponseOpensCalls(live.core.toolCalls, live.core.turnID, output);
  }

  lemma ActionKeepsStuck(reg: Registry, context: Context, live: Live, action: Action, key: CallKey)
    requires Tracked(reg, context, live) && IsStuck(live.core, key)
    requires Apply(reg, context, live, action).Ok?
    ensures !action.StartTurn? && IsStuck(Apply(reg, context, live, action).value.core, key)
  {
    hide Tracked, Overlay, Restore, AddCalls, NoteStatus, ShowResult, ValidInput, AddControl, Initializable, ValidReferences,
         AddOperations, SaveOperation, Translated;
    match action
    case TakeResponse(output, at) => AddedCalls(live.core.toolCalls, live.core.turnID, output);
    case Schedule(other, attempt, at) =>
      var status := ScheduledStatus(reg, other, live.core.toolCalls[other].call, attempt);
      OtherCallsStay(reg, live.core.(operations := Overlay(live.core.operations, status.operations)), status, key);
    case Reconcile(other, at) => OtherCallsStay(reg, live.core, ReconciledStatus(live.core, other), key);
    case Restart =>
      RestartTracks(reg, context, live);
      var core := Apply(reg, context, live, Restart).value.core;
      assert core.toolCalls == WithoutOperations(core).toolCalls;
    case _ =>
  }

  lemma OtherCallsStay(reg: Registry, core: Core, status: ToolCallStatus, key: CallKey)
    requires AddItem(reg, core, StatusData(status)).Ok? && key in core.toolCalls && Key(status) != key
    ensures var next := AddItem(reg, core, StatusData(status)).value;
      key in next.toolCalls && next.toolCalls[key] == core.toolCalls[key]
  {
    hide Overlay, AddResult, Collect, Collectable, AllTerminal, IDSet;
  }

  lemma {:induction false} EmptyCallIDEndsSession(reg: Registry, context: Context, start: Live, actions: seq<Action>,
                                                  key: CallKey)
    requires Tracked(reg, context, start) && IsStuck(start.core, key)
    requires Run(reg, context, start, actions).Ok?
    ensures IsStuck(Run(reg, context, start, actions).value.core, key)
    ensures Sent(reg, context, start, actions) == []
    decreases |actions|
  {
    hide Tracked, Apply, IsStuck;
    if actions != [] {
      var shorter, last := actions[..|actions| - 1], actions[|actions| - 1];
      EmptyCallIDEndsSession(reg, context, start, shorter, key);
      RunsAreTracked(reg, context, start, shorter);
      ActionKeepsStuck(reg, context, Run(reg, context, start, shorter).value, last, key);
    }
  }

  // The final status of a call is never refused by the store: only a translator that
  // cannot read the result stands in its way.
  lemma FinalStatusIsAccepted(reg: Registry, context: Context, live: Live, key: CallKey, at: Time)
    requires Tracked(reg, context, live) && TurnsAgree(live) && CanReconcile(live.core, key)
    ensures var call, status := live.core.toolCalls[key], live.core.toolCalls[key].status.value;
      Apply(reg, context, live, Reconcile(key, at)).Ok?
      <==> reg.translateResult(call.call.name, key.1, status, Collect(live.core.operations, status.waitingFor)).Some?
  {
    hide AddItem, Replay, Named, IDSet, Overlay, AllTerminal;
    assert CallCoherent(reg, key, live.core.toolCalls[key], live.core.operations, live.stored.head);
    ReconcileIsRecordable(reg, context, live, key);
    FinalStatusIsShown(reg, live.core, key);
  }

  lemma FinalStatusIsShown(reg: Registry, core: Core, key: CallKey)
    requires CanReconcile(core, key) && reg.resolves(core.toolCalls[key].call.name)
    requires Overlay(core.operations, ReconciledStatus(core, key).operations) == core.operations
    requires core.toolCalls[key].operations == IDSet(core.toolCalls[key].status.value.waitingFor)
    ensures var call, status := core.toolCalls[key], core.toolCalls[key].status.value;
      AddItem(reg, core, StatusData(ReconciledStatus(core, key))).Ok?
      <==> reg.translateResult(call.call.name, key.1, status, Collect(core.operations, status.waitingFor)).Some?
  {
    hide Overlay, AllTerminal, AddResult;
    var ids := core.toolCalls[key].status.value.waitingFor;
    assert forall i | 0 <= i < |ids| :: ids[i] in IDSet(ids);
  }

  // ---- Where runs start ----

  function LastTurn(items: seq<SessionItem>): Id {
    if items == [] then ""
    else if items[|items| - 1].data.TurnData? then items[|items| - 1].data.turn.id
    else LastTurn(items[..|items| - 1])
  }

  lemma {:induction false} ReplayedTurn(reg: Registry, context: Context, items: seq<SessionItem>)
    requires Replay(reg, NewCore(context), items).Ok?
    ensures Replay(reg, NewCore(context), items).value.turnID == LastTurn(items)
    decreases |items|
  {
    hide AddItem;
    if items != [] {
      ReplayedTurn(reg, context, items[..|items| - 1]);
      ItemKeepsTurn(reg, Replay(reg, NewCore(context), items[..|items| - 1]).value, items[|items| - 1].data);
    }
  }

  lemma {:induction false} InheritedTurn(session: SessionInfo, items: seq<SessionItem>)
    ensures var stored := InheritAll(NewStored(session), items);
      && stored.head.latestTurnID == LastTurn(items) == LastTurn(stored.items)
    decreases |items|
  {
    if items != [] {
      InheritedTurn(session, items[..|items| - 1]);
      var inherited := InheritAll(NewStored(session), items[..|items| - 1]).items;
      assert InheritAll(NewStored(session), items).items[..|inherited|] == inherited;
    }
  }

  // A fork goes on from the turn it was forked at: coordinator and store agree on it.
  lemma ForkAgreesOnTurn(reg: Registry, context: Context, parent: Live, id: Id, previousTurnID: Id, at: Time)
    requires ForkLoads.Forkable(reg, context, parent) && ForkOf(parent.stored, id, previousTurnID, at).Ok?
    ensures var child := ForkOf(parent.stored, id, previousTurnID, at).value;
      Restore(reg, context, child).Ok? && TurnsAgree(Live(Restore(reg, context, child).value, child))
  {
    hide Boundary, InheritAll, Resume, Overlay, Replay, ForkLoads.Forkable;
    ForkLoads.ForksLoad(reg, context, parent, id, previousTurnID, at);
    var child := ForkOf(parent.stored, id, previousTurnID, at).value;
    var items := parent.stored.items[..Boundary(parent.stored.items, previousTurnID, 0, -1) + 1];
    InheritedTurn(SessionInfo(id, at), items);
    ReplayedTurn(reg, context, child.items);
    var inherited := InheritAll(NewStored(SessionInfo(id, at)), items).items;
    assert child.items[..|inherited|] == inherited;
  }
}
