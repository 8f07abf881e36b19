// What managers promise is what replay equivalence relies on: with one manager for each
// process, no update comes late.
module Delivery {
  import opened Session
  import opened SessionState
  import opened ContextBuilder
  import opened CoordinatorState
  import opened CodecProofs
  import opened Tracking
  import opened ReplayProofs
  import opened CoordinatorTrace
  import opened Manager

  function UnfinishedIDs(operations: map<Id, Operation>): set<Id> {
    set id | id in operations && !IsTerminal(operations[id].status)
  }

  // The operations that a process has given to its manager: those unfinished when it took
  // over, and those that it has scheduled.
  function Dispatched(reg: Registry, context: Context, start: Live, actions: seq<Action>): set<Id> {
    if actions == [] then UnfinishedIDs(start.core.operations)
    else
      var shorter, last := actions[..|actions| - 1], actions[|actions| - 1];
      var before := Run(reg, context, start, shorter);
      Dispatched(reg, context, start, shorter)
      + (if last.Schedule? && before.Ok? && last.key in before.value.core.toolCalls then
           IDs(ScheduledStatus(reg, last.key, before.value.core.toolCalls[last.key].call, last.attempt).operations)
         else {})
  }

  predicate NoRestart(actions: seq<Action>) {
    forall i | 0 <= i < |actions| :: !actions[i].Restart?
  }

  // The updates that a process takes are, in order, from one manager: they are of
  // operations that it was given, and nothing comes after a terminal one.
  predicate FromOneManager(reg: Registry, context: Context, start: Live, actions: seq<Action>) {
    && NothingAfterTerminal(Taken(actions).updates)
    && forall n | 0 <= n < |actions| && actions[n].TakeUpdate? ::
         actions[n].update.id in Dispatched(reg, context, start, actions[..n])
  }

  // An operation that was dispatched is known, and has ended only by an update.
  predicate EndedByUpdates(operations: map<Id, Operation>, dispatched: set<Id>, updates: seq<Operation>) {
    forall id | id in dispatched ::
      id in operations && (IsTerminal(operations[id].status) ==> HasEnded(updates, id))
  }

  lemma FromOneManagerBefore(reg: Registry, context: Context, start: Live, actions: seq<Action>)
    requires actions != [] && FromOneManager(reg, context, start, actions)
    ensures FromOneManager(reg, context, start, actions[..|actions| - 1])
  {
    hide Dispatched;
    var shorter, last := actions[..|actions| - 1], actions[|actions| - 1];
    assert forall n | 0 <= n <= |shorter| :: shorter[..n] == actions[..n];
    var updates, all := Taken(shorter).updates, Taken(actions).updates;
    assert |updates| <= |all| && all[..|updates|] == updates;
    assert forall i | 0 <= i < |updates| :: all[i] == updates[i];
  }

  // The operations after a step other than an update and a restart.
  lemma OperationsOfAction(reg: Registry, context: Context, live: Live, action: Action)
    requires Tracked(reg, context, live) && Apply(reg, context, live, action).Ok?
    requires !action.TakeUpdate? && !action.Restart?
    ensures var operations := Apply(reg, context, live, action).value.core.operations;
      if action.Schedule? then
        && action.key in live.core.toolCalls
        && var values := ScheduledStatus(reg, action.key, live.core.toolCalls[action.key].call, action.attempt).operations;
           && operations == Overlay(live.core.operations, values)
           && forall i | 0 <= i < |values| :: values[i].status == Ready && values[i].id !in live.core.operations
      else operations == live.core.operations
  {
    hide Tracked, Append, AddItem, Overlay, ScheduledStatus, ReconciledStatus, AllScheduled;
    match action
    case TakeInput(input, at) => ItemKeepsCalls(reg, live.core, InputData(input));
    case StartTurn(turnID, at) => ItemKeepsCalls(reg, live.core, TurnData(Turn(turnID, live.core.turnID, Regular)));
    case TakeResponse(output, at) =>
      OtherItemsIgnoreOperations(reg, live.core, live.core, ResponseData(ModelResponse(live.core.turnID, output)));
    case Schedule(key, attempt, at) =>
      var status := ScheduledStatus(reg, key, live.core.toolCalls[key].call, attempt);
      ScheduledAreNew(reg, context, live, key, attempt, at);
      AddFromOverlay(reg, live.core, status);
      StatusTouchesOneCall(reg, live.core, status);
    case Reconcile(key, at) => ReconciledCallCloses(reg, context, live, key, at);
  }

  lemma ScheduledAreNotEnded(operations: map<Id, Operation>, values: seq<Operation>, dispatched: set<Id>,
                             updates: seq<Operation>)
    requires EndedByUpdates(operations, dispatched, updates)
    requires forall i | 0 <= i < |values| :: values[i].status == Ready && values[i].id !in operations
    ensures EndedByUpdates(Overlay(operations, values), dispatched + IDs(values), updates)
  {
    hide Overlay, HasEnded;
    OverlayIDs(operations, values);
    forall id | id in dispatched + IDs(values) && IsTerminal(Overlay(operations, values)[id].status)
      ensures HasEnded(updates, id)
    {
      if id in IDs(values) {
        OverlayHits(operations, operations, values, id);
      } else {
        OverlayMisses(operations, values, id);
      }
    }
  }

  lemma UpdateEnds(operations: map<Id, Operation>, dispatched: set<Id>, updates: seq<Operation>, update: Operation)
    requires EndedByUpdates(operations, dispatched, updates) && update.id in dispatched
    requires NothingAfterTerminal(updates + [update])
    ensures !IsTerminal(operations[update.id].status)
    ensures EndedByUpdates(operations[update.id := update], dispatched, updates + [update])
  {
    OneMoreUpdate(updates, update);
    var all := updates + [update];
    assert all[|updates|] == update && forall i | 0 <= i < |updates| :: all[i] == updates[i];
  }

  lemma EnvironmentOfLonger(reg: Registry, context: Context, start: Live, actions: seq<Action>, action: Action)
    requires EnvironmentKept(reg, context, start, actions)
    requires Run(reg, context, start, actions).Ok? ==> EnvironmentKeeps(Run(reg, context, start, actions).value.core, action)
    ensures EnvironmentKept(reg, context, start, actions + [action])
  {
    hide Run, EnvironmentKeeps;
    var all := actions + [action];
    assert all[..|actions|] == actions;
    assert forall n | 0 <= n < |actions| :: all[..n] == actions[..n] && all[n] == actions[n];
  }

  // In one process, inputs, schedules and updates interleaved in any way.
  lemma {:induction false} OneManagerKeeps(reg: Registry, context: Context, start: Live, actions: seq<Action>)
    requires Tracked(reg, context, start) && Run(reg, context, start, actions).Ok?
    requires NoRestart(actions) && FromOneManager(reg, context, start, actions)
    ensures EnvironmentKept(reg, context, start, actions)
    ensures EndedByUpdates(Run(reg, context, start, actions).value.core.operations,
                           Dispatched(reg, context, start, actions), Taken(actions).updates)
    decreases |actions|
  {
    hide Tracked, Apply, EnvironmentKept, EndedByUpdates, NothingAfterTerminal, ScheduledStatus, UnfinishedIDs;
    if actions == [] {
      NothingHasEnded(reg, context, start);
    } else {
      var shorter, last := actions[..|actions| - 1], actions[|actions| - 1];
      assert actions == shorter + [last];
      FromOneManagerBefore(reg, context, start, actions);
      OneManagerKeeps(reg, context, start, shorter);
      RunsAreTracked(reg, context, start, shorter);
      var before := Run(reg, context, start, shorter).value;
      var dispatched := Dispatched(reg, context, start, shorter);
      if last.TakeUpdate? {
        UpdateEnds(before.core.operations, dispatched, Taken(shorter).updates, last.update);
        UpdatedOperations(reg, context, before, last.update);
        UpdateIsKnown(before.core.operations, dispatched, Taken(shorter).updates, last.update.id);
      } else {
        OperationsOfAction(reg, context, before, last);
        if last.Schedule? {
          ScheduledAreNotEnded(before.core.operations,
                               ScheduledStatus(reg, last.key, before.core.toolCalls[last.key].call, last.attempt).operations,
                               dispatched, Taken(shorter).updates);
        }
      }
      assert dispatched + {} == dispatched;
      EnvironmentOfLonger(reg, context, start, shorter, last);
    }
  }

  lemma UpdatedOperations(reg: Registry, context: Context, live: Live, update: Operation)
    requires Apply(reg, context, live, TakeUpdate(update)).Ok?
    ensures Apply(reg, context, live, TakeUpdate(update)).value.core.operations
      == live.core.operations[update.id := update]
  {
  }

  lemma UpdateIsKnown(operations: map<Id, Operation>, dispatched: set<Id>, updates: seq<Operation>, id: Id)
    requires EndedByUpdates(operations, dispatched, updates) && id in dispatched
    ensures id in operations
  {
  }

  lemma NothingHasEnded(reg: Registry, context: Context, start: Live)
    ensures EnvironmentKept(reg, context, start, [])
    ensures EndedByUpdates(start.core.operations, UnfinishedIDs(start.core.operations), [])
  {
  }

  // ---- Many processes ----

  function Flat(processes: seq<seq<Action>>): seq<Action> {
    if processes == [] then [] else Flat(processes[..|processes| - 1]) + [Restart] + processes[|processes| - 1]
  }

  // Each process takes over with a restart, and its updates are from a manager of its own.
  predicate OneManagerEach(reg: Registry, context: Context, start: Live, processes: seq<seq<Action>>) {
    forall n | 0 <= n < |processes| ::
      && NoRestart(processes[n])
      && var before := Run(reg, context, start, Flat(processes[..n]) + [Restart]);
         before.Ok? ==> FromOneManager(reg, context, before.value, processes[n])
  }

  lemma {:induction false} RunConcat(reg: Registry, context: Context, start: Live, a: seq<Action>, b: seq<Action>)
    ensures Run(reg, context, start, a + b)
      == match Run(reg, context, start, a) case Ok(middle) => Run(reg, context, middle, b) case Err(e) => Err(e)
    decreases |b|
  {
    hide Apply;
    if b == [] {
      assert a + b == a;
    } else {
      assert (a + b)[..|a + b| - 1] == a + b[..|b| - 1];
      RunConcat(reg, context, start, a, b[..|b| - 1]);
    }
  }

  lemma EnvironmentConcat(reg: Registry, context: Context, start: Live, a: seq<Action>, b: seq<Action>)
    requires Run(reg, context, start, a).Ok? && EnvironmentKept(reg, context, start, a)
    requires EnvironmentKept(reg, context, Run(reg, context, start, a).value, b)
    ensures EnvironmentKept(reg, context, start, a + b)
  {
    hide Run, EnvironmentKeeps;
    var all := a + b;
    forall n | 0 <= n < |all| && Run(reg, context, start, all[..n]).Ok?
      ensures EnvironmentKeeps(Run(reg, context, start, all[..n]).value.core, all[n])
    {
      if n < |a| {
        assert all[..n] == a[..n];
      } else {
        assert all[..n] == a + b[..n - |a|];
        RunConcat(reg, context, start, a, b[..n - |a|]);
        assert all[n] == b[n - |a|];
      }
    }
  }

  // Over any number of processes, each with its manager: no update comes late, and after
  // every one of them restoring the session gives the live state, all of it.
  lemma {:induction false} ManagersKeepEnvironment(reg: Registry, context: Context, start: Live, processes: seq<seq<Action>>)
    requires Tracked(reg, context, start) && Run(reg, context, start, Flat(processes)).Ok?
    requires OneManagerEach(reg, context, start, processes)
    ensures EnvironmentKept(reg, context, start, Flat(processes))
    decreases |processes|
  {
    hide Tracked, Apply, EnvironmentKept, FromOneManager, NoRestart, Run;
    if processes == [] {
      NothingHasEnded(reg, context, start);
    } else {
      var shorter, last := processes[..|processes| - 1], processes[|processes| - 1];
      assert forall n | 0 <= n <= |shorter| :: shorter[..n] == processes[..n];
      RunConcat(reg, context, start, Flat(shorter) + [Restart], last);
      RunConcat(reg, context, start, Flat(shorter), [Restart]);
      ManagersKeepEnvironment(reg, context, start, shorter);
      RestartKeepsEnvironment(reg, context, Run(reg, context, start, Flat(shorter)).value);
      EnvironmentConcat(reg, context, start, Flat(shorter), [Restart]);
      RunsAreTracked(reg, context, start, Flat(shorter) + [Restart]);
      var before := Run(reg, context, start, Flat(shorter) + [Restart]).value;
      OneManagerKeeps(reg, context, before, last);
      EnvironmentConcat(reg, context, start, Flat(shorter) + [Restart], last);
    }
  }

  lemma RestartKeepsEnvironment(reg: Registry, context: Context, start: Live)
    ensures EnvironmentKept(reg, context, start, [Restart])
  {
  }

  lemma ManagedRunsAreReplayable(reg: Registry, context: Context, start: Live, processes: seq<seq<Action>>)
    requires Replayable(reg, context, start) && Run(reg, context, start, Flat(processes)).Ok?
    requires OneManagerEach(reg, context, start, processes)
    ensures var live := Run(reg, context, start, Flat(processes)).value;
      Restore(reg, context, live.stored) == Ok(live.core)
  {
    hide Tracked, Synced, Run, EnvironmentKept, OneManagerEach, Restore;
    ManagersKeepEnvironment(reg, context, start, processes);
    RunsAreReplayable(reg, context, start, Flat(processes));
  }
}
