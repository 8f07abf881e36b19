// The coordinator's event loop: harness/coordinator/loop.go.
module Coordinators {
  import opened Session
  import opened SessionState
  import opened ContextBuilder
  import opened CoordinatorState
  import opened CodecProofs
  import opened Tracking
  import opened ReplayProofs
  import opened Requests
  import opened Accounting
  import opened RequestShape
  import opened CoordinatorTrace
  import opened LoopStates
  import ForkShape
  import ForkRequests

  // What the select statement of the loop receives. A response is None when the call of
  // the model failed.
  datatype Event =
    | Received(input: Input)
    | Updated(update: Operation)
    | HeartbeatFired
    | GraceOver
    | Responded(turnID: Id, response: Option<seq<Item>>)
    | ContextDone

  // One iteration: an event, and what is drained from the channels after it (None when
  // the context ends meanwhile).
  datatype Round = Round(event: Event, inputs: Option<seq<Input>>, updates: Option<seq<Operation>>)

  datatype Timer = Off | Running | Fired

  datatype Outcome = Waiting | Stopped

  // A control message of this mode.
  predicate AsksFor(input: Input, mode: ControlMode) {
    input.kind == Control && input.payload.control.Some? && input.payload.control.value.mode == mode
  }

  predicate AnyAsksFor(inputs: seq<Input>, mode: ControlMode) {
    exists i :: 0 <= i < |inputs| && AsksFor(inputs[i], mode)
  }

  // The stop that is wanted after inputs: a hard one once a message has asked for it, for
  // good; else one when idle if a message has asked for that; else what it was before.
  predicate StopAfter(before: Option<ControlMode>, inputs: seq<Input>, after: Option<ControlMode>) {
    if before == Some(StopHard) || AnyAsksFor(inputs, StopHard) then after == Some(StopHard)
    else if AnyAsksFor(inputs, StopWhenIdle) then after == Some(StopWhenIdle)
    else after == before
  }

  lemma StopsInTurn(a: Option<ControlMode>, first: seq<Input>, b: Option<ControlMode>, second: seq<Input>, c: Option<ControlMode>)
    requires StopAfter(a, first, b) && StopAfter(b, second, c)
    ensures StopAfter(a, first + second, c)
  {
    forall mode
      ensures AnyAsksFor(first + second, mode) <==> AnyAsksFor(first, mode) || AnyAsksFor(second, mode)
    {
      AsksInTurn(first, second, mode);
    }
  }

  lemma AsksInTurn(first: seq<Input>, second: seq<Input>, mode: ControlMode)
    ensures AnyAsksFor(first + second, mode) <==> AnyAsksFor(first, mode) || AnyAsksFor(second, mode)
  {
    var all := first + second;
    if i :| 0 <= i < |first| && AsksFor(first[i], mode) {
      assert AsksFor(all[i], mode);
    }
    if i :| 0 <= i < |second| && AsksFor(second[i], mode) {
      assert AsksFor(all[|first| + i], mode);
    }
  }

  // The message that an event brings, if it brings one.
  function InputsOf(event: Event): seq<Input> {
    if event.Received? then [event.input] else []
  }

  // What a process has taken since a trace.
  predicate StopSince(before: Trace, now: Trace, stop: Option<ControlMode>) {
    var earlier, all := Taken(before.actions).inputs, Taken(now.actions).inputs;
    earlier <= all && StopAfter(None, all[|earlier|..], stop)
  }

  lemma NothingSince(before: Trace, now: Trace)
    requires Taken(now.actions).inputs == Taken(before.actions).inputs
    ensures StopSince(before, now, None)
  {
    NoStop(None);
  }

  lemma StopSinceLonger(before: Trace, now: Trace, stop: Option<ControlMode>, inputs: seq<Input>, next: Trace,
                        after: Option<ControlMode>)
    requires StopSince(before, now, stop) && StopAfter(stop, inputs, after)
    requires Taken(next.actions).inputs == Taken(now.actions).inputs + inputs
    ensures StopSince(before, next, after)
  {
    hide Taken, StopAfter;
    var earlier, all := Taken(before.actions).inputs, Taken(now.actions).inputs;
    StopsInTurn(None, all[|earlier|..], stop, inputs, after);
    assert (all + inputs)[|earlier|..] == all[|earlier|..] + inputs;
  }

  predicate HasExternal(inputs: seq<Input>) {
    exists i :: 0 <= i < |inputs| && inputs[i].kind == External
  }

  predicate HasUnfinished(operations: map<Id, Operation>) {
    exists id :: id in operations && !IsTerminal(operations[id].status)
  }

  // No operation is unfinished that was not before.
  predicate NoNewUnfinished(a: map<Id, Operation>, b: map<Id, Operation>) {
    && b.Keys == a.Keys
    && forall id | id in b && !IsTerminal(b[id].status) :: !IsTerminal(a[id].status)
  }

  predicate UnfinishedIn(operations: map<Id, Operation>, ids: set<Id>) {
    forall id | id in operations && !IsTerminal(operations[id].status) :: id in ids
  }

  // Every open call waits for an operation that has not ended: no result is left behind.
  predicate NoneEnded(toolCalls: map<CallKey, CallState>, operations: map<Id, Operation>) {
    forall key | key in toolCalls :: !AllTerminal(operations, toolCalls[key].operations)
  }

  function Unended(toolCalls: map<CallKey, CallState>, operations: map<Id, Operation>): map<CallKey, CallState> {
    map key | key in toolCalls && !AllTerminal(operations, toolCalls[key].operations) :: toolCalls[key]
  }

  // toolCallStatusesRequireModelResponse
  predicate RequireResponse(statuses: seq<ToolCallStatus>) {
    exists i :: 0 <= i < |statuses| && (statuses[i].status.error != "" || statuses[i].status.waitingFor == [])
  }

  // Of the calls of these statuses, those that wait are open, and no others.
  predicate WaitingAreOpen(statuses: seq<ToolCallStatus>, toolCalls: map<CallKey, CallState>) {
    forall i | 0 <= i < |statuses| ::
      Key(statuses[i]) in toolCalls <==> statuses[i].status.error == "" && statuses[i].status.waitingFor != []
  }

  // The calls that have no status yet.
  function Unscheduled(toolCalls: map<CallKey, CallState>): set<CallKey> {
    set key | key in toolCalls && toolCalls[key].status.None?
  }

  predicate AllReady(operations: seq<Operation>) {
    forall i | 0 <= i < |operations| :: operations[i].status == Ready
  }

  function WithInputs(intake: Intake, inputs: seq<Input>): Intake {
    intake.(inputs := intake.inputs + inputs)
  }

  function WithUpdates(intake: Intake, updates: seq<Operation>): Intake {
    intake.(updates := intake.updates + updates)
  }

  function WithOutput(intake: Intake, output: seq<Item>): Intake {
    intake.(outputs := intake.outputs + [output])
  }

  lemma OneMoreInput(intake: Intake, inputs: seq<Input>, i: nat)
    requires i < |inputs|
    ensures WithInputs(intake, inputs[..i + 1]) == WithInputs(WithInputs(intake, inputs[..i]), [inputs[i]])
  {
    assert inputs[..i + 1] == inputs[..i] + [inputs[i]];
    assert intake.inputs + inputs[..i + 1] == (intake.inputs + inputs[..i]) + [inputs[i]];
  }

  lemma OneMoreUpdate(intake: Intake, updates: seq<Operation>, i: nat)
    requires i < |updates|
    ensures WithUpdates(intake, updates[..i + 1]) == WithUpdates(WithUpdates(intake, updates[..i]), [updates[i]])
  {
    assert updates[..i + 1] == updates[..i] + [updates[i]];
    assert intake.updates + updates[..i + 1] == (intake.updates + updates[..i]) + [updates[i]];
  }

  lemma NothingTaken(intake: Intake)
    ensures WithInputs(intake, []) == intake && WithUpdates(intake, []) == intake
  {
  }

  // The dependencies, as far as they have a part in the model: Sessions is session,
  // and what the manager, the model and the inbox are given is written down.
  class Coordinator {
    const reg: Registry
    const state: LoopState
    const heartbeatInterval: int
    ghost const origin: Context
    ghost const sentBefore: seq<Request>

    var session: Stored
    var stopMode: Option<ControlMode>
    var cancellationRequested: bool
    var modelInFlight: bool
    var heartbeat: Timer

    var dispatched: seq<Operation>
    var canceled: set<Id>
    var sent: seq<Request>
    var heartbeatsPosted: nat

    ghost var trace: Trace
    ghost var stoppedAt: nat

    // The session is one that a run of steps leads to, so a new process can take over.
    ghost predicate Recoverable()
      reads this
    {
      && Reached(reg, origin, trace) && trace.live.stored == session
      && reg == state.reg
    }

    ghost predicate Valid()
      reads this, state, state.builder
    {
      && Recoverable() && trace.live.core == state.Core()
      && state.GraceOK() && AllWait(state.Core())
      && Sent(reg, origin, trace.start, trace.actions) == sentBefore + sent
      && (stopMode == Some(StopHard) ==> QuietSince(trace.actions, stoppedAt))
      && state.graceToolCalls <= state.toolCalls.Keys
    }

    // What holds all through an iteration.
    ghost predicate Orderly()
      reads this, state, state.builder
    {
      && Valid() && AllScheduled(state.Core())
      && (modelInFlight ==> state.graceToolCalls == {})
    }

    // What holds when the loop waits for its next event.
    ghost predicate Steady()
      reads this, state, state.builder
    {
      && Orderly()
      && NoneEnded(state.toolCalls, state.operations)
      && (trace.kept ==> Covered(state.operations, dispatched))
      && if stopMode == Some(StopHard) then
           && cancellationRequested && !modelInFlight
           && (trace.kept ==> UnfinishedIn(state.operations, canceled))
         else
           && !cancellationRequested && !state.callModel
           && (state.availableInputs > state.deliveredInputs ==> modelInFlight || state.graceToolCalls != {})
    }

    ghost predicate Idle()
      reads this, state
    {
      && !modelInFlight && state.availableInputs == state.deliveredInputs
      && state.toolCalls == map[] && !HasUnfinished(state.operations)
    }

    constructor (reg: Registry, builder: Builder, heartbeatInterval: int, session: Stored, ghost past: Trace)
      requires Reached(reg, builder.Value(), past) && past.live.stored == session
      ensures this.reg == reg && state.builder == builder && origin == builder.Value() && fresh(state)
      ensures Recoverable() && trace == past && this.session == session
      ensures state.Core() == NewCore(origin) && state.GraceOK() && state.graceToolCalls == {} && !state.callModel
      ensures stopMode == None && !cancellationRequested && !modelInFlight && dispatched == [] && sent == []
      ensures sentBefore == Sent(reg, origin, past.start, past.actions)
    {
      this.reg := reg;
      this.state := new LoopState(reg, builder);
      this.heartbeatInterval := heartbeatInterval;
      this.origin := builder.Value();
      this.sentBefore := Sent(reg, builder.Value(), past.start, past.actions);
      this.session := session;
      stopMode, cancellationRequested, modelInFlight, heartbeat := None, false, false, Off;
      dispatched, canceled, sent, heartbeatsPosted := [], {}, [], 0;
      trace, stoppedAt := past, 0;
    }

    // ---- Recording ----

    // addItemToLocalState and then storeItemInSessionStore, for a step of the run. The
    // store can fail before it has written the item or after.
    method Record(data: Data, at: Time, ghost action: Action) returns (r: Result<()>)
      requires Recoverable() && state.GraceOK() && AllWait(state.Core())
      requires Apply(reg, origin, trace.live, action) == Persist(reg, trace.live.(core := state.Core()), data, at)
      modifies this`session, this`trace, state, state.builder
      ensures Recoverable()
      ensures r.Ok? ==>
        && Apply(reg, origin, old(trace).live, action).Ok? && trace == After(reg, origin, old(trace), action)
        && trace.live.core == state.Core() && AddItem(reg, old(state.Core()), data) == Ok(state.Core())
        && state.GraceOK() && AllWait(state.Core()) && state.callModel == old(state.callModel)
        && state.graceToolCalls
           == GraceAfter(old(state.graceToolCalls), data, old(state.toolCalls).Keys, state.toolCalls.Keys)
        && Sent(reg, origin, trace.start, trace.actions)
           == Sent(reg, origin, old(trace).start, old(trace).actions) + SentBy(old(trace).live, action)
      ensures r.Ok? ==> Taken(trace.actions) == Take(Taken(old(trace).actions), action)
    {
      hide Taken, Take, AddItem, Append, Apply, Reached, AllWait, EnvironmentKeeps, GraceAfter, Sent, SentBy;
      r := state.AddItemToLocalState(data);
      if r.Err? {
        return;
      }
      ItemKeepsWaits(reg, old(state.Core()), data);
      var appended := Append(session, Stripped(data), OperationsOf(data), at);
      if appended.Err? {
        return Err(appended.error);
      }
      var fails, written := *, *;
      if fails && !written {
        return Err(StorageFailed);
      }
      session := appended.value;
      TakenLonger(trace.actions, action);
      StepIsReached(reg, origin, trace, action);
      trace := After(reg, origin, trace, action);
      if fails {
        return Err(StorageFailed);
      }
      return Ok(());
    }

    // ---- Inputs ----

    method HandleInboxInput(input: Input) returns (r: Result<()>)
      requires Valid()
      modifies this`session, this`trace, this`stopMode, this`stoppedAt, state, state.builder
      ensures Recoverable()
      ensures r.Ok? ==>
        && Valid() && trace.kept == old(trace.kept)
        && state.toolCalls == old(state.toolCalls) && state.operations == old(state.operations)
        && state.callModel == old(state.callModel)
        && state.graceToolCalls == if AsksFor(input, UpdateSettings) then old(state.graceToolCalls) else {}
      // A hard stop is never taken back.
      ensures r.Ok? ==>
        && (AsksFor(input, StopHard) ==> stopMode == Some(StopHard))
        && (AsksFor(input, StopWhenIdle) && old(stopMode) != Some(StopHard) ==> stopMode == Some(StopWhenIdle))
        && (old(stopMode) == Some(StopHard) ==> stopMode == Some(StopHard))
        && (!AsksFor(input, StopHard) && !AsksFor(input, StopWhenIdle) ==> stopMode == old(stopMode))
      ensures r.Ok? ==>
        Taken(trace.actions) == WithInputs(Taken(old(trace).actions), [input])
        && AddItem(reg, old(state.Core()), InputData(input)) == Ok(state.Core())
    {
      hide Taken, AddItem, Append, Reached, AllWait, Run, Sent;
      var at: Time := *;
      r := Record(InputData(input), at, TakeInput(input, at));
      if r.Err? {
        return;
      }
      ItemKeepsCalls(reg, old(state.Core()), InputData(input));
      assert state.toolCalls == state.Core().toolCalls && state.operations == state.Core().operations;
      if input.kind == Control && input.payload.control.Some? {
        var request := input.payload.control.value;
        match request.mode {
          case UpdateSettings => return Ok(());
          case StopHard | StopWhenIdle => AcceptStop(request.mode);
          case _ =>
        }
      }
      state.ClearToolGrace();
    }

    method AcceptStop(mode: ControlMode)
      modifies this`stopMode, this`stoppedAt
      ensures old(stopMode) == Some(StopHard) ==> stopMode == old(stopMode) && stoppedAt == old(stoppedAt)
      ensures old(stopMode) != Some(StopHard) ==> stopMode == Some(mode) && stoppedAt == |trace.actions|
    {
      if stopMode == Some(StopHard) {
        return;
      }
      stopMode := Some(mode);
      stoppedAt := |trace.actions|;
    }

    method CallModel()
      requires Valid()
      modifies state`callModel
      ensures Valid() && state.callModel
    {
      state.callModel := true;
    }

    lemma ValidIsRecoverable()
      requires Valid()
      ensures Recoverable()
    {
    }

    method HandleInboxInputs(inputs: seq<Input>) returns (r: Result<()>)
      requires Valid()
      modifies this`session, this`trace, this`stopMode, this`stoppedAt, state, state.builder
      ensures Recoverable()
      ensures r.Ok? ==>
        && Valid() && trace.kept == old(trace.kept)
        && state.toolCalls == old(state.toolCalls) && state.operations == old(state.operations)
        && state.callModel == (old(state.callModel) || HasExternal(inputs))
        && StopAfter(old(stopMode), inputs, stopMode)
        && state.graceToolCalls <= old(state.graceToolCalls)
      ensures r.Ok? ==> Taken(trace.actions) == WithInputs(Taken(old(trace).actions), inputs)
    {
      hide WithInputs, Taken, Valid, Recoverable, StopAfter, AsksFor;
      NoStop(stopMode);
      NothingTaken(Taken(trace.actions));
      assert inputs[..0] == [];
      var i := 0;
      while i < |inputs|
        invariant 0 <= i <= |inputs|
        invariant Valid() && trace.kept == old(trace.kept)
        invariant state.toolCalls == old(state.toolCalls) && state.operations == old(state.operations)
        invariant state.callModel == (old(state.callModel) || HasExternal(inputs[..i]))
        invariant StopAfter(old(stopMode), inputs[..i], stopMode)
        invariant Taken(trace.actions) == WithInputs(Taken(old(trace).actions), inputs[..i])
        invariant state.graceToolCalls <= old(state.graceToolCalls)
      {
        assert HasExternal(inputs[..i + 1]) <==> HasExternal(inputs[..i]) || inputs[i].kind == External by {
          ExternalLonger(inputs, i);
        }
        OneMoreInput(Taken(old(trace).actions), inputs, i);
        ghost var was := stopMode;
        var handled := HandleInboxInput(inputs[i]);
        if handled.Err? {
          return handled;
        }
        OneMoreStop(old(stopMode), inputs, i, was, stopMode);
        if inputs[i].kind == External {
          CallModel();
        }
        i := i + 1;
      }
      assert inputs[..|inputs|] == inputs;
      assert Recoverable() by { ValidIsRecoverable(); }
      return Ok(());
    }

    // ---- Tool calls ----

    // The operations are in the trace's session by the time the status is.
    method ScheduleToolCall(key: CallKey) returns (r: Result<ToolCallStatus>)
      requires Valid() && stopMode != Some(StopHard)
      requires key in state.toolCalls && state.toolCalls[key].status.None?
      modifies this`session, this`trace, state, state.builder
      ensures Recoverable()
      ensures r.Ok? ==>
        && Valid() && trace.kept == old(trace.kept)
        && Key(r.value) == key && AllReady(r.value.operations)
        && OthersUnchanged(old(state.toolCalls), state.toolCalls, key)
        && (key in state.toolCalls ==> state.toolCalls[key].status.Some?)
        && state.operations == Overlay(old(state.operations), r.value.operations)
        && state.callModel == old(state.callModel) && state.graceToolCalls <= old(state.graceToolCalls)
      ensures r.Ok? ==>
        AreNew(old(state.operations), r.value.operations) && WaitingAreOpen([r.value], state.toolCalls)
      ensures r.Ok? ==> Taken(trace.actions) == Taken(old(trace).actions)
    {
      hide Taken, AddItem, Append, Reached, AllWait, Run, Sent, Overlay, ScheduledStatus, AllReady, AreNew;
      var at: Time, attempt: nat := *, *;
      ghost var before := trace;
      var status := ScheduledStatus(reg, key, state.toolCalls[key].call, attempt);
      ScheduledKey(reg, key, state.toolCalls[key].call, attempt);
      SubmittedAreReady(reg, key, state.toolCalls[key].call, attempt);
      state.AddOperations(status.operations);
      SameWaits(old(state.Core()), state.Core());
      var recorded := Record(StatusData(status), at, Schedule(key, attempt, at));
      if recorded.Err? {
        return Err(recorded.error);
      }
      AddFromOverlay(reg, before.live.core, status);
      StatusTouchesOneCall(reg, before.live.core, status);
      assert state.toolCalls == state.Core().toolCalls && state.operations == state.Core().operations;
      ReachedIsTracked(reg, origin, before);
      ScheduledAreFit(reg, origin, before.live, key, attempt, at);
      return Ok(status);
    }

    method ScheduleToolCalls() returns (r: Result<seq<ToolCallStatus>>)
      requires Valid() && stopMode != Some(StopHard)
      modifies this`session, this`trace, state, state.builder
      ensures Recoverable()
      ensures r.Ok? ==>
        && Valid() && AllScheduled(state.Core()) && trace.kept == old(trace.kept)
        && state.callModel == old(state.callModel) && state.graceToolCalls <= old(state.graceToolCalls)
        && AllReady(OperationsIn(r.value))
        && KeysOf(r.value) == Unscheduled(old(state.toolCalls)) && state.toolCalls.Keys <= old(state.toolCalls).Keys
      ensures r.Ok? ==>
        && WaitingAreOpen(r.value, state.toolCalls)
        && (Covered(old(state.operations), dispatched) ==> Covered(state.operations, dispatched + OperationsIn(r.value)))
        && AreHeld(state.operations, OperationsIn(r.value))
      ensures r.Ok? ==> Taken(trace.actions) == Taken(old(trace).actions)
    {
      hide AreHeld, Taken, KeysOf, Valid, Recoverable, Covered, OperationsIn, AllReady, AreNew, OthersUnchanged, WaitingAreOpen;
      var statuses: seq<ToolCallStatus> := [];
      var todo := state.toolCalls.Keys;
      NothingScheduled(state.operations, dispatched, state.toolCalls);
      NoKeys();
      while todo != {}
        invariant Taken(trace.actions) == Taken(old(trace).actions)
        invariant Valid() && trace.kept == old(trace.kept)
        invariant state.callModel == old(state.callModel) && state.graceToolCalls <= old(state.graceToolCalls)
        invariant Unscheduled(state.toolCalls) <= todo * Unscheduled(old(state.toolCalls))
        invariant state.toolCalls.Keys <= old(state.toolCalls).Keys
        invariant Unscheduled(old(state.toolCalls)) - todo == KeysOf(statuses)
        invariant forall key | key in todo && key in Unscheduled(old(state.toolCalls)) :: key in Unscheduled(state.toolCalls)
        invariant AllReady(OperationsIn(statuses)) && AreHeld(state.operations, OperationsIn(statuses))
        invariant WaitingAreOpen(statuses, state.toolCalls)
        invariant Covered(old(state.operations), dispatched) ==>
                    Covered(state.operations, dispatched + OperationsIn(statuses))
      {
        var key :| key in todo;
        ghost var all := Unscheduled(old(state.toolCalls));
        assert all - (todo - {key}) == all - todo + (if key in all then {key} else {});
        assert key in all <==> key in Unscheduled(state.toolCalls);
        todo := todo - {key};
        if key in state.toolCalls && state.toolCalls[key].status.None? {
          ghost var calls, operations := state.toolCalls, state.operations;
          var scheduled := ScheduleToolCall(key);
          if scheduled.Err? {
            return Err(scheduled.error);
          }
          OneMoreScheduled(operations, dispatched, statuses, scheduled.value);
          KeysOfLonger(statuses, scheduled.value);
          KeysAmong(statuses);
          OneMoreOpen(statuses, scheduled.value, calls, state.toolCalls);
          StillScheduled(calls, state.toolCalls, key);
          statuses := statuses + [scheduled.value];
        }
      }
      ValidIsRecoverable();
      NoneUnscheduled(state.Core());
      return Ok(statuses);
    }

    method ReconcileToolCall(key: CallKey) returns (r: Result<()>)
      requires Valid() && AllScheduled(state.Core())
      requires key in state.toolCalls && AllTerminal(state.operations, state.toolCalls[key].operations)
      modifies this`session, this`trace, state, state.builder
      ensures Recoverable()
      ensures r.Ok? ==>
        && Valid() && AllScheduled(state.Core()) && trace.kept == old(trace.kept)
        && OthersUnchanged(old(state.toolCalls), state.toolCalls, key)
        && state.callModel == old(state.callModel) && state.graceToolCalls <= old(state.graceToolCalls)
      ensures r.Ok? ==> key !in state.toolCalls && state.operations == old(state.operations)
      ensures r.Ok? ==> Taken(trace.actions) == Taken(old(trace).actions)
    {
      hide Taken, AddItem, Append, Reached, Run, Sent, Overlay;
      ghost var before := trace;
      var call := state.toolCalls[key];
      var waitingFor := call.status.value.waitingFor;
      var at: Time := *;
      var status := ToolCallStatus(key.0, key.1, call.status.value, Collect(state.operations, waitingFor));
      assert CanReconcile(state.Core(), key);
      assert status == ReconciledStatus(before.live.core, key);
      r := Record(StatusData(status), at, Reconcile(key, at));
      if r.Err? {
        return;
      }
      StatusTouchesOneCall(reg, before.live.core, status);
      assert state.toolCalls == state.Core().toolCalls && state.operations == state.Core().operations;
      ReachedIsTracked(reg, origin, before);
      ReconciledCallCloses(reg, origin, before.live, key, at);
    }

    // Afterwards exactly the calls are open that have an operation to wait for, and these
    // are as they were.
    method ReconcileToolCalls() returns (r: Result<()>)
      requires Valid() && AllScheduled(state.Core())
      modifies this`session, this`trace, state, state.builder
      ensures Recoverable()
      ensures r.Ok? ==>
        && Valid() && AllScheduled(state.Core()) && trace.kept == old(trace.kept)
        && state.callModel == old(state.callModel) && state.graceToolCalls <= old(state.graceToolCalls)
        && state.operations == old(state.operations)
        && state.toolCalls == Unended(old(state.toolCalls), old(state.operations))
        && NoneEnded(state.toolCalls, state.operations)
      ensures r.Ok? ==> Taken(trace.actions) == Taken(old(trace).actions)
    {
      hide Taken, Valid, Recoverable, AllTerminal, AllScheduled, OthersUnchanged;
      ValidIsRecoverable();
      var todo := state.toolCalls.Keys;
      while todo != {}
        invariant Taken(trace.actions) == Taken(old(trace).actions)
        invariant Valid() && Recoverable() && AllScheduled(state.Core()) && trace.kept == old(trace.kept)
        invariant state.callModel == old(state.callModel) && state.graceToolCalls <= old(state.graceToolCalls)
        invariant todo <= state.toolCalls.Keys && state.operations == old(state.operations)
        invariant Reconciled(old(state.toolCalls), state.toolCalls, state.operations, todo)
      {
        var key :| key in todo;
        ghost var before, was := state.toolCalls, todo;
        todo := todo - {key};
        var terminal := state.ToolCallOperationsAreTerminal(key);
        if terminal {
          if state.toolCalls[key].status.None? {
            assert false by { CallHasStatus(state.Core(), key); }
            return Err(BadItem);
          }
          r := ReconcileToolCall(key);
          if r.Err? {
            return;
          }
        }
        OneMoreReconciled(old(state.toolCalls), before, state.toolCalls, state.operations, was, key);
      }
      AllReconciled(old(state.toolCalls), state.toolCalls, state.operations);
      return Ok(());
    }

    // ---- The model ----

    method InterruptModel()
      modifies this`modelInFlight
      ensures !modelInFlight
    {
      modelInFlight := false;
    }

    // The request holds every input there is.
    method RequestModelResponse() returns (r: Result<()>)
      requires Valid() && AllScheduled(state.Core()) && stopMode != Some(StopHard)
      modifies this`session, this`trace, this`modelInFlight, this`sent, state, state.builder
      ensures Recoverable()
      ensures r.Ok? ==>
        && Valid() && AllScheduled(state.Core()) && trace.kept == old(trace.kept)
        && state.toolCalls == old(state.toolCalls) && state.operations == old(state.operations)
        && state.graceToolCalls <= old(state.graceToolCalls)
        && modelInFlight && !state.callModel && state.currentTurnInputs == state.availableInputs
        && sent == old(sent) + [RequestFor(state.currentTurnID, old(state.Core()).context)]
      ensures r.Ok? ==> Taken(trace.actions) == Taken(old(trace).actions)
    {
      hide Taken, Append, Reached, AllWait, Run, Sent;
      InterruptModel();
      var at: Time, turnID: Id := *, *;
      var effort, built := state.builder.BuildRequest();
      r := Record(TurnData(Turn(turnID, state.currentTurnID, Regular)), at, StartTurn(turnID, at));
      if r.Err? {
        return;
      }
      sent := sent + [Request(turnID, effort, built)];
      modelInFlight := true;
      state.callModel := false;
      assert Sent(reg, origin, trace.start, trace.actions) == sentBefore + (old(sent) + [Request(turnID, effort, built)]);
      assert state.toolCalls == state.Core().toolCalls && state.operations == state.Core().operations;
      SameWaits(old(state.Core()), state.Core());
    }

    method ToolCallStatusesRequireModelResponse(statuses: seq<ToolCallStatus>) returns (required: bool)
      ensures required == RequireResponse(statuses)
    {
      for i := 0 to |statuses|
        invariant !RequireResponse(statuses[..i])
      {
        if statuses[i].status.error != "" || statuses[i].status.waitingFor == [] {
          return true;
        }
      }
      assert statuses[..|statuses|] == statuses;
      return false;
    }

    method HandleModelResponse(output: seq<Item>) returns (r: Result<seq<ToolCallStatus>>)
      requires Valid() && AllScheduled(state.Core()) && stopMode != Some(StopHard) && !state.callModel
      modifies this`session, this`trace, state, state.builder
      ensures Recoverable()
      ensures r.Ok? ==>
        && Valid() && AllScheduled(state.Core()) && trace.kept == old(trace.kept)
        && state.callModel == RequireResponse(r.value) && state.graceToolCalls <= old(state.graceToolCalls)
        && AllReady(OperationsIn(r.value))
        && KeysOf(r.value) == AskedBy(old(state.currentTurnType), old(state.currentTurnID), output)
      ensures r.Ok? ==>
        && WaitingAreOpen(r.value, state.toolCalls)
        && (Covered(old(state.operations), dispatched) ==> Covered(state.operations, dispatched + OperationsIn(r.value)))
        && AreHeld(state.operations, OperationsIn(r.value))
      ensures r.Ok? ==> Taken(trace.actions) == WithOutput(Taken(old(trace).actions), output)
    {
      hide AreHeld, Taken, AddCalls, KeysOf, Append, Reached, AllWait, Run, Sent, Covered, WaitingAreOpen, AllReady;
      var at: Time := *;
      ghost var before := state.Core();
      var recorded := Record(ResponseData(ModelResponse(state.currentTurnID, output)), at, TakeResponse(output, at));
      if recorded.Err? {
        return Err(recorded.error);
      }
      AskedAreUnscheduled(before, output);
      NoKeys();
      NothingScheduled(state.operations, dispatched, state.toolCalls);
      assert state.operations == state.Core().operations && state.toolCalls == state.Core().toolCalls;
      if state.currentTurnType == Compaction {
        return Ok([]);
      }
      r := ScheduleToolCalls();
      if r.Ok? {
        state.callModel := ToolCallStatusesRequireModelResponse(r.value);
      }
    }

    // ---- Operations ----

    // dispatchOperationToManager; the manager may refuse.
    method DispatchOperation(value: Operation) returns (r: Result<()>)
      modifies this`dispatched
      ensures dispatched == if r.Err? || IsTerminal(value.status) then old(dispatched) else old(dispatched) + [value]
    {
      if IsTerminal(value.status) {
        return Ok(());
      }
      var refused := *;
      if refused {
        return Err(Interrupted);
      }
      dispatched := dispatched + [value];
      return Ok(());
    }

    method DispatchStatus(status: ToolCallStatus) returns (r: Result<()>)
      requires AllReady(status.operations)
      modifies this`dispatched
      ensures r.Ok? ==> dispatched == old(dispatched) + status.operations
    {
      for i := 0 to |status.operations|
        invariant dispatched == old(dispatched) + status.operations[..i]
      {
        r := DispatchOperation(status.operations[i]);
        if r.Err? {
          return;
        }
      }
      return Ok(());
    }

    method DispatchStatuses(statuses: seq<ToolCallStatus>) returns (r: Result<()>)
      requires AllReady(OperationsIn(statuses))
      modifies this`dispatched
      ensures r.Ok? ==> dispatched == old(dispatched) + OperationsIn(statuses)
    {
      hide AllReady, OperationsIn;
      NothingToDispatch(dispatched);
      for i := 0 to |statuses|
        invariant dispatched == old(dispatched) + OperationsIn(statuses[..i])
      {
        assert statuses[..i + 1] == statuses[..i] + [statuses[i]];
        OperationsInLonger(statuses[..i], statuses[i]);
        ReadyAmong(statuses, i);
        r := DispatchStatus(statuses[i]);
        if r.Err? {
          return;
        }
        assert (old(dispatched) + OperationsIn(statuses[..i])) + statuses[i].operations
            == old(dispatched) + (OperationsIn(statuses[..i]) + statuses[i].operations);
      }
      assert statuses[..|statuses|] == statuses;
      return Ok(());
    }

    // dispatchOperationsToManager: whatever is unfinished when a process takes over.
    method DispatchOperations() returns (r: Result<()>)
      requires Valid() && dispatched == []
      modifies this`dispatched
      ensures Valid()
      ensures forall value | value in dispatched :: !IsTerminal(value.status)
      ensures r.Ok? ==> Covered(state.operations, dispatched) && AreHeld(state.operations, dispatched)
    {
      hide Reached, AllWait, Sent, QuietSince, CoveredSoFar;
      OperationsAreNamed();
      NothingCovered(state.operations);
      var todo := state.operations.Keys;
      while todo != {}
        invariant todo <= state.operations.Keys && Valid()
        invariant forall value | value in dispatched :: !IsTerminal(value.status)
        invariant AreHeld(state.operations, dispatched)
        invariant CoveredSoFar(state.operations, dispatched, todo)
      {
        var id :| id in todo;
        ghost var before, was := dispatched, todo;
        todo := todo - {id};
        r := DispatchOperation(state.operations[id]);
        if r.Err? {
          return;
        }
        OneMoreCovered(state.operations, before, was, id);
      }
      AllCovered(state.operations, dispatched);
      return Ok(());
    }

    lemma OperationsAreNamed()
      requires Valid()
      ensures Named(state.operations)
    {
      hide Replay, CallsCoherent;
      ReachedIsTracked(reg, origin, trace);
    }

    method HandleOperationUpdate(update: Operation) returns (r: Result<()>)
      requires Valid()
      modifies this`session, this`trace, state`operations
      ensures Recoverable()
      ensures r.Ok? ==> Valid() && (trace.kept ==> old(trace.kept) && NoNewUnfinished(old(state.operations), state.operations))
      ensures r.Ok? ==>
        && Taken(trace.actions) == WithUpdates(Taken(old(trace).actions), [update])
        && state.operations == old(state.operations)[update.id := update] && Save(old(session), update) == Ok(session)
    {
      hide Taken, Reached, AllWait, Run, Sent, SaveOperation, Replay;
      state.AddOperation(update);
      SameWaits(old(state.Core()), state.Core());
      var saved := Save(session, update);
      if saved.Err? {
        return Err(saved.error);
      }
      var fails, written := *, *;
      if fails && !written {
        return Err(StorageFailed);
      }
      session := saved.value;
      var action := TakeUpdate(update);
      TakenLonger(trace.actions, action);
      StepIsReached(reg, origin, trace, action);
      trace := After(reg, origin, trace, action);
      if fails {
        return Err(StorageFailed);
      }
      return Ok(());
    }

    method ProcessOperations(updates: seq<Operation>) returns (r: Result<()>)
      requires Valid()
      modifies this`session, this`trace, state`operations
      ensures Recoverable()
      ensures r.Ok? ==> Valid() && (trace.kept ==> old(trace.kept) && NoNewUnfinished(old(state.operations), state.operations))
      ensures r.Ok? ==> Taken(trace.actions) == WithUpdates(Taken(old(trace).actions), updates)
    {
      hide WithUpdates, Taken, Valid, Recoverable;
      NothingTaken(Taken(trace.actions));
      assert updates[..0] == [];
      ValidIsRecoverable();
      for i := 0 to |updates|
        invariant Valid() && Recoverable()
        invariant Taken(trace.actions) == WithUpdates(Taken(old(trace).actions), updates[..i])
        invariant trace.kept ==> old(trace.kept) && NoNewUnfinished(old(state.operations), state.operations)
      {
        OneMoreUpdate(Taken(old(trace).actions), updates, i);
        r := HandleOperationUpdate(updates[i]);
        if r.Err? {
          return;
        }
      }
      assert updates[..|updates|] == updates;
      return Ok(());
    }

    method HasPendingOperations() returns (pending: bool)
      ensures pending == HasUnfinished(state.operations)
    {
      var todo := state.operations.Keys;
      while todo != {}
        invariant todo <= state.operations.Keys
        invariant forall id | id in state.operations && id !in todo :: IsTerminal(state.operations[id].status)
      {
        var id :| id in todo;
        todo := todo - {id};
        if !IsTerminal(state.operations[id].status) {
          return true;
        }
      }
      return false;
    }

    // Every cancellation is asked for, even after one was refused.
    method CancelOperations() returns (r: Result<()>)
      modifies this`canceled
      ensures UnfinishedIn(state.operations, canceled) && old(canceled) <= canceled
      ensures forall id | id in canceled - old(canceled) :: id in state.operations && !IsTerminal(state.operations[id].status)
    {
      r := Ok(());
      var todo := state.operations.Keys;
      while todo != {}
        invariant todo <= state.operations.Keys
        invariant forall id | id in state.operations && id !in todo ::
                    IsTerminal(state.operations[id].status) || id in canceled
        invariant old(canceled) <= canceled
        invariant forall id | id in canceled - old(canceled) ::
                    id in state.operations && !IsTerminal(state.operations[id].status)
      {
        var id :| id in todo;
        todo := todo - {id};
        if !IsTerminal(state.operations[id].status) {
          var refused := *;
          if refused {
            r := Err(Interrupted);
          }
          canceled := canceled + {id};
        }
      }
    }

    method HandleStop() returns (r: Result<bool>)
      requires Orderly() && stopMode == Some(StopHard)
      requires cancellationRequested && trace.kept ==> UnfinishedIn(state.operations, canceled)
      requires cancellationRequested ==> !modelInFlight
      modifies this`modelInFlight, this`canceled, this`cancellationRequested
      ensures Recoverable()
      ensures r.Ok? ==>
        && Orderly() && cancellationRequested && !modelInFlight
        && (trace.kept ==> UnfinishedIn(state.operations, canceled))
        && r.value == !HasUnfinished(state.operations)
        && (old(cancellationRequested) ==> canceled == old(canceled))
    {
      hide Reached, AllWait, Sent, AllScheduled;
      if !cancellationRequested {
        InterruptModel();
        var asked := CancelOperations();
        if asked.Err? {
          return Err(asked.error);
        }
        cancellationRequested := true;
      }
      var pending := HasPendingOperations();
      return Ok(!pending);
    }

    // ---- The loop ----

    // A response to the current turn. Its calls get time to end before the model is
    // called again, unless one of them needs no time.
    method ProcessModelResponse(response: Option<seq<Item>>) returns (r: Result<()>)
      requires Orderly() && modelInFlight && stopMode != Some(StopHard) && !state.callModel
      requires trace.kept ==> Covered(state.operations, dispatched)
      modifies this`session, this`trace, this`modelInFlight, this`dispatched, state, state.builder
      ensures Recoverable()
      ensures r.Ok? ==>
        && Orderly() && !modelInFlight && trace.kept == old(trace.kept)
        && (trace.kept ==> Covered(state.operations, dispatched))
      // What is dispatched is what the state has.
      ensures r.Ok? ==> old(dispatched) <= dispatched && AreHeld(state.operations, dispatched[|old(dispatched)|..])
      // The model is called at once if a call that it has asked for has ended already, and
      // else each of them has grace.
      ensures r.Ok? && response.Some? ==>
        var asked := AskedBy(old(state.currentTurnType), old(state.currentTurnID), response.value);
        && (state.callModel <==> !(asked <= state.toolCalls.Keys))
        && state.graceToolCalls == if state.callModel then {} else asked
      ensures r.Ok? ==> response.Some? && Taken(trace.actions) == WithOutput(Taken(old(trace).actions), response.value)
    {
      hide Taken, KeysOf, Reached, AllWait, Sent, QuietSince, Covered, AllReady, OperationsIn, NoNewUnfinished, AllScheduled,
           AreHeld;
      InterruptModel();
      if response.None? {
        return Err(Interrupted);
      }
      var handled := HandleModelResponse(response.value);
      if handled.Err? {
        return Err(handled.error);
      }
      var statuses := handled.value;
      r := DispatchStatuses(statuses);
      if r.Err? {
        return;
      }
      KeysAreThere(statuses, state.toolCalls);
      if !state.callModel && statuses != [] {
        state.GiveGrace(statuses);
      }
    }

    method ProcessEvents(inputs: Option<seq<Input>>, updates: Option<seq<Operation>>) returns (r: Result<bool>)
      requires Orderly()
      modifies this`session, this`trace, this`stopMode, this`stoppedAt, state, state.builder
      ensures Recoverable()
      ensures r.Ok? ==>
        && Orderly()
        && (trace.kept ==> old(trace.kept) && NoNewUnfinished(old(state.operations), state.operations))
        && inputs.Some? && StopAfter(old(stopMode), inputs.value, stopMode)
        && state.graceToolCalls <= old(state.graceToolCalls)
        && state.callModel == (old(state.callModel) || HasExternal(inputs.value))
        && r.value == (state.callModel || (state.availableInputs > state.deliveredInputs && !modelInFlight
                                           && state.graceToolCalls == {}))
      ensures r.Ok? ==> NoneEnded(state.toolCalls, state.operations)
      ensures r.Ok? ==>
        && updates.Some?
        && Taken(trace.actions) == WithUpdates(WithInputs(Taken(old(trace).actions), inputs.value), updates.value)
    {
      hide Taken, Reached, AllWait, Sent, QuietSince, AllTerminal, HasExternal, AnyAsksFor;
      if inputs.None? {
        return Err(Interrupted);
      }
      ghost var before := state.Core();
      var handled := HandleInboxInputs(inputs.value);
      if handled.Err? {
        return Err(handled.error);
      }
      SameScheduled(before, state.Core());
      if updates.None? {
        return Err(Interrupted);
      }
      before := state.Core();
      var processed := ProcessOperations(updates.value);
      if processed.Err? {
        return Err(processed.error);
      }
      SameScheduled(before, state.Core());
      var reconciled := ReconcileToolCalls();
      if reconciled.Err? {
        return Err(reconciled.error);
      }
      var pending := state.PendingInputs();
      return Ok(state.callModel || (pending > 0 && !modelInFlight && state.graceToolCalls == {}));
    }

    method IsIdle() returns (idle: bool)
      ensures idle == Idle()
    {
      var pending := state.PendingInputs();
      var unfinished := HasPendingOperations();
      idle := !modelInFlight && pending == 0 && |state.toolCalls| == 0 && !unfinished;
    }

    predicate WaitsForOnlyToolCalls()
      reads this, state
    {
      !modelInFlight && stopMode != Some(StopHard) && state.availableInputs == state.deliveredInputs && state.toolCalls != map[]
    }

    // The heartbeat timer as the loop sets it before it waits.
    method SetHeartbeat()
      requires Steady()
      modifies this`heartbeat
      ensures Steady() && (heartbeat != Off ==> WaitsForOnlyToolCalls())
      ensures MayStop() == old(MayStop())
      ensures heartbeat
        == if modelInFlight || stopMode == Some(StopHard) || state.availableInputs != state.deliveredInputs || state.toolCalls == map[]
           then Off
           else if old(heartbeat) == Off && heartbeatInterval > 0 then Running else old(heartbeat)
    {
      hide Reached, Sent, QuietSince, Covered, UnfinishedIn, NoneEnded;
      if !WaitsForOnlyToolCalls() {
        heartbeat := Off;
      } else if heartbeat == Off && heartbeatInterval > 0 {
        heartbeat := Running;
      }
    }

    // A heartbeat is an input like any other: it is only submitted to the inbox here.
    method PostHeartbeat() returns (r: Result<()>)
      requires WaitsForOnlyToolCalls()
      modifies this`heartbeatsPosted, this`heartbeat
      ensures heartbeat == Fired
      ensures heartbeatsPosted == old(heartbeatsPosted) + if r.Ok? then 1 else 0
    {
      heartbeat := Fired;
      var refused := *;
      if refused {
        return Err(Interrupted);
      }
      heartbeatsPosted := heartbeatsPosted + 1;
      return Ok(());
    }

    // Whether the loop acts on an event: timers that are off do not fire, and responses
    // that are late or to another turn are passed over.
    predicate ActsOn(event: Event)
      reads this, state
    {
      match event
      case HeartbeatFired => heartbeat == Running
      case GraceOver => state.graceArmed
      case Responded(turnID, _) => modelInFlight && turnID == state.currentTurnID
      case _ => true
    }

    // The loop passes over timers that are off and over responses when no call is in flight
    // or to another turn than the current one, and over nothing else.
    lemma PassesOver(event: Event)
      ensures !ActsOn(event) <==>
        || (event == HeartbeatFired && heartbeat != Running)
        || (event == GraceOver && !state.graceArmed)
        || (event.Responded? && (!modelInFlight || event.turnID != state.currentTurnID))
    {
    }

    method HandleEvent(event: Event) returns (r: Result<()>)
      requires Steady() && ActsOn(event) && (event == HeartbeatFired ==> WaitsForOnlyToolCalls())
      modifies this`session, this`trace, this`stopMode, this`stoppedAt, this`modelInFlight, this`dispatched,
               this`heartbeat, this`heartbeatsPosted, state, state.builder
      ensures Recoverable()
      ensures r.Ok? ==>
        && Orderly() && (trace.kept ==> old(trace.kept) && Covered(state.operations, dispatched))
        && (old(stopMode) == Some(StopHard) ==>
              stopMode == Some(StopHard) && !modelInFlight && (trace.kept ==> UnfinishedIn(state.operations, canceled)))
        && (event.Received? && event.input.kind == External ==> state.callModel)
        && (event == GraceOver ==> state.graceToolCalls == {})
      ensures r.Ok? ==> StopAfter(old(stopMode), InputsOf(event), stopMode)
      ensures r.Ok? ==> heartbeatsPosted == old(heartbeatsPosted) + if event == HeartbeatFired then 1 else 0
      ensures r.Ok? ==> Taken(trace.actions) == TakeEvent(Taken(old(trace).actions), event)
    {
      hide Taken, Reached, AllWait, Sent, QuietSince, AllTerminal, Covered, HasExternal, HasUnfinished, NoNewUnfinished, UnfinishedIn;
      NoStop(stopMode);
      ghost var before := state.Core();
      match event
      case Received(input) =>
        r := HandleInboxInputs([input]);
        SameScheduled(before, before);
        if r.Ok? {
          SameScheduled(before, state.Core());
          ExternalAlone(input);
        }
      case Updated(update) =>
        r := ProcessOperations([update]);
        if r.Ok? {
          SameScheduled(before, state.Core());
          if trace.kept {
            FewerUnfinished(before.operations, state.operations, dispatched, canceled);
          }
        }
      case HeartbeatFired => r := PostHeartbeat();
      case GraceOver =>
        state.ClearToolGrace();
        r := Ok(());
      case Responded(_, response) => r := ProcessModelResponse(response);
      case ContextDone => r := Err(Interrupted);
    }

    // The loop ends for a hard stop only when nothing is unfinished, and for a stop when
    // idle only when it is idle.
    ghost predicate MayStop()
      reads this, state
    {
      if stopMode == Some(StopHard) then !HasUnfinished(state.operations) else stopMode == Some(StopWhenIdle) && Idle()
    }

    // The end of an iteration, after its events: a stop, or a request when one is due.
    method Conclude(callModel: bool) returns (r: Result<Outcome>)
      requires Orderly()
      requires NoneEnded(state.toolCalls, state.operations)
      requires trace.kept ==> Covered(state.operations, dispatched)
      requires cancellationRequested ==>
        stopMode == Some(StopHard) && !modelInFlight && (trace.kept ==> UnfinishedIn(state.operations, canceled))
      requires callModel == (state.callModel || (state.availableInputs > state.deliveredInputs && !modelInFlight
                                                 && state.graceToolCalls == {}))
      modifies this`session, this`trace, this`modelInFlight, this`canceled, this`cancellationRequested, this`sent,
               state, state.builder
      ensures Recoverable()
      ensures r.Ok? ==> Steady() && trace.kept == old(trace.kept) && state.graceToolCalls <= old(state.graceToolCalls)
      ensures r.Ok? ==> (r.value == Stopped <==> MayStop())
      ensures r.Ok? && callModel && stopMode != Some(StopHard) ==>
        modelInFlight && state.currentTurnInputs == state.availableInputs && |sent| == |old(sent)| + 1
      ensures r.Ok? ==> Taken(trace.actions) == Taken(old(trace).actions)
    {
      hide Taken, Reached, AllWait, Sent, QuietSince, Covered, HasUnfinished, UnfinishedIn, AllScheduled, NoneEnded;
      if stopMode == Some(StopHard) {
        var stopped := HandleStop();
        if stopped.Err? {
          return Err(stopped.error);
        }
        return Ok(if stopped.value then Stopped else Waiting);
      }
      if callModel {
        var requested := RequestModelResponse();
        if requested.Err? {
          return Err(requested.error);
        }
        state.ClearToolGrace();
      }
      if stopMode == Some(StopWhenIdle) {
        var idle := IsIdle();
        if idle {
          return Ok(Stopped);
        }
      }
      return Ok(Waiting);
    }

    // One iteration of the loop.
    method Iterate(round: Round) returns (r: Result<Outcome>)
      requires Steady() && !MayStop() && (heartbeat != Off ==> WaitsForOnlyToolCalls())
      modifies this, state, state.builder
      ensures Recoverable()
      ensures r.Ok? ==> Steady() && (trace.kept ==> old(trace.kept))
      // A stop that is due is taken, and no other.
      ensures r.Ok? ==> (r.value == Stopped <==> MayStop())
      // An event that the loop does not act on changes nothing.
      ensures !old(ActsOn(round.event)) ==>
        r == Ok(Waiting) && session == old(session) && trace == old(trace) && sent == old(sent)
      // The stop is what the messages that came in have asked for.
      ensures r.Ok? ==>
        if old(ActsOn(round.event)) then
          round.inputs.Some? && StopAfter(old(stopMode), InputsOf(round.event) + round.inputs.value, stopMode)
        else stopMode == old(stopMode)
      // An external input is in the request that is sent by the end of the iteration.
      ensures r.Ok? && old(ActsOn(round.event)) && TakesExternal(round) && stopMode != Some(StopHard) ==>
        modelInFlight && state.currentTurnInputs == state.availableInputs && |sent| == |old(sent)| + 1
      // A heartbeat goes to the inbox when its timer has fired, and only then.
      ensures r.Ok? ==>
        heartbeatsPosted == old(heartbeatsPosted) + if round.event == HeartbeatFired && old(ActsOn(round.event)) then 1 else 0
      // Once the grace is over, nothing that has come in waits any longer.
      ensures r.Ok? && round.event == GraceOver && old(ActsOn(GraceOver)) && stopMode != Some(StopHard) ==>
        state.availableInputs > state.deliveredInputs ==> modelInFlight
      // All that came in has been recorded, in order.
      ensures r.Ok? && old(ActsOn(round.event)) ==>
        && round.inputs.Some? && round.updates.Some?
        && var intake := TakeEvent(Taken(old(trace).actions), round.event);
           Taken(trace.actions)
           == WithUpdates(WithInputs(intake, round.inputs.value), round.updates.value)
    {
      hide Taken, Reached, AllWait, Sent, QuietSince, AllTerminal, Covered, HasExternal, HasUnfinished, NoNewUnfinished,
           UnfinishedIn, AllScheduled, NoneEnded, MayStop, StopAfter;
      if !ActsOn(round.event) {
        return Ok(Waiting);
      }
      var handled := HandleEvent(round.event);
      if handled.Err? {
        return Err(handled.error);
      }
      ghost var operations, stop := state.operations, stopMode;
      var processed := ProcessEvents(round.inputs, round.updates);
      if processed.Err? {
        return Err(processed.error);
      }
      StopsInTurn(old(stopMode), InputsOf(round.event), stop, round.inputs.value, stopMode);
      if trace.kept {
        FewerUnfinished(operations, state.operations, dispatched, canceled);
      }
      r := Conclude(processed.value);
    }

    // ---- Starting ----

    // restoreItem
    method RestoreItem(data: Data) returns (r: Result<()>)
      requires state.GraceOK() && state.reg == reg
      modifies state, state.builder
      ensures state.GraceOK() && state.callModel == old(state.callModel)
      ensures match CoordinatorState.RestoreItem(reg, old(state.Core()), data)
        case Ok(next) =>
          r.Ok? && state.Core() == next
          && state.graceToolCalls == GraceAfter(old(state.graceToolCalls), data, old(state.toolCalls).Keys, state.toolCalls.Keys)
        case Err(_) => r.Err?
    {
      hide AddItem;
      if data.StatusData? && RequiresTranslator(data.status) {
        var key := Key(data.status);
        if key in state.toolCalls && !reg.resolves(state.toolCalls[key].call.name) {
          return Err(BadItem);
        }
      }
      r := state.AddItemToLocalState(data);
    }

    // restore: the state is what the items and the operations of the session make it. No
    // session that coordinators have written is refused.
    method RestoreSession() returns (r: Result<()>)
      requires Recoverable() && state.Core() == NewCore(origin) && state.GraceOK()
      requires state.graceToolCalls == {} && !state.callModel && stopMode == None && sent == []
      requires sentBefore == Sent(reg, origin, trace.start, trace.actions)
      modifies this`trace, state, state.builder
      ensures Recoverable()
      ensures r.Ok?
      ensures
        && Restore(reg, origin, session) == Ok(state.Core())
        && Valid() && trace.kept == old(trace.kept) && state.graceToolCalls == {} && !state.callModel
      ensures Taken(trace.actions) == Taken(old(trace).actions)
    {
      hide Taken, Reached, AllWait, Sent, AddItem, Overlay, Resume, EnvironmentKept, Run;
      var items := session.items;
      ReachedIsTracked(reg, origin, trace);
      NothingWaits(state.Core());
      for i := 0 to |items|
        invariant Replay(reg, NewCore(origin), items[..i]) == Ok(state.Core())
        invariant state.GraceOK() && AllWait(state.Core()) && state.graceToolCalls == {} && !state.callModel
        invariant trace == old(trace)
      {
        assert items[..i + 1][..i] == items[..i];
        ghost var before := state.Core();
        r := RestoreItem(items[i].data);
        if r.Err? {
          assert false by { ReplayStops(reg, NewCore(origin), items, i + 1); }
          return;
        }
        ItemKeepsWaits(reg, before, items[i].data);
      }
      assert items[..|items|] == items;
      ghost var replayed := state.Core();
      state.AddOperations(Resume(session).operations);
      SameWaits(replayed, state.Core());
      StepIsReached(reg, origin, trace, Restart);
      TakenLonger(trace.actions, Restart);
      trace := After(reg, origin, trace, Restart);
      return Ok(());
    }

    // A process takes over the session.
    method Start() returns (r: Result<()>)
      requires Recoverable() && state.Core() == NewCore(origin) && state.GraceOK()
      requires state.graceToolCalls == {} && !state.callModel && stopMode == None && sent == [] && dispatched == []
      requires !modelInFlight && !cancellationRequested
      requires sentBefore == Sent(reg, origin, trace.start, trace.actions)
      modifies this, state, state.builder
      ensures Recoverable()
      ensures r.Ok? ==> Steady() && trace.kept == old(trace.kept) && stopMode == None && !MayStop() && heartbeat == old(heartbeat)
      ensures r.Ok? ==> Taken(trace.actions) == Taken(old(trace).actions)
    {
      hide Taken, Reached, AllWait, Sent, QuietSince, Covered, UnfinishedIn, AllScheduled, NoneEnded, AllReady, OperationsIn;
      r := RestoreSession();
      if r.Err? {
        return;
      }
      var scheduled := ScheduleToolCalls();
      if scheduled.Err? {
        return Err(scheduled.error);
      }
      r := ReconcileToolCalls();
      if r.Err? {
        return;
      }
      r := DispatchOperations();
      if r.Err? {
        return;
      }
      var required := ToolCallStatusesRequireModelResponse(scheduled.value);
      r := AskAtStart(required);
    }

    method AskAtStart(required: bool) returns (r: Result<()>)
      requires Orderly() && NoneEnded(state.toolCalls, state.operations) && Covered(state.operations, dispatched)
      requires stopMode == None && !cancellationRequested && !modelInFlight && !state.callModel
      requires state.graceToolCalls == {}
      modifies this`session, this`trace, this`modelInFlight, this`sent, state, state.builder
      ensures Recoverable()
      ensures r.Ok? ==> Steady() && trace.kept == old(trace.kept)
      ensures r.Ok? ==> (modelInFlight <==> required || old(state.availableInputs) > old(state.deliveredInputs))
      ensures r.Ok? ==> Taken(trace.actions) == Taken(old(trace).actions)
    {
      hide Taken, Reached, AllWait, Sent, QuietSince, Covered, UnfinishedIn, AllScheduled, NoneEnded;
      var pending := state.PendingInputs();
      if required || pending > 0 {
        r := RequestModelResponse();
      } else {
        r := Ok(());
      }
    }

    // MayStop, spelt out.
    lemma StopIsDue()
      ensures MayStop() <==>
        && stopMode in {Some(StopHard), Some(StopWhenIdle)}
        && (forall id | id in state.operations :: IsTerminal(state.operations[id].status))
        && (stopMode == Some(StopWhenIdle) ==>
              !modelInFlight && state.availableInputs == state.deliveredInputs && state.toolCalls == map[])
    {
    }

    // Run, for as long as there are events. However it ends, another process can take
    // over the session; when it waits for more, nothing has been forgotten.
    method RunLoop(rounds: seq<Round>) returns (r: Result<Outcome>)
      requires Recoverable() && state.Core() == NewCore(origin) && state.GraceOK()
      requires state.graceToolCalls == {} && !state.callModel && stopMode == None && sent == [] && dispatched == []
      requires !modelInFlight && !cancellationRequested && heartbeat == Off
      requires sentBefore == Sent(reg, origin, trace.start, trace.actions)
      modifies this, state, state.builder
      ensures Recoverable()
      ensures r.Ok? ==> Steady()
      // A hard stop is wanted if and only if a message has asked this process for it, and a
      // stop when idle if and only if one has asked for that and none for a hard stop.
      ensures r.Ok? ==> StopSince(old(trace), trace, stopMode)
      // It ends when nothing is unfinished, and a stop when idle only with all answered.
      ensures r.Ok? ==>
        (r.value == Stopped <==>
          && stopMode in {Some(StopHard), Some(StopWhenIdle)}
          && (forall id | id in state.operations :: IsTerminal(state.operations[id].status))
          && (stopMode == Some(StopWhenIdle) ==>
                !modelInFlight && state.availableInputs == state.deliveredInputs && state.toolCalls == map[]))
    {
      hide Recoverable, Steady, MayStop, Reached, Sent, Taken, StopAfter, TakeEvent;
      if heartbeatInterval < 0 {
        return Err(Interrupted);
      }
      var started := Start();
      if started.Err? {
        return Err(started.error);
      }
      NothingSince(old(trace), trace);
      for i := 0 to |rounds|
        invariant Steady() && Recoverable() && !MayStop()
        invariant StopSince(old(trace), trace, stopMode)
      {
        SetHeartbeat();
        ghost var now, stop, acts := trace, stopMode, ActsOn(rounds[i].event);
        var iterated := Iterate(rounds[i]);
        if iterated.Err? {
          return iterated;
        }
        if acts {
          RoundTakes(Taken(now.actions), rounds[i]);
          StopSinceLonger(old(trace), now, stop, InputsOf(rounds[i].event) + rounds[i].inputs.value, trace, stopMode);
        }
        if iterated.value == Stopped {
          StopIsDue();
          return iterated;
        }
      }
      StopIsDue();
      return Ok(Waiting);
    }
  }

  lemma NoStop(stop: Option<ControlMode>)
    ensures StopAfter(stop, [], stop)
  {
  }

  lemma OneMoreStop(before: Option<ControlMode>, inputs: seq<Input>, i: nat, was: Option<ControlMode>, after: Option<ControlMode>)
    requires i < |inputs| && StopAfter(before, inputs[..i], was)
    requires AsksFor(inputs[i], StopHard) ==> after == Some(StopHard)
    requires AsksFor(inputs[i], StopWhenIdle) && was != Some(StopHard) ==> after == Some(StopWhenIdle)
    requires was == Some(StopHard) ==> after == Some(StopHard)
    requires !AsksFor(inputs[i], StopHard) && !AsksFor(inputs[i], StopWhenIdle) ==> after == was
    ensures StopAfter(before, inputs[..i + 1], after)
  {
    assert inputs[..i + 1] == inputs[..i] + [inputs[i]];
    forall mode
      ensures AnyAsksFor([inputs[i]], mode) <==> AsksFor(inputs[i], mode)
    {
      assert [inputs[i]][0] == inputs[i];
    }
    StopsInTurn(before, inputs[..i], was, [inputs[i]], after);
  }

  lemma ExternalLonger(inputs: seq<Input>, i: nat)
    requires i < |inputs|
    ensures HasExternal(inputs[..i + 1]) <==> HasExternal(inputs[..i]) || inputs[i].kind == External
  {
    assert inputs[..i + 1][i] == inputs[i];
    if j :| 0 <= j < i && inputs[..i][j].kind == External {
      assert inputs[..i + 1][j].kind == External;
    }
  }
  // ---- Reconciliation ----

  // Of the calls not still to do, those are open that have an operation to wait for.
  predicate Reconciled(before: map<CallKey, CallState>, after: map<CallKey, CallState>, operations: map<Id, Operation>,
                       todo: set<CallKey>)
  {
    && (forall key | key in after :: key in before && after[key] == before[key])
    && (forall key | key in todo :: key in before <==> key in after)
    && (forall key | key in before && key !in todo :: key in after <==> !AllTerminal(operations, before[key].operations))
  }

  lemma OneMoreReconciled(first: map<CallKey, CallState>, before: map<CallKey, CallState>, after: map<CallKey, CallState>,
                          operations: map<Id, Operation>, todo: set<CallKey>, key: CallKey)
    requires Reconciled(first, before, operations, todo) && key in todo && key in before
    requires if AllTerminal(operations, before[key].operations) then OthersUnchanged(before, after, key) && key !in after
             else after == before
    ensures Reconciled(first, after, operations, todo - {key})
    ensures forall other | other in todo - {key} && other in before :: other in after
  {
    hide AllTerminal;
  }

  lemma AllReconciled(before: map<CallKey, CallState>, after: map<CallKey, CallState>, operations: map<Id, Operation>)
    requires Reconciled(before, after, operations, {})
    ensures after == Unended(before, operations) && NoneEnded(after, operations)
  {
    hide AllTerminal;
  }

  // ---- Schedules ----

  predicate AreNew(operations: map<Id, Operation>, values: seq<Operation>) {
    && DistinctIDs(values)
    && forall i | 0 <= i < |values| :: values[i].id !in operations
  }

  lemma SubmittedAreReady(reg: Registry, key: CallKey, call: Call, attempt: nat)
    ensures AllReady(ScheduledStatus(reg, key, call, attempt).operations)
  {
  }

  lemma ScheduledAreFit(reg: Registry, context: Context, live: Live, key: CallKey, attempt: nat, at: Time)
    requires Tracked(reg, context, live) && Apply(reg, context, live, Schedule(key, attempt, at)).Ok?
    ensures var status := ScheduledStatus(reg, key, live.core.toolCalls[key].call, attempt);
      && AreNew(live.core.operations, status.operations)
      && WaitingAreOpen([status], Apply(reg, context, live, Schedule(key, attempt, at)).value.core.toolCalls)
  {
    hide Tracked, Apply, ScheduledStatus;
    EnabledSchedule(reg, context, live, key, attempt, at);
    var status := ScheduledStatus(reg, key, live.core.toolCalls[key].call, attempt);
    ScheduledAreNew(reg, context, live, key, attempt, at);
    ScheduledKey(reg, key, live.core.toolCalls[key].call, attempt);
    if status.status.error == "" && status.status.waitingFor != [] {
      WaitingCallStaysOpen(reg, context, live, key, attempt, at);
    } else {
      EndedCallCloses(reg, context, live, key, attempt, at);
    }
  }

  lemma EnabledSchedule(reg: Registry, context: Context, live: Live, key: CallKey, attempt: nat, at: Time)
    requires Apply(reg, context, live, Schedule(key, attempt, at)).Ok?
    ensures key in live.core.toolCalls
  {
  }

  lemma SameWaits(a: Core, b: Core)
    requires AllWait(a) && a.toolCalls == b.toolCalls
    ensures AllWait(b)
  {
  }

  lemma CallHasStatus(core: Core, key: CallKey)
    requires AllScheduled(core) && key in core.toolCalls
    ensures core.toolCalls[key].status.Some?
  {
  }

  lemma NothingScheduled(operations: map<Id, Operation>, dispatched: seq<Operation>, toolCalls: map<CallKey, CallState>)
    ensures AllReady(OperationsIn([])) && WaitingAreOpen([], toolCalls) && AreHeld(operations, OperationsIn([]))
    ensures Covered(operations, dispatched) ==> Covered(operations, dispatched + OperationsIn([]))
  {
    assert dispatched + [] == dispatched;
  }

  lemma OneMoreScheduled(operations: map<Id, Operation>, dispatched: seq<Operation>, statuses: seq<ToolCallStatus>,
                         status: ToolCallStatus)
    requires AllReady(OperationsIn(statuses)) && AllReady(status.operations)
    ensures AllReady(OperationsIn(statuses + [status]))
    ensures AreHeld(operations, OperationsIn(statuses)) && AreNew(operations, status.operations) ==>
      AreHeld(Overlay(operations, status.operations), OperationsIn(statuses + [status]))
    ensures Covered(operations, dispatched + OperationsIn(statuses)) && AreNew(operations, status.operations) ==>
      Covered(Overlay(operations, status.operations), dispatched + OperationsIn(statuses + [status]))
  {
    hide Covered, OperationsIn, Overlay, AreHeld;
    OperationsInLonger(statuses, status);
    if AreHeld(operations, OperationsIn(statuses)) && AreNew(operations, status.operations) {
      NewOperationsHeld(operations, OperationsIn(statuses), status.operations);
    }
    if Covered(operations, dispatched + OperationsIn(statuses)) && AreNew(operations, status.operations) {
      NewOperationsCovered(operations, dispatched + OperationsIn(statuses), status.operations);
      assert dispatched + (OperationsIn(statuses) + status.operations)
        == dispatched + OperationsIn(statuses) + status.operations;
    }
  }

  lemma OneMoreOpen(statuses: seq<ToolCallStatus>, status: ToolCallStatus, before: map<CallKey, CallState>,
                    after: map<CallKey, CallState>)
    requires OthersUnchanged(before, after, Key(status))
    requires forall i | 0 <= i < |statuses| :: Key(statuses[i]) != Key(status)
    ensures WaitingAreOpen(statuses, before) && WaitingAreOpen([status], after) ==>
      WaitingAreOpen(statuses + [status], after)
  {
    var all := statuses + [status];
    if WaitingAreOpen(statuses, before) && WaitingAreOpen([status], after) {
      forall i | 0 <= i < |all|
        ensures Key(all[i]) in after <==> all[i].status.error == "" && all[i].status.waitingFor != []
      {
        if i < |statuses| {
          assert Key(statuses[i]) in before <==> Key(all[i]) in after;
        } else {
          assert [status][0] == all[i];
        }
      }
    }
  }

  lemma StillScheduled(before: map<CallKey, CallState>, after: map<CallKey, CallState>, key: CallKey)
    requires OthersUnchanged(before, after, key) && (key in after ==> after[key].status.Some?)
    ensures Unscheduled(after) == Unscheduled(before) - {key} && after.Keys <= before.Keys
  {
  }

  // ---- Dispatches ----

  predicate CoveredSoFar(operations: map<Id, Operation>, dispatched: seq<Operation>, todo: set<Id>) {
    && Named(operations)
    && (forall id | id in operations && id !in todo && !IsTerminal(operations[id].status) :: id in IDs(dispatched))
    && (forall id | id in IDs(dispatched) :: id in operations && id !in todo)
    && DistinctIDs(dispatched)
  }

  lemma NothingCovered(operations: map<Id, Operation>)
    requires Named(operations)
    ensures CoveredSoFar(operations, [], operations.Keys)
  {
  }

  lemma AllCovered(operations: map<Id, Operation>, dispatched: seq<Operation>)
    requires CoveredSoFar(operations, dispatched, {})
    ensures Covered(operations, dispatched)
  {
  }

  lemma OneMoreCovered(operations: map<Id, Operation>, dispatched: seq<Operation>, todo: set<Id>, id: Id)
    requires CoveredSoFar(operations, dispatched, todo) && id in todo && id in operations
    ensures CoveredSoFar(operations,
                         if IsTerminal(operations[id].status) then dispatched else dispatched + [operations[id]],
                         todo - {id})
  {
    hide IDs;
    IDsOfLonger(dispatched, operations[id]);
    forall i | 0 <= i < |dispatched|
      ensures dispatched[i].id != id
    {
      AmongIDs(dispatched, i);
    }
  }

  lemma AmongIDs(operations: seq<Operation>, i: nat)
    requires i < |operations|
    ensures operations[i].id in IDs(operations)
  {
  }

  lemma NothingToDispatch(dispatched: seq<Operation>)
    ensures dispatched + OperationsIn([]) == dispatched
  {
  }

  lemma {:induction false} ReadyAmong(statuses: seq<ToolCallStatus>, i: nat)
    requires AllReady(OperationsIn(statuses)) && i < |statuses|
    ensures AllReady(statuses[i].operations)
    decreases |statuses|
  {
    var earlier := statuses[..|statuses| - 1];
    var last := statuses[|statuses| - 1];
    var all := OperationsIn(statuses);
    assert forall j | 0 <= j < |OperationsIn(earlier)| :: all[j] == OperationsIn(earlier)[j];
    assert forall j | 0 <= j < |last.operations| :: all[|OperationsIn(earlier)| + j] == last.operations[j];
    if i < |earlier| {
      ReadyAmong(earlier, i);
    }
  }

  // ---- Grace ----

  lemma NoKeys()
    ensures KeysOf([]) == {}
  {
  }

  lemma KeysOfLonger(statuses: seq<ToolCallStatus>, status: ToolCallStatus)
    ensures KeysOf(statuses + [status]) == KeysOf(statuses) + {Key(status)}
  {
    hide KeysOf;
    var all := statuses + [status];
    OneMoreKey(all, |statuses|);
    assert all[..|statuses|] == statuses && all[..|statuses| + 1] == all;
  }

  lemma NoneUnscheduled(core: Core)
    requires Unscheduled(core.toolCalls) == {}
    ensures AllScheduled(core)
  {
    assert forall key | key in core.toolCalls :: key !in Unscheduled(core.toolCalls);
  }

  lemma KeysAmong(statuses: seq<ToolCallStatus>)
    ensures forall i | 0 <= i < |statuses| :: Key(statuses[i]) in KeysOf(statuses)
  {
  }

  lemma KeysAreThere(statuses: seq<ToolCallStatus>, toolCalls: map<CallKey, CallState>)
    requires WaitingAreOpen(statuses, toolCalls)
    ensures KeysOf(statuses) != {} <==> statuses != []
    ensures RequireResponse(statuses) <==> !(KeysOf(statuses) <= toolCalls.Keys)
  {
    if statuses != [] {
      assert Key(statuses[0]) in KeysOf(statuses);
    }
    if i :| 0 <= i < |statuses| && (statuses[i].status.error != "" || statuses[i].status.waitingFor == []) {
      assert Key(statuses[i]) in KeysOf(statuses) && Key(statuses[i]) !in toolCalls;
    }
  }

  // The calls that a response asks for, of which one to a compaction turn is dropped.
  function AskedBy(turnType: TurnType, turnID: Id, output: seq<Item>): set<CallKey> {
    if turnType == Compaction then {} else ForkShape.CallKeys(turnID, output)
  }

  // They are what has no status after it.
  lemma AskedAreUnscheduled(core: Core, output: seq<Item>)
    requires AllScheduled(core)
    ensures Unscheduled(AddCalls(core.toolCalls, core.turnID, output)) == ForkShape.CallKeys(core.turnID, output)
  {
    hide AddCalls, HasCall;
    var added := AddCalls(core.toolCalls, core.turnID, output);
    ResponseOpensCalls(core.toolCalls, core.turnID, output);
    forall key: CallKey
      ensures key in ForkShape.CallKeys(core.turnID, output) <==> key.0 == core.turnID && HasCall(output, key.1)
    {
      CalledIsAsked(core.turnID, output, key);
    }
    forall key | key in added
      ensures added[key].status.None? <==> key.0 == core.turnID && HasCall(output, key.1)
    {
    }
  }

  lemma CalledIsAsked(turnID: Id, output: seq<Item>, key: CallKey)
    ensures key in ForkShape.CallKeys(turnID, output) <==> key.0 == turnID && HasCall(output, key.1)
  {
  }

  lemma SameScheduled(a: Core, b: Core)
    requires AllScheduled(a) && a.toolCalls == b.toolCalls
    ensures AllScheduled(b)
  {
  }

  // ---- Iterations ----

  predicate TakesExternal(round: Round) {
    || (round.event.Received? && round.event.input.kind == External)
    || (round.inputs.Some? && HasExternal(round.inputs.value))
  }

  function TakeEvent(intake: Intake, event: Event): Intake {
    match event
    case Received(input) => WithInputs(intake, [input])
    case Updated(update) => WithUpdates(intake, [update])
    case Responded(_, response) => if response.Some? then WithOutput(intake, response.value) else intake
    case _ => intake
  }

  lemma RoundTakes(intake: Intake, round: Round)
    requires round.inputs.Some? && round.updates.Some?
    ensures WithUpdates(WithInputs(TakeEvent(intake, round.event), round.inputs.value), round.updates.value).inputs
      == intake.inputs + (InputsOf(round.event) + round.inputs.value)
  {
  }

  lemma ExternalAlone(input: Input)
    ensures HasExternal([input]) <==> input.kind == External
  {
    assert [input][0] == input;
  }

  lemma FewerUnfinished(before: map<Id, Operation>, after: map<Id, Operation>, dispatched: seq<Operation>, canceled: set<Id>)
    requires NoNewUnfinished(before, after)
    ensures Covered(before, dispatched) ==> Covered(after, dispatched)
    ensures UnfinishedIn(before, canceled) ==> UnfinishedIn(after, canceled)
  {
  }

  // ---- Replays ----

  lemma NothingWaits(core: Core)
    requires core.toolCalls == map[]
    ensures AllWait(core)
  {
  }

  // A replay that fails at an item fails for good.
  lemma {:induction false} ReplayStops(reg: Registry, start: Core, items: seq<SessionItem>, n: nat)
    requires n <= |items| && Replay(reg, start, items[..n]).Err?
    ensures Replay(reg, start, items).Err?
    decreases |items|
  {
    if n < |items| {
      assert items[..|items| - 1][..n] == items[..n];
      ReplayStops(reg, start, items[..|items| - 1], n);
    } else {
      assert items[..n] == items;
    }
  }

  // ---- What a process inherits and what it keeps ----

  lemma NewSessionIsReached(reg: Registry, context: Context, session: SessionInfo)
    ensures var start := Live(NewCore(context), NewStored(session));
      Reached(reg, context, Trace(start, [], start, true))
  {
    hide Synced, Tracked;
    NewSessionIsReplayable(reg, context, session);
  }

  // And so is a fork of any session that coordinators have written.
  lemma ForkIsReached(reg: Registry, context: Context, parent: Live, id: Id, previousTurnID: Id, at: Time)
    requires ForkRequests.Written(reg, context, parent) && ForkOf(parent.stored, id, previousTurnID, at).Ok?
    ensures var child := ForkOf(parent.stored, id, previousTurnID, at).value;
      && Restore(reg, context, child).Ok?
      && var start := Live(Restore(reg, context, child).value, child);
         Reached(reg, context, Trace(start, [], start, true))
  {
    hide Synced, Tracked, ForkOf, Restore, ForkRequests.Written;
    ForkRequests.ForkIsWritten(reg, context, parent, id, previousTurnID, at);
  }

  // In a session without forks, whatever processes have worked on it and whatever updates
  // came: everything that this one sent is well formed and only grows, its counters match
  // its context, and restoring the session gives its state; the values of operations
  // too, as long as no update came late.
  lemma ProcessKeepsItsPromises(c: Coordinator, session: SessionInfo)
    requires c.Valid()
    requires NewContext(c.origin) && c.trace.start == Live(NewCore(c.origin), NewStored(session))
    requires DisciplinedHistory(c.reg, c.origin, c.session.items)
    ensures forall i | 0 <= i < |c.sent| :: WellFormed(c.sent[i].input)
    ensures Growing(c.sentBefore + c.sent, c.state.Core().context.committed)
    ensures Accounted(c.state.Core())
    ensures Restore(c.reg, c.origin, c.session).Ok?
    ensures WithoutOperations(Restore(c.reg, c.origin, c.session).value) == WithoutOperations(c.state.Core())
    ensures c.trace.kept ==> Restore(c.reg, c.origin, c.session) == Ok(c.state.Core())
  {
    hide NewContext, DisciplinedHistory, Run, EnvironmentKept, Synced, Tracked, Sent, AllWait, QuietSince, WellFormed,
         Accounted, Growing, Restore, RequestsOf;
    var trace := c.trace;
    RunsAreTracked(c.reg, c.origin, trace.start, trace.actions);
    RunsKeepAccount(c.reg, c.origin, trace.start, trace.actions);
    RequestsAreWellFormed(c.reg, c.origin, session, trace.actions);
    RunsOnlyGrowRequests(c.reg, c.origin, trace.start, trace.actions);
    if trace.kept {
      ReachedIsReplayable(c.reg, c.origin, trace);
    }
    assert RequestsOf(c.reg, c.origin, []) == [] by { NothingAsked(c.reg, c.origin); }
    assert [] + (c.sentBefore + c.sent) == c.sentBefore + c.sent;
    forall i | 0 <= i < |c.sent|
      ensures WellFormed(c.sent[i].input)
    {
      assert (c.sentBefore + c.sent)[|c.sentBefore| + i] == c.sent[i];
    }
  }

  lemma NothingAsked(reg: Registry, context: Context)
    ensures RequestsOf(reg, context, []) == []
  {
  }
}
