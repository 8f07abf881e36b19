// Every request of a session without forks is well formed.
module RequestShape {
  import opened Session
  import opened SessionState
  import opened ContextBuilder
  import opened CoordinatorState
  import opened Tracking
  import opened Accounting
  import opened Requests

  // The results of a call in order: for each whether it is final.
  function Results(items: seq<Item>, callID: Id): seq<bool> {
    if items == [] then []
    else
      var last := items[|items| - 1];
      Results(items[..|items| - 1], callID) + (if last.ToolResult? && last.callID == callID then [last.final] else [])
  }

  // Every call is followed by a result, every result comes after its call, and a call
  // has at most one placeholder and after it at most one final result.
  ghost predicate WellFormed(input: seq<Item>) {
    && (forall i | 0 <= i < |input| && input[i].ToolCall? ::
          exists j :: i < j < |input| && input[j].ToolResult? && input[j].callID == input[i].call.callID)
    && (forall j | 0 <= j < |input| && input[j].ToolResult? ::
          exists i :: 0 <= i < j && input[i].ToolCall? && input[i].call.callID == input[j].callID)
    && (forall callID :: Results(input, callID) in {[], [false], [true], [false, true]})
  }

  lemma {:induction false} ResultsConcat(a: seq<Item>, b: seq<Item>, callID: Id)
    ensures Results(a + b, callID) == Results(a, callID) + Results(b, callID)
    decreases |b|
  {
    if b == [] {
      assert a + b == a;
    } else {
      assert (a + b)[..|a + b| - 1] == a + b[..|b| - 1];
      ResultsConcat(a, b[..|b| - 1], callID);
    }
  }

  lemma ResultsOfOne(item: Item, callID: Id)
    ensures Results([item], callID) == if item.ToolResult? && item.callID == callID then [item.final] else []
  {
    assert Results([], callID) == [];
  }

  lemma {:induction false} ResultsAreThere(items: seq<Item>, callID: Id)
    ensures Results(items, callID) != [] <==> HasResult(items, callID)
    ensures true in Results(items, callID) <==> HasFinal(items, callID)
    decreases |items|
  {
    if items != [] {
      var shorter, last := items[..|items| - 1], items[|items| - 1];
      ResultsAreThere(shorter, callID);
      assert items == shorter + [last];
      HasFinalConcat(shorter, [last], callID);
      if HasResult(shorter, callID) {
        var i :| 0 <= i < |shorter| && shorter[i].ToolResult? && shorter[i].callID == callID;
        assert items[i] == shorter[i];
      }
    }
  }

  // ---- The invariant ----

  predicate NoCalls(items: seq<Item>) {
    forall i | 0 <= i < |items| :: !items[i].ToolCall?
  }

  predicate Placeholders(items: seq<Item>) {
    forall i | 0 <= i < |items| && items[i].ToolResult? && !items[i].final :: items[i].output == RUNNING_OUTPUT
  }

  // Results come after their calls.
  predicate CallsFirst(items: seq<Item>) {
    forall i, j | 0 <= i < |items| && 0 <= j < |items| && items[i].ToolCall? && items[j].ToolResult?
                  && items[i].call.callID == items[j].callID :: i < j
  }

  predicate IsOpen(core: Core, callID: Id) {
    exists key :: key in core.toolCalls && key.1 == callID
  }

  function AllResults(context: Context, callID: Id): seq<bool> {
    Results(context.committed, callID) + Results(context.staged, callID)
  }

  // What is to be seen of a call: nothing before its first status, a placeholder while
  // it runs, and a final result after that or at once. Of a lost call, which was
  // forgotten before it had a result, there is nothing ever.
  predicate CallShape(core: Core, callID: Id, lost: set<Id>) {
    var results := AllResults(core.context, callID);
    && (!HasCall(core.context.committed, callID) ==> results == [])
    && (forall key | key in core.toolCalls && key.1 == callID ::
          results == if core.toolCalls[key].status.None? then [] else [false])
    && (HasCall(core.context.committed, callID) && !IsOpen(core, callID) && callID !in lost ==>
          results in {[true], [false, true]})
    && (callID in lost ==> HasCall(core.context.committed, callID) && !IsOpen(core, callID) && results == [])
  }

  ghost predicate Shaped(core: Core, lost: set<Id>) {
    && NoCalls(core.context.staged) && Placeholders(core.context.staged) && CallsFirst(core.context.committed)
    && forall callID :: CallShape(core, callID, lost)
  }

  // ---- Inputs, turns and responses ----

  lemma MessageKeepsShape(core: Core, text: string, available: nat, lost: set<Id>)
    requires Shaped(core, lost)
    ensures Shaped(core.(context := AddMessage(core.context, text), available := available), lost)
  {
    hide HasCall, Results;
    var next := core.(context := AddMessage(core.context, text), available := available);
    forall callID
      ensures CallShape(next, callID, lost)
    {
      ResultsConcat(core.context.staged, [Message(User, text)], callID);
      ResultsOfOne(Message(User, text), callID);
      assert CallShape(core, callID, lost);
      assert Results(core.context.staged, callID) + [] == Results(core.context.staged, callID);
      assert IsOpen(next, callID) == IsOpen(core, callID);
    }
  }

  // Only the calls and the context matter.
  lemma SameShape(a: Core, b: Core, lost: set<Id>)
    requires Shaped(a, lost) && a.toolCalls == b.toolCalls
    requires a.context.committed == b.context.committed && a.context.staged == b.context.staged
    ensures Shaped(b, lost)
  {
    hide HasCall, Results;
    forall callID
      ensures CallShape(b, callID, lost)
    {
      assert CallShape(a, callID, lost);
      assert IsOpen(b, callID) == IsOpen(a, callID);
    }
  }

  lemma TurnKeepsShape(core: Core, next: Core, lost: set<Id>)
    requires Shaped(core, lost) && next.toolCalls == core.toolCalls && next.context == Committed(core.context)
    ensures Shaped(next, lost)
  {
    hide HasCall, Results;
    forall callID
      ensures CallShape(next, callID, lost)
    {
      ResultsConcat(core.context.committed, core.context.staged, callID);
      ResultsOfNothing(callID);
      assert AllResults(next.context, callID) == AllResults(core.context, callID);
      HasCallConcat(core.context.committed, core.context.staged, callID);
      NoCallsNoCall(core.context.staged, callID);
      assert CallShape(core, callID, lost);
      assert IsOpen(next, callID) == IsOpen(core, callID);
    }
  }

  lemma ResultsOfNothing(callID: Id)
    ensures Results([], callID) == []
  {
  }

  lemma NoCallsNoCall(items: seq<Item>, callID: Id)
    requires NoCalls(items)
    ensures !HasCall(items, callID)
  {
  }

  // A response opens its calls without a status.
  lemma {:induction false} ResponseOpensCalls(toolCalls: map<CallKey, CallState>, turnID: Id, output: seq<Item>)
    ensures var added := AddCalls(toolCalls, turnID, output);
      && (forall key | key in added ::
            if HasCall(output, key.1) && key.0 == turnID then added[key].status.None?
            else key in toolCalls && added[key] == toolCalls[key])
      && (forall callID | HasCall(output, callID) :: (turnID, callID) in added)
      && (forall key | key in toolCalls :: key in added)
    decreases |output|
  {
    if output != [] {
      var shorter, last := output[..|output| - 1], output[|output| - 1];
      ResponseOpensCalls(toolCalls, turnID, shorter);
      assert output == shorter + [last];
      forall callID
        ensures HasCall(output, callID) <==> HasCall(shorter, callID) || (last.ToolCall? && last.call.callID == callID)
      {
        HasCallConcat(shorter, [last], callID);
        CallOfOne(last, callID);
      }
    }
  }

  lemma CallOfOne(item: Item, callID: Id)
    ensures HasCall([item], callID) <==> item.ToolCall? && item.call.callID == callID
  {
    if item.ToolCall? && item.call.callID == callID {
      assert [item][0] == item;
    }
  }

  lemma ResponseKeepsShape(core: Core, next: Core, turnID: Id, output: seq<Item>, lost: set<Id>)
    requires Shaped(core, lost) && OpenCallsOK(core) && Disciplined(core, output)
    requires next.toolCalls == AddCalls(core.toolCalls, turnID, output)
    requires next.context == AddResponse(core.context, output)
    ensures Shaped(next, lost)
  {
    hide AddCalls, Results, HasCall, HasResult, HasFinal;
    ResponseOpensCalls(core.toolCalls, turnID, output);
    OutputGoesAfter(core, output);
    forall callID
      ensures CallShape(next, callID, lost)
    {
      assert CallShape(core, callID, lost);
      ResultsConcat(core.context.committed, output, callID);
      NoResults(output, callID);
      assert AllResults(next.context, callID) == AllResults(core.context, callID);
      HasCallConcat(core.context.committed, output, callID);
      OutputHasNoResults(core, output, callID);
      if HasCall(output, callID) {
        assert (turnID, callID) in next.toolCalls;
      } else if IsOpen(next, callID) {
        var key :| key in next.toolCalls && key.1 == callID;
        assert key in core.toolCalls;
      }
    }
  }

  lemma NoResults(output: seq<Item>, callID: Id)
    requires forall i | 0 <= i < |output| :: !output[i].ToolResult?
    ensures Results(output, callID) == []
  {
    ResultsAreThere(output, callID);
  }

  lemma OutputGoesAfter(core: Core, output: seq<Item>)
    requires CallsFirst(core.context.committed) && Disciplined(core, output)
    ensures CallsFirst(core.context.committed + output)
  {
    hide HasCall;
    var committed := core.context.committed;
    var all := committed + output;
    forall i, j | 0 <= i < |all| && 0 <= j < |all| && all[i].ToolCall? && all[j].ToolResult?
                  && all[i].call.callID == all[j].callID
      ensures i < j
    {
      assert j < |committed| && HasResult(committed, committed[j].callID);
    }
  }

  // ---- Statuses ----

  // A new result leaves no placeholder of its call in the staged suffix.
  lemma {:induction false} ResultsWithout(items: seq<Item>, callID: Id, other: Id)
    requires Placeholders(items)
    ensures callID != other ==> Results(WithoutPlaceholders(items, callID), other) == Results(items, other)
    ensures !HasFinal(items, callID) ==> Results(WithoutPlaceholders(items, callID), callID) == []
    decreases |items|
  {
    hide HasFinal;
    if items != [] {
      var shorter, last := items[..|items| - 1], items[|items| - 1];
      assert items == shorter + [last];
      ResultsWithout(shorter, callID, other);
      HasFinalConcat(shorter, [last], callID);
      OneFinal(last, callID);
      if IsPlaceholder(last, callID) {
        assert WithoutPlaceholders(items, callID) == WithoutPlaceholders(shorter, callID);
      } else {
        var kept := WithoutPlaceholders(shorter, callID);
        assert (kept + [last])[..|kept|] == kept;
      }
    }
  }

  lemma OneFinal(item: Item, callID: Id)
    ensures HasFinal([item], callID) <==> item.ToolResult? && item.callID == callID && item.final
  {
    if item.ToolResult? && item.callID == callID && item.final {
      assert [item][0] == item;
    }
  }

  // The state once a status of an open call shows a result.
  function Shown(core: Core, key: CallKey, call: CallState, output: seq<ResultOutput>, running: bool): Core {
    core.(context := AddResult(core.context, key.1, output, running),
          toolCalls := if running then core.toolCalls[key := call] else core.toolCalls - {key},
          available := if running then core.available else core.available + 1)
  }

  lemma ResultKeepsShape(core: Core, key: CallKey, call: CallState, output: seq<ResultOutput>, running: bool, lost: set<Id>)
    requires Shaped(core, lost) && OpenCallsOK(core) && key in core.toolCalls
    requires running ==> core.toolCalls[key].status.None? && call.status.Some?
    ensures Shaped(Shown(core, key, call, output, running), lost)
  {
    hide Results, HasCall, HasFinal;
    var next := Shown(core, key, call, output, running);
    var result := ToolResult(key.1, if running then RUNNING_OUTPUT else output, !running);
    var kept := WithoutPlaceholders(core.context.staged, key.1);
    assert next.context.staged == kept + [result];
    KeptItems(core.context.staged, key.1);
    assert forall i | 0 <= i < |kept| :: kept[i] in core.context.staged;
    forall callID
      ensures CallShape(next, callID, lost)
    {
      ResultsWithout(core.context.staged, key.1, callID);
      ResultsConcat(kept, [result], callID);
      ResultsOfOne(result, callID);
      ShownCallShape(core, key, call, output, running, callID, lost);
    }
  }

  lemma ShownCallShape(core: Core, key: CallKey, call: CallState, output: seq<ResultOutput>, running: bool, callID: Id, lost: set<Id>)
    requires OpenCallsOK(core) && key in core.toolCalls && CallShape(core, callID, lost)
    requires running ==> core.toolCalls[key].status.None? && call.status.Some?
    requires var staged := Shown(core, key, call, output, running).context.staged;
      Results(staged, callID) == if callID == key.1 then [!running] else Results(core.context.staged, callID)
    ensures CallShape(Shown(core, key, call, output, running), callID, lost)
  {
    hide Results, HasCall, HasFinal, WithoutPlaceholders;
    var next := Shown(core, key, call, output, running);
    assert forall other | other in next.toolCalls :: other in core.toolCalls;
    if callID == key.1 {
      assert forall other | other in core.toolCalls && other.1 == callID :: other == key;
      assert HasCall(core.context.committed, callID);
      assert AllResults(core.context, callID) in {[], [false]};
      assert AllResults(next.context, callID) == Results(core.context.committed, callID) + [!running];
      PrefixOfFlag(Results(core.context.committed, callID), Results(core.context.staged, callID));
      assert [] + [true] == [true] && [false] + [true] == [false, true] && [] + [false] == [false];
      assert running ==> key in next.toolCalls && Results(core.context.committed, callID) == [];
    } else if IsOpen(core, callID) {
      var other :| other in core.toolCalls && other.1 == callID;
      assert other in next.toolCalls;
    }
  }

  lemma PrefixOfFlag(a: seq<bool>, b: seq<bool>)
    requires a + b in {[], [false]}
    ensures a in {[], [false]} && (a + b == [] ==> a == [])
  {
    assert |a + b| == |a| + |b|;
    if |a| == 1 {
      assert (a + b)[0] == a[0];
      assert a == [a[0]];
    }
  }

  // A recorded status of an open call always shows a result.
  lemma RecordedStatusIsShown(reg: Registry, live: Live, status: ToolCallStatus) returns (output: seq<ResultOutput>, running: bool)
    requires Recordable(reg, live, status) && AddItem(reg, live.core, StatusData(status)).Ok?
    ensures var call := live.core.toolCalls[Key(status)];
      var next := AddItem(reg, live.core, StatusData(status)).value;
      var noted := call.(status := Some(status.status), operations := call.operations + IDSet(status.status.waitingFor));
      && next == Shown(live.core, Key(status), noted, output, running).(operations := next.operations)
      && (running ==> !AllTerminal(Overlay(live.core.operations, status.operations), noted.operations))
  {
    hide AddResult, Overlay, AllTerminal;
    var core := live.core;
    var overlaid := core.(operations := Overlay(core.operations, status.operations));
    var noted := NoteStatus(overlaid, status);
    var call := noted.toolCalls[Key(status)];
    OverlayIDs(core.operations, status.operations);
    WaitedForAreInSet(status.status.waitingFor);
    if !reg.resolves(call.call.name) {
      output, running := [ResultOutput(Text, status.status.error)], false;
      assert noted.toolCalls - {Key(status)} == core.toolCalls - {Key(status)};
    } else {
      assert Collectable(noted, call, status.status.waitingFor);
      output := reg.translateResult(call.call.name, status.callID, status.status,
                                    Collect(noted.operations, status.status.waitingFor)).value;
      running := !AllTerminal(noted.operations, call.operations);
      assert noted.toolCalls - {Key(status)} == core.toolCalls - {Key(status)};
    }
  }

  lemma WaitedForAreInSet(ids: seq<Id>)
    ensures forall i | 0 <= i < |ids| :: ids[i] in IDSet(ids)
  {
  }

  lemma ScheduleKeepsShape(reg: Registry, context: Context, live: Live, key: CallKey, attempt: nat, at: Time, lost: set<Id>)
    requires Tracked(reg, context, live) && Shaped(live.core, lost) && OpenCallsOK(live.core)
    requires Apply(reg, context, live, Schedule(key, attempt, at)).Ok?
    ensures Shaped(Apply(reg, context, live, Schedule(key, attempt, at)).value.core, lost)
  {
    hide Tracked, Shaped, OpenCallsOK, AddItem, Append, Overlay, Recordable, ScheduledStatus, Shown, AllTerminal, IDSet;
    var call := live.core.toolCalls[key];
    var status := ScheduledStatus(reg, key, call.call, attempt);
    ScheduleIsRecordable(reg, context, live, key, attempt, at);
    ScheduledKey(reg, key, call.call, attempt);
    AddFromOverlay(reg, live.core, status);
    StatusNeeds(reg, live, status);
    var output, running := RecordedStatusIsShown(reg, live, status);
    var noted := call.(status := Some(status.status), operations := call.operations + IDSet(status.status.waitingFor));
    ResultKeepsShape(live.core, key, noted, output, running, lost);
    SameShape(Shown(live.core, key, noted, output, running), AddItem(reg, live.core, StatusData(status)).value, lost);
  }

  lemma StatusNeeds(reg: Registry, live: Live, status: ToolCallStatus)
    requires Recordable(reg, live, status)
    ensures Key(status) in live.core.toolCalls
  {
  }

  lemma ReconcileKeepsShape(reg: Registry, context: Context, live: Live, key: CallKey, at: Time, lost: set<Id>)
    requires Tracked(reg, context, live) && Shaped(live.core, lost) && OpenCallsOK(live.core)
    requires Apply(reg, context, live, Reconcile(key, at)).Ok?
    ensures Shaped(Apply(reg, context, live, Reconcile(key, at)).value.core, lost)
  {
    hide Tracked, Shaped, OpenCallsOK, AddItem, Append, Overlay, Recordable, Shown, AllTerminal, IDSet, Collect;
    var call := live.core.toolCalls[key];
    var status := ReconciledStatus(live.core, key);
    ReconcileIsRecordable(reg, context, live, key);
    var output, running := RecordedStatusIsShown(reg, live, status);
    var noted := call.(status := Some(status.status), operations := call.operations + IDSet(status.status.waitingFor));
    assert noted.operations == call.operations;
    ResultKeepsShape(live.core, key, noted, output, running, lost);
    SameShape(Shown(live.core, key, noted, output, running), AddItem(reg, live.core, StatusData(status)).value, lost);
  }

  // ---- Runs ----

  lemma PlainItemKeepsShape(reg: Registry, core: Core, data: Data, lost: set<Id>)
    requires Shaped(core, lost) && OpenCallsOK(core) && DisciplinedData(core, data)
    requires !data.StatusData? && !data.ForkData? && AddItem(reg, core, data).Ok?
    ensures Shaped(AddItem(reg, core, data).value, lost)
  {
    hide Shaped, OpenCallsOK, Disciplined, AddCalls, ValidInput;
    var next := AddItem(reg, core, data).value;
    match data
    case InputData(input) =>
      if next.context.staged == core.context.staged {
        SameShape(core, next, lost);
      } else if input.kind == External {
        MessageKeepsShape(core, input.payload.text.value, next.available, lost);
      } else {
        MessageKeepsShape(core, input.payload.control.value.reason, next.available, lost);
      }
    case TurnData(_) => TurnKeepsShape(core, next, lost);
    case ResponseData(response) =>
      if core.turnType == Compaction && response.turnID == core.turnID {
        SameShape(core, next, lost);
      } else {
        ResponseKeepsShape(core, next, response.turnID, response.output, lost);
      }
  }

  lemma ActionKeepsShape(reg: Registry, context: Context, live: Live, action: Action, lost: set<Id>)
    requires Tracked(reg, context, live) && Shaped(live.core, lost) && OpenCallsOK(live.core)
    requires action.TakeResponse? ==> Disciplined(live.core, action.output)
    requires Apply(reg, context, live, action).Ok?
    ensures Shaped(Apply(reg, context, live, action).value.core, lost)
  {
    hide Tracked, Shaped, OpenCallsOK, AddItem, AppendToHead, SaveOperation, CanReconcile, AllScheduled,
         Disciplined, ReconciledStatus, Restore, Overlay;
    match action
    case TakeInput(input, at) => PlainItemKeepsShape(reg, live.core, InputData(input), lost);
    case StartTurn(turnID, at) => PlainItemKeepsShape(reg, live.core, TurnData(Turn(turnID, live.core.turnID, Regular)), lost);
    case TakeResponse(output, at) =>
      PlainItemKeepsShape(reg, live.core, ResponseData(ModelResponse(live.core.turnID, output)), lost);
    case Schedule(key, attempt, at) => ScheduleKeepsShape(reg, context, live, key, attempt, at, lost);
    case Reconcile(key, at) => ReconcileKeepsShape(reg, context, live, key, at, lost);
    case TakeUpdate(update) => SameShape(live.core, Apply(reg, context, live, action).value.core, lost);
    case Restart =>
      RestartTracks(reg, context, live);
      var core := Apply(reg, context, live, Restart).value.core;
      assert core.toolCalls == WithoutOperations(core).toolCalls && core.context == WithoutOperations(core).context;
      SameShape(live.core, core, lost);
  }

  lemma NewCoreIsShaped(context: Context)
    requires NewContext(context)
    ensures Shaped(NewCore(context), {})
  {
    hide Results, HasCall;
    forall callID
      ensures CallShape(NewCore(context), callID, {})
    {
      ResultsOfOne(context.committed[0], callID);
      assert context.committed == [context.committed[0]];
      CallOfOne(context.committed[0], callID);
      ResultsOfNothing(callID);
    }
  }

  // A turn starts only when each call has a status, and then the request is well formed
  // exactly when no call is lost.
  lemma RequestIsWellFormed(core: Core, lost: set<Id>)
    requires Shaped(core, lost) && AllScheduled(core)
    ensures WellFormed(Build(core.context)) <==> lost == {}
  {
    hide Results, Placeholders, WellFormed, AllScheduled;
    var input := Build(core.context);
    forall callID
      ensures Results(input, callID) == AllResults(core.context, callID)
    {
      ResultsConcat(core.context.committed, core.context.staged, callID);
    }
    if lost == {} {
      ResultsAreInOrder(core);
      EveryCallHasResult(core);
      AnsweredIsWellFormed(input);
    } else {
      var callID :| callID in lost;
      assert CallShape(core, callID, lost);
      ResultsAreThere(input, callID);
      UnansweredIsNotWellFormed(core.context, callID);
    }
  }

  predicate Answered(input: seq<Item>, callID: Id) {
    HasCall(input, callID) <==> HasResult(input, callID)
  }

  lemma EveryCallHasResult(core: Core)
    requires Shaped(core, {}) && AllScheduled(core)
    ensures var input := Build(core.context);
      forall callID :: Answered(input, callID) && Results(input, callID) in {[], [false], [true], [false, true]}
  {
    hide Results, Placeholders, HasCall, HasResult;
    var input := Build(core.context);
    forall callID
      ensures Answered(input, callID) && Results(input, callID) in {[], [false], [true], [false, true]}
    {
      ResultsConcat(core.context.committed, core.context.staged, callID);
      ResultsAreThere(input, callID);
      HasCallConcat(core.context.committed, core.context.staged, callID);
      NoCallsNoCall(core.context.staged, callID);
      assert CallShape(core, callID, {});
    }
  }

  lemma ResultsAreInOrder(core: Core)
    requires CallsFirst(core.context.committed) && NoCalls(core.context.staged)
    ensures CallsFirst(Build(core.context))
  {
    CallsStayFirst(core.context);
  }

  lemma AnsweredIsWellFormed(input: seq<Item>)
    requires CallsFirst(input)
    requires forall callID :: Answered(input, callID) && Results(input, callID) in {[], [false], [true], [false, true]}
    ensures WellFormed(input)
  {
    hide Results;
    forall i | 0 <= i < |input| && input[i].ToolCall?
      ensures exists j :: i < j < |input| && input[j].ToolResult? && input[j].callID == input[i].call.callID
    {
      assert Answered(input, input[i].call.callID);
      var j :| 0 <= j < |input| && input[j].ToolResult? && input[j].callID == input[i].call.callID;
      assert i < j;
    }
    forall j | 0 <= j < |input| && input[j].ToolResult?
      ensures exists i :: 0 <= i < j && input[i].ToolCall? && input[i].call.callID == input[j].callID
    {
      assert Answered(input, input[j].callID);
      var i :| 0 <= i < |input| && input[i].ToolCall? && input[i].call.callID == input[j].callID;
      assert i < j;
    }
  }

  lemma UnansweredIsNotWellFormed(context: Context, callID: Id)
    requires HasCall(context.committed, callID) && !HasResult(Build(context), callID)
    ensures !WellFormed(Build(context))
  {
    hide Results;
    var i :| 0 <= i < |context.committed| && context.committed[i].ToolCall? && context.committed[i].call.callID == callID;
    assert Build(context)[i] == context.committed[i];
  }

  lemma CallsStayFirst(context: Context)
    requires CallsFirst(context.committed) && NoCalls(context.staged)
    ensures CallsFirst(Build(context))
  {
  }

  lemma NextIsDisciplined(reg: Registry, context: Context, live: Live, action: Action)
    requires Tracked(reg, context, live) && Apply(reg, context, live, action).Ok?
    requires DisciplinedHistory(reg, context, Apply(reg, context, live, action).value.stored.items)
    ensures DisciplinedHistory(reg, context, live.stored.items)
    ensures action.TakeResponse? ==> Disciplined(live.core, action.output)
  {
    hide Apply, Replay, Disciplined, DisciplinedHistory, CallsCoherent, Named;
    ItemOfAction(reg, context, live, action);
    var items := Apply(reg, context, live, action).value.stored.items;
    var m := |live.stored.items|;
    assert items[..m] == live.stored.items;
    DisciplinedBefore(reg, context, items, m);
    if action.TakeResponse? {
      SameDiscipline(Replay(reg, NewCore(context), live.stored.items).value, live.core, action.output);
    }
  }

  lemma SameDiscipline(a: Core, b: Core, output: seq<Item>)
    requires WithoutOperations(a) == WithoutOperations(b)
    ensures Disciplined(a, output) == Disciplined(b, output)
  {
  }

  lemma CallsOfAccount(core: Core)
    requires Accounted(core)
    ensures OpenCallsOK(core)
  {
  }

  // Over every run, from wherever no more than some calls are lost: those stay lost, and
  // each request that is sent is well formed exactly when there are none.
  lemma {:induction false} RunsKeepShape(reg: Registry, context: Context, start: Live, actions: seq<Action>, lost: set<Id>)
    requires NewContext(context) && Tracked(reg, context, start) && Shaped(start.core, lost)
    requires Run(reg, context, start, actions).Ok?
    requires DisciplinedHistory(reg, context, Run(reg, context, start, actions).value.stored.items)
    ensures Shaped(Run(reg, context, start, actions).value.core, lost)
    ensures forall i | 0 <= i < |Sent(reg, context, start, actions)| ::
              WellFormed(Sent(reg, context, start, actions)[i].input) <==> lost == {}
    decreases |actions|
  {
    hide NewContext, Tracked, Apply, DisciplinedHistory, Accounted, Shaped, OpenCallsOK, WellFormed, Disciplined,
         AllScheduled, Build;
    if actions != [] {
      var shorter, last := actions[..|actions| - 1], actions[|actions| - 1];
      var before := Run(reg, context, start, shorter).value;
      RunsAreTracked(reg, context, start, shorter);
      NextIsDisciplined(reg, context, before, last);
      RunsKeepShape(reg, context, start, shorter, lost);
      RunsKeepAccount(reg, context, start, shorter);
      CallsOfAccount(before.core);
      ActionKeepsShape(reg, context, before, last, lost);
      if last.StartTurn? {
        TurnNeedsStatuses(reg, context, before, last);
        RequestIsWellFormed(before.core, lost);
      }
    }
  }

  // In a new session no call is lost: over every run each request is well formed.
  lemma RequestsAreWellFormed(reg: Registry, context: Context, session: SessionInfo, actions: seq<Action>)
    requires NewContext(context)
    requires var start := Live(NewCore(context), NewStored(session));
      && Run(reg, context, start, actions).Ok?
      && DisciplinedHistory(reg, context, Run(reg, context, start, actions).value.stored.items)
    ensures var start := Live(NewCore(context), NewStored(session));
      forall i | 0 <= i < |Sent(reg, context, start, actions)| :: WellFormed(Sent(reg, context, start, actions)[i].input)
  {
    hide NewContext, DisciplinedHistory, Run, Sent, WellFormed, Shaped, Tracked;
    NewSessionIsTracked(reg, context, session);
    NewCoreIsShaped(context);
    RunsKeepShape(reg, context, Live(NewCore(context), NewStored(session)), actions, {});
  }

  lemma TurnNeedsStatuses(reg: Registry, context: Context, live: Live, action: Action)
    requires action.StartTurn? && Apply(reg, context, live, action).Ok?
    ensures AllScheduled(live.core)
  {
    hide Persist;
  }
}
