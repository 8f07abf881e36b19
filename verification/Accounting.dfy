// Input counters and the model's context: what is delivered, what is committed, and
// how requests grow.
module Accounting {
  import opened Session
  import opened SessionState
  import opened ContextBuilder
  import opened CoordinatorState
  import opened Tracking

  // ---- Counting inputs in the context ----

  // A user message (of an input or a heartbeat) or a result that completes a call.
  predicate IsInput(item: Item) {
    (item.Message? && item.role == User) || (item.ToolResult? && item.final)
  }

  function Count(items: seq<Item>): nat {
    if items == [] then 0 else Count(items[..|items| - 1]) + (if IsInput(items[|items| - 1]) then 1 else 0)
  }

  lemma {:induction false} CountConcat(a: seq<Item>, b: seq<Item>)
    ensures Count(a + b) == Count(a) + Count(b)
    decreases |b|
  {
    if b == [] {
      assert a + b == a;
    } else {
      assert (a + b)[..|a + b| - 1] == a + b[..|b| - 1];
      CountConcat(a, b[..|b| - 1]);
    }
  }

  lemma CountNothing()
    ensures Count([]) == 0
  {
  }

  lemma CountOne(items: seq<Item>, item: Item)
    ensures Count(items + [item]) == Count(items) + (if IsInput(item) then 1 else 0)
  {
    assert (items + [item])[..|items|] == items;
  }

  predicate HasFinal(items: seq<Item>, callID: Id) {
    exists i :: 0 <= i < |items| && items[i].ToolResult? && items[i].callID == callID && items[i].final
  }

  predicate HasResult(items: seq<Item>, callID: Id) {
    exists i :: 0 <= i < |items| && items[i].ToolResult? && items[i].callID == callID
  }

  predicate HasCall(items: seq<Item>, callID: Id) {
    exists i :: 0 <= i < |items| && items[i].ToolCall? && items[i].call.callID == callID
  }

  lemma HasFinalConcat(a: seq<Item>, b: seq<Item>, callID: Id)
    ensures HasFinal(a + b, callID) <==> HasFinal(a, callID) || HasFinal(b, callID)
  {
    if i :| 0 <= i < |a| && a[i].ToolResult? && a[i].callID == callID && a[i].final {
      assert (a + b)[i] == a[i];
    }
    if i :| 0 <= i < |b| && b[i].ToolResult? && b[i].callID == callID && b[i].final {
      assert (a + b)[|a| + i] == b[i];
    }
  }

  lemma HasCallConcat(a: seq<Item>, b: seq<Item>, callID: Id)
    ensures HasCall(a + b, callID) <==> HasCall(a, callID) || HasCall(b, callID)
  {
    if i :| 0 <= i < |a| && a[i].ToolCall? && a[i].call.callID == callID {
      assert (a + b)[i] == a[i];
    }
    if i :| 0 <= i < |b| && b[i].ToolCall? && b[i].call.callID == callID {
      assert (a + b)[|a| + i] == b[i];
    }
  }

  // Removing placeholders removes no input while the call has no final result.
  lemma {:induction false} PlaceholdersAreNoInputs(items: seq<Item>, callID: Id)
    requires !HasFinal(items, callID)
    ensures Count(WithoutPlaceholders(items, callID)) == Count(items)
    decreases |items|
  {
    if items != [] {
      var shorter, last := items[..|items| - 1], items[|items| - 1];
      assert items == shorter + [last];
      HasFinalConcat(shorter, [last], callID);
      PlaceholdersAreNoInputs(shorter, callID);
      CountOne(WithoutPlaceholders(shorter, callID), last);
      if IsPlaceholder(last, callID) {
        assert [last][0] == last;
        assert WithoutPlaceholders(items, callID) == WithoutPlaceholders(shorter, callID);
      }
    }
  }

  lemma {:induction false} KeptItems(items: seq<Item>, callID: Id)
    ensures forall item :: item in WithoutPlaceholders(items, callID) ==> item in items
    ensures forall item :: item in items && !IsPlaceholder(item, callID) ==> item in WithoutPlaceholders(items, callID)
    decreases |items|
  {
    if items != [] {
      KeptItems(items[..|items| - 1], callID);
    }
  }

  // ---- The invariant ----

  // Open calls have different IDs, are in the committed prefix, and have no final
  // result yet.
  predicate OpenCallsOK(core: Core) {
    && (forall key | key in core.toolCalls :: HasCall(core.context.committed, key.1))
    && (forall key | key in core.toolCalls :: !HasFinal(core.context.committed, key.1) && !HasFinal(core.context.staged, key.1))
    && (forall a, b | a in core.toolCalls && b in core.toolCalls && a != b :: a.1 != b.1)
  }

  predicate Accounted(core: Core) {
    && core.delivered <= core.turnInputs <= core.available
    && Count(core.context.committed) == core.turnInputs
    && Count(core.context.committed) + Count(core.context.staged) == core.available
    && OpenCallsOK(core)
  }

  // What models are taken to do: the output holds no user messages and no tool
  // results, and the IDs of its calls are new.
  predicate Disciplined(core: Core, output: seq<Item>) {
    && (forall i | 0 <= i < |output| :: !output[i].ToolResult? && !(output[i].Message? && output[i].role == User))
    && (forall i | 0 <= i < |output| && output[i].ToolCall? ::
          && !HasCall(core.context.committed, output[i].call.callID)
          && !HasResult(core.context.committed, output[i].call.callID)
          && !HasResult(core.context.staged, output[i].call.callID))
  }

  predicate DisciplinedData(core: Core, data: Data) {
    data.ResponseData? ==> Disciplined(core, data.response.output)
  }

  lemma {:induction false} NoInputsInOutput(output: seq<Item>)
    requires forall i | 0 <= i < |output| :: !output[i].ToolResult? && !(output[i].Message? && output[i].role == User)
    ensures Count(output) == 0
    decreases |output|
  {
    if output != [] {
      NoInputsInOutput(output[..|output| - 1]);
    }
  }

  lemma {:induction false} AddedCallsAreInOutput(toolCalls: map<CallKey, CallState>, turnID: Id, output: seq<Item>)
    ensures forall key | key in AddCalls(toolCalls, turnID, output) ::
              key in toolCalls || (key.0 == turnID && HasCall(output, key.1))
    decreases |output|
  {
    if output != [] {
      var shorter, last := output[..|output| - 1], output[|output| - 1];
      AddedCallsAreInOutput(toolCalls, turnID, shorter);
      assert output == shorter + [last];
      forall key | key in AddCalls(toolCalls, turnID, output)
        ensures key in toolCalls || (key.0 == turnID && HasCall(output, key.1))
      {
        HasCallConcat(shorter, [last], key.1);
        if last.ToolCall? && key == (turnID, last.call.callID) {
          assert output[|output| - 1].ToolCall?;
        }
      }
    }
  }

  // ---- Items keep the invariant ----

  lemma MessageIsCounted(core: Core, text: string)
    requires Accounted(core)
    ensures Accounted(core.(context := AddMessage(core.context, text), available := core.available + 1))
  {
    hide HasCall, Count;
    CountOne(core.context.staged, Message(User, text));
    forall key | key in core.toolCalls {
      HasFinalConcat(core.context.staged, [Message(User, text)], key.1);
    }
  }

  lemma TurnKeepsAccount(core: Core, turn: Turn)
    requires Accounted(core)
    ensures Accounted(core.(turnID := turn.id, turnType := turn.turnType, turnInputs := core.available,
                            context := Committed(core.context)))
  {
    hide HasCall, HasFinal, Count;
    CountConcat(core.context.committed, core.context.staged);
    CountNothing();
    forall key | key in core.toolCalls
      ensures HasCall(core.context.committed + core.context.staged, key.1)
      ensures !HasFinal(core.context.committed + core.context.staged, key.1)
    {
      HasFinalConcat(core.context.committed, core.context.staged, key.1);
      HasCallConcat(core.context.committed, core.context.staged, key.1);
    }
    forall callID
      ensures !HasFinal([], callID)
    {
      NothingIsFinal(callID);
    }
  }

  lemma NothingIsFinal(callID: Id)
    ensures !HasFinal([], callID)
  {
  }

  lemma ResponseKeepsAccount(core: Core, response: ModelResponse)
    requires Accounted(core) && Disciplined(core, response.output)
    ensures Accounted(core.(context := AddResponse(core.context, response.output),
                            delivered := if response.turnID == core.turnID then core.turnInputs else core.delivered,
                            toolCalls := AddCalls(core.toolCalls, response.turnID, response.output)))
  {
    hide Count, AddCalls, HasFinal, HasCall;
    var output := response.output;
    NoInputsInOutput(output);
    CountConcat(core.context.committed, output);
    AddedCallsAreInOutput(core.toolCalls, response.turnID, output);
    var added := AddCalls(core.toolCalls, response.turnID, output);
    forall key | key in added
      ensures HasCall(core.context.committed + output, key.1)
      ensures !HasFinal(core.context.committed + output, key.1) && !HasFinal(core.context.staged, key.1)
      ensures key in core.toolCalls || (key.0 == response.turnID && !HasCall(core.context.committed, key.1))
    {
      HasCallConcat(core.context.committed, output, key.1);
      HasFinalConcat(core.context.committed, output, key.1);
      OutputHasNoResults(core, output, key.1);
    }
  }

  lemma OutputHasNoResults(core: Core, output: seq<Item>, callID: Id)
    requires Disciplined(core, output)
    ensures !HasFinal(output, callID)
    ensures HasCall(output, callID) ==>
      && !HasCall(core.context.committed, callID)
      && !HasFinal(core.context.committed, callID) && !HasFinal(core.context.staged, callID)
  {
  }

  // Showing a result counts it exactly when it is final, and then closes the call.
  lemma ResultKeepsAccount(core: Core, key: CallKey, output: seq<ResultOutput>, running: bool)
    requires Accounted(core) && key in core.toolCalls
    ensures var shown := core.(context := AddResult(core.context, key.1, output, running));
      Accounted(if running then shown else Finish(shown, key))
  {
    hide Count, HasCall, HasFinal;
    var kept := WithoutPlaceholders(core.context.staged, key.1);
    var result := ToolResult(key.1, if running then RUNNING_OUTPUT else output, !running);
    PlaceholdersAreNoInputs(core.context.staged, key.1);
    CountOne(kept, result);
    forall other: CallKey | other in core.toolCalls && (running || other != key)
      ensures !HasFinal(kept + [result], other.1)
    {
      HasFinalConcat(kept, [result], other.1);
      KeptHasNoFinal(core.context.staged, key.1, other.1);
      OneHasNoFinal(result, other.1);
    }
  }

  lemma KeptHasNoFinal(items: seq<Item>, callID: Id, other: Id)
    requires !HasFinal(items, other)
    ensures !HasFinal(WithoutPlaceholders(items, callID), other)
  {
    KeptItems(items, callID);
    var kept := WithoutPlaceholders(items, callID);
    assert forall i | 0 <= i < |kept| :: kept[i] in items;
  }

  lemma OneHasNoFinal(result: Item, other: Id)
    requires result.ToolResult? && (!result.final || result.callID != other)
    ensures !HasFinal([result], other)
  {
  }

  lemma StatusKeepsAccount(reg: Registry, core: Core, status: ToolCallStatus)
    requires Accounted(core) && AddItem(reg, core, StatusData(status)).Ok?
    ensures Accounted(AddItem(reg, core, StatusData(status)).value)
  {
    hide Count, Overlay, HasCall, HasFinal, AddResult, Finish, Collect, Collectable, AllTerminal, IDSet;
    var noted := NoteStatus(core.(operations := Overlay(core.operations, status.operations)), status);
    assert Accounted(noted);
    if Key(status) in noted.toolCalls {
      forall output, running {
        ResultKeepsAccount(noted, Key(status), output, running);
      }
    }
  }

  // Delivery accounting: whatever items come in whatever order, the counters stay in
  // order, grow, and count what the context holds.
  lemma ItemKeepsAccount(reg: Registry, core: Core, data: Data)
    requires Accounted(core) && DisciplinedData(core, data) && AddItem(reg, core, data).Ok?
    ensures var next := AddItem(reg, core, data).value;
      && Accounted(next)
      && core.available <= next.available && core.turnInputs <= next.turnInputs && core.delivered <= next.delivered
  {
    hide Count, OpenCallsOK, AddCalls, ValidInput, Disciplined;
    match data
    case ForkData(_, _) => NoOpenCalls(core.(toolCalls := map[], operations := map[]));
    case InputData(input) =>
      if input.kind == External && input.payload.text.Some? {
        MessageIsCounted(core, input.payload.text.value);
      } else if input.kind == Control && input.payload.control.Some? {
        MessageIsCounted(core, input.payload.control.value.reason);
        SettingsKeepAccount(core, input.payload.control.value.effort);
      }
    case TurnData(turn) => TurnKeepsAccount(core, turn);
    case ResponseData(response) => ResponseKeepsAccount(core, response);
    case StatusData(status) =>
      StatusKeepsAccount(reg, core, status);
      CountersAfterStatus(reg, core, status);
  }

  // A response to the current turn delivers all that was in its request: what is still
  // pending is what has come in since. Other responses deliver nothing.
  lemma ResponseDelivers(reg: Registry, core: Core, response: ModelResponse)
    requires Accounted(core) && Disciplined(core, response.output)
    ensures AddItem(reg, core, ResponseData(response)).Ok?
    ensures var next := AddItem(reg, core, ResponseData(response)).value;
      && next.available == core.available && next.context.staged == core.context.staged
      && next.available - next.delivered
         == if core.turnType == Regular && response.turnID == core.turnID then Count(core.context.staged)
            else core.available - core.delivered
  {
    hide Count, OpenCallsOK, AddCalls, Disciplined;
  }

  lemma NoOpenCalls(core: Core)
    requires core.toolCalls == map[]
    ensures OpenCallsOK(core)
  {
  }

  lemma SettingsKeepAccount(core: Core, effort: string)
    requires Accounted(core)
    ensures Accounted(core.(context := core.context.(effort := effort)))
  {
  }

  lemma CountersAfterStatus(reg: Registry, core: Core, status: ToolCallStatus)
    requires AddItem(reg, core, StatusData(status)).Ok?
    ensures var next := AddItem(reg, core, StatusData(status)).value;
      next.available >= core.available && next.turnInputs == core.turnInputs && next.delivered == core.delivered
  {
    hide Overlay, AddResult, Collect, Collectable, AllTerminal, IDSet;
  }

  // ---- Whole histories ----

  // A builder's context before any item.
  predicate NewContext(context: Context) {
    && context.staged == [] && |context.committed| == 1
    && context.committed[0].Message? && context.committed[0].role == System
  }

  // Every response in the history keeps to what models are taken to do.
  predicate DisciplinedHistory(reg: Registry, context: Context, items: seq<SessionItem>) {
    forall n | 0 <= n < |items| && Replay(reg, NewCore(context), items[..n]).Ok? ::
      DisciplinedData(Replay(reg, NewCore(context), items[..n]).value, items[n].data)
  }

  lemma DisciplinedBefore(reg: Registry, context: Context, items: seq<SessionItem>, m: nat)
    requires DisciplinedHistory(reg, context, items) && m <= |items|
    ensures DisciplinedHistory(reg, context, items[..m])
    ensures m < |items| && Replay(reg, NewCore(context), items[..m]).Ok? ==>
      DisciplinedData(Replay(reg, NewCore(context), items[..m]).value, items[m].data)
  {
    hide Replay, DisciplinedData;
    assert forall n | 0 <= n <= m :: items[..m][..n] == items[..n];
  }

  lemma NewCoreIsAccounted(context: Context)
    requires NewContext(context)
    ensures Accounted(NewCore(context))
  {
    CountOne([], context.committed[0]);
  }

  predicate CountersOnlyGrow(a: Core, b: Core) {
    a.available <= b.available && a.turnInputs <= b.turnInputs && a.delivered <= b.delivered
  }

  // After every item of every history the counters are in order and count the context,
  // and from any item to a later one they only grow.
  lemma {:induction false} HistoryKeepsAccount(reg: Registry, context: Context, items: seq<SessionItem>, m: nat)
    requires NewContext(context) && DisciplinedHistory(reg, context, items) && m <= |items|
    requires Replay(reg, NewCore(context), items).Ok?
    ensures Replay(reg, NewCore(context), items[..m]).Ok?
    ensures Accounted(Replay(reg, NewCore(context), items).value)
    ensures CountersOnlyGrow(Replay(reg, NewCore(context), items[..m]).value, Replay(reg, NewCore(context), items).value)
    decreases |items|
  {
    hide NewContext, DisciplinedHistory, DisciplinedData, Accounted, AddItem;
    if m == |items| {
      assert items[..m] == items;
    }
    if items == [] {
      NewCoreIsAccounted(context);
    } else {
      var k := |items| - 1;
      DisciplinedBefore(reg, context, items, k);
      HistoryKeepsAccount(reg, context, items[..k], if m <= k then m else k);
      assert m <= k ==> items[..k][..m] == items[..m];
      ItemKeepsAccount(reg, Replay(reg, NewCore(context), items[..k]).value, items[k].data);
    }
  }

  lemma AccountIgnoresOperations(a: Core, b: Core)
    requires WithoutOperations(a) == WithoutOperations(b)
    ensures Accounted(a) == Accounted(b)
  {
    hide Count, HasCall, HasFinal;
  }

  // Sessions only get longer.
  lemma ActionExtends(reg: Registry, context: Context, live: Live, action: Action)
    requires Apply(reg, context, live, action).Ok?
    ensures live.stored.items <= Apply(reg, context, live, action).value.stored.items
  {
    hide AddItem, Restore, AppendToHead, SaveOperation, CanReconcile, AllScheduled;
  }

  lemma {:induction false} RunExtends(reg: Registry, context: Context, start: Live, actions: seq<Action>)
    requires Run(reg, context, start, actions).Ok?
    ensures start.stored.items <= Run(reg, context, start, actions).value.stored.items
    decreases |actions|
  {
    hide Apply;
    if actions != [] {
      RunExtends(reg, context, start, actions[..|actions| - 1]);
      ActionExtends(reg, context, Run(reg, context, start, actions[..|actions| - 1]).value, actions[|actions| - 1]);
    }
  }

  // The same over every run, with restarts at any points and whatever updates come.
  lemma RunsKeepAccount(reg: Registry, context: Context, start: Live, actions: seq<Action>)
    requires NewContext(context) && Tracked(reg, context, start)
    requires Run(reg, context, start, actions).Ok?
    requires DisciplinedHistory(reg, context, Run(reg, context, start, actions).value.stored.items)
    ensures var live := Run(reg, context, start, actions).value;
      Accounted(live.core) && CountersOnlyGrow(start.core, live.core)
  {
    hide NewContext, Run, Replay, Accounted, DisciplinedHistory, CallsCoherent, Named;
    RunsAreTracked(reg, context, start, actions);
    RunExtends(reg, context, start, actions);
    var live := Run(reg, context, start, actions).value;
    var m := |start.stored.items|;
    assert live.stored.items[..m] == start.stored.items;
    HistoryKeepsAccount(reg, context, live.stored.items, m);
    AccountIgnoresOperations(live.core, Replay(reg, NewCore(context), live.stored.items).value);
  }
}
