// What the model is told of its tool calls: each final result is what its tool makes of
// the operations of its call, as these ended.
module ResultContent {
  import opened Session
  import opened SessionState
  import opened ContextBuilder
  import opened CoordinatorState
  import opened CodecProofs
  import opened Tracking
  import opened Accounting
  import opened Requests
  import opened RequestShape
  import opened ForkProofs
  import opened ForkLoads

  // ---- One status ----

  // The last snapshot of an operation among values.
  predicate IsSnapshot(operations: seq<Operation>, id: Id, value: Operation) {
    && value.id == id
    && exists k :: 0 <= k < |operations| && operations[k] == value && forall j | k < j < |operations| :: operations[j].id != id
  }

  // The snapshots that a status carries of what it waits for, in the order of waiting.
  predicate AreSnapshots(values: seq<Operation>, status: ToolCallStatus) {
    && |values| == |status.status.waitingFor|
    && forall i | 0 <= i < |values| :: IsSnapshot(status.operations, status.status.waitingFor[i], values[i])
  }

  predicate HaveEnded(values: seq<Operation>) {
    forall i | 0 <= i < |values| :: IsTerminal(values[i].status)
  }

  // The result of a call: what its tool makes of the snapshots, or the error when there
  // is no such tool.
  predicate Says(reg: Registry, call: Call, status: ToolCallStatus, values: seq<Operation>, output: seq<ResultOutput>) {
    && AreSnapshots(values, status)
    && if reg.resolves(call.name) then reg.translateResult(call.name, call.callID, status.status, values) == Some(output)
       else values == [] && output == [ResultOutput(Text, status.status.error)]
  }

  lemma {:induction false} OverlaidIsLast(operations: map<Id, Operation>, values: seq<Operation>, id: Id)
    requires id in IDs(values)
    ensures id in Overlay(operations, values) && IsSnapshot(values, id, Overlay(operations, values)[id])
    decreases |values|
  {
    var shorter, last := values[..|values| - 1], values[|values| - 1];
    IDsOfLonger(shorter, last);
    assert values == shorter + [last];
    if last.id != id {
      OverlaidIsLast(operations, shorter, id);
      var value := Overlay(operations, shorter)[id];
      var k :| 0 <= k < |shorter| && shorter[k] == value && forall j | k < j < |shorter| :: shorter[j].id != id;
      assert values[k] == value;
    } else {
      assert values[|values| - 1] == last;
    }
  }

  lemma SnapshotsAreLast(operations: map<Id, Operation>, status: ToolCallStatus)
    requires IDSet(status.status.waitingFor) <= IDs(status.operations)
    ensures forall i | 0 <= i < |status.status.waitingFor| ::
              status.status.waitingFor[i] in Overlay(operations, status.operations)
    ensures AreSnapshots(Collect(Overlay(operations, status.operations), status.status.waitingFor), status)
  {
    hide Overlay, IDs, IsSnapshot;
    forall i | 0 <= i < |status.status.waitingFor|
      ensures status.status.waitingFor[i] in Overlay(operations, status.operations)
      ensures IsSnapshot(status.operations, status.status.waitingFor[i],
                         Overlay(operations, status.operations)[status.status.waitingFor[i]])
    {
      OverlaidIsLast(operations, status.operations, status.status.waitingFor[i]);
    }
  }

  // A recorded status of an open call shows, as the last item of the input, the result of
  // the call once all that it waits for has ended, and until then that it is running.
  lemma StatusShowsResult(reg: Registry, live: Live, status: ToolCallStatus)
    returns (values: seq<Operation>, output: seq<ResultOutput>)
    requires Recordable(reg, live, status) && AddItem(reg, live.core, StatusData(status)).Ok?
    requires live.core.toolCalls[Key(status)].call.callID == status.callID
    ensures var next := AddItem(reg, live.core, StatusData(status)).value.context;
      && Says(reg, live.core.toolCalls[Key(status)].call, status, values, output)
      && next.committed == live.core.context.committed
      && next.staged == WithoutPlaceholders(live.core.context.staged, status.callID)
           + [if HaveEnded(values) then ToolResult(status.callID, output, true)
              else ToolResult(status.callID, RUNNING_OUTPUT, false)]
      && (HaveEnded(values) <==> Key(status) !in AddItem(reg, live.core, StatusData(status)).value.toolCalls)
  {
    hide Overlay, AreSnapshots, WithoutPlaceholders, IDs, RUNNING_OUTPUT;
    var core := live.core;
    var overlaid := core.(operations := Overlay(core.operations, status.operations));
    var noted := NoteStatus(overlaid, status);
    var call := noted.toolCalls[Key(status)];
    SnapshotsAreLast(core.operations, status);
    values := Collect(noted.operations, status.status.waitingFor);
    WaitedForAreInSet(status.status.waitingFor);
    assert call.operations == IDSet(status.status.waitingFor);
    if !reg.resolves(call.call.name) {
      output := [ResultOutput(Text, status.status.error)];
    } else {
      assert Collectable(noted, call, status.status.waitingFor);
      output := reg.translateResult(call.call.name, status.callID, status.status, values).value;
      AllHaveEnded(noted.operations, status.status.waitingFor);
    }
  }

  lemma AllHaveEnded(operations: map<Id, Operation>, ids: seq<Id>)
    requires forall i | 0 <= i < |ids| :: ids[i] in operations
    ensures AllTerminal(operations, IDSet(ids)) <==> HaveEnded(Collect(operations, ids))
  {
    var values := Collect(operations, ids);
    if HaveEnded(values) {
      forall id | id in IDSet(ids)
        ensures id in operations && IsTerminal(operations[id].status)
      {
        var i :| 0 <= i < |ids| && ids[i] == id;
        assert IsTerminal(values[i].status);
      }
    }
    if AllTerminal(operations, IDSet(ids)) {
      WaitedForAreInSet(ids);
    }
  }

  // ---- What a session tells ----

  // The model has made the call in its response to the turn.
  predicate IsAsked(items: seq<SessionItem>, key: CallKey, call: Call) {
    && call.callID == key.1
    && exists m :: 0 <= m < |items| && items[m].data.ResponseData? && items[m].data.response.turnID == key.0
         && ToolCall(call) in items[m].data.response.output
  }

  // What the call's tool may give for it.
  predicate Translates(reg: Registry, call: Call, attempt: nat, status: CallStatus) {
    if reg.resolves(call.name) then status == reg.translate(call, attempt).status
    else status == CallStatus("tool \"" + call.name + "\" is not available", false, [])
  }

  // A status in a session is of a call that the model made before it, and is what the
  // call's tool gave.
  ghost predicate StatusIsTranslated(reg: Registry, items: seq<SessionItem>, n: nat)
    requires n < |items| && items[n].data.StatusData?
  {
    exists call, attempt :: Translates(reg, call, attempt, items[n].data.status.status)
      && IsAsked(items[..n], Key(items[n].data.status), call)
  }

  ghost predicate StatusesAreTranslated(reg: Registry, items: seq<SessionItem>) {
    forall n | 0 <= n < |items| && items[n].data.StatusData? :: StatusIsTranslated(reg, items, n)
  }

  // A final result is explained by a status of the session, of a call that the model made.
  ghost predicate ExplainedBy(reg: Registry, items: seq<SessionItem>, n: nat, call: Call, values: seq<Operation>, result: Item)
    requires result.ToolResult?
  {
    && n < |items| && items[n].data.StatusData? && items[n].data.status.callID == result.callID
    && IsAsked(items[..n], Key(items[n].data.status), call)
    && Says(reg, call, items[n].data.status, values, result.output) && HaveEnded(values)
  }

  ghost predicate IsExplained(reg: Registry, items: seq<SessionItem>, result: Item)
    requires result.ToolResult?
  {
    exists n: nat, call: Call, values: seq<Operation> :: ExplainedBy(reg, items, n, call, values, result)
  }

  // All results in an input are: those of calls that have ended, and the placeholders.
  ghost predicate Explained(reg: Registry, items: seq<SessionItem>, input: seq<Item>) {
    forall i | 0 <= i < |input| && input[i].ToolResult? ::
      if input[i].final then IsExplained(reg, items, input[i]) else input[i].output == RUNNING_OUTPUT
  }

  ghost predicate CallIsTranslated(reg: Registry, items: seq<SessionItem>, key: CallKey, call: CallState) {
    && IsAsked(items, key, call.call)
    && (call.status.Some? ==> exists attempt :: Translates(reg, call.call, attempt, call.status.value))
  }

  ghost predicate CallsAreTranslated(reg: Registry, items: seq<SessionItem>, calls: map<CallKey, CallState>) {
    forall key | key in calls :: CallIsTranslated(reg, items, key, calls[key])
  }

  ghost predicate Truthful(reg: Registry, live: Live) {
    && StatusesAreTranslated(reg, live.stored.items)
    && CallsAreTranslated(reg, live.stored.items, live.core.toolCalls)
    && Explained(reg, live.stored.items, live.core.context.committed)
    && Explained(reg, live.stored.items, live.core.context.staged)
  }

  // ---- Longer sessions ----

  lemma AskedLonger(items: seq<SessionItem>, longer: seq<SessionItem>, key: CallKey, call: Call)
    requires IsAsked(items, key, call) && items <= longer
    ensures IsAsked(longer, key, call)
  {
    var m :| 0 <= m < |items| && items[m].data.ResponseData? && items[m].data.response.turnID == key.0
             && ToolCall(call) in items[m].data.response.output;
    assert longer[m] == items[m];
  }

  lemma TranslatedLonger(reg: Registry, items: seq<SessionItem>, longer: seq<SessionItem>, n: nat)
    requires n < |items| && items <= longer && items[n].data.StatusData? && StatusIsTranslated(reg, items, n)
    ensures StatusIsTranslated(reg, longer, n)
  {
    hide IsAsked, Translates;
    assert items[..n] == longer[..n];
  }

  lemma ExplainedLonger(reg: Registry, items: seq<SessionItem>, longer: seq<SessionItem>, input: seq<Item>)
    requires Explained(reg, items, input) && items <= longer
    ensures Explained(reg, longer, input)
  {
    hide IsAsked, Says, HaveEnded, RUNNING_OUTPUT;
    forall i | 0 <= i < |input| && input[i].ToolResult? && input[i].final
      ensures IsExplained(reg, longer, input[i])
    {
      var n: nat, call: Call, values: seq<Operation> :| ExplainedBy(reg, items, n, call, values, input[i]);
      assert items[..n] == longer[..n];
      assert ExplainedBy(reg, longer, n, call, values, input[i]);
    }
  }

  lemma ExplainedConcat(reg: Registry, items: seq<SessionItem>, a: seq<Item>, b: seq<Item>)
    ensures Explained(reg, items, a + b) <==> Explained(reg, items, a) && Explained(reg, items, b)
  {
    hide IsExplained, RUNNING_OUTPUT;
    var all := a + b;
    assert forall i | 0 <= i < |a| :: all[i] == a[i];
    assert forall i | 0 <= i < |b| :: all[|a| + i] == b[i];
  }

  lemma KeptAreExplained(reg: Registry, items: seq<SessionItem>, input: seq<Item>, callID: Id)
    requires Explained(reg, items, input)
    ensures Explained(reg, items, WithoutPlaceholders(input, callID))
  {
    hide IsExplained, RUNNING_OUTPUT, WithoutPlaceholders;
    KeptItems(input, callID);
    var kept := WithoutPlaceholders(input, callID);
    forall i | 0 <= i < |kept| && kept[i].ToolResult?
      ensures if kept[i].final then IsExplained(reg, items, kept[i]) else kept[i].output == RUNNING_OUTPUT
    {
      assert kept[i] in input;
      var j :| 0 <= j < |input| && input[j] == kept[i];
    }
  }

  lemma NoResultsToExplain(reg: Registry, items: seq<SessionItem>, input: seq<Item>)
    requires forall i | 0 <= i < |input| :: !input[i].ToolResult?
    ensures Explained(reg, items, input)
  {
  }

  lemma CallsLonger(reg: Registry, items: seq<SessionItem>, longer: seq<SessionItem>, calls: map<CallKey, CallState>)
    requires CallsAreTranslated(reg, items, calls) && items <= longer
    ensures CallsAreTranslated(reg, longer, calls)
  {
    hide IsAsked, Translates;
    forall key | key in calls
      ensures CallIsTranslated(reg, longer, key, calls[key])
    {
      assert CallIsTranslated(reg, items, key, calls[key]);
      AskedLonger(items, longer, key, calls[key].call);
    }
  }

  // ---- Inputs, turns and responses ----

  lemma {:induction false} AddedCallsAreOfOutput(toolCalls: map<CallKey, CallState>, turnID: Id, output: seq<Item>)
    ensures forall key | key in AddCalls(toolCalls, turnID, output) ::
              var call := AddCalls(toolCalls, turnID, output)[key];
              || (key in toolCalls && call == toolCalls[key])
              || (key == (turnID, call.call.callID) && call.status.None? && ToolCall(call.call) in output)
    decreases |output|
  {
    if output != [] {
      var shorter, last := output[..|output| - 1], output[|output| - 1];
      AddedCallsAreOfOutput(toolCalls, turnID, shorter);
      assert output == shorter + [last];
    }
  }

  lemma ResponseIsTruthful(reg: Registry, items: seq<SessionItem>, item: SessionItem, calls: map<CallKey, CallState>)
    requires CallsAreTranslated(reg, items, calls) && item.data.ResponseData?
    ensures CallsAreTranslated(reg, items + [item], AddCalls(calls, item.data.response.turnID, item.data.response.output))
  {
    hide AddCalls, Translates;
    var response := item.data.response;
    var longer := items + [item];
    var next := AddCalls(calls, response.turnID, response.output);
    AddedCallsAreOfOutput(calls, response.turnID, response.output);
    CallsLonger(reg, items, longer, calls);
    assert longer[|items|] == item;
    forall key | key in next
      ensures CallIsTranslated(reg, longer, key, next[key])
    {
      if !(key in calls && next[key] == calls[key]) {
        assert longer[|items|].data.response.turnID == key.0;
      }
    }
  }

  lemma OtherItemIsTranslated(reg: Registry, items: seq<SessionItem>, item: SessionItem)
    requires StatusesAreTranslated(reg, items)
    requires item.data.StatusData? ==> StatusIsTranslated(reg, items + [item], |items|)
    ensures StatusesAreTranslated(reg, items + [item])
  {
    hide StatusIsTranslated;
    var longer := items + [item];
    forall n | 0 <= n < |longer| && longer[n].data.StatusData?
      ensures StatusIsTranslated(reg, longer, n)
    {
      if n < |items| {
        assert longer[n] == items[n];
        TranslatedLonger(reg, items, longer, n);
      }
    }
  }

  // An input, a turn or a response says nothing of results.
  lemma PlainItemExplains(reg: Registry, items: seq<SessionItem>, core: Core, data: Data)
    requires !data.StatusData? && !data.ForkData? && AddItem(reg, core, data).Ok? && DisciplinedData(core, data)
    requires Explained(reg, items, core.context.committed) && Explained(reg, items, core.context.staged)
    ensures Explained(reg, items, AddItem(reg, core, data).value.context.committed)
    ensures Explained(reg, items, AddItem(reg, core, data).value.context.staged)
  {
    hide Explained, AddCalls, ValidInput;
    var next := AddItem(reg, core, data).value.context;
    match data
    case InputData(input) =>
      if next.staged != core.context.staged {
        var message := next.staged[|next.staged| - 1];
        NoResultsToExplain(reg, items, [message]);
        ExplainedConcat(reg, items, core.context.staged, [message]);
      }
    case TurnData(_) =>
      ExplainedConcat(reg, items, core.context.committed, core.context.staged);
      NoResultsToExplain(reg, items, []);
    case ResponseData(response) =>
      NoResultsToExplain(reg, items, response.output);
      ExplainedConcat(reg, items, core.context.committed, response.output);
  }

  lemma PlainItemOpens(reg: Registry, items: seq<SessionItem>, core: Core, item: SessionItem)
    requires !item.data.StatusData? && !item.data.ForkData? && AddItem(reg, core, item.data).Ok?
    requires CallsAreTranslated(reg, items, core.toolCalls)
    ensures CallsAreTranslated(reg, items + [item], AddItem(reg, core, item.data).value.toolCalls)
  {
    hide CallsAreTranslated, AddCalls, ValidInput, AddControl;
    CallsLonger(reg, items, items + [item], core.toolCalls);
    if item.data.ResponseData? {
      ResponseIsTruthful(reg, items, item, core.toolCalls);
    }
  }

  lemma PlainItemIsTruthful(reg: Registry, live: Live, data: Data, at: Time)
    requires Truthful(reg, live) && DisciplinedData(live.core, data)
    requires !data.StatusData? && !data.ForkData? && Persist(reg, live, data, at).Ok?
    ensures Truthful(reg, Persist(reg, live, data, at).value)
  {
    hide Append, AddItem, DisciplinedData, StatusesAreTranslated, CallsAreTranslated, Explained;
    var items := live.stored.items;
    PlainAppend(live.stored, data, at);
    var item := SessionItem(live.stored.head.itemSequence + 1, at, data);
    OtherItemIsTranslated(reg, items, item);
    PlainItemOpens(reg, items, live.core, item);
    ExplainedLonger(reg, items, items + [item], live.core.context.committed);
    ExplainedLonger(reg, items, items + [item], live.core.context.staged);
    PlainItemExplains(reg, items + [item], live.core, data);
  }

  // ---- Statuses ----

  lemma RecordedIsExplained(reg: Registry, live: Live, status: ToolCallStatus, longer: seq<SessionItem>)
    requires Truthful(reg, live) && Recordable(reg, live, status) && AddItem(reg, live.core, StatusData(status)).Ok?
    requires |longer| == |live.stored.items| + 1 && longer[..|live.stored.items|] == live.stored.items
    requires longer[|live.stored.items|].data == StatusData(status)
    ensures var next := AddItem(reg, live.core, StatusData(status)).value.context;
      Explained(reg, longer, next.committed) && Explained(reg, longer, next.staged)
  {
    hide Recordable, AddItem, StatusesAreTranslated, Explained, Says, HaveEnded, WithoutPlaceholders, RUNNING_OUTPUT;
    var items, n := live.stored.items, |live.stored.items|;
    RecordableIsOpen(reg, live, status);
    var call := live.core.toolCalls[Key(status)].call;
    assert CallIsTranslated(reg, items, Key(status), live.core.toolCalls[Key(status)]);
    var values, output := StatusShowsResult(reg, live, status);
    ExplainedLonger(reg, items, longer, live.core.context.committed);
    ExplainedLonger(reg, items, longer, live.core.context.staged);
    KeptAreExplained(reg, longer, live.core.context.staged, status.callID);
    var result := if HaveEnded(values) then ToolResult(status.callID, output, true)
                  else ToolResult(status.callID, RUNNING_OUTPUT, false);
    if HaveEnded(values) {
      assert longer[..n] == items;
      assert ExplainedBy(reg, longer, n, call, values, result);
    }
    OneIsExplained(reg, longer, result);
    ExplainedConcat(reg, longer, WithoutPlaceholders(live.core.context.staged, status.callID), [result]);
  }

  lemma RecordableIsOpen(reg: Registry, live: Live, status: ToolCallStatus)
    requires Recordable(reg, live, status)
    ensures Key(status) in live.core.toolCalls
  {
  }

  lemma OneIsExplained(reg: Registry, items: seq<SessionItem>, result: Item)
    requires result.ToolResult?
    requires if result.final then IsExplained(reg, items, result) else result.output == RUNNING_OUTPUT
    ensures Explained(reg, items, [result])
  {
    hide IsExplained, RUNNING_OUTPUT;
  }

  // Recording a status that some translation of its call has given.
  lemma StatusIsTruthful(reg: Registry, live: Live, status: ToolCallStatus, attempt: nat, next: Live)
    requires Truthful(reg, live) && Recordable(reg, live, status) && AddItem(reg, live.core, StatusData(status)).Ok?
    requires Translates(reg, live.core.toolCalls[Key(status)].call, attempt, status.status)
    requires next.core == AddItem(reg, live.core, StatusData(status)).value
    requires |next.stored.items| == |live.stored.items| + 1
    requires next.stored.items[..|live.stored.items|] == live.stored.items
    requires next.stored.items[|live.stored.items|].data == StatusData(status)
    ensures Truthful(reg, next)
  {
    hide Recordable, AddItem, Explained, Translates, IsAsked, StatusesAreTranslated, CallsAreTranslated;
    var items, longer, n := live.stored.items, next.stored.items, |live.stored.items|;
    RecordableIsOpen(reg, live, status);
    RecordedIsExplained(reg, live, status, longer);
    CallOfStatus(reg, items, longer, live.core.toolCalls, status, attempt);
    assert longer == items + [longer[n]];
    OtherItemIsTranslated(reg, items, longer[n]);
    StatusKeepsTranslated(reg, live.core, status, items, attempt);
    CallsLonger(reg, items, longer, next.core.toolCalls);
  }

  lemma CallOfStatus(reg: Registry, items: seq<SessionItem>, longer: seq<SessionItem>, calls: map<CallKey, CallState>,
                     status: ToolCallStatus, attempt: nat)
    requires CallsAreTranslated(reg, items, calls) && Key(status) in calls
    requires Translates(reg, calls[Key(status)].call, attempt, status.status)
    requires |longer| == |items| + 1 && longer[..|items|] == items && longer[|items|].data == StatusData(status)
    ensures StatusIsTranslated(reg, longer, |items|)
  {
    hide IsAsked, Translates;
    assert CallIsTranslated(reg, items, Key(status), calls[Key(status)]);
  }

  lemma StatusKeepsTranslated(reg: Registry, core: Core, status: ToolCallStatus, items: seq<SessionItem>, attempt: nat)
    requires AddItem(reg, core, StatusData(status)).Ok? && CallsAreTranslated(reg, items, core.toolCalls)
    requires Key(status) in core.toolCalls && Translates(reg, core.toolCalls[Key(status)].call, attempt, status.status)
    ensures CallsAreTranslated(reg, items, AddItem(reg, core, StatusData(status)).value.toolCalls)
  {
    hide ShowResult, Overlay, IDSet, IsAsked, Translates;
    var noted := NoteStatus(core.(operations := Overlay(core.operations, status.operations)), status);
    ShowResultCalls(reg, noted, status);
    var next := AddItem(reg, core, StatusData(status)).value;
    forall key | key in next.toolCalls
      ensures CallIsTranslated(reg, items, key, next.toolCalls[key])
    {
      assert CallIsTranslated(reg, items, key, core.toolCalls[key]);
    }
  }

  // What scheduling a call puts into the session: what its tool gave for the call that the
  // model made, with the operations that the tool submitted, none of them started.
  lemma ScheduleRecordsTranslation(reg: Registry, context: Context, live: Live, key: CallKey, attempt: nat, at: Time)
    requires Apply(reg, context, live, Schedule(key, attempt, at)).Ok?
    ensures var items, n := Apply(reg, context, live, Schedule(key, attempt, at)).value.stored.items, |live.stored.items|;
      && |items| == n + 1 && items[..n] == live.stored.items && items[n].recordedAt == at
      && items[n].data.StatusData? && Key(items[n].data.status) == key
      && var call, status := live.core.toolCalls[key].call, items[n].data.status;
      && Translates(reg, call, attempt, status.status)
      && (!reg.resolves(call.name) ==> status.operations == [])
      && (reg.resolves(call.name) ==>
            var submitted := reg.translate(call, attempt).submitted;
            && |status.operations| == |submitted|
            && forall i | 0 <= i < |submitted| :: status.operations[i] == submitted[i].(status := Ready))
  {
    hide AddItem, Initializable, ValidReferences, Overlay, AddOperations;
  }

  lemma ScheduleIsTruthful(reg: Registry, context: Context, live: Live, key: CallKey, attempt: nat, at: Time)
    requires Tracked(reg, context, live) && Truthful(reg, live)
    requires Apply(reg, context, live, Schedule(key, attempt, at)).Ok?
    ensures Truthful(reg, Apply(reg, context, live, Schedule(key, attempt, at)).value)
  {
    hide Tracked, Truthful, AddItem, Append, Overlay, Recordable, ScheduledStatus, Translates;
    var status := ScheduledStatus(reg, key, live.core.toolCalls[key].call, attempt);
    ScheduleIsRecordable(reg, context, live, key, attempt, at);
    ScheduledKey(reg, key, live.core.toolCalls[key].call, attempt);
    AddFromOverlay(reg, live.core, status);
    StatusItem(live.stored, status, at);
    ScheduleRecordsTranslation(reg, context, live, key, attempt, at);
    StatusIsTruthful(reg, live, status, attempt, Apply(reg, context, live, Schedule(key, attempt, at)).value);
  }

  lemma ReconcileIsTruthful(reg: Registry, context: Context, live: Live, key: CallKey, at: Time)
    requires Tracked(reg, context, live) && Truthful(reg, live)
    requires Apply(reg, context, live, Reconcile(key, at)).Ok?
    ensures Truthful(reg, Apply(reg, context, live, Reconcile(key, at)).value)
  {
    hide Tracked, AddItem, Append, AllTerminal, Recordable, Translates, Explained, StatusesAreTranslated, IsAsked, Collect;
    var status := ReconciledStatus(live.core, key);
    ReconcileIsRecordable(reg, context, live, key);
    StatusItem(live.stored, status, at);
    assert CallIsTranslated(reg, live.stored.items, key, live.core.toolCalls[key]);
    var attempt :| Translates(reg, live.core.toolCalls[key].call, attempt, status.status);
    StatusIsTruthful(reg, live, status, attempt, Apply(reg, context, live, Reconcile(key, at)).value);
  }

  // ---- Runs ----

  lemma SameTruth(reg: Registry, a: Live, b: Live)
    requires Truthful(reg, a) && b.stored.items == a.stored.items && b.core.toolCalls == a.core.toolCalls
    requires b.core.context == a.core.context
    ensures Truthful(reg, b)
  {
  }

  lemma ActionIsTruthful(reg: Registry, context: Context, live: Live, action: Action)
    requires Tracked(reg, context, live) && Truthful(reg, live) && Apply(reg, context, live, action).Ok?
    requires action.TakeResponse? ==> Disciplined(live.core, action.output)
    ensures Truthful(reg, Apply(reg, context, live, action).value)
  {
    hide Tracked, Truthful, Persist, Restore, ValidOperation, Disciplined;
    match action
    case TakeInput(input, at) => PlainItemIsTruthful(reg, live, InputData(input), at);
    case StartTurn(turnID, at) => PlainItemIsTruthful(reg, live, TurnData(Turn(turnID, live.core.turnID, Regular)), at);
    case TakeResponse(output, at) =>
      PlainItemIsTruthful(reg, live, ResponseData(ModelResponse(live.core.turnID, output)), at);
    case Schedule(key, attempt, at) => ScheduleIsTruthful(reg, context, live, key, attempt, at);
    case Reconcile(key, at) => ReconcileIsTruthful(reg, context, live, key, at);
    case TakeUpdate(_) => SameTruth(reg, live, Apply(reg, context, live, action).value);
    case Restart =>
      RestartTracks(reg, context, live);
      var core := Apply(reg, context, live, Restart).value.core;
      assert core.toolCalls == WithoutOperations(core).toolCalls && core.context == WithoutOperations(core).context;
      SameTruth(reg, live, Apply(reg, context, live, action).value);
  }

  // Over every run, restarts included: every status in the session is what the tool of its
  // call gave, and every final result in what is built, and in each request that is sent,
  // is what that tool makes of the snapshots in a status that the session holds.
  lemma {:induction false} RunsAreTruthful(reg: Registry, context: Context, start: Live, actions: seq<Action>)
    requires NewContext(context) && Tracked(reg, context, start) && Truthful(reg, start)
    requires Run(reg, context, start, actions).Ok?
    requires DisciplinedHistory(reg, context, Run(reg, context, start, actions).value.stored.items)
    ensures Truthful(reg, Run(reg, context, start, actions).value)
    ensures var items := Run(reg, context, start, actions).value.stored.items;
      forall i | 0 <= i < |Sent(reg, context, start, actions)| ::
        Explained(reg, items, Sent(reg, context, start, actions)[i].input)
    decreases |actions|
  {
    hide NewContext, Tracked, Apply, DisciplinedHistory, Disciplined, Explained, StatusesAreTranslated, CallsAreTranslated;
    if actions != [] {
      var shorter, last := actions[..|actions| - 1], actions[|actions| - 1];
      var before := Run(reg, context, start, shorter).value;
      var items := Run(reg, context, start, actions).value.stored.items;
      RunsAreTracked(reg, context, start, shorter);
      NextIsDisciplined(reg, context, before, last);
      RunsAreTruthful(reg, context, start, shorter);
      ActionIsTruthful(reg, context, before, last);
      ActionExtends(reg, context, before, last);
      ExplainedConcat(reg, before.stored.items, before.core.context.committed, before.core.context.staged);
      ExplainedLonger(reg, before.stored.items, items, Build(before.core.context));
      forall i | 0 <= i < |Sent(reg, context, start, shorter)|
        ensures Explained(reg, items, Sent(reg, context, start, shorter)[i].input)
      {
        ExplainedLonger(reg, before.stored.items, items, Sent(reg, context, start, shorter)[i].input);
      }
    }
  }

  // ---- Where runs start ----

  lemma NewSessionIsTruthful(reg: Registry, context: Context, session: SessionInfo)
    requires NewContext(context)
    ensures Truthful(reg, Live(NewCore(context), NewStored(session)))
  {
    NoResultsToExplain(reg, [], context.committed);
  }

  // Without operations, a status shows a result of what waits for nothing, or no result.
  lemma BareStatusShows(reg: Registry, core: Core, status: ToolCallStatus) returns (output: seq<ResultOutput>, running: bool)
    requires core.operations == map[] && status.operations == [] && RestoreItem(reg, core, StatusData(status)).Ok?
    requires Key(status) in core.toolCalls ==> core.toolCalls[Key(status)].call.callID == status.callID
    ensures var next := RestoreItem(reg, core, StatusData(status)).value;
      && next.operations == map[]
      && (next.context == core.context
          || (&& Key(status) in core.toolCalls && next.context == AddResult(core.context, status.callID, output, running)
              && (!running ==> Says(reg, core.toolCalls[Key(status)].call, status, [], output))))
      && (forall key | key in next.toolCalls :: key in core.toolCalls && next.toolCalls[key].call == core.toolCalls[key].call)
  {
    hide AddResult, IDSet, AllTerminal;
    output, running := [], true;
    if Key(status) in core.toolCalls {
      var noted := NoteStatus(core, status);
      var call := noted.toolCalls[Key(status)];
      if !reg.resolves(call.call.name) {
        output, running := [ResultOutput(Text, status.status.error)], false;
      } else if status.status.waitingFor == [] {
        assert Collect(noted.operations, []) == [];
        output := reg.translateResult(call.call.name, status.callID, status.status, []).value;
        running := !AllTerminal(noted.operations, call.operations);
      } else {
        assert status.status.waitingFor[0] !in core.operations;
      }
    }
  }

  ghost predicate BareTruth(reg: Registry, items: seq<SessionItem>, core: Core) {
    && core.operations == map[]
    && (forall key | key in core.toolCalls :: IsAsked(items, key, core.toolCalls[key].call))
    && Explained(reg, items, core.context.committed) && Explained(reg, items, core.context.staged)
  }

  lemma BareStatusIsTruthful(reg: Registry, items: seq<SessionItem>, core: Core, item: SessionItem)
    requires BareTruth(reg, items, core) && item.data.StatusData? && Snapshots(item) == []
    requires RestoreItem(reg, core, item.data).Ok?
    ensures BareTruth(reg, items + [item], RestoreItem(reg, core, item.data).value)
  {
    hide RestoreItem, Explained, Says, IsAsked, WithoutPlaceholders, RUNNING_OUTPUT;
    var status, longer, n := item.data.status, items + [item], |items|;
    var next := RestoreItem(reg, core, item.data).value;
    if Key(status) in core.toolCalls {
      AskedHasID(items, Key(status), core.toolCalls[Key(status)].call);
    }
    var output, running := BareStatusShows(reg, core, status);
    ExplainedLonger(reg, items, longer, core.context.committed);
    ExplainedLonger(reg, items, longer, core.context.staged);
    forall key | key in next.toolCalls
      ensures IsAsked(longer, key, next.toolCalls[key].call)
    {
      AskedLonger(items, longer, key, core.toolCalls[key].call);
    }
    if next.context != core.context {
      KeptAreExplained(reg, longer, core.context.staged, status.callID);
      var result := ToolResult(status.callID, if running then RUNNING_OUTPUT else output, !running);
      if !running {
        assert longer[..n] == items && longer[n] == item;
        assert ExplainedBy(reg, longer, n, core.toolCalls[Key(status)].call, [], result);
      }
      OneIsExplained(reg, longer, result);
      ExplainedConcat(reg, longer, WithoutPlaceholders(core.context.staged, status.callID), [result]);
    }
  }

  lemma AskedHasID(items: seq<SessionItem>, key: CallKey, call: Call)
    requires IsAsked(items, key, call)
    ensures call.callID == key.1
  {
  }

  lemma BarePlainItemIsTruthful(reg: Registry, items: seq<SessionItem>, core: Core, item: SessionItem)
    requires BareTruth(reg, items, core) && !item.data.StatusData? && DisciplinedData(core, item.data)
    requires AddItem(reg, core, item.data).Ok?
    ensures BareTruth(reg, items + [item], AddItem(reg, core, item.data).value)
  {
    hide AddCalls, Explained, IsAsked, ValidInput, DisciplinedData;
    var longer := items + [item];
    var next := AddItem(reg, core, item.data).value;
    ExplainedLonger(reg, items, longer, core.context.committed);
    ExplainedLonger(reg, items, longer, core.context.staged);
    if !item.data.ForkData? {
      PlainItemExplains(reg, longer, core, item.data);
    }
    if item.data.ResponseData? {
      AddedCallsAreOfOutput(core.toolCalls, item.data.response.turnID, item.data.response.output);
    }
    forall key | key in next.toolCalls
      ensures IsAsked(longer, key, next.toolCalls[key].call)
    {
      if key in core.toolCalls && next.toolCalls[key] == core.toolCalls[key] {
        AskedLonger(items, longer, key, core.toolCalls[key].call);
      } else {
        LastIsAsked(items, item, key, next.toolCalls[key].call);
      }
    }
  }

  lemma LastIsAsked(items: seq<SessionItem>, item: SessionItem, key: CallKey, call: Call)
    requires item.data.ResponseData? && item.data.response.turnID == key.0 && ToolCall(call) in item.data.response.output
    requires call.callID == key.1
    ensures IsAsked(items + [item], key, call)
  {
    assert (items + [item])[|items|] == item;
  }

  // Replaying inherited items.
  lemma {:induction false} BareHistoryIsTruthful(reg: Registry, context: Context, items: seq<SessionItem>)
    requires NewContext(context) && DisciplinedHistory(reg, context, items) && NoSnapshots(items)
    requires Replay(reg, NewCore(context), items).Ok?
    ensures BareTruth(reg, items, Replay(reg, NewCore(context), items).value)
    decreases |items|
  {
    hide NewContext, DisciplinedHistory, BareTruth, AddItem, DisciplinedData;
    if items == [] {
      NewCoreIsTruthful(reg, context);
    } else {
      var k := |items| - 1;
      DisciplinedBefore(reg, context, items, k);
      BareHistoryIsTruthful(reg, context, items[..k]);
      assert items == items[..k] + [items[k]];
      var before := Replay(reg, NewCore(context), items[..k]).value;
      if items[k].data.StatusData? {
        BareStatusIsTruthful(reg, items[..k], before, items[k]);
      } else {
        BarePlainItemIsTruthful(reg, items[..k], before, items[k]);
      }
    }
  }

  lemma NewCoreIsTruthful(reg: Registry, context: Context)
    requires NewContext(context)
    ensures BareTruth(reg, [], NewCore(context))
  {
    NoResultsToExplain(reg, [], context.committed);
  }

  lemma InheritedStatusesAreTranslated(reg: Registry, parent: seq<SessionItem>, n: nat, child: seq<SessionItem>)
    requires StatusesAreTranslated(reg, parent) && n <= |parent|
    requires child != [] && !child[|child| - 1].data.StatusData? && child[..|child| - 1] == AllBare(parent[..n])
    ensures StatusesAreTranslated(reg, child)
  {
    hide Translates;
    assert forall i | 0 <= i < n :: child[i] == child[..|child| - 1][i] == Bare(parent[i]);
    forall i | 0 <= i < |child| && child[i].data.StatusData?
      ensures StatusIsTranslated(reg, child, i)
    {
      assert StatusIsTranslated(reg, parent, i);
      var call, attempt :| Translates(reg, call, attempt, parent[i].data.status.status)
                           && IsAsked(parent[..i], Key(parent[i].data.status), call);
      var m :| 0 <= m < i && parent[..i][m].data.ResponseData?
               && parent[..i][m].data.response.turnID == Key(parent[i].data.status).0
               && ToolCall(call) in parent[..i][m].data.response.output;
      assert child[..i][m] == parent[m];
      assert IsAsked(child[..i], Key(child[i].data.status), call);
    }
  }

  // A fork starts so as well, so that its runs go on with it.
  lemma ForkIsTruthful(reg: Registry, context: Context, parent: Live, id: Id, previousTurnID: Id, at: Time)
    requires NewContext(context) && Forkable(reg, context, parent) && StatusesAreTranslated(reg, parent.stored.items)
    requires ForkOf(parent.stored, id, previousTurnID, at).Ok?
    requires DisciplinedHistory(reg, context, ForkOf(parent.stored, id, previousTurnID, at).value.items)
    ensures var child := ForkOf(parent.stored, id, previousTurnID, at).value;
      Restore(reg, context, child).Ok? && Truthful(reg, Live(Restore(reg, context, child).value, child))
  {
    hide NewContext, DisciplinedHistory, Replay, Resume, Overlay, ForkOf, Boundary, NoSnapshots, AllBare, Forkable, Explained,
         StatusesAreTranslated;
    ForkItems(parent.stored, id, previousTurnID, at);
    ForksLoad(reg, context, parent, id, previousTurnID, at);
    var child := ForkOf(parent.stored, id, previousTurnID, at).value;
    var items := Inherited(parent.stored, previousTurnID);
    assert |items| <= |parent.stored.items| && items == parent.stored.items[..|items|];
    BareHistoryIsTruthful(reg, context, child.items);
    InheritedStatusesAreTranslated(reg, parent.stored.items, |items|, child.items);
  }
}
