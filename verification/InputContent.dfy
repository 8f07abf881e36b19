// What the model is told of the inputs: their texts, in the order in which they came.
module InputContent {
  import opened Session
  import opened SessionState
  import opened ContextBuilder
  import opened CoordinatorState
  import opened Tracking
  import opened Accounting
  import opened Requests

  // The text that an input has for the model, if any: that of an external input, or the
  // reason of a heartbeat.
  function TextOf(input: Input): Option<string> {
    if input.kind == External then input.payload.text
    else if input.kind == Control && input.payload.control.Some? && input.payload.control.value.mode == Heartbeat then
      Some(input.payload.control.value.reason)
    else None
  }

  // What one input does: its text goes behind all that was there, as a message of the user,
  // and a settings message sets the effort. Others do nothing.
  lemma InputIsShown(reg: Registry, core: Core, input: Input)
    requires AddItem(reg, core, InputData(input)).Ok?
    ensures var next := AddItem(reg, core, InputData(input)).value;
      && Build(next.context)
         == Build(core.context) + (if TextOf(input).Some? then [Message(User, TextOf(input).value)] else [])
      && next.context.committed == core.context.committed
      && next.context.effort
         == (if input.kind == Control && input.payload.control.Some? && input.payload.control.value.mode == UpdateSettings
             then input.payload.control.value.effort else core.context.effort)
      && (input.kind == External ==> input.payload.text.Some?)
  {
    assert Build(core.context) + [] == Build(core.context);
  }

  // ---- Histories ----

  // The messages of the user among items, in order.
  function UserTexts(items: seq<Item>): seq<string> {
    if items == [] then []
    else
      var last := items[|items| - 1];
      UserTexts(items[..|items| - 1]) + (if last.Message? && last.role == User then [last.text] else [])
  }

  // The texts of the inputs of a history, in order.
  function InputTexts(items: seq<SessionItem>): seq<string> {
    if items == [] then []
    else
      var last := items[|items| - 1].data;
      InputTexts(items[..|items| - 1])
      + (if last.InputData? && TextOf(last.input).Some? then [TextOf(last.input).value] else [])
  }

  // The same, as it stood at each turn.
  function TextsAtTurns(items: seq<SessionItem>): seq<seq<string>> {
    if items == [] then []
    else
      TextsAtTurns(items[..|items| - 1])
      + (if items[|items| - 1].data.TurnData? then [InputTexts(items[..|items| - 1])] else [])
  }

  // The effort that the settings messages of a history ask for, the last of them first.
  function EffortAfter(effort: string, items: seq<SessionItem>): string {
    if items == [] then effort
    else
      var last := items[|items| - 1].data;
      if && last.InputData? && last.input.kind == Control && last.input.payload.control.Some?
         && last.input.payload.control.value.mode == UpdateSettings
      then last.input.payload.control.value.effort
      else EffortAfter(effort, items[..|items| - 1])
  }

  // The same, as it stood at each turn.
  function EffortsAtTurns(effort: string, items: seq<SessionItem>): seq<string> {
    if items == [] then []
    else
      EffortsAtTurns(effort, items[..|items| - 1])
      + (if items[|items| - 1].data.TurnData? then [EffortAfter(effort, items[..|items| - 1])] else [])
  }

  lemma ItemSetsEffort(reg: Registry, core: Core, item: SessionItem, items: seq<SessionItem>, effort: string)
    requires AddItem(reg, core, item.data).Ok? && core.context.effort == EffortAfter(effort, items)
    ensures AddItem(reg, core, item.data).value.context.effort == EffortAfter(effort, items + [item])
  {
    hide Overlay, WithoutPlaceholders, AddCalls, Collect, Collectable, AllTerminal, IDSet, RequiresTranslator, ValidInput;
    assert (items + [item])[..|items|] == items;
  }

  lemma {:induction false} EffortOfHistory(reg: Registry, context: Context, items: seq<SessionItem>)
    requires Replay(reg, NewCore(context), items).Ok?
    ensures Replay(reg, NewCore(context), items).value.context.effort == EffortAfter(context.effort, items)
    decreases |items|
  {
    hide AddItem, EffortAfter, RequiresTranslator;
    if items == [] {
      NoEffortYet(context.effort);
    } else {
      var k := |items| - 1;
      EffortOfHistory(reg, context, items[..k]);
      assert items == items[..k] + [items[k]];
      ItemSetsEffort(reg, Replay(reg, NewCore(context), items[..k]).value, items[k], items[..k], context.effort);
    }
  }

  // In every history the effort is that of the last settings message, and so it was in
  // each request.
  lemma {:induction false} HistorySetsEffort(reg: Registry, context: Context, items: seq<SessionItem>)
    requires Replay(reg, NewCore(context), items).Ok?
    ensures Replay(reg, NewCore(context), items).value.context.effort == EffortAfter(context.effort, items)
    ensures |RequestsOf(reg, context, items)| == |EffortsAtTurns(context.effort, items)|
    ensures forall i | 0 <= i < |RequestsOf(reg, context, items)| ::
              RequestsOf(reg, context, items)[i].effort == EffortsAtTurns(context.effort, items)[i]
    decreases |items|
  {
    hide RestoreItem, EffortAfter, Build;
    EffortOfHistory(reg, context, items);
    if items != [] {
      HistorySetsEffort(reg, context, items[..|items| - 1]);
    }
  }

  lemma NoEffortYet(effort: string)
    ensures EffortAfter(effort, []) == effort
  {
  }

  lemma {:induction false} UserTextsConcat(a: seq<Item>, b: seq<Item>)
    ensures UserTexts(a + b) == UserTexts(a) + UserTexts(b)
    decreases |b|
  {
    if b == [] {
      assert a + b == a;
    } else {
      assert (a + b)[..|a + b| - 1] == a + b[..|b| - 1];
      UserTextsConcat(a, b[..|b| - 1]);
    }
  }

  lemma {:induction false} PlaceholdersHaveNoText(items: seq<Item>, callID: Id)
    ensures UserTexts(WithoutPlaceholders(items, callID)) == UserTexts(items)
    decreases |items|
  {
    if items != [] {
      var shorter, last := items[..|items| - 1], items[|items| - 1];
      PlaceholdersHaveNoText(shorter, callID);
      if IsPlaceholder(last, callID) {
        assert WithoutPlaceholders(items, callID) == WithoutPlaceholders(shorter, callID);
      } else {
        UserTextsConcat(WithoutPlaceholders(shorter, callID), [last]);
        UserTextsConcat(shorter, [last]);
        assert items == shorter + [last];
      }
    }
  }

  lemma {:induction false} OutputHasNoTexts(output: seq<Item>)
    requires forall i | 0 <= i < |output| :: !(output[i].Message? && output[i].role == User)
    ensures UserTexts(output) == []
    decreases |output|
  {
    if output != [] {
      OutputHasNoTexts(output[..|output| - 1]);
    }
  }

  function AllTexts(context: Context): seq<string> {
    UserTexts(context.committed) + UserTexts(context.staged)
  }

  lemma StatusAddsNoText(reg: Registry, core: Core, status: ToolCallStatus)
    requires AddItem(reg, core, StatusData(status)).Ok?
    ensures AllTexts(AddItem(reg, core, StatusData(status)).value.context) == AllTexts(core.context)
  {
    hide UserTexts, Overlay, Collect, Collectable, AllTerminal, IDSet, RequiresTranslator;
    forall output, running
      ensures AllTexts(AddResult(core.context, status.callID, output, running)) == AllTexts(core.context)
    {
      ResultHasNoText(core.context, status.callID, output, running);
    }
  }

  lemma ResultHasNoText(context: Context, callID: Id, output: seq<ResultOutput>, running: bool)
    ensures AllTexts(AddResult(context, callID, output, running)) == AllTexts(context)
  {
    hide UserTexts;
    var result := ToolResult(callID, if running then RUNNING_OUTPUT else output, !running);
    PlaceholdersHaveNoText(context.staged, callID);
    UserTextsConcat(WithoutPlaceholders(context.staged, callID), [result]);
    OutputHasNoTexts([result]);
  }

  lemma ItemAddsItsText(reg: Registry, core: Core, data: Data)
    requires AddItem(reg, core, data).Ok? && DisciplinedData(core, data)
    ensures AllTexts(AddItem(reg, core, data).value.context)
      == AllTexts(core.context)
         + (if data.InputData? && TextOf(data.input).Some? then [TextOf(data.input).value] else [])
  {
    hide UserTexts, AddCalls, ShowResult, NoteStatus, ValidInput;
    match data
    case InputData(input) =>
      InputIsShown(reg, core, input);
      var next := AddItem(reg, core, data).value.context;
      UserTextsConcat(core.context.committed, core.context.staged);
      UserTextsConcat(next.committed, next.staged);
      if TextOf(input).Some? {
        var message := Message(User, TextOf(input).value);
        UserTextsConcat(Build(core.context), [message]);
        OneText(message);
      }
    case TurnData(_) =>
      UserTextsConcat(core.context.committed, core.context.staged);
      OutputHasNoTexts([]);
    case ResponseData(response) =>
      UserTextsConcat(core.context.committed, response.output);
      OutputHasNoTexts(response.output);
      assert UserTexts(core.context.committed) + [] == UserTexts(core.context.committed);
    case StatusData(status) => StatusAddsNoText(reg, core, status);
    case ForkData(_, _) =>
  }

  lemma OneText(item: Item)
    ensures UserTexts([item]) == if item.Message? && item.role == User then [item.text] else []
  {
    assert [item][..0] == [];
  }

  // In every history: the user's messages of the built input are the texts of the external
  // inputs and the heartbeats, in order, and those of each request what they were then.
  lemma {:induction false} HistoryShowsInputs(reg: Registry, context: Context, items: seq<SessionItem>)
    requires NewContext(context) && DisciplinedHistory(reg, context, items) && Replay(reg, NewCore(context), items).Ok?
    ensures UserTexts(Build(Replay(reg, NewCore(context), items).value.context)) == InputTexts(items)
    ensures |RequestsOf(reg, context, items)| == |TextsAtTurns(items)|
    ensures forall i | 0 <= i < |RequestsOf(reg, context, items)| ::
              UserTexts(RequestsOf(reg, context, items)[i].input) == TextsAtTurns(items)[i]
    decreases |items|
  {
    hide NewContext, DisciplinedHistory, DisciplinedData, AddItem, UserTexts;
    if items == [] {
      NoTextsYet(context);
    } else {
      var k := |items| - 1;
      DisciplinedBefore(reg, context, items, k);
      HistoryShowsInputs(reg, context, items[..k]);
      var before := Replay(reg, NewCore(context), items[..k]).value;
      ItemAddsItsText(reg, before, items[k].data);
      UserTextsConcat(before.context.committed, before.context.staged);
      var after := Replay(reg, NewCore(context), items).value;
      UserTextsConcat(after.context.committed, after.context.staged);
    }
  }

  lemma NoTextsYet(context: Context)
    requires NewContext(context)
    ensures UserTexts(Build(context)) == []
  {
    assert Build(context) == [context.committed[0]];
    OneText(context.committed[0]);
  }

  // Over every run, restarts included: the user's messages of the model's input are the
  // texts of the inputs of the session, and the effort is that of the last settings
  // message; and so it is in each request that is sent, as far as the inputs had come by
  // then.
  lemma RunsShowInputs(reg: Registry, context: Context, start: Live, actions: seq<Action>)
    requires NewContext(context) && Tracked(reg, context, start) && Run(reg, context, start, actions).Ok?
    requires DisciplinedHistory(reg, context, Run(reg, context, start, actions).value.stored.items)
    ensures var live := Run(reg, context, start, actions).value;
      var sent := RequestsOf(reg, context, start.stored.items) + Sent(reg, context, start, actions);
      && UserTexts(Build(live.core.context)) == InputTexts(live.stored.items)
      && |sent| == |TextsAtTurns(live.stored.items)|
      && (forall i | 0 <= i < |sent| :: UserTexts(sent[i].input) == TextsAtTurns(live.stored.items)[i])
      && live.core.context.effort == EffortAfter(context.effort, live.stored.items)
      && |sent| == |EffortsAtTurns(context.effort, live.stored.items)|
      && forall i | 0 <= i < |sent| :: sent[i].effort == EffortsAtTurns(context.effort, live.stored.items)[i]
  {
    hide NewContext, DisciplinedHistory, Run, Replay, RequestsOf, Sent, UserTexts, InputTexts, TextsAtTurns, CallsCoherent, Named,
         EffortAfter, EffortsAtTurns;
    RunsAreTracked(reg, context, start, actions);
    SentIsRecorded(reg, context, start, actions);
    HistoryShowsInputs(reg, context, Run(reg, context, start, actions).value.stored.items);
    HistorySetsEffort(reg, context, Run(reg, context, start, actions).value.stored.items);
  }
}
