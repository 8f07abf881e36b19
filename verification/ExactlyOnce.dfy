// External inputs are in a session once each, over any number of processes.
module ExactlyOnce {
  import opened Session
  import opened SessionState
  import opened ContextBuilder
  import opened CoordinatorState
  import opened CoordinatorTrace
  import opened Inbox

  // The IDs of the external inputs, in order.
  function Externals(inputs: seq<Input>): seq<Id> {
    if inputs == [] then []
    else
      var last := inputs[|inputs| - 1];
      Externals(inputs[..|inputs| - 1]) + (if last.kind == External then [last.id] else [])
  }

  lemma ExternalsLonger(inputs: seq<Input>, input: Input)
    ensures Externals(inputs + [input]) == Externals(inputs) + (if input.kind == External then [input.id] else [])
  {
    assert (inputs + [input])[..|inputs|] == inputs;
  }

  lemma AppendExternals(stored: Stored, data: Data, operations: seq<Operation>, at: Time)
    requires Append(stored, data, operations, at).Ok?
    ensures ExternalIDs(Append(stored, data, operations, at).value.items)
      == ExternalIDs(stored.items)
         + (if data.InputData? && data.input.kind == External then [data.input.id] else [])
  {
    hide ValidInput, Initializable, ValidReferences, AddOperations;
    var items := Append(stored, data, operations, at).value.items;
    assert items[..|items| - 1] == stored.items;
  }

  lemma ActionExternals(reg: Registry, context: Context, live: Live, action: Action)
    requires Apply(reg, context, live, action).Ok?
    ensures ExternalIDs(Apply(reg, context, live, action).value.stored.items)
      == ExternalIDs(live.stored.items)
         + (if action.TakeInput? && action.input.kind == External then [action.input.id] else [])
  {
    hide AddItem, Restore, ValidOperation, CanReconcile, AllScheduled, AppendToHead, ExternalIDs, Overlay, ScheduledStatus;
    match action
    case TakeInput(input, at) => AppendExternals(live.stored, InputData(input), [], at);
    case StartTurn(turnID, at) => AppendExternals(live.stored, TurnData(Turn(turnID, live.core.turnID, Regular)), [], at);
    case TakeResponse(output, at) =>
      AppendExternals(live.stored, ResponseData(ModelResponse(live.core.turnID, output)), [], at);
    case Schedule(key, attempt, at) =>
      var status := ScheduledStatus(reg, key, live.core.toolCalls[key].call, attempt);
      AppendExternals(live.stored, StatusData(status.(operations := [])), status.operations, at);
    case Reconcile(key, at) =>
      var status := ReconciledStatus(live.core, key);
      AppendExternals(live.stored, StatusData(status.(operations := [])), status.operations, at);
    case _ =>
  }

  // What a run adds to the external inputs of its session is what it took.
  lemma {:induction false} RunExternals(reg: Registry, context: Context, start: Live, actions: seq<Action>)
    requires Run(reg, context, start, actions).Ok?
    ensures ExternalIDs(Run(reg, context, start, actions).value.stored.items)
      == ExternalIDs(start.stored.items) + Externals(Taken(actions).inputs)
    decreases |actions|
  {
    hide Apply, ExternalIDs, Externals;
    if actions == [] {
      assert Externals([]) == [] by { NoExternals(); }
    } else {
      var shorter, last := actions[..|actions| - 1], actions[|actions| - 1];
      RunExternals(reg, context, start, shorter);
      ActionExternals(reg, context, Run(reg, context, start, shorter).value, last);
      if last.TakeInput? {
        ExternalsLonger(Taken(shorter).inputs, last.input);
      }
    }
  }

  lemma NoExternals()
    ensures Externals([]) == []
  {
  }

  lemma {:induction false} ExternalsAreDistinct(inputs: seq<Input>)
    requires forall i, j | 0 <= i < j < |inputs| :: inputs[i].id != inputs[j].id
    ensures DistinctStrings(Externals(inputs))
    ensures forall k | 0 <= k < |Externals(inputs)| :: exists i :: 0 <= i < |inputs| && inputs[i].id == Externals(inputs)[k]
    decreases |inputs|
  {
    if inputs != [] {
      var shorter, last := inputs[..|inputs| - 1], inputs[|inputs| - 1];
      ExternalsAreDistinct(shorter);
      forall k | 0 <= k < |Externals(inputs)|
        ensures exists i :: 0 <= i < |inputs| && inputs[i].id == Externals(inputs)[k]
      {
        if k < |Externals(shorter)| {
          var i :| 0 <= i < |shorter| && shorter[i].id == Externals(shorter)[k];
          assert inputs[i].id == Externals(inputs)[k];
        } else {
          assert inputs[|inputs| - 1].id == Externals(inputs)[k];
        }
      }
    }
  }

  function Known(ids: seq<Id>): set<Id> {
    set id | id in ids
  }

  // The beginning of what an inbox lets through has no external ID that it was seeded
  // with, and none twice.
  lemma LetThroughOnce(ids: seq<Id>, submitted: seq<Input>, taken: seq<Input>)
    requires DistinctStrings(ids) && taken <= Firsts(Known(ids), submitted)
    ensures DistinctStrings(ids + Externals(taken))
  {
    hide Firsts, Externals;
    var out := Firsts(Known(ids), submitted);
    FirstsComeOnce(Known(ids), submitted);
    ExternalsAreDistinct(taken);
    forall k | 0 <= k < |Externals(taken)|
      ensures Externals(taken)[k] !in ids
    {
      var i :| 0 <= i < |taken| && taken[i].id == Externals(taken)[k];
      assert out[i] == taken[i];
      assert out[i].id in InputIDs(out);
    }
  }

  // ---- Processes ----

  // One process: what was submitted to its inbox, and the steps it took.
  datatype Process = Process(submitted: seq<Input>, actions: seq<Action>)

  // The processes in turn, each with the session that the one before it left.
  function RunAll(reg: Registry, context: Context, start: Live, processes: seq<Process>): Result<Live> {
    if processes == [] then Ok(start)
    else
      var before :- RunAll(reg, context, start, processes[..|processes| - 1]);
      Run(reg, context, before, processes[|processes| - 1].actions)
  }

  // A process takes, from the front, what comes out of an inbox that has seen the inputs
  // that resuming its session tells of.
  predicate FedByInbox(live: Live, process: Process) {
    Taken(process.actions).inputs <= Firsts(Known(Resume(live.stored).externalInputIDs), process.submitted)
  }

  predicate AllFed(reg: Registry, context: Context, start: Live, processes: seq<Process>) {
    forall n | 0 <= n < |processes| && RunAll(reg, context, start, processes[..n]).Ok? ::
      FedByInbox(RunAll(reg, context, start, processes[..n]).value, processes[n])
  }

  // No external input is in the session twice, over any number of processes and however
  // often each input is submitted.
  lemma {:induction false} ExternalInputsOnce(reg: Registry, context: Context, start: Live, processes: seq<Process>)
    requires DistinctStrings(ExternalIDs(start.stored.items))
    requires RunAll(reg, context, start, processes).Ok? && AllFed(reg, context, start, processes)
    ensures DistinctStrings(ExternalIDs(RunAll(reg, context, start, processes).value.stored.items))
    decreases |processes|
  {
    hide Run, Taken, ExternalIDs, DistinctStrings, Firsts, Unfinished, Pending;
    if processes != [] {
      var shorter, last := processes[..|processes| - 1], processes[|processes| - 1];
      assert forall n | 0 <= n <= |shorter| :: shorter[..n] == processes[..n];
      ExternalInputsOnce(reg, context, start, shorter);
      var before := RunAll(reg, context, start, shorter).value;
      assert FedByInbox(before, last);
      RunExternals(reg, context, before, last.actions);
      LetThroughOnce(ExternalIDs(before.stored.items), last.submitted, Taken(last.actions).inputs);
    }
  }

  // ---- Inherited history ----

  lemma {:induction false} InheritedExternals(start: Stored, items: seq<SessionItem>)
    ensures ExternalIDs(InheritAll(start, items).items) == ExternalIDs(start.items) + ExternalIDs(items)
    decreases |items|
  {
    if items != [] {
      InheritedExternals(start, items[..|items| - 1]);
      var inherited := InheritAll(start, items[..|items| - 1]).items;
      assert InheritAll(start, items).items[..|inherited|] == inherited;
    }
  }

  lemma {:induction false} EarlierExternals(items: seq<SessionItem>, n: nat)
    requires n <= |items|
    ensures ExternalIDs(items[..n]) <= ExternalIDs(items)
    decreases |items|
  {
    if n == |items| {
      assert items[..n] == items;
    } else {
      assert items[..|items| - 1][..n] == items[..n];
      EarlierExternals(items[..|items| - 1], n);
    }
  }

  // A fork has the external inputs of its parent up to where it was forked, so that they
  // are once in it as well, and resuming it lets none of them in again.
  lemma ForkKeepsInputsOnce(parent: Stored, id: Id, previousTurnID: Id, at: Time)
    requires ForkOf(parent, id, previousTurnID, at).Ok?
    ensures var child := ForkOf(parent, id, previousTurnID, at).value;
      && ExternalIDs(child.items) <= ExternalIDs(parent.items)
      && (DistinctStrings(ExternalIDs(parent.items)) ==> DistinctStrings(ExternalIDs(child.items)))
  {
    hide Boundary, InheritAll, ExternalIDs;
    var boundary := Boundary(parent.items, previousTurnID, 0, -1);
    var start := NewStored(SessionInfo(id, at));
    var items := parent.items[..boundary + 1];
    InheritedExternals(start, items);
    EarlierExternals(parent.items, boundary + 1);
    var child := ForkOf(parent, id, previousTurnID, at).value;
    var inherited := InheritAll(start, items).items;
    assert child.items == inherited + [child.items[|inherited|]];
    OtherItemsHaveNone(inherited, child.items[|inherited|]);
    NoItemsNoExternals();
  }

  lemma OtherItemsHaveNone(items: seq<SessionItem>, item: SessionItem)
    requires !item.data.InputData?
    ensures ExternalIDs(items + [item]) == ExternalIDs(items)
  {
    assert (items + [item])[..|items|] == items;
  }

  lemma NoItemsNoExternals()
    ensures ExternalIDs([]) == []
  {
  }
}
