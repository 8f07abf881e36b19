// A small session, step by step, for the properties that fail: a late update that a
// restart does not see, and a fork that loses the result of a finished call.
module Counterexamples {
  import opened Session
  import opened SessionState
  import opened ContextBuilder
  import opened CoordinatorState
  import opened Tracking
  import opened ReplayProofs
  import opened Accounting
  import opened Requests
  import opened RequestShape
  import opened ForkProofs
  import opened ForkLoads
  import opened Restarts
  import opened ForkShape
  import opened ForkRequests
  import opened Acceptance

  const CALL := Call("c", "n", "")
  const KEY: CallKey := ("t", "c")
  const READY := Operation("o", "k", 1, Ready, Absent, Absent, 0)
  const DONE := READY.(status := Completed)
  // The end of the operation, told once more with another limit.
  const DONE_AGAIN := DONE.(maxOutputLength := 1)
  const STATUS := CallStatus("", false, ["o"])
  const SESSION := SessionInfo("s", 1)
  const CONTEXT := Context("", [Message(System, "")], [])

  const OUTPUT := [ResultOutput(Text, "ok")]

  // One tool, each call of which submits one operation, and which says so when it is done.
  function Tools(): Registry {
    Registry(name => true, (call, attempt) => Translation(STATUS, [READY]),
             (name, callID, status, operations) => Some(if operations == [DONE] then OUTPUT else []))
  }

  function Item1(): SessionItem { SessionItem(1, 1, TurnData(Turn("t", "", Regular))) }
  function Item2(): SessionItem { SessionItem(2, 1, ResponseData(ModelResponse("t", [ToolCall(CALL)]))) }
  function Item3(): SessionItem { SessionItem(3, 1, StatusData(ToolCallStatus("t", "c", STATUS, [READY]))) }
  function Item4(): SessionItem { SessionItem(4, 1, StatusData(ToolCallStatus("t", "c", STATUS, [DONE]))) }

  function Live0(): Live {
    Live(NewCore(CONTEXT), NewStored(SESSION))
  }

  function Live1(): Live {
    Live(Core("t", Regular, map[], map[], 0, 0, 0, CONTEXT),
         Stored(Head(SESSION, [], 1, "t", {"t"}, {"t"}, {}, {}, map[]), [Item1()]))
  }

  function Asked(): Context {
    Context("", [Message(System, ""), ToolCall(CALL)], [])
  }

  function Live2(): Live {
    Live(Core("t", Regular, map[KEY := CallState(CALL, None, {})], map[], 0, 0, 0, Asked()),
         Stored(Head(SESSION, [], 2, "t", {"t"}, {"t"}, {"t"}, {}, map[]), [Item1(), Item2()]))
  }

  function Live3(): Live {
    Live(Core("t", Regular, map[KEY := CallState(CALL, Some(STATUS), {"o"})], map["o" := READY], 0, 0, 0,
              Asked().(staged := [ToolResult("c", RUNNING_OUTPUT, false)])),
         Stored(Head(SESSION, [READY], 3, "t", {"t"}, {"t"}, {"t"}, {KEY}, map["o" := 0]), [Item1(), Item2(), Item3()]))
  }

  function Live4(): Live {
    Live(Live3().core.(operations := map["o" := DONE]), Stored(Live3().stored.head.(operations := [DONE]), Live3().stored.items))
  }

  function Live5(): Live {
    Live(Core("t", Regular, map[], map["o" := DONE], 1, 0, 0, Asked().(staged := [ToolResult("c", OUTPUT, true)])),
         Stored(Head(SESSION, [DONE], 4, "t", {"t"}, {"t"}, {"t"}, {KEY}, map["o" := 0]),
                [Item1(), Item2(), Item3(), Item4()]))
  }

  lemma StepOne()
    ensures Apply(Tools(), CONTEXT, Live0(), StartTurn("t", 1)) == Ok(Live1())
  {
    var data := TurnData(Turn("t", "", Regular));
    assert CONTEXT.committed + CONTEXT.staged == CONTEXT.committed;
    assert AddItem(Tools(), Live0().core, data) == Ok(Live1().core);
    assert {} + {"t"} == {"t"};
    assert [] + [Item1()] == [Item1()];
    assert Append(Live0().stored, data, [], 1) == Ok(Live1().stored);
  }

  lemma StepTwo()
    ensures Apply(Tools(), CONTEXT, Live1(), TakeResponse([ToolCall(CALL)], 1)) == Ok(Live2())
  {
    var output := [ToolCall(CALL)];
    var data := ResponseData(ModelResponse("t", output));
    assert output[..0] == [];
    assert AddCalls(map[], "t", output) == map[KEY := CallState(CALL, None, {})];
    assert Asked().committed == CONTEXT.committed + output;
    assert AddItem(Tools(), Live1().core, data) == Ok(Live2().core);
    assert {} + {"t"} == {"t"};
    assert [Item1()] + [Item2()] == [Item1(), Item2()];
    assert Append(Live1().stored, data, [], 1) == Ok(Live2().stored);
  }

  lemma StepFour()
    ensures Apply(Tools(), CONTEXT, Live3(), TakeUpdate(DONE)) == Ok(Live4())
  {
    assert [READY][0 := DONE] == [DONE];
    assert map["o" := READY]["o" := DONE] == map["o" := DONE];
    assert Save(Live3().stored, DONE) == Ok(Live4().stored);
  }

  lemma Scheduled()
    ensures ScheduledStatus(Tools(), KEY, CALL, 0) == ToolCallStatus("t", "c", STATUS, [READY])
  {
    assert Submit([READY]) == [READY];
  }

  lemma OneOperation(operation: Operation)
    ensures Overlay(map[], [operation]) == map[operation.id := operation]
    ensures Overlay(map[operation.id := operation], [operation]) == map[operation.id := operation]
    ensures IDSet([operation.id]) == {operation.id}
  {
    assert [operation][..0] == [];
    assert [operation.id][0] == operation.id;
  }

  lemma NoPlaceholdersLeft()
    ensures WithoutPlaceholders([], "c") == []
    ensures WithoutPlaceholders([ToolResult("c", RUNNING_OUTPUT, false)], "c") == []
  {
    assert [ToolResult("c", RUNNING_OUTPUT, false)][..0] == [];
  }

  lemma StepThree()
    ensures Apply(Tools(), CONTEXT, Live2(), Schedule(KEY, 0, 1)) == Ok(Live3())
  {
    hide Overlay, AddItem, Append;
    Scheduled();
    OneOperation(READY);
    ShownAsRunning();
    FirstAppend();
    assert Live2().core.toolCalls[KEY].status.None?;
  }

  // The state with the first status noted, before its result is shown.
  function WithStatus(): Core {
    Live3().core.(context := Asked())
  }

  lemma ShownAsRunning()
    ensures var ready := Live2().core.(operations := map["o" := READY]);
      AddItem(Tools(), ready, StatusData(ToolCallStatus("t", "c", STATUS, [READY]))) == Ok(Live3().core)
  {
    hide RUNNING_OUTPUT, Overlay, IDSet, ShowResult;
    OneOperation(READY);
    var status := ToolCallStatus("t", "c", STATUS, [READY]);
    assert {} + IDSet(["o"]) == {"o"};
    assert NoteStatus(Live2().core.(operations := map["o" := READY]), status) == WithStatus();
    ResultShown(status);
  }

  lemma ResultShown(status: ToolCallStatus)
    requires status == ToolCallStatus("t", "c", STATUS, [READY])
    ensures ShowResult(Tools(), WithStatus(), status) == Ok(Live3().core)
  {
    hide RUNNING_OUTPUT, WithoutPlaceholders;
    NoPlaceholdersLeft();
    assert [] + [ToolResult("c", RUNNING_OUTPUT, false)] == [ToolResult("c", RUNNING_OUTPUT, false)];
    assert !AllTerminal(WithStatus().operations, {"o"}) by {
      assert "o" in {"o"} && !IsTerminal(WithStatus().operations["o"].status);
    }
  }

  lemma ReadyIsAdded(head: Head)
    requires head.operations == [] && head.operationPositions == map[]
    ensures AddOperations(head, [READY]) == head.(operations := [READY], operationPositions := map["o" := 0])
    ensures Initializable(head, [READY])
  {
    assert [READY][..0] == [];
  }

  lemma ReferencesAreValid()
    ensures ValidReferences(STATUS, [READY])
  {
    assert [READY][0].id == STATUS.waitingFor[0];
  }

  lemma FirstAppend()
    ensures Append(Live2().stored, StatusData(ToolCallStatus("t", "c", STATUS, [])), [READY], 1) == Ok(Live3().stored)
  {
    hide AddOperations, Initializable, ValidReferences;
    var head := Live2().stored.head;
    ReadyIsAdded(head.(toolCallStatuses := {KEY}));
    ReadyIsAdded(head);
    ReferencesAreValid();
    assert {} + {KEY} == {KEY};
    assert [Item1(), Item2()] + [Item3()] == [Item1(), Item2(), Item3()];
  }

  lemma StepFive()
    ensures Apply(Tools(), CONTEXT, Live4(), Reconcile(KEY, 1)) == Ok(Live5())
  {
    hide RUNNING_OUTPUT, Overlay, IDSet, WithoutPlaceholders;
    OneOperation(DONE);
    NoPlaceholdersLeft();
    var core := Live4().core;
    assert Collect(core.operations, ["o"]) == [DONE];
    var status := ToolCallStatus("t", "c", STATUS, [DONE]);
    assert ReconciledStatus(core, KEY) == status;
    assert {"o"} + IDSet(["o"]) == {"o"};
    var noted := NoteStatus(core.(operations := Overlay(core.operations, [DONE])), status);
    assert noted == core;
    assert AllTerminal(core.operations, {"o"});
    assert [] + [ToolResult("c", OUTPUT, true)] == [ToolResult("c", OUTPUT, true)];
    assert core.toolCalls - {KEY} == map[];
    assert AddItem(Tools(), core, StatusData(status)) == Ok(Live5().core);
    assert [Item1(), Item2(), Item3()] + [Item4()] == [Item1(), Item2(), Item3(), Item4()];
    assert Append(Live4().stored, StatusData(status.(operations := [])), [DONE], 1) == Ok(Live5().stored);
  }

  // ---- The run ----

  const ACTIONS: seq<Action> :=
    [StartTurn("t", 1), TakeResponse([ToolCall(CALL)], 1), Schedule(KEY, 0, 1), TakeUpdate(DONE), Reconcile(KEY, 1)]

  lemma RunLonger(actions: seq<Action>, before: Live, action: Action, after: Live)
    requires Run(Tools(), CONTEXT, Live0(), actions) == Ok(before)
    requires Apply(Tools(), CONTEXT, before, action) == Ok(after)
    ensures Run(Tools(), CONTEXT, Live0(), actions + [action]) == Ok(after)
  {
    hide Apply;
    assert (actions + [action])[..|actions|] == actions;
  }

  // The call is asked for, scheduled, run to its end and reconciled, and the model is to
  // see its output.
  lemma RunToTheEnd()
    ensures Run(Tools(), CONTEXT, Live0(), ACTIONS) == Ok(Live5())
    ensures Replayable(Tools(), CONTEXT, Live5())
    ensures Build(Live5().core.context) == [Message(System, ""), ToolCall(CALL), ToolResult("c", OUTPUT, true)]
  {
    hide Apply, Replayable, Live0, Build, Live1, Live2, Live3, Live4, Live5;
    StepOne();
    StepTwo();
    StepThree();
    StepFour();
    StepFive();
    var a := ACTIONS;
    RunLonger([], Live0(), a[0], Live1());
    assert [] + [a[0]] == [a[0]];
    RunLonger([a[0]], Live1(), a[1], Live2());
    assert [a[0]] + [a[1]] == [a[0], a[1]];
    RunLonger([a[0], a[1]], Live2(), a[2], Live3());
    assert [a[0], a[1]] + [a[2]] == [a[0], a[1], a[2]];
    RunLonger([a[0], a[1], a[2]], Live3(), a[3], Live4());
    assert [a[0], a[1], a[2]] + [a[3]] == [a[0], a[1], a[2], a[3]];
    RunLonger([a[0], a[1], a[2], a[3]], Live4(), a[4], Live5());
    assert [a[0], a[1], a[2], a[3]] + [a[4]] == a;
    RunIsReplayable();
    OutputIsBuilt();
  }

  lemma OutputIsBuilt()
    ensures Build(Live5().core.context) == [Message(System, ""), ToolCall(CALL), ToolResult("c", OUTPUT, true)]
  {
  }

  lemma RunIsReplayable()
    ensures Replayable(Tools(), CONTEXT, Live5())
  {
    hide Apply, Replayable, Live1, Live2, Live4, Live5;
    StepOne();
    StepTwo();
    StepThree();
    StepFour();
    StepFive();
    NewSessionIsReplayable(Tools(), CONTEXT, SESSION);
    ActionFollows(Tools(), CONTEXT, Live0(), ACTIONS[0]);
    ActionFollows(Tools(), CONTEXT, Live1(), ACTIONS[1]);
    ActionFollows(Tools(), CONTEXT, Live2(), ACTIONS[2]);
    assert Expected(Live3().core, DONE);
    ActionFollows(Tools(), CONTEXT, Live3(), ACTIONS[3]);
    ActionFollows(Tools(), CONTEXT, Live4(), ACTIONS[4]);
  }

  // A failing input: an update that ends the operation once more. It is in the live state
  // and in the store, and a restart does not see it.
  lemma LateUpdateIsLost()
    ensures Run(Tools(), CONTEXT, Live0(), ACTIONS) == Ok(Live5())
    ensures Apply(Tools(), CONTEXT, Live5(), TakeUpdate(DONE_AGAIN)).Ok?
    ensures var next := Apply(Tools(), CONTEXT, Live5(), TakeUpdate(DONE_AGAIN)).value;
      && next.core.operations == SavedOperations(next.stored.head) == map["o" := DONE_AGAIN]
      && Restore(Tools(), CONTEXT, next.stored).Ok?
      && "o" in Restore(Tools(), CONTEXT, next.stored).value.operations
      && Restore(Tools(), CONTEXT, next.stored).value.operations["o"] == DONE
  {
    hide Restore, Replay, Mirrors, PendingAgrees, Tracks, Noted;
    RunToTheEnd();
    LateUpdateIsSaved();
    ReplayableIsNoted(Tools(), CONTEXT, Live5());
    SnapshotIsTheEnd();
    LostIsTheSnapshot(Live5());
  }

  lemma LateUpdateIsSaved()
    ensures Apply(Tools(), CONTEXT, Live5(), TakeUpdate(DONE_AGAIN)).Ok?
    ensures var next := Apply(Tools(), CONTEXT, Live5(), TakeUpdate(DONE_AGAIN)).value;
      next.core.operations == SavedOperations(next.stored.head) == map["o" := DONE_AGAIN]
  {
    assert ValidOperation(DONE_AGAIN);
    assert [DONE][0 := DONE_AGAIN] == [DONE_AGAIN];
  }

  lemma LostIsTheSnapshot(live: Live)
    requires Noted(Tools(), CONTEXT, live) && Apply(Tools(), CONTEXT, live, TakeUpdate(DONE_AGAIN)).Ok?
    requires "o" in Replayed(Tools(), CONTEXT, live) && Replayed(Tools(), CONTEXT, live)["o"] == DONE
    ensures var next := Apply(Tools(), CONTEXT, live, TakeUpdate(DONE_AGAIN)).value;
      && Restore(Tools(), CONTEXT, next.stored).Ok?
      && "o" in Restore(Tools(), CONTEXT, next.stored).value.operations
      && Restore(Tools(), CONTEXT, next.stored).value.operations["o"] == DONE
  {
    hide Restore, Replay, PendingAgrees, Tracks, SavedOperations, EndsAgree, SaveOperation;
    var next := Apply(Tools(), CONTEXT, live, TakeUpdate(DONE_AGAIN)).value;
    UpdateNotes(Tools(), CONTEXT, live, DONE_AGAIN);
    RestartedOperation(Tools(), CONTEXT, next, "o");
  }

  lemma SnapshotIsTheEnd()
    ensures Replayable(Tools(), CONTEXT, Live5())
    ensures Replayed(Tools(), CONTEXT, Live5()).Keys == {"o"} && Replayed(Tools(), CONTEXT, Live5())["o"] == DONE
  {
    hide Replay, Mirrors, CallsCoherent;
    RunToTheEnd();
    assert [DONE][..0] == [];
    assert "o" !in Pending(Live5().stored.items);
    assert "o" in Live5().core.operations;
  }

  // ---- Forks ----

  const FORK_ITEM := SessionItem(5, 1, ForkData("s", "t"))

  function ChildItems(): seq<SessionItem> {
    [Item1(), Item2(), Bare(Item3()), Bare(Item4()), FORK_ITEM]
  }

  lemma WholeTurn()
    ensures Boundary(Live5().stored.items, "t", 0, -1) == 3
  {
    var items := Live5().stored.items;
    assert Boundary(items, "t", 4, 3) == 3;
    assert Boundary(items, "t", 3, 2) == 3;
    assert Boundary(items, "t", 2, 1) == 3;
    assert Boundary(items, "t", 1, 0) == 3;
  }

  lemma CallStaysOpen()
    ensures StillOpen(Live5().stored.items) == {KEY} && SameStatuses(Live5().stored.items)
  {
    var items := Live5().stored.items;
    assert items[..3] == [Item1(), Item2(), Item3()];
    assert items[..3][..2] == [Item1(), Item2()];
    assert [Item1(), Item2()][..1] == [Item1()];
    assert [Item1()][..0] == [];
    assert CallKeys("t", [ToolCall(CALL)]) == {KEY} by {
      assert [ToolCall(CALL)][0].ToolCall?;
    }
  }

  // ---- The fork of the finished session ----

  lemma LoadOne(items: seq<SessionItem>, core: Core, item: SessionItem, next: Core)
    requires Replay(Tools(), NewCore(CONTEXT), items) == Ok(core)
    requires AddItem(Tools(), core, item.data) == Ok(next)
    ensures Replay(Tools(), NewCore(CONTEXT), items + [item]) == Ok(next)
  {
    hide AddItem;
    assert (items + [item])[..|items|] == items;
  }

  lemma NothingLoaded()
    ensures Replay(Tools(), NewCore(CONTEXT), []) == Ok(NewCore(CONTEXT))
  {
  }

  // A history whose only response is this one.
  lemma OneResponse(items: seq<SessionItem>)
    requires |items| >= 2 && items[0] == Item1() && items[1] == Item2()
    requires forall i | 2 <= i < |items| :: !items[i].data.ResponseData?
    ensures DisciplinedHistory(Tools(), CONTEXT, items)
  {
    hide AddItem, Replay, Disciplined;
    FirstItems();
    NothingLoaded();
    LoadOne([], NewCore(CONTEXT), items[0], Live1().core);
    assert items[..1] == [] + [items[0]];
    FirstCallIsNew();
    forall n | 0 <= n < |items| && Replay(Tools(), NewCore(CONTEXT), items[..n]).Ok?
      ensures DisciplinedData(Replay(Tools(), NewCore(CONTEXT), items[..n]).value, items[n].data)
    {
      if n == 1 {
        assert Replay(Tools(), NewCore(CONTEXT), items[..1]) == Ok(Live1().core);
      }
    }
  }

  lemma FirstCallIsNew()
    ensures Disciplined(Live1().core, [ToolCall(CALL)])
  {
  }

  lemma FirstItems()
    ensures AddItem(Tools(), NewCore(CONTEXT), Item1().data) == Ok(Live1().core)
    ensures AddItem(Tools(), Live1().core, Item2().data) == Ok(Live2().core)
  {
    var output := [ToolCall(CALL)];
    assert CONTEXT.committed + CONTEXT.staged == CONTEXT.committed;
    assert output[..0] == [];
    assert AddCalls(map[], "t", output) == map[KEY := CallState(CALL, None, {})];
    assert Asked().committed == CONTEXT.committed + output;
  }

  // Another: the call has ended in the parent, whose next request is well formed. In the
  // fork it has no result, because the result was inherited without its operation.
  lemma ForkLosesFinishedCall()
    ensures Run(Tools(), CONTEXT, Live0(), ACTIONS) == Ok(Live5())
    ensures AllScheduled(Live5().core) && WellFormed(Build(Live5().core.context))
    ensures ForkOf(Live5().stored, "f", "t", 1).Ok?
    ensures var child := ForkOf(Live5().stored, "f", "t", 1).value;
      Restore(Tools(), CONTEXT, child).Ok? && !WellFormed(Build(Restore(Tools(), CONTEXT, child).value.context))
  {
    hide Restore, WellFormed, Replay, InheritAll, StillOpen, CutOff, Written, Replayable, DisciplinedHistory, AllBare;
    RunToTheEnd();
    ParentIsWellFormed();
    NewSessionIsWritten(Tools(), CONTEXT, SESSION);
    RunsStayWritten(Tools(), CONTEXT, Live0(), ACTIONS);
    ChildHasItems();
    var child := ForkOf(Live5().stored, "f", "t", 1).value;
    OneResponse(child.items);
    CallStaysOpen();
    WholeTurn();
    ForkedRequestsAreWellFormed(Tools(), CONTEXT, Live5(), "f", "t", 1, []);
    assert Inherited(Live5().stored, "t") == Live5().stored.items;
  }

  lemma ChildHasItems()
    ensures ForkOf(Live5().stored, "f", "t", 1).Ok?
    ensures ForkOf(Live5().stored, "f", "t", 1).value.items == ChildItems()
  {
    hide Inherit, InheritAll;
    WholeTurn();
    var items := Live5().stored.items;
    assert items[..4] == items;
    InheritedItems(NewStored(SessionInfo("f", 1)), items);
    assert AllBare(items) == [Item1(), Item2(), Bare(Item3()), Bare(Item4())];
  }

  lemma ParentIsWellFormed()
    ensures AllScheduled(Live5().core) && WellFormed(Build(Live5().core.context))
  {
    hide Shaped, Tracked, DisciplinedHistory, WellFormed, Run, Replayable;
    RunToTheEnd();
    NewSessionIsTracked(Tools(), CONTEXT, SESSION);
    NewCoreIsShaped(CONTEXT);
    ParentIsDisciplined();
    RunsKeepShape(Tools(), CONTEXT, Live0(), ACTIONS, {});
    RequestIsWellFormed(Live5().core, {});
  }

  lemma ParentIsDisciplined()
    ensures DisciplinedHistory(Tools(), CONTEXT, Live5().stored.items)
  {
    hide DisciplinedHistory;
    OneResponse(Live5().stored.items);
  }
}
