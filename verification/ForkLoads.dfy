// Every fork of a session that coordinators have written can be loaded.
module ForkLoads {
  import opened Session
  import opened SessionState
  import opened ContextBuilder
  import opened CoordinatorState
  import opened Tracking
  import opened Requests
  import opened ForkProofs

  // The history without its operations can be replayed, and comes to the same turn and to
  // at least the open calls, which wait for at least as much.
  predicate CoversCalls(bare: map<CallKey, CallState>, calls: map<CallKey, CallState>) {
    forall key | key in calls ::
      && key in bare && bare[key].call == calls[key].call && calls[key].operations <= bare[key].operations
  }

  predicate Covers(bare: Core, core: Core) {
    && bare.operations == map[] && bare.turnID == core.turnID && bare.turnType == core.turnType
    && CoversCalls(bare.toolCalls, core.toolCalls)
  }

  predicate Forkable(reg: Registry, context: Context, live: Live) {
    var bare := Replay(reg, NewCore(context), AllBare(live.stored.items));
    bare.Ok? && Covers(bare.value, live.core)
  }

  lemma BareLonger(items: seq<SessionItem>, item: SessionItem)
    ensures AllBare(items + [item]) == AllBare(items) + [Bare(item)]
  {
  }

  // ---- Steps ----

  lemma {:induction false} BothOpenCalls(bare: map<CallKey, CallState>, calls: map<CallKey, CallState>, turnID: Id,
                                         output: seq<Item>)
    requires CoversCalls(bare, calls)
    ensures CoversCalls(AddCalls(bare, turnID, output), AddCalls(calls, turnID, output))
    decreases |output|
  {
    if output != [] {
      BothOpenCalls(bare, calls, turnID, output[..|output| - 1]);
    }
  }

  lemma PlainItemCovers(reg: Registry, bare: Core, core: Core, data: Data)
    requires Covers(bare, core) && !data.StatusData? && !data.ForkData? && AddItem(reg, core, data).Ok?
    ensures AddItem(reg, bare, data).Ok? && Covers(AddItem(reg, bare, data).value, AddItem(reg, core, data).value)
  {
    hide AddCalls, AddControl, ValidInput, CoversCalls;
    if data.ResponseData? {
      BothOpenCalls(bare.toolCalls, core.toolCalls, data.response.turnID, data.response.output);
    }
  }

  // A status of an open call can be replayed without its operations: it shows a result
  // only if the live one has been shown with the same.
  lemma BareStatusLoads(reg: Registry, bare: Core, live: Live, status: ToolCallStatus)
    requires Covers(bare, live.core) && Recordable(reg, live, status) && AddItem(reg, live.core, StatusData(status)).Ok?
    ensures var data := StatusData(status.(operations := []));
      RestoreItem(reg, bare, data).Ok?
      && Covers(RestoreItem(reg, bare, data).value, AddItem(reg, live.core, StatusData(status)).value)
  {
    hide Covers, Recordable, RestoreItem, AddItem;
    if status.status.waitingFor == [] {
      EndLoads(reg, bare, live, status);
    } else {
      WaitLoads(reg, bare, live, status);
    }
  }

  // The result of a call that waits for nothing.
  lemma ShownForNothing(reg: Registry, core: Core, status: ToolCallStatus)
    requires Key(status) in core.toolCalls && status.status.waitingFor == []
    requires reg.resolves(core.toolCalls[Key(status)].call.name)
    ensures var key := Key(status);
      var shown := ShowResult(reg, core, status);
      && (shown.Ok? <==> reg.translateResult(core.toolCalls[key].call.name, status.callID, status.status, []).Some?)
      && (shown.Ok? ==>
            && shown.value.turnID == core.turnID && shown.value.turnType == core.turnType
            && shown.value.operations == core.operations
            && shown.value.toolCalls
               == if AllTerminal(core.operations, core.toolCalls[key].operations) then core.toolCalls - {key}
                  else core.toolCalls)
  {
    hide AddResult, AllTerminal;
    assert Collect(core.operations, []) == [];
  }

  lemma EndLoads(reg: Registry, bare: Core, live: Live, status: ToolCallStatus)
    requires Covers(bare, live.core) && Recordable(reg, live, status) && AddItem(reg, live.core, StatusData(status)).Ok?
    requires status.status.waitingFor == []
    ensures var data := StatusData(status.(operations := []));
      RestoreItem(reg, bare, data).Ok?
      && Covers(RestoreItem(reg, bare, data).value, AddItem(reg, live.core, StatusData(status)).value)
  {
    hide AddResult, Overlay, IDSet, AllTerminal;
    var key, bareStatus := Key(status), status.(operations := []);
    var notedBare := NoteStatus(bare, bareStatus);
    var noted := NoteStatus(live.core.(operations := Overlay(live.core.operations, status.operations)), status);
    assert Overlay(bare.operations, []) == bare.operations by { NothingOverlaid(bare.operations); }
    assert notedBare.toolCalls[key].call == noted.toolCalls[key].call;
    if reg.resolves(noted.toolCalls[key].call.name) {
      EndShows(reg, notedBare, noted, status);
    }
  }

  lemma EndShows(reg: Registry, bare: Core, core: Core, status: ToolCallStatus)
    requires Key(status) in bare.toolCalls && Key(status) in core.toolCalls && Covers(bare, core)
    requires status.status.waitingFor == [] && reg.resolves(core.toolCalls[Key(status)].call.name)
    requires ShowResult(reg, core, status).Ok?
    ensures var bareStatus := status.(operations := []);
      ShowResult(reg, bare, bareStatus).Ok?
      && Covers(ShowResult(reg, bare, bareStatus).value, ShowResult(reg, core, status).value)
  {
    hide ShowResult;
    var key := Key(status);
    ShownForNothing(reg, core, status);
    ShownForNothing(reg, bare, status.(operations := []));
    if AllTerminal(bare.operations, bare.toolCalls[key].operations) {
      assert bare.toolCalls[key].operations == {};
      assert AllTerminal(core.operations, core.toolCalls[key].operations);
    }
  }

  lemma NothingOverlaid(operations: map<Id, Operation>)
    ensures Overlay(operations, []) == operations
  {
  }

  lemma WaitLoads(reg: Registry, bare: Core, live: Live, status: ToolCallStatus)
    requires Covers(bare, live.core) && Recordable(reg, live, status) && AddItem(reg, live.core, StatusData(status)).Ok?
    requires status.status.waitingFor != []
    ensures var data := StatusData(status.(operations := []));
      RestoreItem(reg, bare, data).Ok?
      && Covers(RestoreItem(reg, bare, data).value, AddItem(reg, live.core, StatusData(status)).value)
  {
    hide ShowResult, Overlay, IDSet;
    var bareStatus := status.(operations := []);
    WaitShowsNothing(reg, bare, bareStatus);
    var noted := NoteStatus(live.core.(operations := Overlay(live.core.operations, status.operations)), status);
    ShowResultCalls(reg, noted, status);
    ShowResultKeepsTurn(reg, noted, status);
  }

  lemma ShowResultKeepsTurn(reg: Registry, core: Core, status: ToolCallStatus)
    requires ShowResult(reg, core, status).Ok?
    ensures var next := ShowResult(reg, core, status).value;
      next.turnID == core.turnID && next.turnType == core.turnType
  {
    hide AddResult, Collect, Collectable, AllTerminal;
  }

  lemma WaitShowsNothing(reg: Registry, bare: Core, status: ToolCallStatus)
    requires bare.operations == map[] && status.operations == [] && status.status.waitingFor != []
    requires Key(status) in bare.toolCalls && reg.resolves(bare.toolCalls[Key(status)].call.name)
    ensures RestoreItem(reg, bare, StatusData(status)) == Ok(NoteStatus(bare, status))
  {
    hide AddResult, IDSet;
    assert status.status.waitingFor[0] !in bare.operations;
  }

  lemma BareReplayLonger(reg: Registry, context: Context, items: seq<SessionItem>, item: SessionItem)
    requires Replay(reg, NewCore(context), AllBare(items)).Ok?
    ensures Replay(reg, NewCore(context), AllBare(items + [item]))
      == RestoreItem(reg, Replay(reg, NewCore(context), AllBare(items)).value, Bare(item).data)
  {
    hide RestoreItem, AllBare;
    BareLonger(items, item);
    ReplayLonger(reg, context, AllBare(items), Bare(item));
  }

  lemma PlainItemForks(reg: Registry, context: Context, live: Live, data: Data, at: Time)
    requires Forkable(reg, context, live)
    requires !data.StatusData? && !data.ForkData? && Persist(reg, live, data, at).Ok?
    ensures Forkable(reg, context, Persist(reg, live, data, at).value)
  {
    hide AddItem, AllBare, Replay, Covers, ValidInput;
    PlainAppend(live.stored, data, at);
    BareReplayLonger(reg, context, live.stored.items, SessionItem(live.stored.head.itemSequence + 1, at, data));
    PlainItemCovers(reg, Replay(reg, NewCore(context), AllBare(live.stored.items)).value, live.core, data);
  }

  lemma StatusForks(reg: Registry, context: Context, live: Live, status: ToolCallStatus, at: Time)
    requires Forkable(reg, context, live) && Recordable(reg, live, status)
    requires Persist(reg, live, StatusData(status), at).Ok?
    ensures Forkable(reg, context, Persist(reg, live, StatusData(status), at).value)
  {
    hide AddItem, AppendToHead, AllBare, Replay, Covers, Recordable, RestoreItem;
    StatusItem(live.stored, status, at);
    var next := Persist(reg, live, StatusData(status), at).value;
    var item := next.stored.items[|live.stored.items|];
    assert next.stored.items == live.stored.items + [item];
    BareReplayLonger(reg, context, live.stored.items, item);
    BareStatusLoads(reg, Replay(reg, NewCore(context), AllBare(live.stored.items)).value, live, status);
  }

  lemma ActionForks(reg: Registry, context: Context, live: Live, action: Action)
    requires Tracked(reg, context, live) && Forkable(reg, context, live) && Apply(reg, context, live, action).Ok?
    ensures Forkable(reg, context, Apply(reg, context, live, action).value)
  {
    hide Tracked, Forkable, Persist, Restore, Recordable, Overlay, ScheduledStatus;
    match action
    case TakeInput(input, at) => PlainItemForks(reg, context, live, InputData(input), at);
    case StartTurn(turnID, at) => PlainItemForks(reg, context, live, TurnData(Turn(turnID, live.core.turnID, Regular)), at);
    case TakeResponse(output, at) =>
      PlainItemForks(reg, context, live, ResponseData(ModelResponse(live.core.turnID, output)), at);
    case Schedule(key, attempt, at) =>
      ScheduleIsRecordable(reg, context, live, key, attempt, at);
      ScheduleTracks(reg, context, live, key, attempt, at);
      StatusForks(reg, context, live, ScheduledStatus(reg, key, live.core.toolCalls[key].call, attempt), at);
    case Reconcile(key, at) =>
      ReconcileIsRecordable(reg, context, live, key);
      StatusForks(reg, context, live, ReconciledStatus(live.core, key), at);
    case TakeUpdate(update) => SameCallsFork(reg, context, live, Apply(reg, context, live, action).value);
    case Restart =>
      RestartTracks(reg, context, live);
      var core := Apply(reg, context, live, Restart).value.core;
      assert core.toolCalls == WithoutOperations(core).toolCalls;
      assert core.turnID == WithoutOperations(core).turnID && core.turnType == WithoutOperations(core).turnType;
      SameCallsFork(reg, context, live, Apply(reg, context, live, action).value);
  }

  lemma SameCallsFork(reg: Registry, context: Context, a: Live, b: Live)
    requires Forkable(reg, context, a) && b.stored.items == a.stored.items && b.core.toolCalls == a.core.toolCalls
    requires b.core.turnID == a.core.turnID && b.core.turnType == a.core.turnType
    ensures Forkable(reg, context, b)
  {
    hide Replay, AllBare;
  }

  lemma {:induction false} RunsStayForkable(reg: Registry, context: Context, start: Live, actions: seq<Action>)
    requires Tracked(reg, context, start) && Forkable(reg, context, start) && Run(reg, context, start, actions).Ok?
    ensures Forkable(reg, context, Run(reg, context, start, actions).value)
    decreases |actions|
  {
    hide Tracked, Forkable, Apply;
    if actions != [] {
      RunsStayForkable(reg, context, start, actions[..|actions| - 1]);
      RunsAreTracked(reg, context, start, actions[..|actions| - 1]);
      ActionForks(reg, context, Run(reg, context, start, actions[..|actions| - 1]).value, actions[|actions| - 1]);
    }
  }

  lemma NewSessionIsForkable(reg: Registry, context: Context, session: SessionInfo)
    ensures Forkable(reg, context, Live(NewCore(context), NewStored(session)))
  {
    assert AllBare([]) == [];
  }

  // ---- Forks ----

  // A replay that succeeds does so for every part of the history.
  lemma {:induction false} EarlierReplays(reg: Registry, start: Core, items: seq<SessionItem>, n: nat)
    requires n <= |items| && Replay(reg, start, items).Ok?
    ensures Replay(reg, start, items[..n]).Ok?
    decreases |items|
  {
    hide RestoreItem;
    if n == |items| {
      assert items[..n] == items;
    } else {
      assert items[..|items| - 1][..n] == items[..n];
      EarlierReplays(reg, start, items[..|items| - 1], n);
    }
  }

  lemma {:induction false} BareHasNoOperations(reg: Registry, context: Context, items: seq<SessionItem>)
    requires NoSnapshots(items) && Replay(reg, NewCore(context), items).Ok?
    ensures Replay(reg, NewCore(context), items).value.operations == map[]
    decreases |items|
  {
    hide AddItem;
    if items != [] {
      BareHasNoOperations(reg, context, items[..|items| - 1]);
      BareItemAddsNone(reg, Replay(reg, NewCore(context), items[..|items| - 1]).value, items[|items| - 1]);
    }
  }

  lemma BareItemAddsNone(reg: Registry, core: Core, item: SessionItem)
    requires core.operations == map[] && Snapshots(item) == [] && AddItem(reg, core, item.data).Ok?
    ensures AddItem(reg, core, item.data).value.operations == map[]
  {
    hide ShowResult, ValidInput, AddControl, AddCalls, NoteStatus;
    if item.data.StatusData? {
      var noted := NoteStatus(core, item.data.status);
      NotedKeepsOperations(core, item.data.status);
      ShowResultCalls(reg, noted, item.data.status);
    } else if !item.data.ForkData? {
      OtherItemsIgnoreOperations(reg, core, core, item.data);
    }
  }

  lemma NotedKeepsOperations(core: Core, status: ToolCallStatus)
    ensures NoteStatus(core, status).operations == core.operations
    ensures status.operations == [] ==> Overlay(core.operations, status.operations) == core.operations
  {
  }

  lemma BareItems(items: seq<SessionItem>, n: nat)
    requires n <= |items|
    ensures |AllBare(items)| == |items| && AllBare(items[..n]) == AllBare(items)[..n]
    ensures NoSnapshots(AllBare(items)) && AllBare(AllBare(items)) == AllBare(items)
  {
  }

  // What a fork's items are.
  lemma ForkItems(parent: Stored, id: Id, previousTurnID: Id, at: Time)
    requires ForkOf(parent, id, previousTurnID, at).Ok?
    ensures var child := ForkOf(parent, id, previousTurnID, at).value;
      && |child.items| > 0 && child.items[|child.items| - 1].data.ForkData?
      && child.items[..|child.items| - 1] == AllBare(Inherited(parent, previousTurnID))
      && OwnsNothing(child.head) && NoSnapshots(child.items)
  {
    hide Boundary, Inherit, InheritAll, NoSnapshots, AllBare;
    var items := Inherited(parent, previousTurnID);
    InheritedItems(NewStored(SessionInfo(id, at)), items);
    var child := ForkOf(parent, id, previousTurnID, at).value;
    var inherited := InheritAll(NewStored(SessionInfo(id, at)), items).items;
    assert child.items[..|inherited|] == inherited;
    BareItems(items, 0);
    assert child.items == inherited + [child.items[|inherited|]];
    NoSnapshotsLonger(inherited, child.items[|inherited|]);
  }

  lemma NoSnapshotsLonger(items: seq<SessionItem>, item: SessionItem)
    requires NoSnapshots(items) && Snapshots(item) == []
    ensures NoSnapshots(items + [item])
  {
  }

  // What a fork inherits, in the parent's words.
  function Inherited(parent: Stored, previousTurnID: Id): seq<SessionItem> {
    var end := Boundary(parent.items, previousTurnID, 0, -1) + 1;
    if 0 <= end <= |parent.items| then parent.items[..end] else []
  }

  // Every fork of such a session, at any of its turns, can be loaded, with no call open and
  // no operation known; and it can be forked in turn.
  lemma ForksLoad(reg: Registry, context: Context, parent: Live, id: Id, previousTurnID: Id, at: Time)
    requires Forkable(reg, context, parent) && ForkOf(parent.stored, id, previousTurnID, at).Ok?
    ensures var child := ForkOf(parent.stored, id, previousTurnID, at).value;
      && Restore(reg, context, child).Ok?
      && var core := Restore(reg, context, child).value;
         && core.toolCalls == map[] && core.operations == map[]
         && Forkable(reg, context, Live(core, child))
  {
    hide Boundary, ForkOf, AllBare, Replay, NoSnapshots, Covers, Restore;
    ForkItems(parent.stored, id, previousTurnID, at);
    var items := Inherited(parent.stored, previousTurnID);
    var child := ForkOf(parent.stored, id, previousTurnID, at).value;
    assert |items| <= |parent.stored.items| && items == parent.stored.items[..|items|];
    BareItems(parent.stored.items, |items|);
    EarlierReplays(reg, NewCore(context), AllBare(parent.stored.items), |items|);
    var item := child.items[|child.items| - 1];
    assert child.items == AllBare(items) + [item];
    ForkedCore(reg, context, child, AllBare(items), item);
  }

  lemma ForkedCore(reg: Registry, context: Context, child: Stored, inherited: seq<SessionItem>, item: SessionItem)
    requires child.items == inherited + [item] && item.data.ForkData? && child.head.operations == []
    requires exists items :: inherited == AllBare(items)
    requires Replay(reg, NewCore(context), inherited).Ok?
    ensures Restore(reg, context, child).Ok?
    ensures var core := Restore(reg, context, child).value;
      core.toolCalls == map[] && core.operations == map[] && Forkable(reg, context, Live(core, child))
  {
    hide Replay, AllBare, AddItem;
    ReplayLonger(reg, context, inherited, item);
    var before := Replay(reg, NewCore(context), inherited).value;
    ForkForgets(reg, before, item.data);
    var items :| inherited == AllBare(items);
    BareItems(items, |items|);
    BareLonger(inherited, item);
    assert AllBare(child.items) == child.items;
  }

  lemma ForkForgets(reg: Registry, core: Core, data: Data)
    requires data.ForkData?
    ensures AddItem(reg, core, data) == Ok(core.(toolCalls := map[], operations := map[]))
  {
  }
}
