// Whole families of sessions: the sessions that coordinators write, their forks, and the
// requests of these.
module ForkRequests {
  import opened Session
  import opened SessionState
  import opened ContextBuilder
  import opened CoordinatorState
  import opened Tracking
  import opened Accounting
  import opened Requests
  import opened RequestShape
  import opened ForkProofs
  import opened ForkLoads
  import opened ForkShape
  import opened Acceptance
  import opened CoordinatorTrace
  import opened ReplayProofs
  import opened Restarts

  // ---- The histories that coordinators write ----

  predicate HasTurn(items: seq<SessionItem>, turnID: Id) {
    exists i :: 0 <= i < |items| && items[i].data.TurnData? && items[i].data.turn.id == turnID
  }

  // A status comes after its turn.
  predicate StatusesFollowTurns(items: seq<SessionItem>) {
    forall i | 0 <= i < |items| && items[i].data.StatusData? :: HasTurn(items[..i], items[i].data.status.turnID)
  }

  // Every status in the history is of a call that the session has recorded, or of a turn
  // that it inherited.
  predicate StatusesAreKnown(items: seq<SessionItem>, head: Head) {
    forall i | 0 <= i < |items| && items[i].data.StatusData? ::
      || Key(items[i].data.status) in head.toolCallStatuses
      || items[i].data.status.turnID in head.turns - head.ownedTurns
  }

  // And every status of an open call is the one that the call has.
  predicate OpenStatusesAgree(items: seq<SessionItem>, toolCalls: map<CallKey, CallState>) {
    forall i | 0 <= i < |items| && items[i].data.StatusData? && Key(items[i].data.status) in toolCalls
               && toolCalls[Key(items[i].data.status)].status.Some? ::
      items[i].data.status.status == toolCalls[Key(items[i].data.status)].status.value
  }

  predicate StatusesKept(live: Live) {
    var items, head := live.stored.items, live.stored.head;
    && SameStatuses(items) && StatusesFollowTurns(items)
    && (forall turnID | turnID in head.turns :: HasTurn(items, turnID))
    && StatusesAreKnown(items, head)
    && OpenStatusesAgree(items, live.core.toolCalls)
  }

  lemma HasTurnLonger(items: seq<SessionItem>, item: SessionItem, turnID: Id)
    ensures HasTurn(items + [item], turnID) <==> HasTurn(items, turnID) || (item.data.TurnData? && item.data.turn.id == turnID)
  {
    var all := items + [item];
    assert all[|items|] == item;
    if i :| 0 <= i < |items| && items[i].data.TurnData? && items[i].data.turn.id == turnID {
      assert all[i] == items[i];
    }
  }

  lemma FollowTurnsLonger(items: seq<SessionItem>, item: SessionItem)
    requires StatusesFollowTurns(items)
    requires item.data.StatusData? ==> HasTurn(items, item.data.status.turnID)
    ensures StatusesFollowTurns(items + [item])
  {
    hide HasTurn;
    var all := items + [item];
    forall i | 0 <= i < |all| && all[i].data.StatusData?
      ensures HasTurn(all[..i], all[i].data.status.turnID)
    {
      assert i <= |items| && all[..i] == items[..i];
      assert i == |items| ==> items[..i] == items;
    }
  }

  // An item that is no status.
  lemma OtherItemKeepsStatuses(live: Live, next: Live, item: SessionItem)
    requires StatusesKept(live) && next.stored.items == live.stored.items + [item] && !item.data.StatusData?
    requires next.stored.head.toolCallStatuses == live.stored.head.toolCallStatuses
    requires if item.data.TurnData? then
        && item.data.turn.id !in live.stored.head.turns
        && next.stored.head.turns == live.stored.head.turns + {item.data.turn.id}
        && next.stored.head.ownedTurns == live.stored.head.ownedTurns + {item.data.turn.id}
      else next.stored.head.turns == live.stored.head.turns && next.stored.head.ownedTurns == live.stored.head.ownedTurns
    requires forall key | key in next.core.toolCalls && next.core.toolCalls[key].status.Some? ::
               key in live.core.toolCalls && live.core.toolCalls[key] == next.core.toolCalls[key]
    ensures StatusesKept(next)
  {
    hide HasTurn, StatusesFollowTurns;
    FollowTurnsLonger(live.stored.items, item);
    forall turnID | turnID in next.stored.head.turns
      ensures HasTurn(next.stored.items, turnID)
    {
      HasTurnLonger(live.stored.items, item, turnID);
    }
    assert forall i | 0 <= i < |live.stored.items| :: next.stored.items[i] == live.stored.items[i];
  }

  // A status of an open call that is its first, or that says what the call's status says.
  lemma StatusKeepsStatuses(live: Live, next: Live, item: SessionItem)
    requires StatusesKept(live) && next.stored.items == live.stored.items + [item] && item.data.StatusData?
    requires var key := Key(item.data.status);
      && key.0 in live.stored.head.ownedTurns && live.stored.head.ownedTurns <= live.stored.head.turns
      && key in live.core.toolCalls
      && (if live.core.toolCalls[key].status.Some? then live.core.toolCalls[key].status.value == item.data.status.status
          else key !in live.stored.head.toolCallStatuses)
      && next.stored.head.toolCallStatuses == live.stored.head.toolCallStatuses + {key}
      && next.stored.head.turns == live.stored.head.turns && next.stored.head.ownedTurns == live.stored.head.ownedTurns
      && OthersUnchanged(live.core.toolCalls, next.core.toolCalls, key)
      && (key in next.core.toolCalls ==> next.core.toolCalls[key].status == Some(item.data.status.status))
    ensures StatusesKept(next)
  {
    hide HasTurn, StatusesFollowTurns;
    FollowTurnsLonger(live.stored.items, item);
    forall turnID | turnID in next.stored.head.turns
      ensures HasTurn(next.stored.items, turnID)
    {
      HasTurnLonger(live.stored.items, item, turnID);
    }
    var items := live.stored.items;
    assert forall i | 0 <= i < |items| :: next.stored.items[i] == items[i];
    assert forall i | 0 <= i < |items| && items[i].data.StatusData? && Key(items[i].data.status) == Key(item.data.status) ::
        items[i].data.status.status == item.data.status.status;
  }

  lemma StatusAppend(stored: Stored, status: ToolCallStatus, at: Time)
    requires Append(stored, StatusData(status.(operations := [])), status.operations, at).Ok?
    ensures var next := Append(stored, StatusData(status.(operations := [])), status.operations, at).value;
      && status.turnID in stored.head.ownedTurns
      && next.items == stored.items + [SessionItem(stored.head.itemSequence + 1, at, StatusData(status))]
      && next.head.turns == stored.head.turns && next.head.ownedTurns == stored.head.ownedTurns
      && next.head.toolCallStatuses == stored.head.toolCallStatuses + {Key(status)}
  {
    hide Initializable, ValidReferences;
  }

  lemma ScheduleKeepsStatuses(reg: Registry, context: Context, live: Live, key: CallKey, attempt: nat, at: Time)
    requires Tracked(reg, context, live) && TurnsAgree(live) && StatusesKept(live)
    requires Apply(reg, context, live, Schedule(key, attempt, at)).Ok?
    ensures StatusesKept(Apply(reg, context, live, Schedule(key, attempt, at)).value)
  {
    hide Tracked, StatusesKept, AddItem, Append, Overlay, ScheduledStatus, Recordable;
    var status := ScheduledStatus(reg, key, live.core.toolCalls[key].call, attempt);
    ScheduledKey(reg, key, live.core.toolCalls[key].call, attempt);
    ScheduleIsRecordable(reg, context, live, key, attempt, at);
    AddFromOverlay(reg, live.core, status);
    StatusTouchesOneCall(reg, live.core, status);
    StatusAppend(live.stored, status, at);
    var next := Apply(reg, context, live, Schedule(key, attempt, at)).value;
    StatusKeepsStatuses(live, next, SessionItem(live.stored.head.itemSequence + 1, at, StatusData(status)));
  }

  lemma ReconcileKeepsStatuses(reg: Registry, context: Context, live: Live, key: CallKey, at: Time)
    requires Tracked(reg, context, live) && TurnsAgree(live) && StatusesKept(live)
    requires Apply(reg, context, live, Reconcile(key, at)).Ok?
    ensures StatusesKept(Apply(reg, context, live, Reconcile(key, at)).value)
  {
    hide Tracked, StatusesKept, AddItem, Append, AllTerminal;
    var status := ReconciledStatus(live.core, key);
    StatusTouchesOneCall(reg, live.core, status);
    StatusAppend(live.stored, status, at);
    var next := Apply(reg, context, live, Reconcile(key, at)).value;
    StatusKeepsStatuses(live, next, SessionItem(live.stored.head.itemSequence + 1, at, StatusData(status)));
  }

  lemma PlainItemKeepsStatuses(reg: Registry, live: Live, data: Data, at: Time)
    requires StatusesKept(live) && !data.StatusData? && !data.ForkData? && Persist(reg, live, data, at).Ok?
    ensures StatusesKept(Persist(reg, live, data, at).value)
  {
    hide StatusesKept, AddCalls, AddControl, ValidInput;
    if data.ResponseData? {
      AddedCalls(live.core.toolCalls, data.response.turnID, data.response.output);
    }
    OtherItemKeepsStatuses(live, Persist(reg, live, data, at).value, SessionItem(live.stored.head.itemSequence + 1, at, data));
  }

  lemma SameStatusesKept(a: Live, b: Live)
    requires StatusesKept(a) && b.stored.items == a.stored.items && b.core.toolCalls == a.core.toolCalls
    requires b.stored.head.toolCallStatuses == a.stored.head.toolCallStatuses
    requires b.stored.head.turns == a.stored.head.turns && b.stored.head.ownedTurns == a.stored.head.ownedTurns
    ensures StatusesKept(b)
  {
    hide HasTurn;
  }

  lemma ActionKeepsStatuses(reg: Registry, context: Context, live: Live, action: Action)
    requires Tracked(reg, context, live) && TurnsAgree(live) && StatusesKept(live)
    requires Apply(reg, context, live, action).Ok?
    ensures StatusesKept(Apply(reg, context, live, action).value)
  {
    hide Tracked, TurnsAgree, StatusesKept, Persist, Restore, ValidOperation;
    match action
    case TakeInput(input, at) => PlainItemKeepsStatuses(reg, live, InputData(input), at);
    case StartTurn(turnID, at) => PlainItemKeepsStatuses(reg, live, TurnData(Turn(turnID, live.core.turnID, Regular)), at);
    case TakeResponse(output, at) =>
      PlainItemKeepsStatuses(reg, live, ResponseData(ModelResponse(live.core.turnID, output)), at);
    case Schedule(key, attempt, at) => ScheduleKeepsStatuses(reg, context, live, key, attempt, at);
    case Reconcile(key, at) => ReconcileKeepsStatuses(reg, context, live, key, at);
    case TakeUpdate(_) => SameStatusesKept(live, Apply(reg, context, live, action).value);
    case Restart =>
      RestartTracks(reg, context, live);
      var core := Apply(reg, context, live, Restart).value.core;
      assert core.toolCalls == WithoutOperations(core).toolCalls;
      SameStatusesKept(live, Apply(reg, context, live, action).value);
  }

  // Over every run the statuses of a call say the same.
  lemma {:induction false} RunsKeepStatuses(reg: Registry, context: Context, start: Live, actions: seq<Action>)
    requires Tracked(reg, context, start) && TurnsAgree(start) && StatusesKept(start)
    requires Run(reg, context, start, actions).Ok?
    ensures StatusesKept(Run(reg, context, start, actions).value)
    ensures SameStatuses(Run(reg, context, start, actions).value.stored.items)
    decreases |actions|
  {
    hide Tracked, TurnsAgree, Apply, StatusesFollowTurns, StatusesAreKnown, OpenStatusesAgree, SameStatuses, HasTurn;
    if actions != [] {
      var before := actions[..|actions| - 1];
      RunsKeepStatuses(reg, context, start, before);
      RunsAreTracked(reg, context, start, before);
      RunsKeepTurns(reg, context, start, before);
      ActionKeepsStatuses(reg, context, Run(reg, context, start, before).value, actions[|actions| - 1]);
    }
  }

  lemma NewSessionKeepsStatuses(context: Context, session: SessionInfo)
    ensures StatusesKept(Live(NewCore(context), NewStored(session)))
    ensures TurnsAgree(Live(NewCore(context), NewStored(session)))
  {
  }

  // A fork is such a session too, and so are its forks.
  lemma ForkKeepsStatuses(reg: Registry, context: Context, parent: Live, id: Id, previousTurnID: Id, at: Time)
    requires StatusesKept(parent) && Forkable(reg, context, parent)
    requires ForkOf(parent.stored, id, previousTurnID, at).Ok?
    ensures var child := ForkOf(parent.stored, id, previousTurnID, at).value;
      Restore(reg, context, child).Ok? && StatusesKept(Live(Restore(reg, context, child).value, child))
  {
    hide Restore, Boundary, SameStatuses, HasTurn, ForkOf, AllBare, StatusesFollowTurns, KnowsTurns, Resume, Forkable,
         NoSnapshots;
    var child := ForkOf(parent.stored, id, previousTurnID, at).value;
    var items := Inherited(parent.stored, previousTurnID);
    ForkItems(parent.stored, id, previousTurnID, at);
    SameStatusesOfFork(parent.stored.items, |items|, child.items);
    ForksLoad(reg, context, parent, id, previousTurnID, at);
    ForkOwnsNothing(parent.stored, id, previousTurnID, at);
    FollowTurnsOfFork(parent.stored.items, |items|, child.items);
    TurnsOfFork(parent.stored, id, previousTurnID, at);
    InheritedStatusesAreKnown(child);
  }

  lemma SameStatusesOfFork(parent: seq<SessionItem>, n: nat, child: seq<SessionItem>)
    requires SameStatuses(parent) && n <= |parent|
    requires child != [] && !child[|child| - 1].data.StatusData? && child[..|child| - 1] == AllBare(parent[..n])
    ensures SameStatuses(child)
  {
    assert forall i | 0 <= i < |child| - 1 :: child[i] == child[..|child| - 1][i] == Bare(parent[i]);
  }

  lemma FollowTurnsOfFork(parent: seq<SessionItem>, n: nat, child: seq<SessionItem>)
    requires StatusesFollowTurns(parent) && n <= |parent|
    requires child != [] && !child[|child| - 1].data.StatusData? && child[..|child| - 1] == AllBare(parent[..n])
    ensures StatusesFollowTurns(child)
  {
    assert forall i | 0 <= i < n :: child[i] == child[..|child| - 1][i] == Bare(parent[i]);
    forall i | 0 <= i < |child| && child[i].data.StatusData?
      ensures HasTurn(child[..i], child[i].data.status.turnID)
    {
      var turnID := child[i].data.status.turnID;
      assert HasTurn(parent[..i], turnID);
      var j :| 0 <= j < i && parent[..i][j].data.TurnData? && parent[..i][j].data.turn.id == turnID;
      assert child[..i][j] == Bare(parent[j]);
    }
  }

  lemma InheritedStatusesAreKnown(child: Stored)
    requires StatusesFollowTurns(child.items) && KnowsTurns(child.head, child.items) && child.head.ownedTurns == {}
    ensures StatusesAreKnown(child.items, child.head)
  {
    forall i | 0 <= i < |child.items| && child.items[i].data.StatusData?
      ensures child.items[i].data.status.turnID in child.head.turns
    {
      assert HasTurn(child.items[..i], child.items[i].data.status.turnID);
      var j :| 0 <= j < i && child.items[..i][j].data.TurnData?
               && child.items[..i][j].data.turn.id == child.items[i].data.status.turnID;
      assert child.items[j].data.TurnData?;
    }
  }

  lemma {:induction false} InheritedTurnsAreThere(session: SessionInfo, items: seq<SessionItem>)
    ensures forall turnID | turnID in InheritAll(NewStored(session), items).head.turns ::
              HasTurn(InheritAll(NewStored(session), items).items, turnID)
    decreases |items|
  {
    hide HasTurn;
    if items != [] {
      var shorter, last := items[..|items| - 1], items[|items| - 1];
      InheritedTurnsAreThere(session, shorter);
      var stored := InheritAll(NewStored(session), shorter);
      forall turnID | turnID in Inherit(stored, last).head.turns
        ensures HasTurn(Inherit(stored, last).items, turnID)
      {
        HasTurnLonger(stored.items, Bare(last), turnID);
      }
    }
  }

  lemma TurnsOfFork(parent: Stored, id: Id, previousTurnID: Id, at: Time)
    requires ForkOf(parent, id, previousTurnID, at).Ok?
    ensures var child := ForkOf(parent, id, previousTurnID, at).value;
      forall turnID | turnID in child.head.turns :: HasTurn(child.items, turnID)
  {
    hide Boundary, InheritAll, HasTurn;
    var items := parent.items[..Boundary(parent.items, previousTurnID, 0, -1) + 1];
    InheritedTurnsAreThere(SessionInfo(id, at), items);
    var inherited := InheritAll(NewStored(SessionInfo(id, at)), items);
    var child := ForkOf(parent, id, previousTurnID, at).value;
    assert child.items == inherited.items + [child.items[|inherited.items|]];
    forall turnID | turnID in child.head.turns
      ensures HasTurn(child.items, turnID)
    {
      HasTurnLonger(inherited.items, child.items[|inherited.items|], turnID);
    }
  }

  // ---- Sessions that coordinators have written ----

  // What holds of a new session, and what runs and forks keep.
  predicate Written(reg: Registry, context: Context, live: Live) {
    Noted(reg, context, live) && TurnsAgree(live) && StatusesKept(live) && Forkable(reg, context, live)
  }

  lemma NewSessionIsWritten(reg: Registry, context: Context, session: SessionInfo)
    ensures Written(reg, context, Live(NewCore(context), NewStored(session)))
  {
    hide Noted, Forkable, TurnsAgree, StatusesKept;
    NewSessionIsNoted(reg, context, session);
    NewSessionIsForkable(reg, context, session);
    NewSessionKeepsStatuses(context, session);
  }

  lemma RunsStayWritten(reg: Registry, context: Context, start: Live, actions: seq<Action>)
    requires Written(reg, context, start) && Run(reg, context, start, actions).Ok?
    ensures Written(reg, context, Run(reg, context, start, actions).value)
  {
    hide Forkable, TurnsAgree, StatusesKept, Run, Tracked, PendingAgrees, EndsAgree;
    RunsAreNoted(reg, context, start, actions);
    RunsStayForkable(reg, context, start, actions);
    RunsKeepTurns(reg, context, start, actions);
    RunsKeepStatuses(reg, context, start, actions);
  }

  // Every fork of such a session, at any of its turns, can be loaded, and is such a session
  // again, with which a restart gives the live state: forks of forks too.
  lemma ForkIsWritten(reg: Registry, context: Context, parent: Live, id: Id, previousTurnID: Id, at: Time)
    requires Written(reg, context, parent) && ForkOf(parent.stored, id, previousTurnID, at).Ok?
    ensures var child := ForkOf(parent.stored, id, previousTurnID, at).value;
      && Restore(reg, context, child).Ok?
      && Replayable(reg, context, Live(Restore(reg, context, child).value, child))
      && Written(reg, context, Live(Restore(reg, context, child).value, child))
  {
    hide Noted, Forkable, TurnsAgree, StatusesKept, Replayable, Restore, ForkOf;
    ForksLoad(reg, context, parent, id, previousTurnID, at);
    ForkIsReplayable(reg, context, parent, id, previousTurnID, at);
    var child := ForkOf(parent.stored, id, previousTurnID, at).value;
    ReplayableIsNoted(reg, context, Live(Restore(reg, context, child).value, child));
    ForkAgreesOnTurn(reg, context, parent, id, previousTurnID, at);
    ForkKeepsStatuses(reg, context, parent, id, previousTurnID, at);
  }

  // ---- The requests of a fork ----

  // The inherited calls that never get a result in the fork.
  function Lost(items: seq<SessionItem>): set<Id> {
    CutOff(items) + CallIDs(StillOpen(items))
  }

  // The log tells the same without the operations.
  lemma {:induction false} BareTellsTheSame(items: seq<SessionItem>)
    ensures CurrentTurn(AllBare(items)) == CurrentTurn(items)
    ensures StillOpen(AllBare(items)) == StillOpen(items) && CutOff(AllBare(items)) == CutOff(items)
    decreases |items|
  {
    if items == [] {
      assert AllBare(items) == items;
    } else {
      BareTellsTheSame(items[..|items| - 1]);
      assert AllBare(items)[..|items| - 1] == AllBare(items[..|items| - 1]);
    }
  }

  // A fork starts with exactly these calls lost, and none open.
  lemma ForkStartsInShape(reg: Registry, context: Context, parent: Live, id: Id, previousTurnID: Id, at: Time)
    requires NewContext(context) && SameStatuses(parent.stored.items) && Forkable(reg, context, parent)
    requires ForkOf(parent.stored, id, previousTurnID, at).Ok?
    requires DisciplinedHistory(reg, context, ForkOf(parent.stored, id, previousTurnID, at).value.items)
    ensures var child := ForkOf(parent.stored, id, previousTurnID, at).value;
      && Restore(reg, context, child).Ok?
      && var core := Restore(reg, context, child).value;
         && Tracked(reg, context, Live(core, child)) && core.toolCalls == map[]
         && Shaped(core, Lost(Inherited(parent.stored, previousTurnID)))
  {
    hide NewContext, DisciplinedHistory, Replay, Resume, Overlay, ForkOf, Boundary, SameStatuses, Shaped, Synced, Tracked,
         NoSnapshots, AllBare, StillOpen, CutOff, Forkable;
    ForkItems(parent.stored, id, previousTurnID, at);
    ForksLoad(reg, context, parent, id, previousTurnID, at);
    ForkIsReplayable(reg, context, parent, id, previousTurnID, at);
    var child := ForkOf(parent.stored, id, previousTurnID, at).value;
    var items := Inherited(parent.stored, previousTurnID);
    assert |items| <= |parent.stored.items| && items == parent.stored.items[..|items|];
    SameStatusesOfFork(parent.stored.items, |items|, child.items);
    ReplayIsBare(reg, context, child.items);
    BareTellsTheSame(items);
    AfterFork(child.items);
    var replayed := Replay(reg, NewCore(context), child.items).value;
    var core := Restore(reg, context, child).value;
    assert core.toolCalls == replayed.toolCalls && core.context == replayed.context;
    assert core.toolCalls == map[] && Unstarted(replayed).toolCalls == map[];
    SameShape(Unstarted(replayed), core, Lost(items));
  }

  lemma AfterFork(items: seq<SessionItem>)
    requires items != [] && items[|items| - 1].data.ForkData?
    ensures StillOpen(items) == {}
    ensures CutOff(items) == CutOff(items[..|items| - 1]) + CallIDs(StillOpen(items[..|items| - 1]))
  {
  }

  // The requests of a fork of a session that coordinators have written, over every run of
  // the fork: all are well formed if no inherited call was without a result when it was
  // forked, here or in a fork before it, and none is otherwise. The parent's log tells
  // which: every inherited call must have a status that waits for nothing.
  lemma ForkedRequestsAreWellFormed(reg: Registry, context: Context, parent: Live, id: Id, previousTurnID: Id, at: Time,
                                    actions: seq<Action>)
    requires NewContext(context) && Written(reg, context, parent)
    requires ForkOf(parent.stored, id, previousTurnID, at).Ok?
    ensures var child := ForkOf(parent.stored, id, previousTurnID, at).value;
      && Restore(reg, context, child).Ok?
      && var start := Live(Restore(reg, context, child).value, child);
         var run := Run(reg, context, start, actions);
         var items := Inherited(parent.stored, previousTurnID);
         run.Ok? && DisciplinedHistory(reg, context, run.value.stored.items) ==>
           && (WellFormed(Build(start.core.context)) <==> CutOff(items) == {} && StillOpen(items) == {})
           && forall i | 0 <= i < |Sent(reg, context, start, actions)| ::
                WellFormed(Sent(reg, context, start, actions)[i].input) <==> CutOff(items) == {} && StillOpen(items) == {}
  {
    hide NewContext, DisciplinedHistory, Restore, ForkOf, Boundary, SameStatuses, Shaped, Tracked, Run, Sent, WellFormed,
         StillOpen, CutOff, CallIDs, AllScheduled, Noted, TurnsAgree, Forkable, StatusesFollowTurns, StatusesAreKnown,
         OpenStatusesAgree, HasTurn;
    ForksLoad(reg, context, parent, id, previousTurnID, at);
    var child := ForkOf(parent.stored, id, previousTurnID, at).value;
    var start := Live(Restore(reg, context, child).value, child);
    var run := Run(reg, context, start, actions);
    if run.Ok? && DisciplinedHistory(reg, context, run.value.stored.items) {
      RunExtends(reg, context, start, actions);
      var all := run.value.stored.items;
      DisciplinedBefore(reg, context, all, |child.items|);
      assert all[..|child.items|] == child.items;
      ForkStartsInShape(reg, context, parent, id, previousTurnID, at);
      var items := Inherited(parent.stored, previousTurnID);
      NoIDsNoCalls(StillOpen(items));
      RunsKeepShape(reg, context, start, actions, Lost(items));
      NothingOpenIsScheduled(start.core);
      RequestIsWellFormed(start.core, Lost(items));
    }
  }

  lemma NoIDsNoCalls(keys: set<CallKey>)
    ensures CallIDs(keys) == {} <==> keys == {}
  {
    if key :| key in keys {
      assert key.1 in CallIDs(keys);
    }
  }

  lemma NothingOpenIsScheduled(core: Core)
    requires core.toolCalls == map[]
    ensures AllScheduled(core)
  {
  }
}
