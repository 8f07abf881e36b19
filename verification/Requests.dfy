// The requests of a session: they only grow, and each response lands where it was
// asked for.
module Requests {
  import opened Session
  import opened SessionState
  import opened ContextBuilder
  import opened CoordinatorState
  import opened Tracking
  import opened Accounting

  // What the model is sent for a turn.
  datatype Request = Request(turnID: Id, effort: string, input: seq<Item>)

  function RequestFor(turnID: Id, context: Context): Request {
    Request(turnID, context.effort, Build(context))
  }

  // The requests that a history tells of: at each turn, what had been built by then.
  function RequestsOf(reg: Registry, context: Context, items: seq<SessionItem>): seq<Request> {
    if items == [] then []
    else
      var last := items[|items| - 1].data;
      var before := Replay(reg, NewCore(context), items[..|items| - 1]);
      RequestsOf(reg, context, items[..|items| - 1])
      + (if last.TurnData? && before.Ok? then [RequestFor(last.turn.id, before.value.context)] else [])
  }

  // ---- Requests only grow ----

  lemma StatusKeepsCommitted(reg: Registry, core: Core, status: ToolCallStatus)
    requires AddItem(reg, core, StatusData(status)).Ok?
    ensures var next := AddItem(reg, core, StatusData(status)).value;
      && next.context.committed == core.context.committed
      && next.turnID == core.turnID && next.turnType == core.turnType
  {
    hide Overlay, WithoutPlaceholders, Collect, Collectable, AllTerminal, IDSet;
  }

  lemma ItemKeepsCommitted(reg: Registry, core: Core, data: Data)
    requires AddItem(reg, core, data).Ok?
    ensures core.context.committed <= AddItem(reg, core, data).value.context.committed
    ensures data.TurnData? ==> AddItem(reg, core, data).value.context.committed == Build(core.context)
  {
    hide AddCalls, ValidInput, ShowResult, NoteStatus;
    if data.StatusData? {
      StatusKeepsCommitted(reg, core, data.status);
    }
  }

  // Each request is a prefix of every later one, and all of them of what is committed.
  predicate Growing(requests: seq<Request>, committed: seq<Item>) {
    && (forall i, j | 0 <= i <= j < |requests| :: requests[i].input <= requests[j].input)
    && (forall i | 0 <= i < |requests| :: requests[i].input <= committed)
  }

  lemma GrowingLonger(requests: seq<Request>, committed: seq<Item>, longer: seq<Item>, turnID: Id, effort: string)
    requires Growing(requests, committed) && committed <= longer
    ensures Growing(requests, longer) && Growing(requests + [Request(turnID, effort, longer)], longer)
  {
    forall i | 0 <= i < |requests|
      ensures requests[i].input <= longer
    {
      assert requests[i].input <= committed;
    }
  }

  lemma {:induction false} RequestsOnlyGrow(reg: Registry, context: Context, items: seq<SessionItem>)
    requires Replay(reg, NewCore(context), items).Ok?
    ensures Growing(RequestsOf(reg, context, items), Replay(reg, NewCore(context), items).value.context.committed)
    decreases |items|
  {
    hide AddItem, Growing;
    if items == [] {
      assert Growing([], context.committed) by { NothingGrows(context.committed); }
    } else {
      var k := |items| - 1;
      var requests := RequestsOf(reg, context, items[..k]);
      var before := Replay(reg, NewCore(context), items[..k]).value;
      RequestsOnlyGrow(reg, context, items[..k]);
      ItemKeepsCommitted(reg, before, items[k].data);
      GrowingLonger(requests, before.context.committed, Replay(reg, NewCore(context), items).value.context.committed,
                    if items[k].data.TurnData? then items[k].data.turn.id else "", before.context.effort);
      assert requests + [] == requests;
    }
  }

  lemma NothingGrows(committed: seq<Item>)
    ensures Growing([], committed)
  {
  }

  // ---- What is sent is what the history tells ----

  function SentBy(live: Live, action: Action): seq<Request> {
    if action.StartTurn? then [RequestFor(action.turnID, live.core.context)] else []
  }

  // The requests that a run sends.
  function Sent(reg: Registry, context: Context, start: Live, actions: seq<Action>): seq<Request> {
    if actions == [] then []
    else
      var before := Run(reg, context, start, actions[..|actions| - 1]);
      Sent(reg, context, start, actions[..|actions| - 1])
      + (if before.Ok? then SentBy(before.value, actions[|actions| - 1]) else [])
  }

  // The one item that a step adds, if any.
  lemma ItemOfAction(reg: Registry, context: Context, live: Live, action: Action)
    requires Apply(reg, context, live, action).Ok?
    ensures var items := Apply(reg, context, live, action).value.stored.items;
      items == live.stored.items || (|items| == |live.stored.items| + 1 && items[..|live.stored.items|] == live.stored.items)
    ensures var items := Apply(reg, context, live, action).value.stored.items;
      if action.StartTurn? then
        |items| == |live.stored.items| + 1 && items[|live.stored.items|].data.TurnData?
        && items[|live.stored.items|].data.turn.id == action.turnID
      else |items| > |live.stored.items| ==> !items[|live.stored.items|].data.TurnData?
    ensures var items := Apply(reg, context, live, action).value.stored.items;
      if action.TakeResponse? then
        |items| == |live.stored.items| + 1
        && items[|live.stored.items|].data == ResponseData(ModelResponse(live.core.turnID, action.output))
      else |items| > |live.stored.items| ==> !items[|live.stored.items|].data.ResponseData?
  {
    hide AddItem, Restore, SaveOperation, CanReconcile, AllScheduled, Initializable, ValidReferences, ValidInput, AddOperations;
  }

  lemma RequestOfAction(reg: Registry, context: Context, live: Live, action: Action)
    requires Tracked(reg, context, live) && Apply(reg, context, live, action).Ok?
    ensures RequestsOf(reg, context, Apply(reg, context, live, action).value.stored.items)
      == RequestsOf(reg, context, live.stored.items) + SentBy(live, action)
  {
    hide Apply, Replay, CallsCoherent, Named;
    ItemOfAction(reg, context, live, action);
  }

  // Whatever a run sends, restarts and all, is in the history of its session: what was
  // sent for a turn can be told from the items before it.
  lemma {:induction false} SentIsRecorded(reg: Registry, context: Context, start: Live, actions: seq<Action>)
    requires Tracked(reg, context, start)
    requires Run(reg, context, start, actions).Ok?
    ensures RequestsOf(reg, context, Run(reg, context, start, actions).value.stored.items)
      == RequestsOf(reg, context, start.stored.items) + Sent(reg, context, start, actions)
    decreases |actions|
  {
    hide Tracked, Apply, RequestsOf, Build;
    if actions != [] {
      var shorter, last := actions[..|actions| - 1], actions[|actions| - 1];
      SentIsRecorded(reg, context, start, shorter);
      RunsAreTracked(reg, context, start, shorter);
      RequestOfAction(reg, context, Run(reg, context, start, shorter).value, last);
    }
  }

  // Over every run, restarts and all, requests only grow.
  lemma RunsOnlyGrowRequests(reg: Registry, context: Context, start: Live, actions: seq<Action>)
    requires Tracked(reg, context, start)
    requires Run(reg, context, start, actions).Ok?
    ensures Growing(RequestsOf(reg, context, start.stored.items) + Sent(reg, context, start, actions),
                    Run(reg, context, start, actions).value.core.context.committed)
  {
    hide Run, RequestsOf, Sent, Replay, Growing, CallsCoherent, Named;
    SentIsRecorded(reg, context, start, actions);
    RunsAreTracked(reg, context, start, actions);
    RequestsOnlyGrow(reg, context, Run(reg, context, start, actions).value.stored.items);
  }

  // ---- Responses land where they were asked for ----

  // A turn that can be answered is the last request, and nothing has been committed
  // since.
  predicate AwaitsResponse(reg: Registry, context: Context, live: Live) {
    live.core.turnID in live.stored.head.ownedTurns && live.core.turnID !in live.stored.head.respondedTurns ==>
      && live.core.turnType == Regular
      && var requests := RequestsOf(reg, context, live.stored.items);
         && requests != [] && requests[|requests| - 1].turnID == live.core.turnID
         && requests[|requests| - 1].input == live.core.context.committed
  }

  // The head and the committed input after a step.
  lemma TurnsOfAction(reg: Registry, context: Context, live: Live, action: Action)
    requires Tracked(reg, context, live) && Apply(reg, context, live, action).Ok?
    ensures var next := Apply(reg, context, live, action).value;
      && (action.StartTurn? ==>
            && next.core.turnID == action.turnID && next.core.turnType == Regular
            && next.core.context.committed == Build(live.core.context))
      && (action.TakeResponse? ==>
            next.core.turnID == live.core.turnID && next.core.turnID in next.stored.head.respondedTurns)
      && (!action.StartTurn? && !action.TakeResponse? ==>
            && next.core.turnID == live.core.turnID && next.core.turnType == live.core.turnType
            && next.core.context.committed == live.core.context.committed
            && next.stored.head.ownedTurns == live.stored.head.ownedTurns
            && next.stored.head.respondedTurns == live.stored.head.respondedTurns)
  {
    hide Tracked, Overlay, Restore, NoteStatus, ShowResult, Initializable, ValidReferences, ValidInput, AddCalls,
         AllScheduled, ValidOperation, AddOperations, ScheduledStatus;
    match action
    case Restart => RestartTracks(reg, context, live);
    case Schedule(key, attempt, at) =>
      var status := ScheduledStatus(reg, key, live.core.toolCalls[key].call, attempt);
      StatusKeepsCommitted(reg, live.core.(operations := Overlay(live.core.operations, status.operations)), status);
    case Reconcile(key, at) => StatusKeepsCommitted(reg, live.core, ReconciledStatus(live.core, key));
    case _ =>
  }

  lemma {:induction false} RunsAwaitResponses(reg: Registry, context: Context, start: Live, actions: seq<Action>)
    requires Tracked(reg, context, start) && AwaitsResponse(reg, context, start)
    requires Run(reg, context, start, actions).Ok?
    ensures AwaitsResponse(reg, context, Run(reg, context, start, actions).value)
    decreases |actions|
  {
    hide Tracked, Apply, RequestsOf, Build;
    if actions != [] {
      var shorter, last := actions[..|actions| - 1], actions[|actions| - 1];
      RunsAwaitResponses(reg, context, start, shorter);
      RunsAreTracked(reg, context, start, shorter);
      var before := Run(reg, context, start, shorter).value;
      RequestOfAction(reg, context, before, last);
      TurnsOfAction(reg, context, before, last);
    }
  }

  // From a session that owns no turn yet (a new one, or a fork), over every run: a
  // response that is taken goes directly after the input sent for its turn, and what
  // came in since stays behind it.
  lemma ResponseFollowsItsRequest(reg: Registry, context: Context, start: Live, actions: seq<Action>,
                                  output: seq<Item>, at: Time)
    requires Tracked(reg, context, start) && start.stored.head.ownedTurns == {}
    requires Run(reg, context, start, actions).Ok?
    requires Apply(reg, context, Run(reg, context, start, actions).value, TakeResponse(output, at)).Ok?
    ensures var before := Run(reg, context, start, actions).value;
      var after := Apply(reg, context, before, TakeResponse(output, at)).value;
      var sent := RequestsOf(reg, context, before.stored.items);
      && sent != [] && sent[|sent| - 1].turnID == before.core.turnID
      && after.core.context.committed == sent[|sent| - 1].input + output
      && after.core.context.staged == before.core.context.staged
  {
    hide Tracked, Run, RequestsOf, AddCalls;
    RunsAwaitResponses(reg, context, start, actions);
  }
}
