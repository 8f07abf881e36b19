// The requests of forks: which inherited calls never get a result.
module ForkShape {
  import opened Session
  import opened SessionState
  import opened ContextBuilder
  import opened CoordinatorState
  import opened Tracking
  import opened Accounting
  import opened Requests
  import opened RequestShape
  import opened ForkProofs

  // ---- What a log tells ----

  // The turn that a history is in.
  function CurrentTurn(items: seq<SessionItem>): Option<Turn> {
    if items == [] then None
    else if items[|items| - 1].data.TurnData? then Some(items[|items| - 1].data.turn)
    else CurrentTurn(items[..|items| - 1])
  }

  // The coordinator drops the response to a compaction turn.
  predicate IsDropped(items: seq<SessionItem>, response: ModelResponse) {
    match CurrentTurn(items)
    case None => false
    case Some(turn) => turn.turnType == Compaction && turn.id == response.turnID
  }

  function CallKeys(turnID: Id, output: seq<Item>): set<CallKey> {
    set i | 0 <= i < |output| && output[i].ToolCall? :: (turnID, output[i].call.callID)
  }

  // The calls of a history without operations that have no result: a status that waits
  // for operations shows nothing, because these were not inherited; one that waits for
  // nothing, which is one with an error, ends its call.
  function StillOpen(items: seq<SessionItem>): set<CallKey> {
    if items == [] then {}
    else
      var earlier := items[..|items| - 1];
      match items[|items| - 1].data
      case ForkData(_, _) => {}
      case ResponseData(response) =>
        if IsDropped(earlier, response) then StillOpen(earlier)
        else StillOpen(earlier) + CallKeys(response.turnID, response.output)
      case StatusData(status) =>
        if status.status.waitingFor == [] then StillOpen(earlier) - {Key(status)} else StillOpen(earlier)
      case _ => StillOpen(earlier)
  }

  function CallIDs(keys: set<CallKey>): set<Id> {
    set key | key in keys :: key.1
  }

  // The calls that were without a result when a fork forgot them.
  function CutOff(items: seq<SessionItem>): set<Id> {
    if items == [] then {}
    else
      var earlier := items[..|items| - 1];
      CutOff(earlier) + (if items[|items| - 1].data.ForkData? then CallIDs(StillOpen(earlier)) else {})
  }

  // All statuses of a call say the same.
  predicate SameStatuses(items: seq<SessionItem>) {
    forall i, j | 0 <= i < j < |items| && items[i].data.StatusData? && items[j].data.StatusData?
                  && Key(items[i].data.status) == Key(items[j].data.status) ::
      items[i].data.status.status == items[j].data.status.status
  }

  // ---- Replaying inherited items ----

  // The state as if no open call had a status.
  function Unstarted(core: Core): Core {
    core.(toolCalls := map key | key in core.toolCalls :: core.toolCalls[key].(status := None, operations := {}))
  }

  // A call has no status, or one that waits and that the history holds.
  predicate WaitsAsRecorded(items: seq<SessionItem>, key: CallKey, call: CallState) {
    match call.status
    case None => call.operations == {}
    case Some(status) =>
      && status.waitingFor != []
      && exists i :: 0 <= i < |items| && items[i].data.StatusData? && Key(items[i].data.status) == key
           && items[i].data.status.status == status
  }

  predicate InTurn(items: seq<SessionItem>, core: Core) {
    match CurrentTurn(items)
    case None => core.turnType == Regular
    case Some(turn) => core.turnID == turn.id && core.turnType == turn.turnType
  }

  ghost predicate BareReplay(items: seq<SessionItem>, core: Core) {
    && core.operations == map[]
    && core.toolCalls.Keys == StillOpen(items)
    && (forall key | key in core.toolCalls :: WaitsAsRecorded(items, key, core.toolCalls[key]))
    && InTurn(items, core)
    && Shaped(Unstarted(core), CutOff(items))
  }

  lemma LongerHistory(items: seq<SessionItem>, item: SessionItem, key: CallKey, call: CallState)
    requires WaitsAsRecorded(items, key, call)
    ensures WaitsAsRecorded(items + [item], key, call)
  {
    if call.status.Some? {
      var i :| 0 <= i < |items| && items[i].data.StatusData? && Key(items[i].data.status) == key
               && items[i].data.status.status == call.status.value;
      assert (items + [item])[i] == items[i];
    }
  }

  lemma {:induction false} UnstartedCalls(toolCalls: map<CallKey, CallState>, turnID: Id, output: seq<Item>)
    ensures var all := AddCalls(toolCalls, turnID, output);
      && all.Keys == toolCalls.Keys + CallKeys(turnID, output)
      && (forall key | key in all :: (key in toolCalls && all[key] == toolCalls[key])
            || (all[key].status.None? && all[key].operations == {}))
      && AddCalls(map key | key in toolCalls :: toolCalls[key].(status := None, operations := {}), turnID, output)
         == map key | key in all :: all[key].(status := None, operations := {})
    decreases |output|
  {
    if output != [] {
      var shorter, last := output[..|output| - 1], output[|output| - 1];
      UnstartedCalls(toolCalls, turnID, shorter);
      assert output == shorter + [last];
      OneMoreCall(turnID, shorter, last);
    }
  }

  lemma OneMoreCall(turnID: Id, output: seq<Item>, last: Item)
    ensures CallKeys(turnID, output + [last])
      == CallKeys(turnID, output) + (if last.ToolCall? then {(turnID, last.call.callID)} else {})
  {
    var all := output + [last];
    assert all[|output|] == last;
    forall key | key in CallKeys(turnID, output)
      ensures key in CallKeys(turnID, all)
    {
      var i :| 0 <= i < |output| && output[i].ToolCall? && (turnID, output[i].call.callID) == key;
      assert all[i] == output[i];
    }
  }

  lemma HistoryStep(items: seq<SessionItem>, item: SessionItem)
    ensures (items + [item])[..|items|] == items
  {
  }

  lemma UnstartedKeepsAccount(core: Core)
    requires OpenCallsOK(core)
    ensures OpenCallsOK(Unstarted(core))
  {
    hide HasCall, HasFinal;
  }

  lemma PlainItemCommutes(reg: Registry, core: Core, data: Data)
    requires !data.StatusData? && !data.ForkData? && AddItem(reg, core, data).Ok?
    ensures AddItem(reg, Unstarted(core), data) == Ok(Unstarted(AddItem(reg, core, data).value))
  {
    hide AddCalls, AddControl, ValidInput;
    if data.ResponseData? {
      UnstartedCalls(core.toolCalls, data.response.turnID, data.response.output);
    }
  }

  lemma PlainItemOpensCalls(reg: Registry, items: seq<SessionItem>, core: Core, item: SessionItem)
    requires core.toolCalls.Keys == StillOpen(items) && InTurn(items, core)
    requires !item.data.StatusData? && !item.data.ForkData? && AddItem(reg, core, item.data).Ok?
    ensures var next := AddItem(reg, core, item.data).value;
      && next.toolCalls.Keys == StillOpen(items + [item]) && InTurn(items + [item], next)
      && CutOff(items + [item]) == CutOff(items)
      && next.operations == core.operations
      && (forall key | key in next.toolCalls :: (key in core.toolCalls && next.toolCalls[key] == core.toolCalls[key])
            || (next.toolCalls[key].status.None? && next.toolCalls[key].operations == {}))
  {
    hide AddCalls, AddControl, ValidInput, CallKeys;
    HistoryStep(items, item);
    if item.data.ResponseData? {
      UnstartedCalls(core.toolCalls, item.data.response.turnID, item.data.response.output);
    }
  }

  lemma BarePlainItem(reg: Registry, items: seq<SessionItem>, core: Core, item: SessionItem)
    requires BareReplay(items, core) && OpenCallsOK(core) && DisciplinedData(core, item.data)
    requires !item.data.StatusData? && !item.data.ForkData? && AddItem(reg, core, item.data).Ok?
    ensures BareReplay(items + [item], AddItem(reg, core, item.data).value)
  {
    hide AddItem, Shaped, OpenCallsOK, Unstarted, Disciplined, WaitsAsRecorded, StillOpen, CutOff, InTurn;
    var next := AddItem(reg, core, item.data).value;
    PlainItemOpensCalls(reg, items, core, item);
    UnstartedKeepsAccount(core);
    PlainItemCommutes(reg, core, item.data);
    SameDisciplineUnstarted(core, item.data);
    PlainItemKeepsShape(reg, Unstarted(core), item.data, CutOff(items));
    forall key | key in next.toolCalls
      ensures WaitsAsRecorded(items + [item], key, next.toolCalls[key])
    {
      if key in core.toolCalls && next.toolCalls[key] == core.toolCalls[key] {
        LongerHistory(items, item, key, core.toolCalls[key]);
      } else {
        NewCallWaitsForNothing(items + [item], key, next.toolCalls[key]);
      }
    }
  }

  lemma NewCallWaitsForNothing(items: seq<SessionItem>, key: CallKey, call: CallState)
    requires call.status.None? && call.operations == {}
    ensures WaitsAsRecorded(items, key, call)
  {
  }

  lemma SameDisciplineUnstarted(core: Core, data: Data)
    requires DisciplinedData(core, data)
    ensures DisciplinedData(Unstarted(core), data)
  {
  }

  // A fork forgets the open calls, which are lost for good.
  lemma BareFork(reg: Registry, items: seq<SessionItem>, core: Core, item: SessionItem)
    requires BareReplay(items, core) && OpenCallsOK(core) && item.data.ForkData?
    ensures AddItem(reg, core, item.data).Ok? && BareReplay(items + [item], AddItem(reg, core, item.data).value)
  {
    hide HasCall, HasFinal, Results, WaitsAsRecorded;
    HistoryStep(items, item);
    var next := AddItem(reg, core, item.data).value;
    assert Unstarted(next).toolCalls == map[];
    var lost := CutOff(items + [item]);
    forall callID
      ensures CallShape(Unstarted(next), callID, lost)
    {
      assert CallShape(Unstarted(core), callID, CutOff(items));
      assert IsOpen(Unstarted(core), callID) <==> callID in CallIDs(StillOpen(items)) by {
        OpenIDs(core, items, callID);
      }
      if IsOpen(Unstarted(core), callID) {
        var key :| key in Unstarted(core).toolCalls && key.1 == callID;
        assert key in core.toolCalls;
      }
    }
  }

  lemma OpenIDs(core: Core, items: seq<SessionItem>, callID: Id)
    requires core.toolCalls.Keys == StillOpen(items)
    ensures IsOpen(Unstarted(core), callID) <==> callID in CallIDs(StillOpen(items))
  {
    hide StillOpen;
    if IsOpen(Unstarted(core), callID) {
      var key :| key in Unstarted(core).toolCalls && key.1 == callID;
      assert key in core.toolCalls;
    }
    if callID in CallIDs(StillOpen(items)) {
      var key :| key in StillOpen(items) && key.1 == callID;
      assert key in core.toolCalls && key in Unstarted(core).toolCalls;
    }
  }

  // A status without operations ends its call when it waits for nothing, and shows
  // nothing otherwise.
  lemma BareStatusIsShown(reg: Registry, core: Core, status: ToolCallStatus)
    requires core.operations == map[] && status.operations == []
    requires RestoreItem(reg, core, StatusData(status)).Ok?
    requires Key(status) in core.toolCalls && status.status.waitingFor == []
    requires core.toolCalls[Key(status)].operations == {}
    ensures exists output, call :: RestoreItem(reg, core, StatusData(status)).value == Shown(core, Key(status), call, output, false)
  {
    hide AddResult;
    var next := RestoreItem(reg, core, StatusData(status)).value;
    var noted := NoteStatus(core, status);
    var call := noted.toolCalls[Key(status)];
    assert call.operations == {} by { NoIDsWaitedFor(); }
    assert noted.toolCalls - {Key(status)} == core.toolCalls - {Key(status)};
    if !reg.resolves(call.call.name) {
      assert next == Shown(core, Key(status), call, [ResultOutput(Text, status.status.error)], false);
    } else {
      var output := reg.translateResult(call.call.name, status.callID, status.status, Collect(noted.operations, [])).value;
      assert next == Shown(core, Key(status), call, output, false);
    }
  }

  lemma NoIDsWaitedFor()
    ensures IDSet([]) == {}
  {
  }

  lemma BareStatusShowsNothing(reg: Registry, core: Core, status: ToolCallStatus)
    requires core.operations == map[] && status.operations == []
    requires RestoreItem(reg, core, StatusData(status)).Ok?
    requires Key(status) in core.toolCalls ==> status.status.waitingFor != []
    ensures RestoreItem(reg, core, StatusData(status)).value == NoteStatus(core, status)
  {
    hide AddResult, IDSet;
    if Key(status) in core.toolCalls {
      assert status.status.waitingFor[0] !in core.operations;
    }
  }

  lemma BareStatus(reg: Registry, items: seq<SessionItem>, core: Core, item: SessionItem)
    requires BareReplay(items, core) && OpenCallsOK(core) && SameStatuses(items + [item])
    requires item.data.StatusData? && Snapshots(item) == [] && RestoreItem(reg, core, item.data).Ok?
    ensures BareReplay(items + [item], RestoreItem(reg, core, item.data).value)
  {
    var status := item.data.status;
    if Key(status) in core.toolCalls && status.status.waitingFor == [] {
      BareStatusEnds(reg, items, core, item);
    } else {
      BareStatusStays(reg, items, core, item);
    }
  }

  lemma BareStatusEnds(reg: Registry, items: seq<SessionItem>, core: Core, item: SessionItem)
    requires BareReplay(items, core) && OpenCallsOK(core) && SameStatuses(items + [item])
    requires item.data.StatusData? && Snapshots(item) == [] && RestoreItem(reg, core, item.data).Ok?
    requires Key(item.data.status) in core.toolCalls && item.data.status.status.waitingFor == []
    ensures BareReplay(items + [item], RestoreItem(reg, core, item.data).value)
  {
    hide Shaped, OpenCallsOK, RestoreItem, WithoutPlaceholders;
    var status, key := item.data.status, Key(item.data.status);
    HistoryStep(items, item);
    EndedCallHadNoStatus(items, core, item);
    BareStatusIsShown(reg, core, status);
    var next := RestoreItem(reg, core, item.data).value;
    var output, call :| next == Shown(core, key, call, output, false);
    UnstartedKeepsAccount(core);
    ResultKeepsShape(Unstarted(core), key, call, output, false, CutOff(items));
    assert Unstarted(next) == Shown(Unstarted(core), key, call, output, false);
    forall other | other in next.toolCalls
      ensures WaitsAsRecorded(items + [item], other, next.toolCalls[other])
    {
      LongerHistory(items, item, other, core.toolCalls[other]);
    }
  }

  // As all its statuses say the same, a call that now ends was not waiting.
  lemma EndedCallHadNoStatus(items: seq<SessionItem>, core: Core, item: SessionItem)
    requires item.data.StatusData? && SameStatuses(items + [item])
    requires Key(item.data.status) in core.toolCalls && item.data.status.status.waitingFor == []
    requires WaitsAsRecorded(items, Key(item.data.status), core.toolCalls[Key(item.data.status)])
    ensures core.toolCalls[Key(item.data.status)].operations == {}
  {
    var all := items + [item];
    assert all[|items|] == item && forall i | 0 <= i < |items| :: all[i] == items[i];
  }

  lemma BareStatusStays(reg: Registry, items: seq<SessionItem>, core: Core, item: SessionItem)
    requires BareReplay(items, core)
    requires item.data.StatusData? && Snapshots(item) == [] && RestoreItem(reg, core, item.data).Ok?
    requires Key(item.data.status) in core.toolCalls ==> item.data.status.status.waitingFor != []
    ensures BareReplay(items + [item], RestoreItem(reg, core, item.data).value)
  {
    hide Shaped, RestoreItem;
    var status, key := item.data.status, Key(item.data.status);
    HistoryStep(items, item);
    BareStatusShowsNothing(reg, core, status);
    var next := RestoreItem(reg, core, item.data).value;
    assert Unstarted(next) == Unstarted(core);
    assert StillOpen(items + [item]) == StillOpen(items) && CutOff(items + [item]) == CutOff(items);
    forall other | other in next.toolCalls
      ensures WaitsAsRecorded(items + [item], other, next.toolCalls[other])
    {
      if other == key {
        assert (items + [item])[|items|].data.status.status == status.status;
        assert next.toolCalls[other].status == Some(status.status);
      } else {
        LongerHistory(items, item, other, core.toolCalls[other]);
      }
    }
  }

  // Replaying inherited items: what is open and what is cut off is as the log tells.
  lemma {:induction false} ReplayIsBare(reg: Registry, context: Context, items: seq<SessionItem>)
    requires NewContext(context) && DisciplinedHistory(reg, context, items)
    requires NoSnapshots(items) && SameStatuses(items) && Replay(reg, NewCore(context), items).Ok?
    ensures BareReplay(items, Replay(reg, NewCore(context), items).value)
    decreases |items|
  {
    hide NewContext, DisciplinedHistory, BareReplay, OpenCallsOK, AddItem, DisciplinedData;
    if items == [] {
      NewCoreIsBare(context);
    } else {
      var k := |items| - 1;
      var earlier, item := items[..k], items[k];
      assert items == earlier + [item];
      DisciplinedBefore(reg, context, items, k);
      ReplayIsBare(reg, context, earlier);
      HistoryKeepsAccount(reg, context, earlier, k);
      var before := Replay(reg, NewCore(context), earlier).value;
      CallsOfAccount(before);
      if item.data.StatusData? {
        BareStatus(reg, earlier, before, item);
      } else if item.data.ForkData? {
        BareFork(reg, earlier, before, item);
      } else {
        BarePlainItem(reg, earlier, before, item);
      }
    }
  }

  lemma NewCoreIsBare(context: Context)
    requires NewContext(context)
    ensures BareReplay([], NewCore(context))
  {
    hide Shaped;
    NewCoreIsShaped(context);
    assert Unstarted(NewCore(context)) == NewCore(context);
  }
}
