// The local operation manager: harness/operation/local_manager.go.
module Manager {
  import opened Session
  import opened SessionState
  import P = Primitives

  // A primitive to start: one that can be started sends a number of events and then a
  // single completing one.
  datatype Dispatch = Startable(events: nat) | Unstartable

  datatype Step = Step(operation: Option<Operation>, dispatches: seq<Dispatch>)

  // What the handler of an operation answers to an event.
  datatype Reply = Replied(step: Step) | Refused

  // localRunningOperation: a remote job has the number of its handler.
  datatype RunningOperation = RunningOperation(operation: Operation, handler: Option<nat>, canceled: bool)

  // A started primitive, with the number of events to come before the completing one.
  datatype Primitive = Primitive(source: Id, left: nat)

  // What the manager's select statement receives. The answers of handlers come with it,
  // in the order in which they are asked for.
  datatype ManagerEvent =
    | Deliver
    | AddLocal(operation: Operation, valid: bool, replies: seq<Reply>)
    | AddRemote(operation: Operation, matched: Option<nat>)
    | CancelRequest(id: Id)
    | RemoteUpdate(handler: nat, operation: Operation, samePlan: bool)
    | RemoteClosed(handler: nat)
    | PrimitiveSent(source: Id, primitive: nat, kind: P.EventType, replies: seq<Reply>)

  // localPrimitiveCompleted
  predicate Completes(kind: P.EventType) {
    kind in {P.IOCreateCompleted, P.IOReadCompleted, P.ProcessExited, P.Failed, P.Canceled, P.ComputeCompleted}
  }

  predicate Lawful(event: ManagerEvent) {
    match event
    case AddLocal(operation, _, replies) => AllKeepID(replies, operation.id)
    case PrimitiveSent(source, _, _, replies) => AllKeepID(replies, source)
    case _ => true
  }

  // Handlers keep the ID of their operation.
  predicate KeepsID(reply: Reply, id: Id) {
    reply.Replied? && reply.step.operation.Some? ==> reply.step.operation.value.id == id
  }

  predicate AllKeepID(replies: seq<Reply>, id: Id) {
    forall i | 0 <= i < |replies| :: KeepsID(replies[i], id)
  }

  // validRemoteJobStatusTransition
  predicate ValidTransition(current: OpStatus, updated: OpStatus) {
    match current
    case Ready | Awaiting => updated in {Awaiting, Canceling, Completed, Failed, Canceled}
    case Canceling => updated in {Canceling, Failed, Canceled}
    case _ => false
  }

  // How far an operation has come.
  function Stage(status: OpStatus): nat {
    match status
    case Ready => 0
    case Awaiting => 1
    case Canceling => 2
    case _ => 3
  }

  // A status never goes back, stays what it is only while it waits, ends for good, and
  // what is being canceled does not complete any more.
  lemma TransitionsGoForward(current: OpStatus, updated: OpStatus)
    ensures ValidTransition(current, updated) <==>
      && !current.Unsupported? && !updated.Unsupported? && updated != Ready
      && !IsTerminal(current) && Stage(current) <= Stage(updated)
      && !(current == Canceling && updated == Completed)
  {
  }

  // validateRemoteJobUpdate, where samePlan tells whether both states can be decoded and
  // carry the same plan.
  predicate ValidRemoteUpdate(current: Operation, updated: Operation, samePlan: bool) {
    && updated.maxOutputLength == current.maxOutputLength
    && updated.kind == current.kind && updated.version == current.version
    && samePlan && ValidTransition(current.status, updated.status)
  }

  // ---- Updates ----

  // After a terminal update of an operation there is no other of it.
  predicate NothingAfterTerminal(updates: seq<Operation>) {
    forall i, j | 0 <= i < j < |updates| && updates[i].id == updates[j].id :: !IsTerminal(updates[i].status)
  }

  predicate HasEnded(updates: seq<Operation>, id: Id) {
    exists i :: 0 <= i < |updates| && updates[i].id == id && IsTerminal(updates[i].status)
  }

  lemma OneMoreUpdate(updates: seq<Operation>, update: Operation)
    ensures NothingAfterTerminal(updates) && !HasEnded(updates, update.id) ==> NothingAfterTerminal(updates + [update])
    ensures forall id :: HasEnded(updates + [update], id) <==>
              HasEnded(updates, id) || (update.id == id && IsTerminal(update.status))
  {
    var all := updates + [update];
    forall id
      ensures HasEnded(all, id) <==> HasEnded(updates, id) || (update.id == id && IsTerminal(update.status))
    {
      if i :| 0 <= i < |updates| && updates[i].id == id && IsTerminal(updates[i].status) {
        assert all[i] == updates[i];
      }
      if update.id == id && IsTerminal(update.status) {
        assert all[|updates|] == update;
      }
    }
  }

  // The updates of one operation, in order.
  function UpdatesOf(updates: seq<Operation>, id: Id): seq<Operation> {
    if updates == [] then []
    else
      var last := updates[|updates| - 1];
      UpdatesOf(updates[..|updates| - 1], id) + (if last.id == id then [last] else [])
  }

  // The updates of an operation are some that do not end it, and after them at most one
  // that does.
  lemma {:induction false} UpdatesEndOnce(updates: seq<Operation>, id: Id)
    requires NothingAfterTerminal(updates)
    ensures var own := UpdatesOf(updates, id);
      && (forall i | 0 <= i < |own| - 1 :: !IsTerminal(own[i].status))
      && (HasEnded(updates, id) <==> own != [] && IsTerminal(own[|own| - 1].status))
      && (forall i | 0 <= i < |own| :: own[i].id == id && own[i] in updates)
    decreases |updates|
  {
    if updates != [] {
      var shorter, last := updates[..|updates| - 1], updates[|updates| - 1];
      assert updates == shorter + [last];
      OneMoreUpdate(shorter, last);
      UpdatesEndOnce(shorter, id);
    }
  }

  // Some updates of one operation have come to the others.
  predicate Extends(before: seq<Operation>, after: seq<Operation>, id: Id) {
    before <= after && forall i | |before| <= i < |after| :: after[i].id == id
  }

  // The answer of a handler shows in the updates: its update first, or a failure.
  predicate Answered(reply: Reply, before: seq<Operation>, after: seq<Operation>) {
    match reply
    case Refused => |after| == |before| + 1 && after[|before|].status == Failed
    case Replied(step) => step.operation.Some? ==> |after| > |before| && after[|before|] == step.operation.value
  }

  // The answer does not end the operation, and its primitives can be started.
  predicate GoesOn(reply: Reply) {
    && reply.Replied?
    && (reply.step.operation.Some? ==> !IsTerminal(reply.step.operation.value.status))
    && forall i | 0 <= i < |reply.step.dispatches| :: reply.step.dispatches[i].Startable?
  }

  // Some primitives of one operation have been started.
  predicate Starts(before: seq<Primitive>, after: seq<Primitive>, id: Id) {
    before <= after && forall i | |before| <= i < |after| :: after[i].source == id
  }

  lemma StartsTransitively(a: seq<Primitive>, b: seq<Primitive>, c: seq<Primitive>, id: Id)
    requires Starts(a, b, id) && Starts(b, c, id)
    ensures Starts(a, c, id)
  {
    assert forall i | 0 <= i < |b| :: c[i] == b[i];
  }

  // The primitives once one of them has sent an event.
  function Sent(outstanding: seq<Primitive>, i: nat): seq<Primitive>
    requires i < |outstanding|
  {
    if outstanding[i].left == 0 then outstanding[..i] + outstanding[i + 1..]
    else outstanding[i := outstanding[i].(left := outstanding[i].left - 1)]
  }

  // The events that are still to come.
  function ToCome(outstanding: seq<Primitive>): nat {
    if outstanding == [] then 0 else ToCome(outstanding[..|outstanding| - 1]) + outstanding[|outstanding| - 1].left + 1
  }

  lemma {:induction false} ToComeConcat(a: seq<Primitive>, b: seq<Primitive>)
    ensures ToCome(a + b) == ToCome(a) + ToCome(b)
    decreases |b|
  {
    if b == [] {
      assert a + b == a;
    } else {
      assert (a + b)[..|a + b| - 1] == a + b[..|b| - 1];
      ToComeConcat(a, b[..|b| - 1]);
    }
  }

  lemma ToComeOne(primitive: Primitive)
    ensures ToCome([primitive]) == primitive.left + 1
  {
    assert [primitive][..0] == [];
  }

  lemma ToComeSplit(outstanding: seq<Primitive>, i: nat)
    requires i < |outstanding|
    ensures ToCome(outstanding) == ToCome(outstanding[..i]) + outstanding[i].left + 1 + ToCome(outstanding[i + 1..])
  {
    hide ToCome;
    assert outstanding == outstanding[..i] + ([outstanding[i]] + outstanding[i + 1..]);
    ToComeConcat(outstanding[..i], [outstanding[i]] + outstanding[i + 1..]);
    ToComeConcat([outstanding[i]], outstanding[i + 1..]);
    ToComeOne(outstanding[i]);
  }

  lemma OneLessToCome(outstanding: seq<Primitive>, i: nat)
    requires i < |outstanding|
    ensures ToCome(Sent(outstanding, i)) == ToCome(outstanding) - 1
  {
    hide ToCome;
    ToComeSplit(outstanding, i);
    var next := Sent(outstanding, i);
    if outstanding[i].left == 0 {
      ToComeConcat(outstanding[..i], outstanding[i + 1..]);
    } else {
      ToComeSplit(next, i);
      assert next[..i] == outstanding[..i] && next[i + 1..] == outstanding[i + 1..];
    }
  }

  // Primitives belong to accepted operations that are no remote jobs.
  predicate LocalSources(outstanding: seq<Primitive>, accepted: set<Id>, operations: map<Id, RunningOperation>) {
    forall i | 0 <= i < |outstanding| ::
      && outstanding[i].source in accepted
      && (outstanding[i].source in operations ==> operations[outstanding[i].source].handler.None?)
  }

  lemma SourcesKept(a: seq<Primitive>, b: seq<Primitive>, accepted: set<Id>, nowAccepted: set<Id>,
                    before: map<Id, RunningOperation>, after: map<Id, RunningOperation>, id: Id)
    requires LocalSources(a, accepted, before) && Starts(a, b, id)
    requires accepted <= nowAccepted && id in nowAccepted && before - {id} == after - {id}
    requires id in after ==> after[id].handler.None?
    ensures LocalSources(b, nowAccepted, after)
  {
    forall i | 0 <= i < |b| && b[i].source in after
      ensures after[b[i].source].handler.None?
    {
      var source := b[i].source;
      if source != id {
        assert source in after - {id};
        assert b[i] == a[i] && source in before && (before - {id})[source] == before[source];
      }
    }
  }

  lemma SentKeepsSources(outstanding: seq<Primitive>, accepted: set<Id>, operations: map<Id, RunningOperation>, i: nat)
    requires LocalSources(outstanding, accepted, operations) && i < |outstanding|
    ensures LocalSources(Sent(outstanding, i), accepted, operations)
    ensures |Sent(outstanding, i)| == |outstanding| - if outstanding[i].left == 0 then 1 else 0
  {
  }

  class LocalOperationManager {
    var accepted: set<Id>
    var operations: map<Id, RunningOperation>
    var activePrimitives: int
    var closedHandlers: set<nat>
    var pendingUpdates: seq<Operation>

    // What was received from the updates channel.
    var delivered: seq<Operation>
    // The side of the primitives: those started that have not yet sent their completing
    // event.
    var outstanding: seq<Primitive>
    // The operations taken on, in order.
    ghost var takenOn: seq<Id>

    ghost function Queued(): seq<Operation>
      reads this
    {
      delivered + pendingUpdates
    }

    // An operation is running exactly as long as it is accepted and has not ended.
    ghost predicate Consistent()
      reads this
    {
      && NothingAfterTerminal(Queued())
      && (forall i | 0 <= i < |Queued()| :: Queued()[i].id in accepted)
      && (forall id | id in operations :: operations[id].operation.id == id && id in accepted)
      && (forall id | id in accepted :: id in operations <==> !HasEnded(Queued(), id))
      && DistinctStrings(takenOn) && (forall id :: id in accepted <==> id in takenOn)
    }

    ghost predicate Valid()
      reads this
    {
      && Consistent() && activePrimitives == |outstanding|
      && LocalSources(outstanding, accepted, operations)
    }

    constructor ()
      ensures Valid() && accepted == {} && Queued() == [] && outstanding == []
    {
      accepted, operations, activePrimitives, closedHandlers, pendingUpdates := {}, map[], 0, {}, [];
      delivered, outstanding, takenOn := [], [], [];
    }

    // ---- Updates ----

    // An update of a running operation, which goes on or ends with it.
    method AcceptUpdate(operation: Operation)
      requires Consistent() && operation.id in operations
      modifies this`operations, this`pendingUpdates
      ensures Consistent() && Queued() == old(Queued()) + [operation]
      ensures operations == if IsTerminal(operation.status) then old(operations) - {operation.id}
                            else old(operations)[operation.id := old(operations)[operation.id].(operation := operation)]
    {
      hide NothingAfterTerminal, HasEnded, DistinctStrings;
      OneMoreUpdate(Queued(), operation);
      ghost var before := Queued();
      pendingUpdates := pendingUpdates + [operation];
      assert Queued() == before + [operation];
      if IsTerminal(operation.status) {
        operations := operations - {operation.id};
      } else {
        operations := operations[operation.id := operations[operation.id].(operation := operation)];
      }
    }

    // failLocalOperation, whatever state it leaves
    method FailOperation(id: Id)
      requires Consistent() && id in operations
      modifies this`operations, this`pendingUpdates
      ensures Consistent() && operations == old(operations) - {id}
      ensures Extends(old(Queued()), Queued(), id) && |Queued()| == |old(Queued())| + 1
      ensures Queued()[|old(Queued())|].status == Failed
    {
      var state: Json := *;
      AcceptUpdate(operations[id].operation.(status := Failed, state := state));
    }

    method DeliverUpdate()
      requires Valid()
      modifies this`pendingUpdates, this`delivered
      ensures Valid() && Queued() == old(Queued())
      ensures old(pendingUpdates) != [] ==> delivered == old(delivered) + [old(pendingUpdates)[0]]
    {
      if pendingUpdates != [] {
        ghost var queued := Queued();
        delivered := delivered + [pendingUpdates[0]];
        pendingUpdates := pendingUpdates[1..];
        assert Queued() == queued;
      }
    }

    // ---- Steps ----

    method StartPrimitive(id: Id, events: nat)
      requires Consistent()
      modifies this`outstanding
      ensures Consistent() && Queued() == old(Queued()) && outstanding == old(outstanding) + [Primitive(id, events)]
      ensures Starts(old(outstanding), outstanding, id)
    {
      outstanding := outstanding + [Primitive(id, events)];
    }

    // acceptLocalStep: the update of the step, and then its primitives. One that cannot
    // be started is a failure that the handler gets to answer.
    method AcceptStep(id: Id, step: Step, replies: seq<Reply>) returns (started: nat)
      requires Consistent() && id in operations
      requires KeepsID(Replied(step), id) && AllKeepID(replies, id)
      modifies this`operations, this`pendingUpdates, this`outstanding
      ensures Consistent() && operations - {id} == old(operations) - {id}
      ensures id in operations ==> operations[id].handler == old(operations)[id].handler
      ensures |outstanding| == |old(outstanding)| + started && Starts(old(outstanding), outstanding, id)
      ensures Extends(old(Queued()), Queued(), id)
      ensures step.operation.Some? ==>
        |Queued()| > |old(Queued())| && Queued()[|old(Queued())|] == step.operation.value
      ensures step.operation.Some? && IsTerminal(step.operation.value.status) ==> started == 0 && id !in operations
      ensures (step.operation.Some? ==> !IsTerminal(step.operation.value.status))
              && (forall i | 0 <= i < |step.dispatches| :: step.dispatches[i].Startable?) ==>
        started == |step.dispatches| && id in operations
      decreases |replies|, 1
    {
      hide Consistent, Queued;
      started := 0;
      if step.operation.Some? {
        AcceptUpdate(step.operation.value);
        if IsTerminal(step.operation.value.status) {
          return;
        }
      }
      started := StartPrimitives(id, step.dispatches, replies);
    }

    method StartPrimitives(id: Id, dispatches: seq<Dispatch>, replies: seq<Reply>) returns (started: nat)
      requires Consistent() && id in operations && AllKeepID(replies, id)
      modifies this`operations, this`pendingUpdates, this`outstanding
      ensures Consistent() && operations - {id} == old(operations) - {id}
      ensures id in operations ==> operations[id].handler == old(operations)[id].handler
      ensures |outstanding| == |old(outstanding)| + started && Starts(old(outstanding), outstanding, id)
      ensures Extends(old(Queued()), Queued(), id)
      ensures (forall i | 0 <= i < |dispatches| :: dispatches[i].Startable?) ==>
        started == |dispatches| && operations == old(operations) && Queued() == old(Queued())
      decreases |replies|, 0
    {
      hide Consistent, Queued;
      started := 0;
      for i := 0 to |dispatches|
        invariant Consistent() && operations == old(operations) && Queued() == old(Queued()) && started == i
        invariant |outstanding| == |old(outstanding)| + started && Starts(old(outstanding), outstanding, id)
      {
        ghost var before := outstanding;
        match dispatches[i] {
          case Unstartable =>
            if replies == [] || replies[0].Refused? {
              FailOperation(id);
              return;
            }
            assert KeepsID(replies[0], id);
            var more := AcceptStep(id, replies[0].step, replies[1..]);
            StartsTransitively(old(outstanding), before, outstanding, id);
            started := started + more;
            return;
          case Startable(events) =>
            StartPrimitive(id, events);
            StartsTransitively(old(outstanding), before, outstanding, id);
            started := started + 1;
        }
      }
    }

    // ---- Requests ----

    // An operation that is already accepted is not started again.
    method AddOperation(operation: Operation, valid: bool, replies: seq<Reply>) returns (r: Result<()>)
      requires Valid() && AllKeepID(replies, operation.id)
      modifies this`accepted, this`operations, this`pendingUpdates, this`outstanding, this`takenOn, this`activePrimitives
      ensures Valid() && operations - {operation.id} == old(operations) - {operation.id}
      ensures r.Ok? ==> operation.id in accepted && accepted == old(accepted) + {operation.id}
      ensures takenOn == old(takenOn) + if r.Ok? && operation.id !in old(accepted) then [operation.id] else []
      ensures r.Err? || operation.id in old(accepted) ==>
        accepted == old(accepted) && operations == old(operations) && Queued() == old(Queued())
        && outstanding == old(outstanding)
      ensures Extends(old(Queued()), Queued(), operation.id)
      ensures r.Ok? <==> operation.id in old(accepted) || (valid && replies != [] && replies[0].Replied?)
      ensures r.Ok? && operation.id !in old(accepted) ==> replies != [] && Answered(replies[0], old(Queued()), Queued())
      ensures r.Ok? && operation.id !in old(accepted) && GoesOn(replies[0]) ==>
        operation.id in operations && operations[operation.id].handler.None?
    {
      hide NothingAfterTerminal, HasEnded, AllKeepID;
      var id := operation.id;
      if id in accepted {
        return Ok(());
      }
      NotEnded(id);
      if !valid || replies == [] || replies[0].Refused? {
        return Err(InvalidOperation);
      }
      TakeOn(operation, None);
      KeptByAll(replies, id);
      var started := AcceptStep(id, replies[0].step, replies[1..]);
      activePrimitives := activePrimitives + started;
      SourcesKept(old(outstanding), outstanding, old(accepted), accepted, old(operations), operations, id);
      return Ok(());
    }

    method TakeOn(operation: Operation, handler: Option<nat>)
      requires Consistent() && operation.id !in accepted
      modifies this`accepted, this`operations, this`takenOn
      ensures Consistent() && Queued() == old(Queued())
      ensures accepted == old(accepted) + {operation.id} && takenOn == old(takenOn) + [operation.id]
      ensures operations == old(operations)[operation.id := RunningOperation(operation, handler, false)]
    {
      hide NothingAfterTerminal, HasEnded;
      NotEnded(operation.id);
      accepted := accepted + {operation.id};
      operations := operations[operation.id := RunningOperation(operation, handler, false)];
      takenOn := takenOn + [operation.id];
    }

    lemma NotEnded(id: Id)
      requires Consistent() && id !in accepted
      ensures !HasEnded(Queued(), id)
    {
    }

    // A remote job, with the handler that took it; None when none did.
    method AddRemoteJob(operation: Operation, matched: Option<nat>) returns (r: Result<()>)
      requires Valid()
      modifies this`accepted, this`operations, this`takenOn
      ensures Valid() && Queued() == old(Queued())
      ensures r.Ok? ==> accepted == old(accepted) + {operation.id}
      ensures takenOn == old(takenOn) + if r.Ok? && operation.id !in old(accepted) then [operation.id] else []
      ensures r.Ok? && operation.id !in old(accepted) ==> matched.Some?
      ensures operations == if r.Err? || operation.id in old(accepted) then old(operations)
                            else old(operations)[operation.id := RunningOperation(operation, matched, false)]
    {
      hide NothingAfterTerminal, HasEnded;
      if operation.id in accepted {
        return Ok(());
      }
      if matched.None? || matched.value in closedHandlers {
        return Err(InvalidOperation);
      }
      TakeOn(operation, matched);
      return Ok(());
    }

    // A remote job is canceled by its handler, which may refuse.
    method CancelOperation(id: Id)
      requires Valid()
      modifies this`operations
      ensures Valid() && Queued() == old(Queued())
      ensures operations == if id in old(operations) && old(operations)[id].handler.None?
                            then old(operations)[id := old(operations)[id].(canceled := true)] else old(operations)
    {
      hide NothingAfterTerminal, HasEnded, DistinctStrings;
      if id in operations && operations[id].handler.None? {
        operations := operations[id := operations[id].(canceled := true)];
      }
    }

    // ---- Remote jobs ----

    // An update that names a running operation which is no remote job has no handler to
    // refuse it by: refusing it panics.
    method TakeRemoteUpdate(handler: nat, update: Operation, samePlan: bool) returns (panicked: bool)
      requires Valid()
      modifies this`operations, this`pendingUpdates
      ensures Valid() && operations - {update.id} == old(operations) - {update.id}
      ensures panicked <==> update.id in old(operations) && old(operations)[update.id].handler.None?
      ensures panicked || update.id !in old(operations) ==>
        operations == old(operations) && Queued() == old(Queued())
      ensures update.id in operations ==>
        update.id in old(operations) && operations[update.id].handler == old(operations)[update.id].handler
      ensures Extends(old(Queued()), Queued(), update.id)
      ensures !panicked && update.id in old(operations) ==>
        && |Queued()| == |old(Queued())| + 1
        && var running, queued := old(operations)[update.id], Queued()[|old(Queued())|];
           if running.handler == Some(handler) && ValidRemoteUpdate(running.operation, update, samePlan)
           then queued == update else queued.status == Failed
    {
      hide NothingAfterTerminal, HasEnded, DistinctStrings;
      if update.id !in operations {
        return false;
      }
      var current := operations[update.id];
      if current.handler != Some(handler) || !ValidRemoteUpdate(current.operation, update, samePlan) {
        panicked := FailRemoteJob(update.id);
        return;
      }
      AcceptUpdate(update);
      return false;
    }

    // failRemoteJobOperation: the handler of the job is told, by its number; a local
    // operation has -1 there.
    method FailRemoteJob(id: Id) returns (panicked: bool)
      requires Consistent() && id in operations
      modifies this`operations, this`pendingUpdates
      ensures Consistent() && panicked == old(operations)[id].handler.None?
      ensures panicked ==> operations == old(operations) && Queued() == old(Queued())
      ensures !panicked ==>
        && operations == old(operations) - {id}
        && Extends(old(Queued()), Queued(), id) && |Queued()| == |old(Queued())| + 1
        && Queued()[|old(Queued())|].status == Failed
    {
      hide NothingAfterTerminal, HasEnded, DistinctStrings;
      if operations[id].handler.None? {
        return true;
      }
      FailOperation(id);
      return false;
    }

    // A handler that has stopped fails all its jobs and no others.
    method CloseHandler(handler: nat)
      requires Valid()
      modifies this`operations, this`pendingUpdates, this`closedHandlers
      ensures Valid() && closedHandlers == old(closedHandlers) + {handler} && old(Queued()) <= Queued()
      ensures operations == map id | id in old(operations) && old(operations)[id].handler != Some(handler)
                              :: old(operations)[id]
    {
      hide NothingAfterTerminal, HasEnded, DistinctStrings;
      closedHandlers := closedHandlers + {handler};
      var todo := operations.Keys;
      while todo != {}
        invariant Valid() && todo <= operations.Keys && old(Queued()) <= Queued()
        invariant closedHandlers == old(closedHandlers) + {handler}
        invariant forall id | id in operations :: id in old(operations) && operations[id] == old(operations)[id]
        invariant forall id | id in old(operations) && id !in todo ::
                    id in operations <==> old(operations)[id].handler != Some(handler)
      {
        var id :| id in todo;
        todo := todo - {id};
        if operations[id].handler == Some(handler) {
          FailOperation(id);
        }
      }
    }

    // ---- Primitives ----

    // An event of a primitive, with what the handler sees of it: the completing event of
    // a canceled operation reads as a cancellation.
    method TakePrimitiveEvent(i: nat, kind: P.EventType, replies: seq<Reply>) returns (seen: Option<P.EventType>)
      requires Valid() && i < |outstanding|
      requires Completes(kind) <==> outstanding[i].left == 0
      requires AllKeepID(replies, outstanding[i].source)
      modifies this`operations, this`pendingUpdates, this`outstanding, this`activePrimitives
      ensures Valid() && operations - {old(outstanding)[i].source} == old(operations) - {old(outstanding)[i].source}
      ensures old(outstanding)[i].source in operations ==>
        && old(outstanding)[i].source in old(operations)
        && operations[old(outstanding)[i].source].handler == old(operations)[old(outstanding)[i].source].handler
      ensures Extends(old(Queued()), Queued(), old(outstanding)[i].source)
      ensures Starts(Sent(old(outstanding), i), outstanding, old(outstanding)[i].source)
      ensures old(outstanding)[i].source !in old(operations) ==>
        seen == None && operations == old(operations) && outstanding == Sent(old(outstanding), i)
      ensures old(outstanding)[i].source in old(operations) ==>
        && seen == Some(if Completes(kind) && old(operations)[old(outstanding)[i].source].canceled then P.Canceled else kind)
        && Answered(if replies == [] then Refused else replies[0], old(Queued()), Queued())
    {
      hide NothingAfterTerminal, HasEnded, DistinctStrings, AllKeepID;
      var completed := Completes(kind);
      var source := outstanding[i].source;
      SentKeepsSources(outstanding, accepted, operations, i);
      outstanding := Sent(outstanding, i);
      ghost var now := outstanding;
      if completed {
        activePrimitives := activePrimitives - 1;
      }
      if source !in operations {
        return None;
      }
      seen := Some(if completed && operations[source].canceled then P.Canceled else kind);
      if replies == [] || replies[0].Refused? {
        FailOperation(source);
        return;
      }
      KeptByAll(replies, source);
      var started := AcceptStep(source, replies[0].step, replies[1..]);
      activePrimitives := activePrimitives + started;
      SourcesKept(now, outstanding, accepted, accepted, old(operations), operations, source);
    }

    // ---- The end ----

    // drainLocalPrimitives: whatever order the events come in, it ends, and then every
    // primitive has completed.
    method DrainPrimitives()
      requires Valid()
      modifies this`outstanding, this`activePrimitives
      ensures Consistent() && Queued() == old(Queued())
      ensures activePrimitives == 0 && outstanding == []
    {
      hide NothingAfterTerminal, HasEnded, DistinctStrings, Sent;
      while activePrimitives != 0
        invariant Valid()
        decreases ToCome(outstanding)
      {
        var i :| 0 <= i < |outstanding|;
        OneLessToCome(outstanding, i);
        SentKeepsSources(outstanding, accepted, operations, i);
        if outstanding[i].left == 0 {
          activePrimitives := activePrimitives - 1;
        }
        outstanding := Sent(outstanding, i);
      }
    }

    method CancelAll()
      requires Valid()
      modifies this`operations
      ensures Valid() && Queued() == old(Queued()) && operations.Keys == old(operations).Keys
      ensures forall id | id in operations :: operations[id] == old(operations)[id].(canceled := true)
    {
      hide NothingAfterTerminal, HasEnded, DistinctStrings;
      var todo := operations.Keys;
      while todo != {}
        invariant Valid() && todo <= operations.Keys == old(operations).Keys
        invariant forall id | id in operations ::
                    operations[id] == if id in todo then old(operations)[id] else old(operations)[id].(canceled := true)
      {
        var id :| id in todo;
        todo := todo - {id};
        operations := operations[id := operations[id].(canceled := true)];
      }
    }

    // The running operations that are no remote jobs.
    ghost function LocalIDs(): set<Id>
      reads this
    {
      set id | id in operations && operations[id].handler.None?
    }

    // One event of run. An event that cannot come (of a primitive that is not there, or
    // one that completes out of turn) is passed over.
    method TakeEvent(event: ManagerEvent) returns (panicked: bool)
      requires Valid() && Lawful(event)
      modifies this
      ensures Valid() && old(Queued()) <= Queued() && old(takenOn) <= takenOn
      ensures panicked <==> event.RemoteUpdate? && event.operation.id in old(LocalIDs())
      ensures panicked ==> operations == old(operations) && Queued() == old(Queued())
      ensures LocalIDs() <= old(LocalIDs()) + (if event.AddLocal? then {event.operation.id} else {})
    {
      hide Consistent, AllKeepID, Queued, Sent, ValidRemoteUpdate, LocalSources;
      panicked := false;
      match event
      case Deliver => DeliverUpdate();
      case AddLocal(operation, valid, replies) =>
        var _ := AddOperation(operation, valid, replies);
        OthersStayLocal(old(operations), operations, operation.id);
      case AddRemote(operation, matched) =>
        var _ := AddRemoteJob(operation, matched);
      case CancelRequest(id) => CancelOperation(id);
      case RemoteUpdate(handler, operation, samePlan) =>
        panicked := TakeRemoteUpdate(handler, operation, samePlan);
        OthersStayLocal(old(operations), operations, operation.id);
      case RemoteClosed(handler) => CloseHandler(handler);
      case PrimitiveSent(source, n, kind, replies) =>
        if n < |outstanding| && outstanding[n].source == source && (Completes(kind) <==> outstanding[n].left == 0) {
          var _ := TakePrimitiveEvent(n, kind, replies);
          OthersStayLocal(old(operations), operations, source);
        }
    }

    // run, until its context ends after the given events or an event makes it panic.
    method Run(events: seq<ManagerEvent>) returns (panicked: bool)
      requires Valid()
      requires forall i | 0 <= i < |events| :: Lawful(events[i])
      modifies this
      ensures Consistent() && old(Queued()) <= Queued() && old(takenOn) <= takenOn
      ensures !panicked ==> activePrimitives == 0 && outstanding == []
      ensures panicked ==> exists i :: 0 <= i < |events| && Misdirected(events[i], operations)
      ensures (forall i | 0 <= i < |events| && events[i].RemoteUpdate? ::
                 && events[i].operation.id !in old(LocalIDs())
                 && forall j | 0 <= j < |events| && events[j].AddLocal? :: events[j].operation.id != events[i].operation.id)
              ==> !panicked
    {
      hide Valid, Queued;
      ghost var added: set<Id> := {};
      for i := 0 to |events|
        invariant Valid() && old(Queued()) <= Queued() && old(takenOn) <= takenOn
        invariant LocalIDs() <= old(LocalIDs()) + added
        invariant forall id | id in added :: exists j :: 0 <= j < i && events[j].AddLocal? && events[j].operation.id == id
      {
        ghost var local := LocalIDs();
        panicked := TakeEvent(events[i]);
        if panicked {
          assert events[i].operation.id in local;
          assert Misdirected(events[i], operations);
          EndsConsistent();
          return;
        }
        if events[i].AddLocal? {
          added := added + {events[i].operation.id};
        }
      }
      CancelAll();
      DrainPrimitives();
      return false;
    }

    lemma EndsConsistent()
      requires Valid()
      ensures Consistent()
    {
    }
  }

  // Such an event, after one operation has been added to a new manager.
  method MisdirectedUpdatePanics(operation: Operation) returns (panicked: bool)
    ensures panicked
  {
    var manager := new LocalOperationManager();
    var added := manager.AddOperation(operation, true, [Replied(Step(None, []))]);
    panicked := manager.TakeEvent(RemoteUpdate(0, operation, true));
  }

  // An update from a handler for an operation that is no remote job.
  predicate Misdirected(event: ManagerEvent, operations: map<Id, RunningOperation>) {
    event.RemoteUpdate? && event.operation.id in operations && operations[event.operation.id].handler.None?
  }

  lemma OthersStayLocal(before: map<Id, RunningOperation>, after: map<Id, RunningOperation>, id: Id)
    requires before - {id} == after - {id}
    ensures forall other | other in after && other != id :: other in before && before[other] == after[other]
  {
    forall other | other in after && other != id
      ensures other in before && before[other] == after[other]
    {
      assert other in after - {id};
      assert (after - {id})[other] == after[other] && (before - {id})[other] == before[other];
    }
  }

  lemma KeptByAll(replies: seq<Reply>, id: Id)
    requires AllKeepID(replies, id) && replies != []
    ensures KeepsID(replies[0], id) && AllKeepID(replies[1..], id)
  {
  }
}
