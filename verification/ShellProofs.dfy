// What every run of a shell operation keeps, across restarts.
module ShellProofs {
  import opened Utf8
  import opened Output
  import opened ShellMachine
  import P = Primitives
  import FileStream

  // Reading one capture is done: the parts kept are the ones boundOutput needs.
  predicate Captured(head: Bytes, tail: Bytes, size: int, limit: int) {
    if size <= ReadLimit(limit) then |head| == size && tail == []
    else |head| == MAX_RUNE_SIZE * (limit / 2) && |tail| == TailReadLimit(limit)
  }

  // The head of a longer capture has been read, its tail has not.
  predicate HeadCaptured(head: Bytes, size: int, limit: int) {
    size > ReadLimit(limit) && |head| == MAX_RUNE_SIZE * (limit / 2)
  }

  predicate SoundAwaiting(operation: Operation) {
    var limit, state := operation.limit, operation.state;
    && state.phase != NoPhase
    && ValidName(operation.id)
    && state.result.None? && state.terminalError == [] && !state.errorTruncated
    && (state.pendingExitCode.Some? <==> state.phase.IsRead())
    && (state.processGroup != 0 ==> state.phase == Process && state.processGroup > 1)
    && (state.phase.Rank() < ReadOutTail.Rank() ==> state.inlineOut == [] && state.inlineOutTail == [] && state.outSize == 0)
    && (state.phase == ReadOutTail ==> state.inlineOutTail == [] && HeadCaptured(state.inlineOut, state.outSize, limit))
    && (state.phase.Rank() >= ReadErr.Rank() ==>
          state.outSize >= 0 && Captured(state.inlineOut, state.inlineOutTail, state.outSize, limit))
    && (state.phase.Rank() < ReadErrTail.Rank() ==> state.inlineErr == [] && state.inlineErrTail == [] && state.errSize == 0)
    && (state.phase == ReadErrTail ==> state.inlineErrTail == [] && HeadCaptured(state.inlineErr, state.errSize, limit))
  }

  // What holds of every shell that a run from a ready operation can reach.
  predicate Sound(shell: Shell) {
    var operation, state := shell.operation, shell.operation.state;
    && Loadable(operation)
    && |Join(shell.chunks)| == shell.readSize
    && (shell.chunks != [] ==> operation.status == StatusAwaiting && state.phase.IsRead())
    && match operation.status
       case StatusReady => state.phase == NoPhase && state.terminalError == [] && !state.errorTruncated
                           && state.result.None? && state.pendingExitCode.None? && state.processGroup == 0
                           && state.inlineOut == [] && state.inlineOutTail == [] && state.outSize == 0
                           && state.inlineErr == [] && state.inlineErrTail == [] && state.errSize == 0
       case StatusAwaiting => SoundAwaiting(operation)
       case StatusCanceling => false
       case StatusCompleted => state.phase == NoPhase && state.result.Some?
       case _ => state.phase == NoPhase && state.result.None?
  }

  // How far a run has come; every terminal status is last.
  function Progress(operation: Operation): nat {
    if IsTerminal(operation.status) then 9 else operation.state.phase.Rank()
  }

  function Starts(dispatches: seq<P.Dispatch>): nat {
    if dispatches == [] then 0
    else (if dispatches[0].StartProcess? then 1 else 0) + Starts(dispatches[1..])
  }

  // What one step may do: it keeps the shell sound, moves forward, starts the process
  // only on entering the process phase, and its checkpoint is the operation.
  predicate GoodStep(before: Shell, outcome: Outcome) {
    var after, step := outcome.shell, outcome.step;
    && Sound(after)
    && Progress(before.operation) <= Progress(after.operation)
    && !step.Panicked?
    && (step.Step? ==> !IsTerminal(before.operation.status))
    && (step.Refused? ==> after == before)
    && (step.Step? && step.checkpoint.None? ==> after.operation == before.operation && step.dispatches == [])
    && (step.Step? && step.checkpoint.Some? ==> step.checkpoint.value == after.operation)
    && (step.Step? ==> Starts(step.dispatches) <= 1)
    && (step.Step? && Starts(step.dispatches) == 1 ==>
          Progress(before.operation) < Process.Rank() <= Progress(after.operation))
    && (step.Step? && IsTerminal(after.operation.status) ==> step.dispatches == [])
  }

  lemma EndIsGood(shell: Shell, status: Status, error: Bytes)
    requires Sound(shell) && !IsTerminal(shell.operation.status)
    requires status in {StatusFailed, StatusCanceled}
    ensures GoodStep(shell, End(shell, status, error))
    ensures IsTerminal(End(shell, status, error).shell.operation.status)
  {
    hide RuneCount, Sanitize, HeadSize, TailSize, Marker, PathsFor, Message;
  }

  // Entering a later phase with a sound state.
  lemma NextIsGood(before: Shell, shell: Shell, phase: Phase)
    requires !IsTerminal(before.operation.status)
    requires shell.chunks == [] && shell.readSize == 0 && phase != NoPhase
    requires Progress(before.operation) < phase.Rank()
    requires var moved := shell.operation.(status := StatusAwaiting, state := shell.operation.state.(phase := phase));
      Loadable(moved) && SoundAwaiting(moved)
    ensures GoodStep(before, Next(shell, phase))
    ensures Next(shell, phase).shell.operation
      == shell.operation.(status := StatusAwaiting, state := shell.operation.state.(phase := phase))
    ensures Next(shell, phase).shell.chunks == []
    ensures var outcome := Next(shell, phase);
      && PhaseDispatch(outcome.shell.operation).Some?
      && outcome.step == Step(Some(outcome.shell.operation), [PhaseDispatch(outcome.shell.operation).value])
  {
    hide RuneCount, HeadSize, TailSize, Marker, Message;
    assert Truncation([], shell.operation.limit, []) == Bounded([], false);
    var moved := shell.operation.(state := shell.operation.state.(phase := phase));
    assert PhaseDispatch(moved).Some?;
    var dispatch := PhaseDispatch(moved).value;
    assert Starts([dispatch]) == (if dispatch.StartProcess? then 1 else 0) + Starts([]);
  }

  lemma CreatedIsGood(shell: Shell, event: P.Event)
    requires Sound(shell) && shell.operation.status == StatusAwaiting
    requires shell.operation.state.phase in {CreateDirectory, CreateOut, CreateErr}
    ensures GoodStep(shell, Created(shell, event))
  {
    hide End, Next, PathsFor, Message, GoodStep;
    var state, paths := shell.operation.state, PathsFor(shell.operation);
    var kind := if state.phase == CreateDirectory then P.Directory else P.RegularFile;
    if event.kind != P.IOCreateCompleted || event.result != P.CreateResult(kind) {
      FailIsGood(shell, InvalidCreate);
    } else if state.phase == CreateDirectory {
      NextIsGood(shell, shell, CreateOut);
    } else if state.phase == CreateOut {
      NextIsGood(shell, WithState(shell, state.(outPath := paths.out)), CreateErr);
    } else {
      NextIsGood(shell, WithState(shell, state.(errPath := paths.err)), Process);
    }
  }

  lemma ProcessEventIsGood(shell: Shell, event: P.Event)
    requires Sound(shell) && shell.operation.status == StatusAwaiting && shell.operation.state.phase == Process
    ensures GoodStep(shell, ProcessEvent(shell, event))
  {
    hide End, Next, Await, PathsFor, Message, GoodStep, Sound;
    if event.kind == P.ProcessStarted && event.result.ProcessStartedResult? && event.result.pid > 1 {
      StartedIsGood(shell, event.result.pid);
    } else if event.kind == P.ProcessExited && event.result.ProcessExitResult? {
      ExitedIsGood(shell, ExitStatus(event.result));
    } else {
      FailIsGood(shell, InvalidStart);
      FailIsGood(shell, InvalidExit);
      FailIsGood(shell, UnexpectedOutput);
      FailIsGood(shell, UnexpectedStreamFailure);
      FailIsGood(shell, UnexpectedProcessEvent);
    }
  }

  lemma ExitedIsGood(shell: Shell, exitCode: int)
    requires Sound(shell) && shell.operation.status == StatusAwaiting && shell.operation.state.phase == Process
    ensures GoodStep(shell, Next(WithState(shell,
              shell.operation.state.(processGroup := 0, pendingExitCode := Some(exitCode))), ReadOut))
  {
    hide Next, PathsFor, Message, GoodStep;
    NextIsGood(shell, WithState(shell, shell.operation.state.(processGroup := 0, pendingExitCode := Some(exitCode))), ReadOut);
  }

  lemma StartedIsGood(shell: Shell, pid: int)
    requires Sound(shell) && shell.operation.status == StatusAwaiting && shell.operation.state.phase == Process
    requires pid > 1
    ensures GoodStep(shell, Await(WithState(shell, shell.operation.state.(processGroup := pid)), []))
  {
    hide PathsFor, Message;
    assert Truncation([], shell.operation.limit, []) == Bounded([], false);
  }

  lemma FailIsGood(shell: Shell, fault: Fault)
    requires Sound(shell) && !IsTerminal(shell.operation.status)
    ensures GoodStep(shell, Fail(shell, fault)) && IsTerminal(Fail(shell, fault).shell.operation.status)
  {
    EndIsGood(shell, StatusFailed, Message(fault));
  }

  lemma FinishIsGood(before: Shell, shell: Shell)
    requires Sound(before) && before.operation.status == StatusAwaiting
    requires before.operation.state.phase in {ReadErr, ReadErrTail}
    requires shell.chunks == [] && shell.readSize == 0
    requires shell.operation == before.operation.(state := before.operation.state.(
               inlineErr := shell.operation.state.inlineErr, errSize := shell.operation.state.errSize,
               inlineErrTail := shell.operation.state.inlineErrTail))
    requires var state := shell.operation.state;
      state.errSize >= 0 && Captured(state.inlineErr, state.inlineErrTail, state.errSize, shell.operation.limit)
    ensures GoodStep(before, Finish(shell))
    ensures Finish(shell).shell.operation.status == StatusCompleted
  {
    hide RuneCount, Sanitize, HeadSize, TailSize, Marker, PathsFor, Message;
    assert Truncation([], shell.operation.limit, []) == Bounded(Sanitize([]), false);
  }

  lemma ReadCompletedIsGood(before: Shell, data: Bytes, size: int)
    requires Sound(before) && before.operation.status == StatusAwaiting && before.operation.state.phase.IsRead()
    requires var request := Request(before.operation);
      && request.Some? && size >= request.value.offset
      && |data| == Min(request.value.count, size - request.value.offset)
      && (before.operation.state.phase.IsTailRead() ==> size == request.value.offset + request.value.count)
    ensures GoodStep(before, ReadCompleted(before.(chunks := [], readSize := 0), data, size))
  {
    hide Finish, Next, PathsFor, Message, GoodStep;
    var shell, state, limit := before.(chunks := [], readSize := 0), before.operation.state, before.operation.limit;
    var needsTail := size > ReadLimit(limit);
    var headSize := ReadLimit(limit) - TailReadLimit(limit);
    assert headSize == MAX_RUNE_SIZE * (limit / 2);
    if state.phase == ReadOut {
      var head := if needsTail then data[..headSize] else data;
      var read := WithState(shell, state.(inlineOut := head, outSize := size, inlineOutTail := []));
      NextIsGood(before, read, if needsTail then ReadOutTail else ReadErr);
    } else if state.phase == ReadOutTail {
      NextIsGood(before, WithState(shell, state.(inlineOutTail := data)), ReadErr);
    } else if state.phase == ReadErr {
      var head := if needsTail then data[..headSize] else data;
      var read := WithState(shell, state.(inlineErr := head, errSize := size, inlineErrTail := []));
      if needsTail {
        NextIsGood(before, read, ReadErrTail);
      } else {
        FinishIsGood(before, read);
      }
    } else {
      FinishIsGood(before, WithState(shell, state.(inlineErrTail := data)));
    }
  }

  lemma JoinAppend(chunks: seq<Bytes>, data: Bytes)
    ensures Join(chunks + [data]) == Join(chunks) + data
  {
    assert (chunks + [data])[..|chunks|] == chunks;
  }

  lemma ReadEventIsGood(shell: Shell, event: P.Event)
    requires Sound(shell) && shell.operation.status == StatusAwaiting && shell.operation.state.phase.IsRead()
    ensures GoodStep(shell, ReadEvent(shell, event))
  {
    hide End, ReadCompleted, PathsFor, Message, GoodStep, Sound, Join, Request;
    ReadingFacts(shell);
    var request := Request(shell.operation).value;
    if && event.kind == P.IOReadOutput && event.result.ReadOutputResult?
       && event.result.offset == request.offset + shell.readSize && |event.result.data| <= request.count - shell.readSize
    {
      ChunkIsGood(shell, event.result.data);
    } else if
       && event.kind == P.IOReadCompleted && event.result.ReadCompletedResult? && event.result.size >= request.offset
       && shell.readSize == Min(request.count, event.result.size - request.offset)
       && (shell.operation.state.phase.IsTailRead() ==> event.result.size == request.offset + request.count)
    {
      ReadCompletedIsGood(shell, Join(shell.chunks), event.result.size);
    } else {
      FailIsGood(shell, InvalidTailSize);
      FailIsGood(shell, InvalidOutput);
      FailIsGood(shell, LimitExceeded);
      FailIsGood(shell, InvalidCompletion);
      FailIsGood(shell, SizeChanged);
      FailIsGood(shell, UnexpectedReadEvent);
    }
  }

  lemma ReadingFacts(shell: Shell)
    requires Sound(shell) && shell.operation.status == StatusAwaiting && shell.operation.state.phase.IsRead()
    ensures shell.readSize == |Join(shell.chunks)| && Request(shell.operation).Some?
  {
    hide PathsFor, Join;
  }

  lemma ChunkIsGood(shell: Shell, data: Bytes)
    requires Sound(shell) && shell.operation.status == StatusAwaiting && shell.operation.state.phase.IsRead()
    ensures GoodStep(shell, Outcome(shell.(chunks := shell.chunks + [data], readSize := shell.readSize + |data|),
                                    Step(None, [])))
  {
    JoinAppend(shell.chunks, data);
  }

  // Reloading a sound awaiting shell outside the process phase takes up its phase
  // again: same operation, same checkpoint, same dispatch as when it was entered.
  lemma ResumeRepeatsPhase(shell: Shell)
    requires Sound(shell) && shell.operation.status == StatusAwaiting && shell.operation.state.phase != Process
    ensures PhaseDispatch(shell.operation).Some?
    ensures Handle(Load(shell.operation), None)
      == Outcome(Load(shell.operation), Step(Some(shell.operation), [PhaseDispatch(shell.operation).value]))
  {
    hide Message;
    assert Truncation([], shell.operation.limit, []) == Bounded([], false);
  }

  // Every event, and every reload, is a good step of a sound shell.
  lemma HandleIsGood(shell: Shell, event: Option<P.Event>)
    requires Sound(shell)
    ensures event.Some? || shell.chunks == [] ==> GoodStep(shell, Handle(shell, event))
  {
    hide Resume, HandleAwaiting, Next, End, Message, ValidName, GoodStep, Sound;
    RefusalIsGood(shell);
    match shell.operation.status
    case StatusReady =>
      FailIsGood(shell, InvalidName);
      if ValidName(shell.operation.id) {
        ReadyIsGood(shell);
      }
    case StatusAwaiting =>
      if event.None? {
        ResumeIsGood(shell);
      } else {
        AwaitingIsGood(shell, event.value);
      }
    case _ =>
  }

  lemma RefusalIsGood(shell: Shell)
    requires Sound(shell)
    ensures GoodStep(shell, Outcome(shell, Refused)) && shell.operation.status != StatusCanceling
  {
  }

  lemma ReadyIsGood(shell: Shell)
    requires Sound(shell) && shell.operation.status == StatusReady && ValidName(shell.operation.id)
    ensures GoodStep(shell, Next(shell, CreateDirectory))
  {
    hide Next, GoodStep;
    NextIsGood(shell, shell, CreateDirectory);
  }

  lemma AwaitingIsGood(shell: Shell, event: P.Event)
    requires Sound(shell) && shell.operation.status == StatusAwaiting
    ensures GoodStep(shell, HandleAwaiting(shell, event))
  {
    hide End, Created, ProcessEvent, ReadEvent, Message, ValidName, GoodStep, Sound;
    FailIsGood(shell, WrongSource);
    FailIsGood(shell, InvalidFailure);
    FailIsGood(shell, WrongCorrelation);
    FailIsGood(shell, InvalidName);
    FailIsGood(shell, InvalidPhase);
    EndIsGood(shell, StatusCanceled, Message(OperationCanceled));
    if event.result.FailureResult? {
      EndIsGood(shell, StatusFailed, event.result.error);
    }
    match shell.operation.state.phase
    case Process => ProcessEventIsGood(shell, event);
    case CreateDirectory | CreateOut | CreateErr => CreatedIsGood(shell, event);
    case NoPhase =>
    case _ => ReadEventIsGood(shell, event);
  }

  lemma ResumeIsGood(shell: Shell)
    requires Sound(shell) && shell.operation.status == StatusAwaiting
    ensures shell.chunks == [] ==> GoodStep(shell, Resume(shell))
  {
    hide End, PathsFor, Message;
    if shell.operation.state.phase == Process {
      FailIsGood(shell, OutcomeUnknown);
      FailIsGood(shell, Interrupted);
    } else if shell.chunks == [] {
      ResumeRepeatsPhase(shell);
      var dispatch := PhaseDispatch(shell.operation).value;
      assert Starts([dispatch]) == (if dispatch.StartProcess? then 1 else 0) + Starts([]);
    }
  }

  // ---- Runs ----

  datatype Input = Deliver(event: P.Event) | Restart

  // A run so far: the shell in memory, the last checkpoint it emitted, every step it
  // took and every event it was given.
  datatype World = World(shell: Shell, saved: Operation, log: seq<Step>, heard: seq<P.Event>)

  function Record(w: World, outcome: Outcome, heard: seq<P.Event>): World {
    var saved := if outcome.step.Step? && outcome.step.checkpoint.Some? then outcome.step.checkpoint.value else w.saved;
    World(outcome.shell, saved, w.log + [outcome.step], heard)
  }

  // A restart loads the last checkpoint; an operation that has ended is not loaded.
  function Apply(w: World, input: Input): World {
    match input
    case Deliver(event) => Record(w, Handle(w.shell, Some(event)), w.heard + [event])
    case Restart =>
      if IsTerminal(w.saved.status) then w else Record(w, Handle(Load(w.saved), None), w.heard)
  }

  function Run(w: World, inputs: seq<Input>): World {
    if inputs == [] then w else Apply(Run(w, inputs[..|inputs| - 1]), inputs[|inputs| - 1])
  }

  function Fresh(operation: Operation): World {
    World(Load(operation), operation, [], [])
  }

  function TotalStarts(log: seq<Step>): nat {
    if log == [] then 0
    else
      var last := log[|log| - 1];
      TotalStarts(log[..|log| - 1]) + (if last.Step? then Starts(last.dispatches) else 0)
  }

  predicate EndsOperation(step: Step) {
    step.Step? && step.checkpoint.Some? && IsTerminal(step.checkpoint.value.status)
  }

  // Nothing but refusals comes after the step that ends the operation.
  predicate TerminalIsLast(log: seq<Step>) {
    forall i, j | 0 <= i < j < |log| && EndsOperation(log[i]) :: log[j].Refused?
  }

  predicate ExitHeard(heard: seq<P.Event>, exitCode: int) {
    exists i :: 0 <= i < |heard| && heard[i].kind == P.ProcessExited && heard[i].result.ProcessExitResult?
                && ExitStatus(heard[i].result) == exitCode
  }

  ghost predicate RunInvariant(w: World) {
    && Sound(w.shell)
    && w.saved == w.shell.operation
    && (forall i | 0 <= i < |w.log| :: !w.log[i].Panicked?)
    && TotalStarts(w.log) <= 1
    && (TotalStarts(w.log) == 1 ==> Progress(w.saved) >= Process.Rank())
    && TerminalIsLast(w.log)
    && (forall i | 0 <= i < |w.log| && EndsOperation(w.log[i]) :: IsTerminal(w.saved.status))
    && (w.saved.state.pendingExitCode.Some? ==> ExitHeard(w.heard, w.saved.state.pendingExitCode.value))
    && (w.saved.state.result.Some? ==> ExitHeard(w.heard, w.saved.state.result.value.exitCode))
  }

  // An exit code is recorded only from an exit event, and becomes the result's.
  predicate ExitFlows(before: ShellState, after: ShellState, event: Option<P.Event>) {
    && (after.pendingExitCode.Some? ==>
          || after.pendingExitCode == before.pendingExitCode
          || (event.Some? && event.value.kind == P.ProcessExited && event.value.result.ProcessExitResult?
              && after.pendingExitCode.value == ExitStatus(event.value.result)))
    && (after.result.Some? ==>
          || after.result == before.result
          || before.pendingExitCode == Some(after.result.value.exitCode))
  }

  // The two fields a result is made from.
  function ExitFields(shell: Shell): (Option<int>, Option<ShellResult>) {
    (shell.operation.state.pendingExitCode, shell.operation.state.result)
  }

  lemma EndKeepsExit(shell: Shell, status: Status, error: Bytes)
    ensures ExitFields(End(shell, status, error).shell) == ExitFields(shell)
  {
    hide Truncation;
  }

  lemma NextKeepsExit(shell: Shell, phase: Phase)
    ensures ExitFields(Next(shell, phase).shell) == ExitFields(shell)
    ensures ExitFields(DispatchPhase(shell).shell) == ExitFields(shell)
  {
    hide Truncation, PhaseDispatch, Message;
  }

  lemma ReadExitFlows(shell: Shell, event: P.Event)
    ensures ExitFlows(shell.operation.state, ReadEvent(shell, event).shell.operation.state, Some(event))
  {
    hide End, ReadCompleted, Request, Join, Message;
    forall error: Bytes { EndKeepsExit(shell, StatusFailed, error); }
    if event.result.ReadCompletedResult? {
      ReadCompletedExitFlows(shell.(chunks := [], readSize := 0), Join(shell.chunks), event.result.size, Some(event));
    }
  }

  lemma ReadCompletedExitFlows(shell: Shell, data: Bytes, size: int, event: Option<P.Event>)
    ensures ExitFlows(shell.operation.state, ReadCompleted(shell, data, size).shell.operation.state, event)
  {
    hide End, Next, Finish, Message;
    EndKeepsExit(shell, StatusFailed, Message(InvalidReadPhase));
    forall s: Shell, phase: Phase { NextKeepsExit(s, phase); }
    forall s: Shell { FinishFlows(s, event); }
  }

  lemma FinishFlows(shell: Shell, event: Option<P.Event>)
    ensures ExitFlows(shell.operation.state, Finish(shell).shell.operation.state, event)
  {
    hide End, Truncation, BoundParts, PathsFor, Message;
    EndKeepsExit(shell, StatusFailed, Message(NoExitStatus));
  }

  lemma CreatedKeepsExit(shell: Shell, event: P.Event)
    ensures ExitFields(Created(shell, event).shell) == ExitFields(shell)
  {
    hide End, Next, PathsFor, Message;
    EndKeepsExit(shell, StatusFailed, Message(InvalidCreate));
    forall s: Shell, phase: Phase { NextKeepsExit(s, phase); }
  }

  lemma ProcessExitFlows(shell: Shell, event: P.Event)
    ensures ExitFlows(shell.operation.state, ProcessEvent(shell, event).shell.operation.state, Some(event))
  {
    hide End, Next, Truncation, Message;
    forall error: Bytes { EndKeepsExit(shell, StatusFailed, error); }
    forall s: Shell, phase: Phase { NextKeepsExit(s, phase); }
  }

  lemma ResumeKeepsExit(shell: Shell)
    ensures ExitFields(Resume(shell).shell) == ExitFields(shell)
  {
    hide End, DispatchPhase, Message, ValidName;
    forall error: Bytes { EndKeepsExit(shell, StatusFailed, error); }
    NextKeepsExit(shell.(chunks := [], readSize := 0), NoPhase);
  }

  lemma AwaitingExitFlows(shell: Shell, event: P.Event)
    ensures ExitFlows(shell.operation.state, HandleAwaiting(shell, event).shell.operation.state, Some(event))
  {
    hide End, Created, ProcessEvent, ReadEvent, Message, ValidName;
    forall error: Bytes, status: Status { EndKeepsExit(shell, status, error); }
    CreatedKeepsExit(shell, event);
    ProcessExitFlows(shell, event);
    ReadExitFlows(shell, event);
  }

  lemma ExitCodeFlows(shell: Shell, event: Option<P.Event>)
    ensures ExitFlows(shell.operation.state, Handle(shell, event).shell.operation.state, event)
  {
    hide End, Next, Resume, HandleAwaiting, Message, ValidName;
    forall error: Bytes, status: Status { EndKeepsExit(shell, status, error); }
    NextKeepsExit(shell, CreateDirectory);
    ResumeKeepsExit(shell);
    if event.Some? {
      AwaitingExitFlows(shell, event.value);
    }
  }

  lemma RecordKeepsInvariant(w: World, outcome: Outcome, before: Shell, event: Option<P.Event>)
    requires RunInvariant(w) && before.operation == w.saved && GoodStep(before, outcome)
    requires ExitFlows(w.saved.state, outcome.shell.operation.state, event)
    requires event.None? ==> !outcome.step.Refused?
    requires outcome.step.Step? ==> !IsTerminal(w.saved.status)
    ensures RunInvariant(Record(w, outcome, if event.Some? then w.heard + [event.value] else w.heard))
  {
    hide Sound, Truncation;
    var heard := if event.Some? then w.heard + [event.value] else w.heard;
    var r := Record(w, outcome, heard);
    assert r.log[..|w.log|] == w.log;
    assert forall i | 0 <= i < |w.heard| :: heard[i] == w.heard[i];
    if event.Some? {
      assert heard[|w.heard|] == event.value;
    }
  }

  lemma ApplyKeepsInvariant(w: World, input: Input)
    requires RunInvariant(w)
    ensures RunInvariant(Apply(w, input))
    ensures Progress(w.saved) <= Progress(Apply(w, input).saved)
  {
    hide Handle, Truncation;
    match input
    case Deliver(event) =>
      HandleIsGood(w.shell, Some(event));
      ExitCodeFlows(w.shell, Some(event));
      RecordKeepsInvariant(w, Handle(w.shell, Some(event)), w.shell, Some(event));
    case Restart =>
      if !IsTerminal(w.saved.status) {
        var shell := Load(w.saved);
        HandleIsGood(shell, None);
        ExitCodeFlows(shell, None);
        LoadIsNotRefused(shell);
        RecordKeepsInvariant(w, Handle(shell, None), shell, None);
      }
  }

  lemma LoadIsNotRefused(shell: Shell)
    requires Sound(shell) && !IsTerminal(shell.operation.status) && shell.chunks == []
    ensures !Handle(shell, None).step.Refused?
  {
    hide Truncation, PathsFor, Message;
  }

  predicate FreshOperation(operation: Operation) {
    operation.status == StatusReady && Sound(Load(operation))
  }

  // Whatever events arrive in whatever order, and however often the operation is
  // reloaded from its last checkpoint: boundOutput never panics, the process is
  // dispatched at most once, nothing follows the terminal step, the last checkpoint
  // always loads, and a completed shell reports the status of an exit it was told of.
  lemma {:induction false} ShellLifecycle(operation: Operation, inputs: seq<Input>)
    requires FreshOperation(operation)
    ensures var w := Run(Fresh(operation), inputs);
      && RunInvariant(w)
      && Loadable(w.saved)
      && TotalStarts(w.log) <= 1
      && TerminalIsLast(w.log)
      && (w.saved.status == StatusCompleted ==>
            w.saved.state.result.Some? && ExitHeard(w.heard, w.saved.state.result.value.exitCode))
    decreases |inputs|
  {
    hide Apply, Truncation;
    if inputs != [] {
      var before := Run(Fresh(operation), inputs[..|inputs| - 1]);
      ShellLifecycle(operation, inputs[..|inputs| - 1]);
      ApplyKeepsInvariant(before, inputs[|inputs| - 1]);
    }
  }

  // Phases only move forward between any two moments of a run.
  lemma {:induction false} PhasesMoveForward(operation: Operation, inputs: seq<Input>, n: nat)
    requires FreshOperation(operation) && n <= |inputs|
    ensures Progress(Run(Fresh(operation), inputs[..n]).saved) <= Progress(Run(Fresh(operation), inputs).saved)
    decreases |inputs|
  {
    hide Apply, Progress, RunInvariant;
    if n == |inputs| {
      assert inputs[..n] == inputs;
    } else {
      var shorter := inputs[..|inputs| - 1];
      assert shorter[..n] == inputs[..n];
      PhasesMoveForward(operation, shorter, n);
      ShellLifecycle(operation, shorter);
      ApplyKeepsInvariant(Run(Fresh(operation), shorter), inputs[|inputs| - 1]);
    }
  }
}
