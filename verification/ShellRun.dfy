// The phases of a shell operation on the way to its reads, one by one.
module ShellRun {
  import opened Utf8
  import opened Output
  import opened ShellMachine
  import opened ShellProofs
  import opened ShellCapture
  import P = Primitives

  predicate AtPhase(shell: Shell, phase: Phase) {
    && Sound(shell) && shell.operation.status == StatusAwaiting && shell.operation.state.phase == phase
    && shell.chunks == [] && shell.readSize == 0
  }

  // What a run does not change.
  predicate SameSetup(a: Operation, b: Operation) {
    && a.id == b.id && a.limit == b.limit && a.state.baseDirectory == b.state.baseDirectory
    && a.state.program == b.state.program && a.state.command == b.state.command && a.state.directory == b.state.directory
  }

  // A phase that has just been entered, with its dispatch.
  predicate Enters(outcome: Outcome, phase: Phase) {
    && AtPhase(outcome.shell, phase)
    && PhaseDispatch(outcome.shell.operation).Some?
    && DispatchesOf(outcome.step) == [PhaseDispatch(outcome.shell.operation).value]
  }

  // A reload outside the process phase enters the phase again.
  lemma ReloadDoesNotShow(shell: Shell, phase: Phase)
    requires AtPhase(shell, phase) && phase != Process
    ensures Handle(Load(shell.operation), None).shell == shell && Enters(Handle(Load(shell.operation), None), phase)
  {
    hide Handle, Sound, PhaseDispatch;
    ResumeRepeatsPhase(shell);
    assert Load(shell.operation) == shell;
  }

  // The completion of the primitive of a create phase.
  function CreatedEvent(operation: Operation): P.Event {
    P.Event(P.IOCreateCompleted, operation.id, operation.state.phase.Name(),
            P.CreateResult(if operation.state.phase == CreateDirectory then P.Directory else P.RegularFile))
  }

  function StartedEvent(operation: Operation, pid: int): P.Event {
    P.Event(P.ProcessStarted, operation.id, operation.state.phase.Name(), P.ProcessStartedResult(pid))
  }

  function ExitedEvent(operation: Operation, exit: P.Result): P.Event {
    P.Event(P.ProcessExited, operation.id, operation.state.phase.Name(), exit)
  }

  function PhaseAfter(phase: Phase): Phase {
    match phase
    case CreateDirectory => CreateOut
    case CreateOut => CreateErr
    case _ => Process
  }

  lemma CreateMovesOn(shell: Shell, phase: Phase)
    requires AtPhase(shell, phase) && phase in {CreateDirectory, CreateOut, CreateErr}
    ensures var next := Handle(shell, Some(CreatedEvent(shell.operation)));
      Enters(next, PhaseAfter(phase)) && SameSetup(next.shell.operation, shell.operation)
  {
    hide Sound, Message, End;
    HandleIsGood(shell, Some(CreatedEvent(shell.operation)));
    NothingIsTruncated(shell);
    NameOfAwaiting(shell);
  }

  lemma NothingIsTruncated(shell: Shell)
    requires Sound(shell) && shell.operation.status == StatusAwaiting
    ensures shell.operation.state.terminalError == [] && !shell.operation.state.errorTruncated
    ensures forall limit | limit >= 0 :: Truncation([], limit, []) == Bounded([], false)
  {
  }

  lemma NameOfAwaiting(shell: Shell)
    requires Sound(shell) && shell.operation.status == StatusAwaiting
    ensures ValidName(shell.operation.id) && shell.operation.limit > 0
  {
  }

  lemma FirstStep(operation: Operation)
    requires FreshOperation(operation) && ValidName(operation.id)
    ensures var first := Handle(Load(operation), None);
      Enters(first, CreateDirectory) && SameSetup(first.shell.operation, operation)
  {
    hide Message, End;
    HandleIsGood(Load(operation), None);
    assert Truncation([], operation.limit, []) == Bounded([], false);
  }

  lemma ProcessStarts(shell: Shell, pid: int)
    requires AtPhase(shell, Process) && pid > 1
    ensures var started := Handle(shell, Some(StartedEvent(shell.operation, pid)));
      && AtPhase(started.shell, Process) && SameSetup(started.shell.operation, shell.operation)
      && DispatchesOf(started.step) == []
  {
    hide Sound, Message, End;
    HandleIsGood(shell, Some(StartedEvent(shell.operation, pid)));
    NothingIsTruncated(shell);
    NameOfAwaiting(shell);
  }

  // The exit code that is reported: that of the process, or 128 more than its signal.
  function ReportedCode(exit: P.Result): int
    requires exit.ProcessExitResult?
  {
    if exit.signal == 0 then exit.exitCode else exit.signal + 128
  }

  // An exit event leads to the first read, with the exit code recorded.
  lemma ExitStartsReads(shell: Shell, exit: P.Result)
    requires AtPhase(shell, Process) && exit.ProcessExitResult?
    ensures var exited := Handle(shell, Some(ExitedEvent(shell.operation, exit)));
      && Started(exited) && ReadsOut(exited.shell) && SameSetup(exited.shell.operation, shell.operation)
      && exited.shell.operation.state.pendingExitCode == Some(ReportedCode(exit))
  {
    hide Sound, Message, End;
    HandleIsGood(shell, Some(ExitedEvent(shell.operation, exit)));
    NothingIsTruncated(shell);
    NameOfAwaiting(shell);
  }

  lemma EndIsBounded(error: Bytes, limit: nat)
    ensures Truncation(error, limit, []).Bounded?
  {
    hide Truncation;
    var head, skipped, tail, number := TruncationMeaning(error, limit, []);
  }

  // A primitive of the operation that fails ends it with the error, truncated, and one
  // that is canceled ends it as canceled; nothing more is dispatched.
  lemma FailureEnds(shell: Shell, phase: Phase, error: Bytes)
    requires AtPhase(shell, phase)
    ensures var failed := Handle(shell, Some(P.Event(P.Failed, shell.operation.id, phase.Name(), P.FailureResult(error))));
      && failed.shell.operation.status == StatusFailed && DispatchesOf(failed.step) == []
      && var bounded := Truncation(error, shell.operation.limit, []);
         && bounded.Bounded? && failed.shell.operation.state.terminalError == bounded.text
         && failed.shell.operation.state.errorTruncated == bounded.truncated
    ensures var canceled := Handle(shell, Some(P.Event(P.Canceled, shell.operation.id, phase.Name(), P.NoResult)));
      canceled.shell.operation.status == StatusCanceled && DispatchesOf(canceled.step) == []
  {
    hide Truncation, PathsFor, Message, Join;
    EndIsBounded(error, shell.operation.limit);
  }

  // An event of another operation, or of a phase that is over, ends it as failed.
  lemma StrayEventsFail(shell: Shell, phase: Phase, event: P.Event)
    requires AtPhase(shell, phase)
    requires event.source != shell.operation.id || (event.kind != P.Canceled && event.kind != P.Failed && event.correlation != phase.Name())
    ensures var failed := Handle(shell, Some(event));
      failed.shell.operation.status == StatusFailed && DispatchesOf(failed.step) == []
  {
    hide Truncation, PathsFor, Message, Join;
  }

  // A restart while the process runs, or may run, ends the operation as failed: the process
  // is not started again.
  lemma ProcessIsNotResumed(shell: Shell)
    requires AtPhase(shell, Process)
    ensures var failed := Handle(Load(shell.operation), None);
      && failed.shell.operation.status == StatusFailed && DispatchesOf(failed.step) == []
      && failed.shell.operation.state.result.None?
  {
    hide Truncation, PathsFor, Message, Join;
  }

  // An operation that is to be canceled ends so when it is loaded, and one that has ended
  // takes nothing more.
  lemma CancelingEnds(operation: Operation, event: Option<P.Event>)
    requires operation.status == StatusCanceling || IsTerminal(operation.status)
    ensures var outcome := Handle(Load(operation), event);
      if operation.status == StatusCanceling && event.None? then
        && outcome.shell.operation.status == StatusCanceled && DispatchesOf(outcome.step) == []
        && outcome.step.Step? && outcome.step.checkpoint == Some(outcome.shell.operation)
      else outcome == Outcome(Load(operation), Refused)
  {
    hide Truncation, PathsFor, Message, Join;
  }
}
