// The actor that drives one shell operation by updating its state in place. Each
// method is proved against the function of ShellMachine that it carries out.
module ShellActors {
  import opened Utf8
  import opened Output
  import opened ShellMachine
  import P = Primitives

  class ShellActor {
    const id: Bytes
    const limit: int
    var status: Status
    var state: ShellState
    var chunks: seq<Bytes>
    var readSize: int

    ghost function Value(): Shell
      reads this
    {
      Shell(Operation(id, limit, status, state), chunks, readSize)
    }

    // NewShell, once the state has been decoded.
    constructor (current: Operation)
      requires Loadable(current)
      ensures Value() == Load(current)
    {
      id, limit, status, state := current.id, current.limit, current.status, current.state;
      chunks, readSize := [], 0;
    }

    method Handle(event: Option<P.Event>) returns (step: Step)
      modifies this
      ensures Outcome(Value(), step) == ShellMachine.Handle(old(Value()), event)
    {
      hide ShellMachine.Next, ShellMachine.Resume, ShellMachine.HandleAwaiting, End, Message, ShellMachine.ValidName;
      match status
      case StatusReady =>
        if event.Some? || state.phase != NoPhase || state.result.Some? || state.terminalError != [] {
          return Refused;
        }
        if !ValidName(id) {
          step := Fail(InvalidName);
          return;
        }
        step := Next(CreateDirectory);
      case StatusAwaiting =>
        if event.None? {
          step := Resume();
        } else {
          step := HandleAwaiting(event.value);
        }
      case StatusCanceling =>
        if event.Some? {
          return Refused;
        }
        step := Cancel();
      case _ => return Refused;
    }

    method Resume() returns (step: Step)
      modifies this
      ensures Outcome(Value(), step) == ShellMachine.Resume(old(Value()))
    {
      hide End, Message, ShellMachine.DispatchPhase, ShellMachine.ValidName;
      if state.phase == Process {
        if state.processGroup == 0 {
          step := Fail(OutcomeUnknown);
          return;
        }
        step := Fail(Interrupted);
        return;
      }
      if !ValidName(id) {
        step := Fail(InvalidName);
        return;
      }
      chunks, readSize := [], 0;
      step := DispatchPhase();
    }

    method Next(phase: Phase) returns (step: Step)
      modifies this
      ensures Outcome(Value(), step) == ShellMachine.Next(old(Value()), phase)
    {
      hide ShellMachine.DispatchPhase;
      state := state.(phase := phase);
      step := DispatchPhase();
    }

    method DispatchPhase() returns (step: Step)
      modifies this
      ensures Outcome(Value(), step) == ShellMachine.DispatchPhase(old(Value()))
    {
      hide PhaseDispatch, End, Checkpoint, Message;
      var dispatch := PhaseDispatch(Operation(id, limit, status, state));
      if dispatch.None? {
        step := Fail(if state.phase.IsRead() then InvalidTailSize else InvalidPhase);
        return;
      }
      step := Await([dispatch.value]);
    }

    method HandleAwaiting(event: P.Event) returns (step: Step)
      modifies this
      ensures Outcome(Value(), step) == ShellMachine.HandleAwaiting(old(Value()), event)
    {
      hide ShellMachine.Created, ShellMachine.ProcessEvent, ShellMachine.ReadEvent, End, Message, ShellMachine.ValidName;
      if event.source != id {
        step := Fail(WrongSource);
        return;
      }
      if event.kind == P.Canceled {
        step := Cancel();
        return;
      }
      if event.kind == P.Failed {
        if !event.result.FailureResult? {
          step := Fail(InvalidFailure);
          return;
        }
        step := Ended(StatusFailed, event.result.error);
        return;
      }
      if event.correlation != state.phase.Name() {
        step := Fail(WrongCorrelation);
        return;
      }
      if !ValidName(id) {
        step := Fail(InvalidName);
        return;
      }
      match state.phase
      case CreateDirectory | CreateOut | CreateErr => step := Created(event);
      case Process => step := ProcessEvent(event);
      case ReadOut | ReadOutTail | ReadErr | ReadErrTail => step := ReadEvent(event);
      case NoPhase => step := Fail(InvalidPhase);
    }

    method Created(event: P.Event) returns (step: Step)
      modifies this
      ensures Outcome(Value(), step) == ShellMachine.Created(old(Value()), event)
    {
      hide ShellMachine.Next, End, Message, PathsFor;
      var paths := PathsFor(Operation(id, limit, status, state));
      var kind := P.RegularFile;
      if state.phase == CreateDirectory {
        kind := P.Directory;
      }
      if event.kind != P.IOCreateCompleted || event.result != P.CreateResult(kind) {
        step := Fail(InvalidCreate);
        return;
      }
      match state.phase
      case CreateDirectory => step := Next(CreateOut);
      case CreateOut =>
        state := state.(outPath := paths.out);
        step := Next(CreateErr);
      case _ =>
        state := state.(errPath := paths.err);
        step := Next(Process);
    }

    method ProcessEvent(event: P.Event) returns (step: Step)
      modifies this
      ensures Outcome(Value(), step) == ShellMachine.ProcessEvent(old(Value()), event)
    {
      hide ShellMachine.Next, End, Checkpoint, Message;
      match event.kind
      case ProcessStarted =>
        if !event.result.ProcessStartedResult? || event.result.pid <= 1 {
          step := Fail(InvalidStart);
          return;
        }
        state := state.(processGroup := event.result.pid);
        step := Await([]);
      case ProcessExited =>
        if !event.result.ProcessExitResult? {
          step := Fail(InvalidExit);
          return;
        }
        var exitCode := ExitStatus(event.result);
        state := state.(processGroup := 0);
        state := state.(pendingExitCode := Some(exitCode));
        step := Next(ReadOut);
      case ProcessOutput => step := Fail(UnexpectedOutput);
      case ProcessStreamFailed => step := Fail(UnexpectedStreamFailure);
      case _ => step := Fail(UnexpectedProcessEvent);
    }

    method ReadEvent(event: P.Event) returns (step: Step)
      modifies this
      ensures Outcome(Value(), step) == ShellMachine.ReadEvent(old(Value()), event)
    {
      hide ShellMachine.ReadCompleted, Request, End, Message, Join;
      var requested := Request(Operation(id, limit, status, state));
      if requested.None? {
        step := Fail(InvalidTailSize);
        return;
      }
      var request := requested.value;
      match event.kind
      case IOReadOutput =>
        if !event.result.ReadOutputResult? || event.result.offset != request.offset + readSize {
          step := Fail(InvalidOutput);
          return;
        }
        if |event.result.data| > request.count - readSize {
          step := Fail(LimitExceeded);
          return;
        }
        chunks := chunks + [event.result.data];
        readSize := readSize + |event.result.data|;
        return Step(None, []);
      case IOReadCompleted =>
        if || !event.result.ReadCompletedResult? || event.result.size < request.offset
           || readSize != Min(request.count, event.result.size - request.offset) {
          step := Fail(InvalidCompletion);
          return;
        }
        if state.phase.IsTailRead() && event.result.size != request.offset + request.count {
          step := Fail(SizeChanged);
          return;
        }
        var data := Join(chunks);
        chunks, readSize := [], 0;
        step := ReadCompleted(data, event.result.size);
      case _ => step := Fail(UnexpectedReadEvent);
    }

    method ReadCompleted(joined: Bytes, size: int) returns (step: Step)
      modifies this
      ensures Outcome(Value(), step) == ShellMachine.ReadCompleted(old(Value()), joined, size)
    {
      hide ShellMachine.Next, ShellMachine.Finish, End, Message;
      var data := joined;
      var needsTail := size > ReadLimit(limit);
      if needsTail && !state.phase.IsTailRead() {
        var headSize := ReadLimit(limit) - TailReadLimit(limit);
        if 0 <= headSize <= |data| {
          data := data[..headSize];
        }
      }
      match state.phase
      case ReadOut =>
        state := state.(inlineOut := data, outSize := size, inlineOutTail := []);
        if needsTail {
          step := Next(ReadOutTail);
          return;
        }
        step := Next(ReadErr);
      case ReadOutTail =>
        state := state.(inlineOutTail := data);
        step := Next(ReadErr);
      case ReadErr =>
        state := state.(inlineErr := data, errSize := size, inlineErrTail := []);
        if needsTail {
          step := Next(ReadErrTail);
          return;
        }
        step := Finish();
      case ReadErrTail =>
        state := state.(inlineErrTail := data);
        step := Finish();
      case _ => step := Fail(InvalidReadPhase);
    }

    method Finish() returns (step: Step)
      modifies this
      ensures Outcome(Value(), step) == ShellMachine.Finish(old(Value()))
    {
      hide BoundParts, End, Checkpoint, Message, PathsFor;
      if state.pendingExitCode.None? {
        step := Fail(NoExitStatus);
        return;
      }
      var paths := PathsFor(Operation(id, limit, status, state));
      var out := BoundOutput(state.inlineOut, state.inlineOutTail, state.outSize, limit, paths.out);
      var err := BoundOutput(state.inlineErr, state.inlineErrTail, state.errSize, limit, paths.err);
      if out.Panic? || err.Panic? {
        return Panicked;
      }
      state := state.(
        result := Some(ShellResult(out.text, err.text, state.outSize, state.errSize, state.pendingExitCode.value)),
        outTruncated := out.truncated, errTruncated := err.truncated);
      state := state.(outPath := paths.out, errPath := paths.err);
      state := state.(pendingExitCode := None, inlineOut := [], inlineErr := [], inlineOutTail := [], inlineErrTail := []);
      state := state.(phase := NoPhase);
      status := StatusCompleted;
      step := TakeCheckpoint([]);
    }

    method Await(dispatches: seq<P.Dispatch>) returns (step: Step)
      modifies this
      ensures Outcome(Value(), step) == ShellMachine.Await(old(Value()), dispatches)
    {
      hide Checkpoint;
      status := StatusAwaiting;
      step := TakeCheckpoint(dispatches);
    }

    method TakeCheckpoint(dispatches: seq<P.Dispatch>) returns (step: Step)
      modifies this
      ensures Outcome(Value(), step) == Checkpoint(old(Value()), dispatches)
    {
      hide RuneCount, Sanitize, HeadSize, TailSize, Marker;
      if !state.errorTruncated {
        var bounded := BoundOutput(state.terminalError, [], |state.terminalError|, limit, []);
        state := state.(terminalError := bounded.text, errorTruncated := bounded.truncated);
      }
      return Step(Some(Operation(id, limit, status, state)), dispatches);
    }

    method Fail(fault: Fault) returns (step: Step)
      modifies this
      ensures Outcome(Value(), step) == ShellMachine.Fail(old(Value()), fault)
    {
      hide End, Message;
      step := Ended(StatusFailed, Message(fault));
    }

    method Cancel() returns (step: Step)
      modifies this
      ensures Outcome(Value(), step) == ShellMachine.Cancel(old(Value()))
    {
      hide End, Message;
      step := Ended(StatusCanceled, Message(OperationCanceled));
    }

    // The common end of fail and cancel.
    method Ended(terminal: Status, error: Bytes) returns (step: Step)
      modifies this
      ensures Outcome(Value(), step) == End(old(Value()), terminal, error)
    {
      hide Checkpoint;
      chunks, readSize := [], 0;
      state := state.(phase := NoPhase, terminalError := error, errorTruncated := false);
      status := terminal;
      step := TakeCheckpoint([]);
    }
  }
}
