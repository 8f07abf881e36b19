// The phase machine of a shell operation: harness/operation/shell.go.
module ShellMachine {
  import opened Utf8
  import opened Output
  import P = Primitives

  datatype Option<T> = None | Some(value: T)

  datatype Status =
    StatusReady | StatusAwaiting | StatusCanceling | StatusCompleted | StatusFailed | StatusCanceled

  predicate IsTerminal(status: Status) {
    status in {StatusCompleted, StatusFailed, StatusCanceled}
  }

  datatype Phase =
    | NoPhase
    | CreateDirectory
    | CreateOut
    | CreateErr
    | Process
    | ReadOut
    | ReadOutTail
    | ReadErr
    | ReadErrTail
  {
    // The correlation ID of the primitive a phase starts.
    function Name(): string {
      match this
      case NoPhase => ""
      case CreateDirectory => "create_directory"
      case CreateOut => "create_out"
      case CreateErr => "create_err"
      case Process => "process"
      case ReadOut => "read_out"
      case ReadOutTail => "read_out_tail"
      case ReadErr => "read_err"
      case ReadErrTail => "read_err_tail"
    }

    function Rank(): nat {
      match this
      case NoPhase => 0
      case CreateDirectory => 1
      case CreateOut => 2
      case CreateErr => 3
      case Process => 4
      case ReadOut => 5
      case ReadOutTail => 6
      case ReadErr => 7
      case ReadErrTail => 8
    }

    predicate IsRead() {
      this in {ReadOut, ReadOutTail, ReadErr, ReadErrTail}
    }

    predicate IsTailRead() {
      this in {ReadOutTail, ReadErrTail}
    }
  }

  datatype ShellResult = ShellResult(out: Bytes, err: Bytes, outSize: int, errSize: int, exitCode: int)

  datatype ShellState = ShellState(
    program: Bytes,
    command: Bytes,
    directory: Bytes,
    baseDirectory: Bytes,
    phase: Phase,
    processGroup: int,
    pendingExitCode: Option<int>,
    outSize: int,
    errSize: int,
    inlineOut: Bytes,
    inlineErr: Bytes,
    inlineOutTail: Bytes,
    inlineErrTail: Bytes,
    result: Option<ShellResult>,
    terminalError: Bytes,
    errorTruncated: bool,
    outTruncated: bool,
    errTruncated: bool,
    outPath: Bytes,
    errPath: Bytes)

  // A durable shell operation: what a checkpoint holds.
  datatype Operation = Operation(id: Bytes, limit: int, status: Status, state: ShellState)

  // A shell in memory: the operation and the chunks of the read under way.
  datatype Shell = Shell(operation: Operation, chunks: seq<Bytes>, readSize: int)

  datatype Step =
    | Step(checkpoint: Option<Operation>, dispatches: seq<P.Dispatch>)
    | Refused                                                   // Handle returned an error
    | Panicked                                                  // boundOutput panicked

  datatype Outcome = Outcome(shell: Shell, step: Step)

  datatype Paths = Paths(directory: Bytes, out: Bytes, err: Bytes)

  const SLASH: Byte := 0x2F
  const DOT: Byte := 0x2E

  predicate IsAbsolute(path: Bytes) {
    path != [] && path[0] == SLASH
  }

  // newShellPaths accepts an ID that is one path component.
  predicate ValidName(id: Bytes) {
    id != [] && id != [DOT] && id != [DOT, DOT] && SLASH !in id
  }

  function PathsFor(operation: Operation): Paths {
    var directory := operation.state.baseDirectory + [SLASH] + operation.id;
    Paths(directory, directory + [SLASH] + Ascii("out"), directory + [SLASH] + Ascii("err"))
  }

  function ReadLimit(limit: int): int {
    limit * MAX_RUNE_SIZE
  }

  function TailReadLimit(limit: int): int {
    (limit - limit / 2) * MAX_RUNE_SIZE
  }

  // validateShellState and the checks of shellOperationState.
  predicate Loadable(operation: Operation) {
    var state := operation.state;
    && 0 < operation.limit <= MAX_OUTPUT_LENGTH
    && IsAbsolute(state.program)
    && IsAbsolute(state.baseDirectory)
    && state.processGroup >= 0 && state.processGroup != 1
    && state.outSize >= 0 && state.errSize >= 0
    && |state.inlineOut| + |state.inlineOutTail| <= ReadLimit(operation.limit)
    && |state.inlineErr| + |state.inlineErrTail| <= ReadLimit(operation.limit)
  }

  // NewShell on a loadable operation.
  function Load(operation: Operation): Shell {
    Shell(operation, [], 0)
  }

  function Join(chunks: seq<Bytes>): Bytes {
    if chunks == [] then [] else Join(chunks[..|chunks| - 1]) + chunks[|chunks| - 1]
  }

  function Checkpoint(shell: Shell, dispatches: seq<P.Dispatch>): Outcome {
    var state := shell.operation.state;
    var bounded := Truncation(state.terminalError, shell.operation.limit, []);
    var saved := if state.errorTruncated then state
                 else state.(terminalError := bounded.text, errorTruncated := bounded.truncated);
    var operation := shell.operation.(state := saved);
    Outcome(shell.(operation := operation), Step(Some(operation), dispatches))
  }

  // Why a shell ends early. Values that the source quotes in a text are left out of it.
  datatype Fault =
    | OperationCanceled
    | InvalidPhase
    | InvalidReadPhase
    | InvalidTailSize
    | OutcomeUnknown
    | Interrupted
    | InvalidName
    | InvalidCreate
    | InvalidStart
    | InvalidExit
    | UnexpectedOutput
    | UnexpectedStreamFailure
    | UnexpectedProcessEvent
    | InvalidOutput
    | LimitExceeded
    | InvalidCompletion
    | SizeChanged
    | UnexpectedReadEvent
    | NoExitStatus
    | WrongSource
    | InvalidFailure
    | WrongCorrelation

  function Message(fault: Fault): Bytes {
    Ascii(match fault
          case OperationCanceled => "shell operation canceled"
          case InvalidPhase => "shell operation has invalid phase"
          case InvalidReadPhase => "shell operation has invalid read phase"
          case InvalidTailSize => "invalid shell tail read size"
          case OutcomeUnknown => "shell execution outcome is unknown because process start was not recorded"
          case Interrupted => "shell execution was interrupted before an exit status was recorded"
          case InvalidName => "operation ID is not a path component"
          case InvalidCreate => "create shell artifact returned an invalid result"
          case InvalidStart => "start shell returned an invalid result"
          case InvalidExit => "shell returned an invalid exit result"
          case UnexpectedOutput => "captured shell process produced an unexpected output event"
          case UnexpectedStreamFailure => "captured shell process returned an unexpected stream failure"
          case UnexpectedProcessEvent => "shell process returned unexpected event"
          case InvalidOutput => "shell read returned invalid output"
          case LimitExceeded => "shell read exceeded its configured limit"
          case InvalidCompletion => "shell read returned an invalid completion"
          case SizeChanged => "shell capture size changed while reading its tail"
          case UnexpectedReadEvent => "shell read returned unexpected event"
          case NoExitStatus => "shell execution completed without an exit status"
          case WrongSource => "shell primitive event source is not the operation"
          case InvalidFailure => "shell primitive failed with an invalid result"
          case WrongCorrelation => "shell primitive event correlation is not the phase")
  }

  // The terminal step of a failure or a cancellation.
  function End(shell: Shell, status: Status, error: Bytes): Outcome {
    var state := shell.operation.state.(phase := NoPhase, terminalError := error, errorTruncated := false);
    Checkpoint(Shell(shell.operation.(status := status, state := state), [], 0), [])
  }

  function Fail(shell: Shell, fault: Fault): Outcome {
    End(shell, StatusFailed, Message(fault))
  }

  function Cancel(shell: Shell): Outcome {
    End(shell, StatusCanceled, Message(OperationCanceled))
  }

  function Await(shell: Shell, dispatches: seq<P.Dispatch>): Outcome {
    Checkpoint(shell.(operation := shell.operation.(status := StatusAwaiting)), dispatches)
  }

  function Request(operation: Operation): Option<P.ReadRequest> {
    var paths, phase := PathsFor(operation), operation.state.phase;
    if !phase.IsRead() then None
    else
      var (path, size) := if phase in {ReadOut, ReadOutTail} then (paths.out, operation.state.outSize)
                          else (paths.err, operation.state.errSize);
      if !phase.IsTailRead() then
        Some(P.ReadRequest(operation.id, phase.Name(), path, 0, ReadLimit(operation.limit)))
      else if size <= ReadLimit(operation.limit) then None
      else
        var count := TailReadLimit(operation.limit);
        Some(P.ReadRequest(operation.id, phase.Name(), path, size - count, count))
  }

  // The dispatch that starts the primitive of the current phase.
  function PhaseDispatch(operation: Operation): Option<P.Dispatch> {
    var id, state, paths := operation.id, operation.state, PathsFor(operation);
    match state.phase
    case NoPhase => None
    case CreateDirectory => Some(P.Create(id, state.phase.Name(), P.Directory, paths.directory, 0x1C0))
    case CreateOut => Some(P.Create(id, state.phase.Name(), P.RegularFile, paths.out, 0x180))
    case CreateErr => Some(P.Create(id, state.phase.Name(), P.RegularFile, paths.err, 0x180))
    case Process =>
      Some(P.StartProcess(id, state.phase.Name(), state.program, state.command, state.directory, paths.out, paths.err))
    case _ =>
      match Request(operation)
      case None => None
      case Some(request) => Some(P.Read(request))
  }

  function DispatchPhase(shell: Shell): Outcome {
    match PhaseDispatch(shell.operation)
    case None =>
      Fail(shell, if shell.operation.state.phase.IsRead() then InvalidTailSize
                  else InvalidPhase)
    case Some(dispatch) => Await(shell, [dispatch])
  }

  function WithState(shell: Shell, state: ShellState): Shell {
    shell.(operation := shell.operation.(state := state))
  }

  function Next(shell: Shell, phase: Phase): Outcome {
    DispatchPhase(WithState(shell, shell.operation.state.(phase := phase)))
  }

  function Resume(shell: Shell): Outcome {
    var state := shell.operation.state;
    if state.phase == Process then
      if state.processGroup == 0 then
        Fail(shell, OutcomeUnknown)
      else Fail(shell, Interrupted)
    else if !ValidName(shell.operation.id) then Fail(shell, InvalidName)
    else DispatchPhase(shell.(chunks := [], readSize := 0))
  }

  function Created(shell: Shell, event: P.Event): Outcome {
    var state, paths := shell.operation.state, PathsFor(shell.operation);
    var kind := if state.phase == CreateDirectory then P.Directory else P.RegularFile;
    if event.kind != P.IOCreateCompleted || event.result != P.CreateResult(kind) then
      Fail(shell, InvalidCreate)
    else if state.phase == CreateDirectory then Next(shell, CreateOut)
    else if state.phase == CreateOut then Next(WithState(shell, state.(outPath := paths.out)), CreateErr)
    else Next(WithState(shell, state.(errPath := paths.err)), Process)
  }

  function ExitStatus(exit: P.Result): int
    requires exit.ProcessExitResult?
  {
    if exit.signal != 0 then 128 + exit.signal else exit.exitCode
  }

  function ProcessEvent(shell: Shell, event: P.Event): Outcome {
    var state := shell.operation.state;
    if event.kind == P.ProcessStarted then
      if !event.result.ProcessStartedResult? || event.result.pid <= 1 then
        Fail(shell, InvalidStart)
      else Await(WithState(shell, state.(processGroup := event.result.pid)), [])
    else if event.kind == P.ProcessExited then
      if !event.result.ProcessExitResult? then Fail(shell, InvalidExit)
      else
        Next(WithState(shell, state.(processGroup := 0, pendingExitCode := Some(ExitStatus(event.result)))), ReadOut)
    else if event.kind == P.ProcessOutput then
      Fail(shell, UnexpectedOutput)
    else if event.kind == P.ProcessStreamFailed then
      Fail(shell, UnexpectedStreamFailure)
    else Fail(shell, UnexpectedProcessEvent)
  }

  function Min(a: int, b: int): int {
    if a < b then a else b
  }

  function ReadEvent(shell: Shell, event: P.Event): Outcome {
    match Request(shell.operation)
    case None => Fail(shell, InvalidTailSize)
    case Some(request) =>
      if event.kind == P.IOReadOutput then
        if !event.result.ReadOutputResult? || event.result.offset != request.offset + shell.readSize then
          Fail(shell, InvalidOutput)
        else if |event.result.data| > request.count - shell.readSize then
          Fail(shell, LimitExceeded)
        else
          Outcome(shell.(chunks := shell.chunks + [event.result.data], readSize := shell.readSize + |event.result.data|),
                  Step(None, []))
      else if event.kind == P.IOReadCompleted then
        if || !event.result.ReadCompletedResult? || event.result.size < request.offset
           || shell.readSize != Min(request.count, event.result.size - request.offset) then
          Fail(shell, InvalidCompletion)
        else if shell.operation.state.phase.IsTailRead() && event.result.size != request.offset + request.count then
          Fail(shell, SizeChanged)
        else
          ReadCompleted(shell.(chunks := [], readSize := 0), Join(shell.chunks), event.result.size)
      else Fail(shell, UnexpectedReadEvent)
  }

  function ReadCompleted(shell: Shell, joined: Bytes, size: int): Outcome {
    var limit, state := shell.operation.limit, shell.operation.state;
    var needsTail := size > ReadLimit(limit);
    var headSize := ReadLimit(limit) - TailReadLimit(limit);
    var data := if needsTail && !state.phase.IsTailRead() && 0 <= headSize <= |joined| then joined[..headSize]
                else joined;
    match state.phase
    case ReadOut =>
      Next(WithState(shell, state.(inlineOut := data, outSize := size, inlineOutTail := [])),
           if needsTail then ReadOutTail else ReadErr)
    case ReadOutTail => Next(WithState(shell, state.(inlineOutTail := data)), ReadErr)
    case ReadErr =>
      var read := WithState(shell, state.(inlineErr := data, errSize := size, inlineErrTail := []));
      if needsTail then Next(read, ReadErrTail) else Finish(read)
    case ReadErrTail => Finish(WithState(shell, state.(inlineErrTail := data)))
    case _ => Fail(shell, InvalidReadPhase)
  }

  function Finish(shell: Shell): Outcome {
    var limit, state, paths := shell.operation.limit, shell.operation.state, PathsFor(shell.operation);
    if state.pendingExitCode.None? then Fail(shell, NoExitStatus)
    else
      var out := BoundParts(state.inlineOut, state.inlineOutTail, state.outSize, limit, paths.out);
      var err := BoundParts(state.inlineErr, state.inlineErrTail, state.errSize, limit, paths.err);
      if out.Panic? || err.Panic? then Outcome(shell, Panicked)
      else
        var done := state.(
          result := Some(ShellResult(out.text, err.text, state.outSize, state.errSize, state.pendingExitCode.value)),
          outTruncated := out.truncated, errTruncated := err.truncated,
          outPath := paths.out, errPath := paths.err,
          pendingExitCode := None,
          inlineOut := [], inlineErr := [], inlineOutTail := [], inlineErrTail := [],
          phase := NoPhase);
        Checkpoint(shell.(operation := shell.operation.(status := StatusCompleted, state := done)), [])
  }

  function HandleAwaiting(shell: Shell, event: P.Event): Outcome {
    var operation := shell.operation;
    if event.source != operation.id then Fail(shell, WrongSource)
    else if event.kind == P.Canceled then Cancel(shell)
    else if event.kind == P.Failed then
      if event.result.FailureResult? then End(shell, StatusFailed, event.result.error)
      else Fail(shell, InvalidFailure)
    else if event.correlation != operation.state.phase.Name() then
      Fail(shell, WrongCorrelation)
    else if !ValidName(operation.id) then Fail(shell, InvalidName)
    else
      match operation.state.phase
      case CreateDirectory | CreateOut | CreateErr => Created(shell, event)
      case Process => ProcessEvent(shell, event)
      case ReadOut | ReadOutTail | ReadErr | ReadErrTail => ReadEvent(shell, event)
      case NoPhase => Fail(shell, InvalidPhase)
  }

  function Handle(shell: Shell, event: Option<P.Event>): Outcome {
    var state := shell.operation.state;
    match shell.operation.status
    case StatusReady =>
      if event.Some? || state.phase != NoPhase || state.result.Some? || state.terminalError != [] then
        Outcome(shell, Refused)
      else if !ValidName(shell.operation.id) then Fail(shell, InvalidName)
      else Next(shell, CreateDirectory)
    case StatusAwaiting =>
      if event.None? then Resume(shell) else HandleAwaiting(shell, event.value)
    case StatusCanceling =>
      if event.Some? then Outcome(shell, Refused) else Cancel(shell)
    case _ => Outcome(shell, Refused)
  }
}
