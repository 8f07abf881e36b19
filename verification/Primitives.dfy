// Events and dispatches exchanged between operations and primitives.
module Primitives {
  import opened Utf8

  datatype CreateKind = RegularFile | Directory

  datatype EventType =
    | Failed
    | Canceled
    | IOCreateCompleted
    | IOReadOutput
    | IOReadCompleted
    | ProcessStarted
    | ProcessExited
    | ProcessOutput
    | ProcessStreamFailed
    | ComputeCompleted
    | OtherEvent(name: string)

  datatype Result =
    | NoResult
    | FailureResult(error: Bytes)
    | CreateResult(kind: CreateKind)
    | ReadOutputResult(offset: int, data: Bytes)
    | ReadCompletedResult(size: int)
    | ProcessStartedResult(pid: int)
    | ProcessExitResult(exitCode: int, signal: int)
    | OtherResult

  datatype Event = Event(kind: EventType, source: Bytes, correlation: string, result: Result)

  datatype ReadRequest =
    ReadRequest(source: Bytes, correlation: string, path: Bytes, offset: int, count: int)

  datatype Dispatch =
    | Create(source: Bytes, correlation: string, kind: CreateKind, path: Bytes, mode: nat)
    | Read(request: ReadRequest)
    | StartProcess(source: Bytes, correlation: string, program: Bytes, command: Bytes,
                   directory: Bytes, stdoutPath: Bytes, stderrPath: Bytes)
}
