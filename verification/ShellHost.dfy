// A whole run of a shell operation on a host that performs what it dispatches, from its
// first step to its report, with restarts anywhere but while the process runs.
module ShellHost {
  import opened Utf8
  import opened Output
  import opened ShellMachine
  import opened ShellProofs
  import opened ShellCapture
  import opened ShellRun
  import P = Primitives
  import FileStream
  import Manager

  // ---- The host ----

  datatype Entry = Folder | File(content: Bytes)

  type Files = map<Bytes, Entry>

  // What running a program with a command in a directory does.
  datatype Behaviour = Behaviour(pid: int, exit: P.Result, out: Bytes, err: Bytes)

  type Commands = (Bytes, Bytes, Bytes) -> Behaviour

  predicate IsFolder(files: Files, path: Bytes) {
    path in files && files[path].Folder?
  }

  predicate IsFile(files: Files, path: Bytes) {
    path in files && files[path].File?
  }

  // All before the last slash is a folder.
  predicate HasParent(files: Files, path: Bytes) {
    exists i :: 0 <= i < |path| && path[i] == SLASH && SLASH !in path[i + 1..] && IsFolder(files, path[..i])
  }

  // What is there stays as it is.
  function Made(files: Files, kind: P.CreateKind, path: Bytes): Files {
    if path in files then files else files[path := if kind.Directory? then Folder else File([])]
  }

  datatype Performed = Performed(files: Files, events: seq<P.Event>)

  // What primitives do on a dispatch: creating uses what exists if it is of the kind; a
  // process writes what it puts out and what it complains of to two different files that
  // must be there; and a read gives what the file at its path holds.
  function Perform(dispatch: P.Dispatch, files: Files, commands: Commands): Performed {
    match dispatch
    case Create(source, correlation, kind, path, _) =>
      if !HasParent(files, path) || (path in files && files[path].Folder? != kind.Directory?) then
        Performed(files, [P.Event(P.Failed, source, correlation, P.FailureResult([]))])
      else
        Performed(Made(files, kind, path), [P.Event(P.IOCreateCompleted, source, correlation, P.CreateResult(kind))])
    case StartProcess(source, correlation, program, command, directory, stdoutPath, stderrPath) =>
      if stdoutPath == stderrPath || !IsFile(files, stdoutPath) || !IsFile(files, stderrPath) then
        Performed(files, [P.Event(P.Failed, source, correlation, P.FailureResult([]))])
      else
        var does := commands(program, command, directory);
        Performed(files[stdoutPath := File(does.out)][stderrPath := File(does.err)],
                  [P.Event(P.ProcessStarted, source, correlation, P.ProcessStartedResult(does.pid)),
                   P.Event(P.ProcessExited, source, correlation, does.exit)])
    case Read(request) =>
      if !IsFile(files, request.path) || !FileStream.ValidRequest(request) then
        Performed(files, [FileStream.Failure(request)])
      else Performed(files, FileStream.StreamEvents(request, files[request.path].content))
  }

  // The shell, the files, and what has been dispatched and not performed.
  datatype Host = Host(shell: Shell, files: Files, dispatches: seq<P.Dispatch>)

  // The dispatch is performed and its events are handled. A restart may come before any of
  // the events: then all that is left of the shell is its checkpoint.
  function Advance(w: Host, commands: Commands, cuts: seq<nat>): Host
    decreases |cuts|
  {
    if |w.dispatches| != 1 then w
    else
      var performed := Perform(w.dispatches[0], w.files, commands);
      if cuts == [] || cuts[0] >= |performed.events| then
        Host(Feed(w.shell, performed.events), performed.files, Dispatched(w.shell, performed.events))
      else
        var reloaded := Handle(Load(Feed(w.shell, performed.events[..cuts[0]]).operation), None);
        Advance(Host(reloaded.shell, performed.files, DispatchesOf(reloaded.step)), commands, cuts[1..])
  }

  // A number of dispatches in turn, with restarts in any but that of the process.
  function RunOn(w: Host, commands: Commands, restarts: seq<seq<nat>>, n: nat): Host
    decreases n
  {
    if n == 0 then w
    else
      var cuts := if restarts == [] || (w.dispatches != [] && w.dispatches[0].StartProcess?) then [] else restarts[0];
      RunOn(Advance(w, commands, cuts), commands, if restarts == [] then [] else restarts[1..], n - 1)
  }

  function Begin(operation: Operation, files: Files): Host {
    var first := Handle(Load(operation), None);
    Host(first.shell, files, DispatchesOf(first.step))
  }

  // ---- Stages of a run ----

  // The base directory is there, and nothing is in the way of what is to be created.
  predicate Prepared(files: Files, operation: Operation) {
    var paths := PathsFor(operation);
    && IsFolder(files, operation.state.baseDirectory)
    && (paths.directory in files ==> files[paths.directory].Folder?)
    && (paths.out in files ==> files[paths.out].File?)
    && (paths.err in files ==> files[paths.err].File?)
  }

  // So it stays, with what has been created before a phase.
  predicate ReadyFor(files: Files, operation: Operation, phase: Phase) {
    var paths := PathsFor(operation);
    && Prepared(files, operation)
    && (phase.Rank() > CreateDirectory.Rank() ==> paths.directory in files)
    && (phase.Rank() > CreateOut.Rank() ==> paths.out in files)
    && (phase.Rank() > CreateErr.Rank() ==> paths.err in files)
  }

  // No other files are touched.
  predicate OthersUntouched(before: Files, after: Files, operation: Operation) {
    var paths := PathsFor(operation);
    && after.Keys <= before.Keys + {paths.directory, paths.out, paths.err}
    && forall path | path in before && path != paths.out && path != paths.err :: path in after && after[path] == before[path]
  }

  function Does(commands: Commands, operation: Operation): Behaviour {
    commands(operation.state.program, operation.state.command, operation.state.directory)
  }

  predicate Captured(files: Files, operation: Operation, does: Behaviour) {
    var paths := PathsFor(operation);
    && IsFile(files, paths.out) && files[paths.out].content == does.out
    && IsFile(files, paths.err) && files[paths.err].content == does.err
  }

  predicate InCreates(w: Host, operation: Operation) {
    var phase := w.shell.operation.state.phase;
    && phase in {CreateDirectory, CreateOut, CreateErr, Process} && AtPhase(w.shell, phase)
    && PhaseDispatch(w.shell.operation).Some? && w.dispatches == [PhaseDispatch(w.shell.operation).value]
    && ReadyFor(w.files, operation, phase)
  }

  predicate InReads(w: Host, operation: Operation, does: Behaviour) {
    && (ReadsOut(w.shell) || ReadsOutTail(w.shell, does.out) || ReadsErr(w.shell, does.out)
        || ReadsErrTail(w.shell, does.out, does.err))
    && w.dispatches == [P.Read(RequestOf(w.shell))]
    && does.exit.ProcessExitResult? && w.shell.operation.state.pendingExitCode == Some(ReportedCode(does.exit))
    && Captured(w.files, operation, does)
  }

  function FolderOf(operation: Operation): Bytes {
    operation.state.baseDirectory + Ascii("/") + operation.id
  }

  // The operation has completed. Its two paths, of the files out and err in its own folder
  // of the base directory, hold what the command put out and what it complained of, and
  // its result is the truncation of the two, with their sizes and the exit code.
  predicate Complete(w: Host, operation: Operation, does: Behaviour) {
    var done := w.shell.operation;
    && w.dispatches == [] && done.status == StatusCompleted
    && done.state.outPath == FolderOf(operation) + Ascii("/out") && done.state.errPath == FolderOf(operation) + Ascii("/err")
    && done.state.outPath != done.state.errPath
    && IsFile(w.files, done.state.outPath) && w.files[done.state.outPath].content == does.out
    && IsFile(w.files, done.state.errPath) && w.files[done.state.errPath].content == does.err
    && var out := Truncation(does.out, operation.limit, done.state.outPath);
       var err := Truncation(does.err, operation.limit, done.state.errPath);
    && out.Bounded? && err.Bounded? && does.exit.ProcessExitResult?
    && done.state.result == Some(ShellResult(out.text, err.text, |does.out|, |does.err|, ReportedCode(does.exit)))
    && done.state.outTruncated == out.truncated && done.state.errTruncated == err.truncated
  }

  ghost predicate OnItsWay(w: Host, operation: Operation, commands: Commands, files: Files) {
    var does := Does(commands, operation);
    && does.pid > 1 && does.exit.ProcessExitResult?
    && OthersUntouched(files, w.files, operation)
    && (Complete(w, operation, does)
        || (SameSetup(w.shell.operation, operation) && (InCreates(w, operation) || InReads(w, operation, does))))
  }

  lemma PathsAreDistinct(operation: Operation)
    ensures var paths := PathsFor(operation);
      paths.directory != paths.out && paths.directory != paths.err && paths.out != paths.err
      && operation.state.baseDirectory !in {paths.directory, paths.out, paths.err}
  {
    var paths := PathsFor(operation);
    var n := |paths.directory|;
    assert paths.out[n + 1..] == Ascii("out") && paths.err[n + 1..] == Ascii("err");
    assert Ascii("out")[0] != Ascii("err")[0];
  }

  lemma PathsHaveParents(operation: Operation, files: Files)
    requires ValidName(operation.id)
    ensures IsFolder(files, operation.state.baseDirectory) ==> HasParent(files, PathsFor(operation).directory)
    ensures IsFolder(files, PathsFor(operation).directory) ==>
      HasParent(files, PathsFor(operation).out) && HasParent(files, PathsFor(operation).err)
  {
    var paths := PathsFor(operation);
    ParentOf(files, operation.state.baseDirectory, operation.id);
    ParentOf(files, paths.directory, Ascii("out"));
    ParentOf(files, paths.directory, Ascii("err"));
  }

  lemma ParentOf(files: Files, parent: Bytes, name: Bytes)
    requires SLASH !in name
    ensures IsFolder(files, parent) ==> HasParent(files, parent + [SLASH] + name)
  {
    var path := parent + [SLASH] + name;
    assert path[|parent|] == SLASH && path[|parent| + 1..] == name && path[..|parent|] == parent;
  }

  // ---- Creating ----

  // The path that a create phase creates.
  function PathOf(operation: Operation, phase: Phase): Bytes {
    var paths := PathsFor(operation);
    if phase == CreateDirectory then paths.directory else if phase == CreateOut then paths.out else paths.err
  }

  function KindOf(phase: Phase): P.CreateKind {
    if phase == CreateDirectory then P.Directory else P.RegularFile
  }

  lemma MadeIsReady(files: Files, operation: Operation, phase: Phase)
    requires ReadyFor(files, operation, phase) && phase in {CreateDirectory, CreateOut, CreateErr}
    ensures var made := Made(files, KindOf(phase), PathOf(operation, phase));
      && ReadyFor(made, operation, phase) && ReadyFor(made, operation, PhaseAfter(phase))
      && Made(made, KindOf(phase), PathOf(operation, phase)) == made
      && OthersUntouched(files, made, operation)
  {
    hide PathsFor;
    PathsAreDistinct(operation);
  }

  lemma ReadyHasParent(files: Files, operation: Operation, phase: Phase)
    requires ReadyFor(files, operation, phase) && phase in {CreateDirectory, CreateOut, CreateErr} && ValidName(operation.id)
    ensures var path := PathOf(operation, phase);
      HasParent(files, path) && (path in files ==> files[path].Folder? == KindOf(phase).Directory?)
  {
    hide PathsFor, HasParent, ValidName;
    PathsHaveParents(operation, files);
  }

  lemma CreateIsPerformed(h: Host, operation: Operation, commands: Commands, phase: Phase)
    requires InCreates(h, operation) && SameSetup(h.shell.operation, operation) && h.shell.operation.state.phase == phase
    requires phase != Process
    ensures |h.dispatches| == 1 && !h.dispatches[0].StartProcess?
    ensures Perform(h.dispatches[0], h.files, commands)
      == Performed(Made(h.files, KindOf(phase), PathOf(operation, phase)), [CreatedEvent(h.shell.operation)])
  {
    hide HasParent, Made, ReadyFor, Sound;
    NameOfAwaiting(h.shell);
    ReadyHasParent(h.files, operation, phase);
    assert PathsFor(h.shell.operation) == PathsFor(operation);
  }

  lemma FeedOne(shell: Shell, event: P.Event)
    ensures Feed(shell, [event]) == Handle(shell, Some(event)).shell
    ensures Dispatched(shell, [event]) == DispatchesOf(Handle(shell, Some(event)).step)
  {
    hide Handle;
    FeedFirst(shell, event, []);
    FeedNothing(Handle(shell, Some(event)).shell);
    assert [event] + [] == [event];
  }

  lemma {:induction false} CreateAdvances(h: Host, operation: Operation, commands: Commands, cuts: seq<nat>)
    requires InCreates(h, operation) && SameSetup(h.shell.operation, operation)
    requires h.shell.operation.state.phase != Process
    ensures var phase := h.shell.operation.state.phase;
      var created := Handle(h.shell, Some(CreatedEvent(h.shell.operation)));
      var next := Advance(h, commands, cuts);
      && next == Host(created.shell, Made(h.files, KindOf(phase), PathOf(operation, phase)), DispatchesOf(created.step))
      && InCreates(next, operation) && SameSetup(next.shell.operation, operation)
      && next.shell.operation.state.phase == PhaseAfter(phase)
      && OthersUntouched(h.files, next.files, operation)
    decreases |cuts|
  {
    hide Handle, Perform, PhaseDispatch, Made, ReadyFor, Sound, Feed, Dispatched, OthersUntouched, PathsFor;
    var phase := h.shell.operation.state.phase;
    var event := CreatedEvent(h.shell.operation);
    CreateIsPerformed(h, operation, commands, phase);
    CreateMovesOn(h.shell, phase);
    MadeIsReady(h.files, operation, phase);
    var made := Made(h.files, KindOf(phase), PathOf(operation, phase));
    if cuts == [] || cuts[0] >= 1 {
      FeedOne(h.shell, event);
    } else {
      FeedNothing(h.shell);
      assert [event][..0] == [];
      ReloadDoesNotShow(h.shell, phase);
      CreateAdvances(Host(h.shell, made, h.dispatches), operation, commands, cuts[1..]);
    }
  }

  // ---- The process ----

  lemma ProcessIsPerformed(h: Host, operation: Operation, commands: Commands)
    requires InCreates(h, operation) && SameSetup(h.shell.operation, operation) && h.shell.operation.state.phase == Process
    requires Does(commands, operation).exit.ProcessExitResult?
    ensures |h.dispatches| == 1 && h.dispatches[0].StartProcess?
    ensures var does, paths := Does(commands, operation), PathsFor(operation);
      var files := h.files[paths.out := File(does.out)][paths.err := File(does.err)];
      && Perform(h.dispatches[0], h.files, commands)
         == Performed(files, [StartedEvent(h.shell.operation, does.pid), ExitedEvent(h.shell.operation, does.exit)])
      && Captured(files, operation, does) && OthersUntouched(h.files, files, operation)
  {
    hide Sound;
    PathsAreDistinct(operation);
    assert PathsFor(h.shell.operation) == PathsFor(operation);
  }

  lemma FeedTwo(shell: Shell, a: P.Event, b: P.Event)
    ensures var first := Handle(shell, Some(a));
      var second := Handle(first.shell, Some(b));
      && Feed(shell, [a, b]) == second.shell
      && Dispatched(shell, [a, b]) == DispatchesOf(first.step) + DispatchesOf(second.step)
  {
    hide Handle;
    FeedFirst(shell, a, [b]);
    FeedOne(Handle(shell, Some(a)).shell, b);
    assert [a] + [b] == [a, b];
  }

  lemma ProcessAdvances(h: Host, operation: Operation, commands: Commands)
    requires InCreates(h, operation) && SameSetup(h.shell.operation, operation) && h.shell.operation.state.phase == Process
    requires Does(commands, operation).pid > 1 && Does(commands, operation).exit.ProcessExitResult?
    ensures var next := Advance(h, commands, []);
      && InReads(next, operation, Does(commands, operation)) && SameSetup(next.shell.operation, operation)
      && OthersUntouched(h.files, next.files, operation)
      && Progress(next.shell.operation) > Progress(h.shell.operation)
  {
    hide Handle, Perform, PhaseDispatch, ReadyFor, Sound, Feed, Dispatched, OthersUntouched, PathsFor, Captured, RequestOf;
    var does := Does(commands, operation);
    ProcessIsPerformed(h, operation, commands);
    ProcessStarts(h.shell, does.pid);
    var started := Handle(h.shell, Some(StartedEvent(h.shell.operation, does.pid)));
    ExitStartsReads(started.shell, does.exit);
    FeedTwo(h.shell, StartedEvent(h.shell.operation, does.pid), ExitedEvent(h.shell.operation, does.exit));
    assert started.shell.operation.state.phase == h.shell.operation.state.phase;
  }

  // ---- Reading ----

  // A read that is performed, wherever it is cut short and started again, ends as the
  // completion of what the file at its path holds.
  lemma {:induction false} ReadAdvances(h: Host, commands: Commands, content: Bytes, cuts: seq<nat>)
    requires AtStart(h.shell) && h.dispatches == [P.Read(RequestOf(h.shell))] && Fits(h.shell, content)
    requires IsFile(h.files, RequestOf(h.shell).path) && h.files[RequestOf(h.shell).path].content == content
    ensures var read := Completion(h.shell, content);
      Advance(h, commands, cuts) == Host(read.shell, h.files, DispatchesOf(read.step))
    decreases |cuts|
  {
    hide Handle, ReadCompleted, Feed, Dispatched, Slice, RequestOf, Fits, FileStream.StreamEvents;
    var r := RequestOf(h.shell);
    assert Perform(h.dispatches[0], h.files, commands) == Performed(h.files, FileStream.StreamEvents(r, content));
    if cuts == [] || cuts[0] >= |FileStream.StreamEvents(r, content)| {
      ConsumesStream(h.shell, content);
    } else {
      CutReadStartsAgain(h.shell, content, cuts[0]);
      ReadAdvances(h, commands, content, cuts[1..]);
    }
  }

  lemma RequestPath(shell: Shell, operation: Operation)
    requires Reading(shell) && SameSetup(shell.operation, operation)
    ensures RequestOf(shell).path
      == if shell.operation.state.phase in {ReadOut, ReadOutTail} then PathsFor(operation).out else PathsFor(operation).err
  {
  }

  // What a read leads to: the next read, or the end.
  predicate LeadsOn(shell: Shell, next: Outcome, operation: Operation, does: Behaviour) {
    || (&& Started(next) && SameRun(next.shell.operation, shell.operation)
        && Progress(next.shell.operation) > Progress(shell.operation)
        && (ReadsOutTail(next.shell, does.out) || ReadsErr(next.shell, does.out) || ReadsErrTail(next.shell, does.out, does.err)))
    || (Reports(next.shell.operation, shell.operation, does.out, does.err) && DispatchesOf(next.step) == [])
  }

  lemma ReadLeadsOn(shell: Shell, operation: Operation, does: Behaviour) returns (content: Bytes)
    requires SameSetup(shell.operation, operation)
    requires ReadsOut(shell) || ReadsOutTail(shell, does.out) || ReadsErr(shell, does.out)
             || ReadsErrTail(shell, does.out, does.err)
    ensures AtStart(shell) && Fits(shell, content) && LeadsOn(shell, Completion(shell, content), operation, does)
    ensures || (RequestOf(shell).path == PathsFor(operation).out && content == does.out)
            || (RequestOf(shell).path == PathsFor(operation).err && content == does.err)
  {
    hide Sound, Completion, Fits, Started, Reports, PathsFor, RequestOf, Captured, HeadCaptured, ReadParts;
    RequestPath(shell, operation);
    if ReadsOut(shell) {
      content := does.out;
      ReadsOutStep(shell, content);
    } else if ReadsOutTail(shell, does.out) {
      content := does.out;
      ReadsOutTailStep(shell, content);
    } else if ReadsErr(shell, does.out) {
      content := does.err;
      ReadsErrStep(shell, does.out, content);
    } else {
      content := does.err;
      ReadsErrTailStep(shell, does.out, content);
    }
  }

  lemma ReportIsComplete(h: Host, operation: Operation, shell: Shell, does: Behaviour)
    requires SameSetup(shell.operation, operation) && Captured(h.files, operation, does) && h.dispatches == []
    requires does.exit.ProcessExitResult? && shell.operation.state.pendingExitCode == Some(ReportedCode(does.exit))
    requires Reports(h.shell.operation, shell.operation, does.out, does.err)
    ensures Complete(h, operation, does)
  {
    hide Truncation, Ascii;
    PathsAreDistinct(operation);
    PathsAreNamed(operation);
    assert PathsFor(shell.operation) == PathsFor(operation);
  }

  lemma PathsAreNamed(operation: Operation)
    ensures PathsFor(operation).out == FolderOf(operation) + Ascii("/out")
    ensures PathsFor(operation).err == FolderOf(operation) + Ascii("/err")
  {
    assert Ascii("/") == [SLASH];
    assert Ascii("/out") == [SLASH] + Ascii("out") && Ascii("/err") == [SLASH] + Ascii("err");
  }

  lemma FitsIsThere(shell: Shell, content: Bytes)
    requires AtStart(shell) && Fits(shell, content)
    ensures Reading(shell) && 0 <= RequestOf(shell).offset <= |content|
  {
  }

  lemma ReadsAdvance(h: Host, operation: Operation, commands: Commands, cuts: seq<nat>)
    requires InReads(h, operation, Does(commands, operation)) && SameSetup(h.shell.operation, operation)
    ensures var next, does := Advance(h, commands, cuts), Does(commands, operation);
      && next == Advance(h, commands, [])
      && next.files == h.files
      && (Complete(next, operation, does)
          || (InReads(next, operation, does) && SameSetup(next.shell.operation, operation)
              && Progress(next.shell.operation) > Progress(h.shell.operation)))
  {
    hide Advance, AtStart, ReadsOutTail, ReadsErr, ReadsErrTail, Completion, Fits, RequestOf, Reports, PathsFor, Complete,
         ReportedCode, Progress;
    var does := Does(commands, operation);
    var content := ReadLeadsOn(h.shell, operation, does);
    ReadAdvances(h, commands, content, cuts);
    ReadAdvances(h, commands, content, []);
    FitsIsThere(h.shell, content);
    var read := Completion(h.shell, content);
    var next := Advance(h, commands, cuts);
    if Reports(read.shell.operation, h.shell.operation, does.out, does.err) && DispatchesOf(read.step) == [] {
      ReportIsComplete(next, operation, h.shell, does);
    }
  }

  // ---- Whole runs ----

  lemma OthersStayUntouched(a: Files, b: Files, c: Files, operation: Operation)
    requires OthersUntouched(a, b, operation) && OthersUntouched(b, c, operation)
    ensures OthersUntouched(a, c, operation)
  {
    hide PathsFor;
  }

  predicate IsComplete(h: Host, operation: Operation, commands: Commands) {
    Complete(h, operation, Does(commands, operation))
  }

  lemma EachAdvances(h: Host, operation: Operation, commands: Commands, files: Files, cuts: seq<nat>)
    requires OnItsWay(h, operation, commands, files) && !IsComplete(h, operation, commands)
    requires h.dispatches != [] && h.dispatches[0].StartProcess? ==> cuts == []
    ensures var next := Advance(h, commands, cuts);
      && next == Advance(h, commands, []) && OnItsWay(next, operation, commands, files)
      && (IsComplete(next, operation, commands) || Progress(next.shell.operation) > Progress(h.shell.operation))
  {
    hide Advance, OthersUntouched, ReadyFor, Complete, AtPhase, PhaseDispatch, Made, Handle, InReads, Progress;
    if InCreates(h, operation) {
      if h.shell.operation.state.phase == Process {
        ProcessIsPerformed(h, operation, commands);
        ProcessAdvances(h, operation, commands);
      } else {
        CreateAdvances(h, operation, commands, cuts);
        CreateAdvances(h, operation, commands, []);
        PhaseProgress(h.shell);
        PhaseProgress(Advance(h, commands, cuts).shell);
      }
    } else {
      ReadsAdvance(h, operation, commands, cuts);
      NothingTouched(h.files, operation);
    }
    OthersStayUntouched(files, h.files, Advance(h, commands, cuts).files, operation);
  }

  lemma NothingTouched(files: Files, operation: Operation)
    ensures OthersUntouched(files, files, operation)
  {
    hide PathsFor;
  }

  lemma PhaseProgress(shell: Shell)
    requires AtPhase(shell, shell.operation.state.phase)
    ensures Progress(shell.operation) == shell.operation.state.phase.Rank()
  {
  }

  lemma CompleteStays(h: Host, operation: Operation, commands: Commands, restarts: seq<seq<nat>>, n: nat)
    requires h.dispatches == []
    ensures RunOn(h, commands, restarts, n) == h
    decreases n
  {
  }

  // A run goes on to its completion, by as many dispatches as there are phases left, and
  // as it would have without restarts.
  lemma {:induction false} RunsComplete(h: Host, operation: Operation, commands: Commands, files: Files,
                                        restarts: seq<seq<nat>>, n: nat)
    requires OnItsWay(h, operation, commands, files)
    requires IsComplete(h, operation, commands) || n + Progress(h.shell.operation) >= 9
    ensures var last := RunOn(h, commands, restarts, n);
      && IsComplete(last, operation, commands) && OthersUntouched(files, last.files, operation)
      && last == RunOn(h, commands, [], n)
    decreases n
  {
    hide Advance, Complete, InCreates, InReads, OthersUntouched, Progress;
    if IsComplete(h, operation, commands) {
      CompleteHasEnded(h, operation, commands);
      CompleteStays(h, operation, commands, restarts, n);
      CompleteStays(h, operation, commands, [], n);
    } else {
      ProgressIsBounded(h, operation, commands, files);
      var cuts := if restarts == [] || (h.dispatches != [] && h.dispatches[0].StartProcess?) then [] else restarts[0];
      EachAdvances(h, operation, commands, files, cuts);
      RunsComplete(Advance(h, commands, cuts), operation, commands, files, if restarts == [] then [] else restarts[1..], n - 1);
    }
  }

  lemma CompleteHasEnded(h: Host, operation: Operation, commands: Commands)
    requires IsComplete(h, operation, commands)
    ensures h.dispatches == []
  {
    hide Truncation;
  }

  lemma ProgressIsBounded(h: Host, operation: Operation, commands: Commands, files: Files)
    requires OnItsWay(h, operation, commands, files) && !IsComplete(h, operation, commands)
    ensures Progress(h.shell.operation) < 9
  {
    hide Truncation, PathsFor, RequestOf, Sound;
  }

  lemma RunBegins(operation: Operation, files: Files, commands: Commands)
    requires FreshOperation(operation) && ValidName(operation.id) && Prepared(files, operation)
    requires Does(commands, operation).pid > 1 && Does(commands, operation).exit.ProcessExitResult?
    ensures OnItsWay(Begin(operation, files), operation, commands, files)
    ensures Progress(Begin(operation, files).shell.operation) == 1
  {
    hide Handle, PathsFor, Sound, Prepared;
    FirstStep(operation);
    NothingTouched(files, operation);
  }

  // On a host whose primitives all succeed, a shell operation runs its program with its
  // command in its directory, and completes: its paths hold what the command put out and
  // what it complained of, its result is the truncation of each with its size and the exit
  // code, and no other file has changed. All of it, to the last field, is as it would have
  // been without restarts, however many there were outside the process phase.
  lemma WholeRunReports(operation: Operation, files: Files, commands: Commands, restarts: seq<seq<nat>>)
    requires FreshOperation(operation) && ValidName(operation.id) && Prepared(files, operation)
    requires Does(commands, operation).pid > 1 && Does(commands, operation).exit.ProcessExitResult?
    ensures var last := RunOn(Begin(operation, files), commands, restarts, 8);
      && Complete(last, operation, commands(operation.state.program, operation.state.command, operation.state.directory))
      && OthersUntouched(files, last.files, operation)
      && last == RunOn(Begin(operation, files), commands, [], 8)
  {
    hide RunOn, Begin, OnItsWay, FreshOperation, Prepared, Complete, OthersUntouched;
    RunBegins(operation, files, commands);
    RunsComplete(Begin(operation, files), operation, commands, files, restarts, 8);
  }

  lemma ExitIsKnown(h: Host, operation: Operation, does: Behaviour)
    requires InReads(h, operation, does)
    ensures does.exit.ProcessExitResult?
    ensures ReadsOut(h.shell) ==> Progress(h.shell.operation) == 5
  {
    hide RequestOf, PathsFor, Sound;
  }

  // From its first read on, a shell reports the truncations of what its two files hold.
  lemma CompletedShellReportsTruncation(h: Host, operation: Operation, commands: Commands, does: Behaviour,
                                        restarts: seq<seq<nat>>)
    requires SameSetup(h.shell.operation, operation) && InReads(h, operation, does) && ReadsOut(h.shell)
    requires does == Does(commands, operation) && does.pid > 1
    ensures Complete(RunOn(h, commands, restarts, 4), operation, does)
  {
    hide RunOn, InReads, InCreates, Complete, OthersUntouched;
    NothingTouched(h.files, operation);
    ExitIsKnown(h, operation, does);
    RunsComplete(h, operation, commands, h.files, restarts, 4);
  }

  // ---- What a manager counts ----

  lemma {:induction false} ChunksDoNotComplete(request: P.ReadRequest, content: Bytes, offset: nat, remaining: nat)
    requires offset + remaining <= |content|
    ensures forall i | 0 <= i < |FileStream.ChunkEvents(request, content, offset, remaining)| ::
              FileStream.ChunkEvents(request, content, offset, remaining)[i].kind == P.IOReadOutput
    decreases remaining
  {
    if remaining != 0 {
      var count := FileStream.Min(remaining, FileStream.READ_CHUNK_SIZE);
      ChunksDoNotComplete(request, content, offset + count, remaining - count);
    }
  }

  // Whatever is dispatched, the last event of its primitive is the only one that the
  // manager of operations takes as its completion.
  lemma LastEventCompletes(dispatch: P.Dispatch, files: Files, commands: Commands)
    ensures var events := Perform(dispatch, files, commands).events;
      events != [] && forall i | 0 <= i < |events| :: Manager.Completes(events[i].kind) <==> i == |events| - 1
  {
    hide HasParent, FileStream.ChunkEvents;
    if dispatch.Read? {
      var request := dispatch.request;
      if IsFile(files, request.path) && FileStream.ValidRequest(request) {
        var content := files[request.path].content;
        if request.offset < |content| {
          ChunksDoNotComplete(request, content, request.offset, FileStream.RequestedBytes(request, |content|));
        }
      }
    }
  }
}
