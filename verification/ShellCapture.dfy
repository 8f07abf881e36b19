// Reading the captures back: what a completed shell reports about the two files,
// however the reads are cut short and taken up again.
module ShellCapture {
  import opened Utf8
  import opened Output
  import opened ShellMachine
  import opened ShellProofs
  import P = Primitives
  import FileStream

  function Feed(shell: Shell, events: seq<P.Event>): Shell
    decreases |events|
  {
    if events == [] then shell else Feed(Handle(shell, Some(events[0])).shell, events[1..])
  }

  function DispatchesOf(step: Step): seq<P.Dispatch> {
    if step.Step? then step.dispatches else []
  }

  // What the steps on these events dispatch.
  function Dispatched(shell: Shell, events: seq<P.Event>): seq<P.Dispatch>
    decreases |events|
  {
    if events == [] then []
    else
      var outcome := Handle(shell, Some(events[0]));
      DispatchesOf(outcome.step) + Dispatched(outcome.shell, events[1..])
  }

  predicate Reading(shell: Shell) {
    Sound(shell) && shell.operation.status == StatusAwaiting && shell.operation.state.phase.IsRead()
  }

  // The request a reading shell has dispatched.
  function RequestOf(shell: Shell): (r: P.ReadRequest)
    requires Reading(shell)
    ensures r.source == shell.operation.id && r.correlation == shell.operation.state.phase.Name()
    ensures 0 <= r.offset && 0 < r.count && 0 <= shell.readSize
  {
    hide PathsFor;
    Request(shell.operation).value
  }

  lemma {:induction false} FeedChunks(shell: Shell, content: Bytes, remaining: nat)
    requires Reading(shell)
    requires var r := RequestOf(shell);
      r.offset + shell.readSize + remaining <= |content| && shell.readSize + remaining <= r.count
    ensures var r := RequestOf(shell);
      var from := r.offset + shell.readSize;
      var after := Feed(shell, FileStream.ChunkEvents(r, content, from, remaining));
      && after.operation == shell.operation
      && after.readSize == shell.readSize + remaining
      && Join(after.chunks) == Join(shell.chunks) + content[from..from + remaining]
      && Dispatched(shell, FileStream.ChunkEvents(r, content, from, remaining)) == []
    decreases remaining
  {
    hide PathsFor, Handle, Sound, Join, RequestOf, Reading, Feed, Dispatched, FileStream.RequestedBytes;
    var r := RequestOf(shell);
    var from := r.offset + shell.readSize;
    FeedNothing(shell);
    if remaining == 0 {
      assert content[from..from] == [];
    } else {
      var count := FileStream.Min(remaining, FileStream.READ_CHUNK_SIZE);
      var data := content[from..from + count];
      var first := FileStream.Output(r, from, data);
      var rest := FileStream.ChunkEvents(r, content, from + count, remaining - count);
      var next := Handle(shell, Some(first)).shell;
      ReadingHandlesOutput(shell, first, data);
      JoinAppend(shell.chunks, data);
      FeedChunks(next, content, remaining - count);
      FeedFirst(shell, first, rest);
      SlicesJoin(Join(shell.chunks), content, from, count, remaining);
    }
  }

  lemma FeedNothing(shell: Shell)
    ensures Feed(shell, []) == shell && Dispatched(shell, []) == []
  {
  }

  lemma FeedFirst(shell: Shell, first: P.Event, rest: seq<P.Event>)
    ensures Feed(shell, [first] + rest) == Feed(Handle(shell, Some(first)).shell, rest)
    ensures Dispatched(shell, [first] + rest)
      == DispatchesOf(Handle(shell, Some(first)).step) + Dispatched(Handle(shell, Some(first)).shell, rest)
  {
    hide Handle;
    assert ([first] + rest)[1..] == rest;
  }

  lemma SlicesJoin(joined: Bytes, content: Bytes, from: nat, count: nat, remaining: nat)
    requires count <= remaining && from + remaining <= |content|
    ensures joined + content[from..from + count] + content[from + count..from + remaining]
      == joined + content[from..from + remaining]
  {
    assert content[from..from + count] + content[from + count..from + remaining] == content[from..from + remaining];
  }

  lemma ReadingHandlesOutput(shell: Shell, event: P.Event, data: Bytes)
    requires Reading(shell)
    requires var r := RequestOf(shell);
      event == FileStream.Output(r, r.offset + shell.readSize, data) && |data| <= r.count - shell.readSize
    ensures Handle(shell, Some(event)).shell == shell.(chunks := shell.chunks + [data], readSize := shell.readSize + |data|)
    ensures Handle(shell, Some(event)).step == Step(None, [])
    ensures Reading(Handle(shell, Some(event)).shell)
    ensures RequestOf(Handle(shell, Some(event)).shell) == RequestOf(shell)
  {
    hide PathsFor, ReadCompleted, End;
    JoinAppend(shell.chunks, data);
  }

  lemma {:induction false} FeedConcat(shell: Shell, a: seq<P.Event>, b: seq<P.Event>)
    ensures Feed(shell, a + b) == Feed(Feed(shell, a), b)
    ensures Dispatched(shell, a + b) == Dispatched(shell, a) + Dispatched(Feed(shell, a), b)
    decreases |a|
  {
    hide Handle;
    if a == [] {
      assert a + b == b;
    } else {
      assert (a + b)[1..] == a[1..] + b;
      FeedConcat(Handle(shell, Some(a[0])).shell, a[1..], b);
    }
  }

  // The part of the file that the request covers.
  function Slice(r: P.ReadRequest, content: Bytes): Bytes
    requires 0 <= r.offset <= |content|
  {
    content[r.offset..r.offset + FileStream.RequestedBytes(r, |content|)]
  }

  predicate AtStart(shell: Shell) {
    Reading(shell) && shell.chunks == [] && shell.readSize == 0
  }

  // The file is the one whose size was recorded before its tail is read.
  predicate Fits(shell: Shell, content: Bytes)
    requires Reading(shell)
  {
    var r := RequestOf(shell);
    r.offset <= |content| && (shell.operation.state.phase.IsTailRead() ==> |content| == r.offset + r.count)
  }

  // Producer and consumer agree: the shell takes every chunk of an undisturbed read
  // and its completion, and what it has then read is the requested slice.
  lemma ConsumesStream(shell: Shell, content: Bytes)
    requires AtStart(shell) && Fits(shell, content)
    ensures var r := RequestOf(shell);
      var read := ReadCompleted(shell, Slice(r, content), |content|);
      && Feed(shell, FileStream.StreamEvents(r, content)) == read.shell
      && Dispatched(shell, FileStream.StreamEvents(r, content)) == DispatchesOf(read.step)
  {
    hide PathsFor, ReadCompleted, End, Handle, FileStream.ChunkEvents;
    var r := RequestOf(shell);
    var n := FileStream.RequestedBytes(r, |content|);
    var last := FileStream.Completed(r, |content|);
    var chunks := if r.offset < |content| then FileStream.ChunkEvents(r, content, r.offset, n) else [];
    FeedConcat(shell, chunks, [last]);
    if r.offset < |content| {
      FeedChunks(shell, content, n);
    }
    var after := Feed(shell, chunks);
    assert Join(after.chunks) == Slice(r, content);
    ReadingHandlesCompletion(shell, after, content);
    FeedFirst(after, last, []);
    assert [last] + [] == [last];
  }

  lemma ReadingHandlesCompletion(shell: Shell, after: Shell, content: Bytes)
    requires AtStart(shell) && Fits(shell, content) && after.operation == shell.operation
    requires var r := RequestOf(shell);
      Join(after.chunks) == Slice(r, content) && after.readSize == FileStream.RequestedBytes(r, |content|)
    ensures var last := FileStream.Completed(RequestOf(shell), |content|);
      Handle(after, Some(last)) == ReadCompleted(shell, Slice(RequestOf(shell), content), |content|)
  {
    hide PathsFor, ReadCompleted, End;
    assert after.(chunks := [], readSize := 0) == shell;
  }

  // A read that is cut short leaves the checkpoint as it was, so reloading starts
  // the phase again from its beginning.
  lemma CutReadStartsAgain(shell: Shell, content: Bytes, cut: nat)
    requires AtStart(shell) && Fits(shell, content)
    requires cut < |FileStream.StreamEvents(RequestOf(shell), content)|
    ensures var fed := Feed(shell, FileStream.StreamEvents(RequestOf(shell), content)[..cut]);
      fed.operation == shell.operation && Handle(Load(fed.operation), None).shell == shell
    ensures DispatchesOf(Handle(Load(shell.operation), None).step) == [P.Read(RequestOf(shell))]
  {
    hide PathsFor, ReadCompleted, End, Handle, FileStream.ChunkEvents;
    var r := RequestOf(shell);
    var n := FileStream.RequestedBytes(r, |content|);
    var chunks := if r.offset < |content| then FileStream.ChunkEvents(r, content, r.offset, n) else [];
    assert FileStream.StreamEvents(r, content)[..cut] == chunks[..cut];
    if r.offset < |content| {
      FeedSomeChunks(shell, content, n, cut);
    }
    ResumeRepeatsPhase(shell);
  }

  lemma {:induction false} FeedSomeChunks(shell: Shell, content: Bytes, remaining: nat, cut: nat)
    requires Reading(shell)
    requires var r := RequestOf(shell);
      r.offset + shell.readSize + remaining <= |content| && shell.readSize + remaining <= r.count
    requires cut <= |FileStream.ChunkEvents(RequestOf(shell), content, RequestOf(shell).offset + shell.readSize, remaining)|
    ensures var r := RequestOf(shell);
      var events := FileStream.ChunkEvents(r, content, r.offset + shell.readSize, remaining);
      Feed(shell, events[..cut]).operation == shell.operation
    decreases cut
  {
    hide PathsFor, Handle, Sound, Join, RequestOf, Reading, Feed, FileStream.RequestedBytes;
    var r := RequestOf(shell);
    var from := r.offset + shell.readSize;
    var events := FileStream.ChunkEvents(r, content, from, remaining);
    FeedNothing(shell);
    if cut != 0 {
      var count := FileStream.Min(remaining, FileStream.READ_CHUNK_SIZE);
      var data := content[from..from + count];
      ReadingHandlesOutput(shell, events[0], data);
      var rest := FileStream.ChunkEvents(r, content, from + count, remaining - count);
      assert events[..cut] == [events[0]] + rest[..cut - 1];
      FeedFirst(shell, events[0], rest[..cut - 1]);
      FeedSomeChunks(Handle(shell, Some(events[0])).shell, content, remaining - count, cut - 1);
    }
  }

  // What stays fixed while the captures are read.
  predicate SameRun(a: Operation, b: Operation) {
    && a.id == b.id && a.limit == b.limit
    && a.state.baseDirectory == b.state.baseDirectory
    && a.state.program == b.state.program && a.state.command == b.state.command && a.state.directory == b.state.directory
    && a.state.pendingExitCode == b.state.pendingExitCode
  }

  predicate OutDone(operation: Operation, out: Bytes) {
    && operation.limit >= 1
    && operation.state.outSize == |out|
    && ReadParts(out, operation.state.inlineOut, operation.state.inlineOutTail, operation.limit)
  }

  // A shell at the start of reading stdout's or stderr's first part, or its tail.
  predicate ReadsOut(shell: Shell) { AtStart(shell) && shell.operation.state.phase == ReadOut }

  predicate ReadsOutTail(shell: Shell, out: Bytes) {
    && AtStart(shell) && shell.operation.state.phase == ReadOutTail
    && shell.operation.state.outSize == |out| > ReadLimit(shell.operation.limit)
    && shell.operation.state.inlineOut == out[..MAX_RUNE_SIZE * (shell.operation.limit / 2)]
  }

  predicate ReadsErr(shell: Shell, out: Bytes) {
    AtStart(shell) && shell.operation.state.phase == ReadErr && OutDone(shell.operation, out)
  }

  predicate ReadsErrTail(shell: Shell, out: Bytes, err: Bytes) {
    && AtStart(shell) && shell.operation.state.phase == ReadErrTail && OutDone(shell.operation, out)
    && shell.operation.state.errSize == |err| > ReadLimit(shell.operation.limit)
    && shell.operation.state.inlineErr == err[..MAX_RUNE_SIZE * (shell.operation.limit / 2)]
  }

  // The operation ended with the exit code, and with the truncations of both files.
  predicate Reports(operation: Operation, started: Operation, out: Bytes, err: Bytes) {
    var paths := PathsFor(started);
    && operation.status == StatusCompleted
    && started.state.pendingExitCode.Some?
    && var boundOut := Truncation(out, started.limit, paths.out);
       var boundErr := Truncation(err, started.limit, paths.err);
    && boundOut.Bounded? && boundErr.Bounded?
    && operation.state.result
       == Some(ShellResult(boundOut.text, boundErr.text, |out|, |err|, started.state.pendingExitCode.value))
    && operation.state.outTruncated == boundOut.truncated
    && operation.state.errTruncated == boundErr.truncated
    && operation.state.outPath == paths.out && operation.state.errPath == paths.err
  }

  // A read that has been started, and what completing it does.
  predicate Started(outcome: Outcome) {
    && AtStart(outcome.shell)
    && DispatchesOf(outcome.step) == [P.Read(RequestOf(outcome.shell))]
  }

  function Completion(shell: Shell, content: Bytes): Outcome
    requires Reading(shell)
    requires 0 <= RequestOf(shell).offset <= |content|
  {
    ReadCompleted(shell, Slice(RequestOf(shell), content), |content|)
  }

  lemma AfterNext(before: Shell, shell: Shell, phase: Phase)
    requires Sound(before) && before.operation.status == StatusAwaiting && phase.IsRead()
    requires shell.chunks == [] && shell.readSize == 0
    requires Progress(before.operation) < phase.Rank()
    requires var moved := shell.operation.(status := StatusAwaiting, state := shell.operation.state.(phase := phase));
      Loadable(moved) && SoundAwaiting(moved)
    ensures Started(Next(shell, phase))
    ensures Next(shell, phase).shell.operation
      == shell.operation.(status := StatusAwaiting, state := shell.operation.state.(phase := phase))
  {
    hide PathsFor, Next, Starts;
    NextIsGood(before, shell, phase);
  }

  // The first part of a capture, from its beginning.
  lemma FirstSlice(shell: Shell, content: Bytes)
    requires AtStart(shell) && shell.operation.state.phase in {ReadOut, ReadErr}
    ensures Fits(shell, content) && RequestOf(shell).offset == 0
    ensures var limit, slice := shell.operation.limit, Slice(RequestOf(shell), content);
      && limit > 0 && slice == content[..|slice|]
      && |slice| == (if |content| > ReadLimit(limit) then ReadLimit(limit) else |content|)
      && ReadLimit(limit) - TailReadLimit(limit) == MAX_RUNE_SIZE * (limit / 2)
  {
    hide PathsFor;
  }

  lemma ReadsOutStep(shell: Shell, out: Bytes)
    requires ReadsOut(shell)
    ensures Fits(shell, out)
    ensures var next := Completion(shell, out);
      && Started(next) && SameRun(next.shell.operation, shell.operation)
      && (if |out| > ReadLimit(shell.operation.limit) then ReadsOutTail(next.shell, out) else ReadsErr(next.shell, out))
  {
    hide Next, Finish, PathsFor, RequestOf, Slice, Fits, Started;
    FirstSlice(shell, out);
    var limit, state := shell.operation.limit, shell.operation.state;
    var slice := Slice(RequestOf(shell), out);
    var needsTail := |out| > ReadLimit(limit);
    var head := if needsTail then slice[..MAX_RUNE_SIZE * (limit / 2)] else slice;
    assert ReadLimit(limit) - TailReadLimit(limit) == MAX_RUNE_SIZE * (limit / 2);
    AfterNext(shell, WithState(shell, state.(inlineOut := head, outSize := |out|, inlineOutTail := [])),
              if needsTail then ReadOutTail else ReadErr);
    StartedIsAtStart(Completion(shell, out));
  }

  lemma StartedIsAtStart(outcome: Outcome)
    requires Started(outcome)
    ensures AtStart(outcome.shell)
  {
  }

  lemma ReadsOutTailStep(shell: Shell, out: Bytes)
    requires ReadsOutTail(shell, out)
    ensures Fits(shell, out)
    ensures var next := Completion(shell, out);
      Started(next) && SameRun(next.shell.operation, shell.operation) && ReadsErr(next.shell, out)
  {
    hide Next, Finish, PathsFor, Started;
    var slice := Slice(RequestOf(shell), out);
    AfterNext(shell, WithState(shell, shell.operation.state.(inlineOutTail := slice)), ReadErr);
    StartedIsAtStart(Completion(shell, out));
  }

  lemma FinishReports(shell: Shell, out: Bytes, err: Bytes)
    requires shell.operation.limit >= 1 && shell.operation.state.pendingExitCode.Some?
    requires OutDone(shell.operation, out) && shell.operation.state.errSize == |err|
    requires ReadParts(err, shell.operation.state.inlineErr, shell.operation.state.inlineErrTail, shell.operation.limit)
    ensures Reports(Finish(shell).shell.operation, shell.operation, out, err) && DispatchesOf(Finish(shell).step) == []
  {
    hide RuneCount, Sanitize, HeadSize, TailSize, Marker, PathsFor, Message;
    var state, limit, paths := shell.operation.state, shell.operation.limit, PathsFor(shell.operation);
    PartsGiveWholeTruncation(out, state.inlineOut, state.inlineOutTail, limit, paths.out);
    PartsGiveWholeTruncation(err, state.inlineErr, state.inlineErrTail, limit, paths.err);
  }

  lemma ReadsErrStep(shell: Shell, out: Bytes, err: Bytes)
    requires ReadsErr(shell, out)
    ensures Fits(shell, err)
    ensures var next := Completion(shell, err);
      if |err| > ReadLimit(shell.operation.limit) then
        Started(next) && SameRun(next.shell.operation, shell.operation) && ReadsErrTail(next.shell, out, err)
      else Reports(next.shell.operation, shell.operation, out, err) && DispatchesOf(next.step) == []
  {
    hide Next, Finish, PathsFor, Reports, RequestOf, Slice, Fits, Started;
    FirstSlice(shell, err);
    var limit, state := shell.operation.limit, shell.operation.state;
    var slice := Slice(RequestOf(shell), err);
    var needsTail := |err| > ReadLimit(limit);
    var head := if needsTail then slice[..MAX_RUNE_SIZE * (limit / 2)] else slice;
    assert ReadLimit(limit) - TailReadLimit(limit) == MAX_RUNE_SIZE * (limit / 2);
    var read := WithState(shell, state.(inlineErr := head, errSize := |err|, inlineErrTail := []));
    if needsTail {
      AfterNext(shell, read, ReadErrTail);
      StartedIsAtStart(Completion(shell, err));
    } else {
      FinishReports(read, out, err);
      SameReport(Finish(read).shell.operation, read.operation, shell.operation, out, err);
    }
  }

  lemma SameReport(operation: Operation, a: Operation, b: Operation, out: Bytes, err: Bytes)
    requires Reports(operation, a, out, err) && SameRun(a, b)
    ensures Reports(operation, b, out, err)
  {
    hide Truncation, Message;
  }

  lemma ReadsErrTailStep(shell: Shell, out: Bytes, err: Bytes)
    requires ReadsErrTail(shell, out, err)
    ensures Fits(shell, err)
    ensures Reports(Completion(shell, err).shell.operation, shell.operation, out, err)
    ensures DispatchesOf(Completion(shell, err).step) == []
  {
    hide Next, Finish, PathsFor, Reports;
    var slice := Slice(RequestOf(shell), err);
    var read := WithState(shell, shell.operation.state.(inlineErrTail := slice));
    FinishReports(read, out, err);
    SameReport(Finish(read).shell.operation, read.operation, shell.operation, out, err);
  }
}
