// Ranged reads of one file: harness/primitives/file.go.
module FileStream {
  import opened Utf8
  import opened Primitives

  const READ_CHUNK_SIZE := 32 * 1024

  function Min(a: int, b: int): int {
    if a < b then a else b
  }

  function Output(request: ReadRequest, offset: int, data: Bytes): Event {
    Event(IOReadOutput, request.source, request.correlation, ReadOutputResult(offset, data))
  }

  function Completed(request: ReadRequest, size: int): Event {
    Event(IOReadCompleted, request.source, request.correlation, ReadCompletedResult(size))
  }

  function Failure(request: ReadRequest): Event {
    Event(Failed, request.source, request.correlation, FailureResult([]))
  }

  function Cancellation(request: ReadRequest): Event {
    Event(Canceled, request.source, request.correlation, NoResult)
  }

  // How many bytes of a file of this size the request covers.
  function RequestedBytes(request: ReadRequest, size: int): (n: nat) {
    if request.offset < size && 0 < request.count then Min(request.count, size - request.offset) else 0
  }

  // The chunk events for content[offset..offset + remaining].
  function ChunkEvents(request: ReadRequest, content: Bytes, offset: nat, remaining: nat): (events: seq<Event>)
    requires offset + remaining <= |content|
    decreases remaining
  {
    if remaining == 0 then []
    else
      var count := Min(remaining, READ_CHUNK_SIZE);
      [Output(request, offset, content[offset..offset + count])]
      + ChunkEvents(request, content, offset + count, remaining - count)
  }

  predicate ValidRequest(request: ReadRequest) {
    0 <= request.offset && 0 <= request.count
  }

  // Everything an undisturbed read of a stable file sends.
  function StreamEvents(request: ReadRequest, content: Bytes): seq<Event>
    requires ValidRequest(request)
  {
    (if request.offset < |content|
     then ChunkEvents(request, content, request.offset, RequestedBytes(request, |content|))
     else [])
    + [Completed(request, |content|)]
  }

  predicate IsTerminal(event: Event) {
    event.kind in {IOReadCompleted, Failed, Canceled}
  }

  // What a read that found a file of this size has sent: chunk events and then one
  // terminal event. It is a completion exactly when nothing disturbed the read and
  // the size described the file, and then the chunks are all there.
  predicate ReadOutcome(request: ReadRequest, content: Bytes, size: nat, events: seq<Event>, disturbed: bool)
    requires ValidRequest(request)
  {
    && events != []
    && IsTerminal(events[|events| - 1])
    && (forall i | 0 <= i < |events| - 1 :: events[i].kind == IOReadOutput)
    && (events[|events| - 1].kind == IOReadCompleted <==> !disturbed && size == |content|)
    && (events[|events| - 1].kind == IOReadCompleted ==> events == StreamEvents(request, content))
    && (size == |content| ==> events[..|events| - 1] <= StreamEvents(request, content))
  }

  // The loop of streamOpenFile has sent these chunks and has these bytes to go.
  predicate Sent(request: ReadRequest, content: Bytes, size: nat, events: seq<Event>, offset: nat, remaining: nat) {
    && ValidRequest(request)
    && (forall i | 0 <= i < |events| :: events[i].kind == IOReadOutput)
    && (remaining > 0 ==> offset + remaining <= size)
    && (size == |content| && request.offset < size ==>
          && offset + remaining <= size
          && events + ChunkEvents(request, content, offset, remaining)
             == ChunkEvents(request, content, request.offset, RequestedBytes(request, size)))
    && (size <= request.offset ==> events == [] && remaining == 0)
  }

  lemma SentChunk(request: ReadRequest, content: Bytes, size: nat, events: seq<Event>, offset: nat, remaining: nat)
    requires Sent(request, content, size, events, offset, remaining) && remaining > 0
    requires offset + Min(remaining, READ_CHUNK_SIZE) <= |content|
    ensures var count := Min(remaining, READ_CHUNK_SIZE);
      Sent(request, content, size, events + [Output(request, offset, content[offset..offset + count])],
           offset + count, remaining - count)
  {
    if size == |content| {
      var count := Min(remaining, READ_CHUNK_SIZE);
      var chunk := [Output(request, offset, content[offset..offset + count])];
      var rest := ChunkEvents(request, content, offset + count, remaining - count);
      assert events + (chunk + rest) == (events + chunk) + rest;
    }
  }

  lemma ReadStops(request: ReadRequest, content: Bytes, size: nat, events: seq<Event>, offset: nat, remaining: nat,
                  last: Event, disturbed: bool)
    requires Sent(request, content, size, events, offset, remaining)
    requires last.kind in {Failed, Canceled} && (disturbed || size != |content|)
    ensures ReadOutcome(request, content, size, events + [last], disturbed)
  {
  }

  lemma ReadStarts(request: ReadRequest, content: Bytes, size: nat)
    requires ValidRequest(request)
    ensures Sent(request, content, size, [], request.offset, RequestedBytes(request, size))
  {
    if size == |content| && request.offset < size {
      var chunks := ChunkEvents(request, content, request.offset, RequestedBytes(request, size));
      assert [] + chunks == chunks;
    }
  }

  lemma ReadCompletes(request: ReadRequest, content: Bytes, size: nat, events: seq<Event>, offset: nat)
    requires Sent(request, content, size, events, offset, 0) && size == |content|
    ensures ReadOutcome(request, content, size, events + [Completed(request, size)], false)
  {
    assert events + [] == events;
  }

  // streamOpenFile. The file holds content throughout; size is what the first Stat
  // reported. The choices `*` stand for a context that is canceled and for reading,
  // inspecting or closing that fails; disturbed tells whether any of them happened.
  method StreamOpenFile(request: ReadRequest, content: Bytes, size: nat)
    returns (events: seq<Event>, disturbed: bool)
    requires ValidRequest(request)
    ensures ReadOutcome(request, content, size, events, disturbed)
  {
    hide ReadOutcome, ChunkEvents;
    var remaining: nat := 0;
    if request.offset < size {
      remaining := Min(request.count, size - request.offset);
    }
    var fileOffset: nat := request.offset;
    events := [];
    ReadStarts(request, content, size);
    while remaining > 0
      invariant Sent(request, content, size, events, fileOffset, remaining)
    {
      if * {
        var last := StopEvent(request);
        ReadStops(request, content, size, events, fileOffset, remaining, last, true);
        return events + [last], true;
      }
      var want := Min(remaining, READ_CHUNK_SIZE);
      var count := if fileOffset >= |content| then 0 else Min(want, |content| - fileOffset);
      if count != want {
        // An early end of file: the size at the first Stat was larger.
        ReadStops(request, content, size, events, fileOffset, remaining, Failure(request), false);
        return events + [Failure(request)], false;
      }
      SentChunk(request, content, size, events, fileOffset, remaining);
      events := events + [Output(request, fileOffset, content[fileOffset..fileOffset + count])];
      fileOffset := fileOffset + count;
      remaining := remaining - count;
    }
    if * {
      var last := StopEvent(request);
      ReadStops(request, content, size, events, fileOffset, remaining, last, true);
      return events + [last], true;
    }
    if |content| != size {
      ReadStops(request, content, size, events, fileOffset, remaining, Failure(request), false);
      return events + [Failure(request)], false;
    }
    ReadCompletes(request, content, size, events, fileOffset);
    return events + [Completed(request, size)], false;
  }

  // finishCanceledRead, or the failure of the step the read was in.
  method StopEvent(request: ReadRequest) returns (event: Event)
    ensures event == Failure(request) || event == Cancellation(request)
  {
    var fails: bool := *;
    event := if fails then Failure(request) else Cancellation(request);
  }

  // streamFile and inspectAndStreamFile: a request that is not valid, a canceled
  // context and a file that cannot be opened or inspected send one terminal event.
  method StreamFile(request: ReadRequest, content: Bytes, size: nat)
    returns (events: seq<Event>, disturbed: bool)
    ensures ValidRequest(request) ==> ReadOutcome(request, content, size, events, disturbed)
    ensures !ValidRequest(request) ==> events == [Failure(request)]
  {
    if !ValidRequest(request) {
      return [Failure(request)], false;
    }
    if * {
      var last := StopEvent(request);
      return [last], true;
    }
    events, disturbed := StreamOpenFile(request, content, size);
  }

  function JoinData(events: seq<Event>): Bytes {
    if events == [] then []
    else (if events[0].result.ReadOutputResult? then events[0].result.data else []) + JoinData(events[1..])
  }

  // Each event continues where the one before it ended.
  predicate Contiguous(events: seq<Event>, offset: int) {
    events == []
    || (events[0].result.ReadOutputResult? && events[0].result.offset == offset
        && 0 < |events[0].result.data| <= READ_CHUNK_SIZE
        && Contiguous(events[1..], offset + |events[0].result.data|))
  }

  // The joined chunks are the requested slice of the file, in order and without gaps.
  lemma {:induction false} ChunksAreTheSlice(request: ReadRequest, content: Bytes, offset: nat, remaining: nat)
    requires offset + remaining <= |content|
    ensures var events := ChunkEvents(request, content, offset, remaining);
      JoinData(events) == content[offset..offset + remaining] && Contiguous(events, offset)
    decreases remaining
  {
    if remaining != 0 {
      var count := Min(remaining, READ_CHUNK_SIZE);
      ChunksAreTheSlice(request, content, offset + count, remaining - count);
      var events := ChunkEvents(request, content, offset, remaining);
      assert events[1..] == ChunkEvents(request, content, offset + count, remaining - count);
    }
  }
}
