// The loops that read and write whole logs: harness/sessionstore/localfile/codec.go.
module LogDecoder {
  import opened Utf8
  import opened Session
  import opened SessionState
  import opened SessionHeads
  import opened Codec
  import opened CodecProofs

  // What decodeLog returns: the head, the items and the committed size.
  datatype Loaded = Loaded(head: SessionHead, items: seq<SessionItem>, committedSize: nat)

  // encodeInitialLog
  method EncodeInitialLog(e: Encoding, session: SessionInfo, items: seq<SessionItem>) returns (r: Result<Bytes>)
    ensures r == InitialLog(e, session, items)
  {
    hide ValidSessionID, Line, RecordOf;
    if !ValidSessionID(session.id) {
      return Err(InvalidSessionID);
    }
    ghost var records := [SessionRecord(FORMAT_VERSION, session)] + RecordsOf(items);
    var encoded := Line(e, SessionRecord(FORMAT_VERSION, session));
    FirstLine(e, records);
    var index := 0;
    while index < |items|
      invariant 0 <= index <= |items|
      invariant Encodable(items[..index])
      invariant encoded == EncodeLines(e, records[..index + 1])
    {
      var item := items[index];
      if item.sequence != index + 1 || item.recordedAt == 0 {
        return Err(BadItem);
      }
      assert records[..index + 2][..index + 1] == records[..index + 1];
      encoded := encoded + Line(e, RecordOf(item));
      index := index + 1;
    }
    assert items[..|items|] == items;
    assert records[..|records|] == records;
    return Ok(encoded);
  }

  lemma FirstLine(e: Encoding, records: seq<Record>)
    requires records != []
    ensures EncodeLines(e, records[..1]) == Line(e, records[0])
  {
    assert records[..1][..0] == [];
    assert EncodeLines(e, []) + Line(e, records[0]) == Line(e, records[0]);
  }

  // decodeLog
  method DecodeLog(e: Encoding, encoded: Bytes) returns (r: Result<Loaded>)
    ensures match Decode(e, encoded)
      case Err(error) => r == Err(error)
      case Ok(d) => r.Ok? && fresh(r.value.head)
                    && Stored(r.value.head.Value(), r.value.items) == d.stored && r.value.committedSize == d.committedSize
  {
    hide ScanLine, Lines, CommittedSize, ReplayRecords;
    var committedSize := CommittedSize(encoded);
    if committedSize == 0 {
      return Err(BadLog);
    }
    var lines := Lines(encoded[..committedSize]);
    var scan := Scan(None, [], 0, 0);
    var lineIndex := 0;
    while lineIndex < |lines|
      invariant 0 <= lineIndex <= |lines|
      invariant ScanLines(e, lines[..lineIndex]) == Ok(scan)
    {
      assert lines[..lineIndex + 1][..lineIndex] == lines[..lineIndex];
      var next := ReadLine(e, scan, lineIndex, lines[lineIndex]);
      if next.Err? {
        ScanStops(e, lines, lineIndex + 1);
        return Err(next.error);
      }
      scan := next.value;
      lineIndex := lineIndex + 1;
    }
    assert lines[..|lines|] == lines;
    if scan.session.None? {
      return Err(BadLog);
    }
    ScanNumbers(e, lines);
    var replayed := ReplayLog(scan.session.value, scan.records, scan.inheritedItemCount);
    if replayed.Err? {
      return Err(replayed.error);
    }
    return Ok(replayed.value.(committedSize := committedSize));
  }

  lemma {:induction false} ScanStops(e: Encoding, lines: seq<Bytes>, n: nat)
    requires n <= |lines| && ScanLines(e, lines[..n]).Err?
    ensures ScanLines(e, lines) == ScanLines(e, lines[..n])
    decreases |lines|
  {
    if n == |lines| {
      assert lines[..n] == lines;
    } else {
      assert lines[..|lines| - 1][..n] == lines[..n];
      ScanStops(e, lines[..|lines| - 1], n);
    }
  }

  lemma {:induction false} ReplayStops(start: Stored, inherited: nat, records: seq<Record>, n: nat)
    requires n <= |records| && ReplayRecords(start, inherited, records[..n]).Err?
    ensures ReplayRecords(start, inherited, records) == ReplayRecords(start, inherited, records[..n])
    decreases |records|
  {
    if n == |records| {
      assert records[..n] == records;
    } else {
      assert records[..|records| - 1][..n] == records[..n];
      ReplayStops(start, inherited, records[..|records| - 1], n);
    }
  }

  // One record in the first pass.
  method ReadLine(e: Encoding, before: Scan, lineIndex: nat, line: Bytes) returns (r: Result<Scan>)
    ensures r == ScanLine(e, before, lineIndex, line)
  {
    var scan := before;
    var decoded := e.decode(line);
    if decoded.None? {
      return Err(BadLog);
    }
    match decoded.value {
      case SessionRecord(version, session) =>
        if lineIndex != 0 {
          return Err(BadLog);
        }
        if version != FORMAT_VERSION || !ValidSessionID(session.id) || session.createdAt == 0 {
          return Err(BadLog);
        }
        scan := scan.(session := Some(session));
      case ItemRecord(item, operations) =>
        if lineIndex == 0 {
          return Err(BadLog);
        }
        if item.sequence != scan.itemCount + 1 || item.recordedAt == 0 {
          return Err(BadLog);
        }
        if !item.data.StatusData? && |operations| != 0 {
          return Err(BadLog);
        }
        scan := scan.(itemCount := scan.itemCount + 1);
        if item.data.ForkData? {
          scan := scan.(inheritedItemCount := scan.itemCount);
        }
        scan := scan.(records := scan.records + [decoded.value]);
      case OperationRecord(_) =>
        if lineIndex == 0 {
          return Err(BadLog);
        }
        scan := scan.(records := scan.records + [decoded.value]);
    }
    return Ok(scan);
  }

  // The second pass: items up to the last fork are inherited, the others are replayed.
  method ReplayLog(session: SessionInfo, records: seq<Record>, inheritedItemCount: nat) returns (r: Result<Loaded>)
    requires Numbered(records)
    ensures match ReplayRecords(NewStored(session), inheritedItemCount, records)
      case Err(error) => r == Err(error)
      case Ok(replay) => r.Ok? && fresh(r.value.head) && Stored(r.value.head.Value(), r.value.items) == replay.stored
  {
    hide ReplayRecord, Numbered, Canonical;
    var head := new SessionHead(session);
    var items: seq<SessionItem> := [];
    var replayedItems: nat := 0;
    var recordIndex := 0;
    ghost var start := NewStored(session);
    while recordIndex < |records|
      invariant 0 <= recordIndex <= |records|
      invariant fresh(head)
      invariant ReplayRecords(start, inheritedItemCount, records[..recordIndex])
        == Ok(Replay(Stored(head.Value(), items), replayedItems))
    {
      assert records[..recordIndex + 1][..recordIndex] == records[..recordIndex];
      NumberedSoFar(records, recordIndex);
      ReplayIsCanonical(session, inheritedItemCount, records[..recordIndex]);
      var error: Option<Error>;
      error, items, replayedItems := ReplayedRecord(head, items, replayedItems, inheritedItemCount, records[recordIndex]);
      if error.Some? {
        ReplayStops(start, inheritedItemCount, records, recordIndex + 1);
        return Err(error.value);
      }
      recordIndex := recordIndex + 1;
    }
    assert records[..|records|] == records;
    return Ok(Loaded(head, items, 0));
  }

  lemma NumberedSoFar(records: seq<Record>, n: nat)
    requires Numbered(records) && n <= |records|
    ensures Numbered(records[..n])
  {
    assert forall i | 0 <= i < n :: records[..n][..i] == records[..i];
  }

  // One record in the second pass.
  method ReplayedRecord(head: SessionHead, before: seq<SessionItem>, count: nat, inheritedItemCount: nat, record: Record)
    returns (error: Option<Error>, items: seq<SessionItem>, replayedItems: nat)
    requires Canonical(Stored(head.Value(), before))
    modifies head
    ensures match ReplayRecord(Replay(Stored(old(head.Value()), before), count), inheritedItemCount, record)
      case Ok(next) => error.None? && next == Replay(Stored(head.Value(), items), replayedItems)
      case Err(e) => error == Some(e)
  {
    hide Append, Save, Inherit, Canonical, ReplayItem;
    error, items, replayedItems := None, before, count;
    match record
    case SessionRecord(_, _) =>
    case ItemRecord(item, operations) =>
      replayedItems := replayedItems + 1;
      if count < inheritedItemCount {
        if |operations| != 0 {
          error := Some(BadItem);
        } else {
          var kept := head.InheritItem(item);
          items := items + [kept];
        }
      } else {
        error, items := Replayed(head, items, item, operations);
      }
    case OperationRecord(operation) =>
      if count < inheritedItemCount {
        error := Some(BadItem);
      } else {
        error := Saved(head, items, operation);
      }
  }

  method Saved(head: SessionHead, items: seq<SessionItem>, operation: Operation) returns (error: Option<Error>)
    requires Canonical(Stored(head.Value(), items))
    modifies head
    ensures match Save(Stored(old(head.Value()), items), operation)
      case Ok(next) => error.None? && Stored(head.Value(), items) == next
      case Err(e) => error == Some(e)
  {
    hide SessionState.SaveOperation;
    var saved := head.SaveOperation(operation);
    error := if saved.Err? then Some(saved.error) else None;
  }

  // replayItem
  method Replayed(head: SessionHead, before: seq<SessionItem>, item: SessionItem, operations: seq<Operation>)
    returns (error: Option<Error>, items: seq<SessionItem>)
    modifies head
    ensures match ReplayItem(Stored(old(head.Value()), before), item, operations)
      case Ok(next) => error.None? && Stored(head.Value(), items) == next
      case Err(e) => error == Some(e)
  {
    hide AppendToHead;
    items := before;
    var appended: Result<SessionItem>;
    match item.data {
      case InputData(input) =>
        NoOperationsNeeded(head.Value(), item.data, operations, item.recordedAt);
        appended := head.AppendInput(input, item.recordedAt);
      case TurnData(turn) =>
        NoOperationsNeeded(head.Value(), item.data, operations, item.recordedAt);
        appended := head.AppendTurn(turn, item.recordedAt);
      case ResponseData(response) =>
        NoOperationsNeeded(head.Value(), item.data, operations, item.recordedAt);
        appended := head.AppendModelResponse(response, item.recordedAt);
      case StatusData(status) =>
        appended := head.AppendToolCallStatus(status, operations, item.recordedAt);
      case ForkData(_, _) =>
        ForkIsRefused(head.Value(), item.data, operations, item.recordedAt);
        return Some(BadItem), items;
    }
    if appended.Err? {
      return Some(appended.error), items;
    }
    error := None;
    items := items + [Recorded(appended.value, operations)];
  }

  lemma NoOperationsNeeded(head: Head, data: Data, operations: seq<Operation>, at: Time)
    requires !data.StatusData?
    ensures AppendToHead(head, data, operations, at) == AppendToHead(head, data, [], at)
  {
  }

  lemma ForkIsRefused(head: Head, data: Data, operations: seq<Operation>, at: Time)
    requires data.ForkData?
    ensures AppendToHead(head, data, operations, at) == Err(BadItem)
  {
  }
}
