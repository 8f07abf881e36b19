// What a log decodes to: after an append, after a crash, and for a new fork.
module CodecProofs {
  import opened Utf8
  import opened Session
  import opened SessionState
  import opened Codec

  // ---- Lines ----

  predicate Whole(bytes: Bytes) {
    bytes == [] || bytes[|bytes| - 1] == NEWLINE
  }

  lemma {:induction false} TornTailIsNotCommitted(bytes: Bytes, torn: Bytes)
    requires NEWLINE !in torn
    ensures CommittedSize(bytes + torn) == CommittedSize(bytes)
    decreases |torn|
  {
    if torn == [] {
      assert bytes + torn == bytes;
    } else {
      var shorter := torn[..|torn| - 1];
      assert (bytes + torn)[..|bytes + torn| - 1] == bytes + shorter;
      assert (bytes + torn)[|bytes + torn| - 1] == torn[|torn| - 1];
      TornTailIsNotCommitted(bytes, shorter);
    }
  }

  lemma CommittedPrefixIsWhole(bytes: Bytes)
    ensures Whole(bytes[..CommittedSize(bytes)])
    ensures CommittedSize(bytes[..CommittedSize(bytes)]) == CommittedSize(bytes)
  {
  }

  lemma WholeIsCommitted(bytes: Bytes)
    requires Whole(bytes)
    ensures CommittedSize(bytes) == |bytes|
  {
  }

  lemma LinesOfLonger(bytes: Bytes, line: Bytes)
    requires Whole(bytes) && NEWLINE !in line
    ensures Lines(bytes + (line + [NEWLINE])) == Lines(bytes) + [line]
    ensures Whole(bytes + (line + [NEWLINE]))
  {
    hide CommittedSize;
    var longer := bytes + (line + [NEWLINE]);
    assert longer[|longer| - 1] == NEWLINE;
    assert longer[..|longer| - 1] == bytes + line;
    TornTailIsNotCommitted(bytes, line);
    WholeIsCommitted(bytes);
    assert longer[..|bytes|] == bytes;
    assert longer[|bytes|..|longer| - 1] == line;
  }

  // ---- Canonical states ----

  // Every operation is at the position recorded for its ID.
  predicate HeadOK(head: Head) {
    && (forall i | 0 <= i < |head.operations| ::
          head.operations[i].id in head.operationPositions && head.operationPositions[head.operations[i].id] == i)
    && (forall id | id in head.operationPositions ::
          head.operationPositions[id] < |head.operations| && head.operations[head.operationPositions[id]].id == id)
  }

  // What every decoded state is: items in contiguous sequence with the head's count.
  predicate Canonical(stored: Stored) {
    && stored.head.itemSequence == |stored.items|
    && Encodable(stored.items)
    && HeadOK(stored.head)
  }

  function IDs(operations: seq<Operation>): set<Id> {
    set i | 0 <= i < |operations| :: operations[i].id
  }

  lemma AddOneKeepsPositions(head: Head, last: Operation)
    requires HeadOK(head) && last.id !in head.operationPositions
    ensures HeadOK(head.(operations := head.operations + [last],
                         operationPositions := head.operationPositions[last.id := |head.operations|]))
  {
  }

  lemma {:induction false} AddKeepsPositions(head: Head, operations: seq<Operation>)
    requires HeadOK(head) && DistinctIDs(operations)
    requires forall i | 0 <= i < |operations| :: operations[i].id !in head.operationPositions
    ensures var r := AddOperations(head, operations);
      && HeadOK(r)
      && r.operationPositions.Keys == head.operationPositions.Keys + IDs(operations)
    decreases |operations|
  {
    hide HeadOK, IDs;
    if operations == [] {
      assert IDs(operations) == {} by { NoIDs(); }
      assert head.operations + operations == head.operations;
    } else {
      var shorter := operations[..|operations| - 1];
      var last := operations[|operations| - 1];
      AddKeepsPositions(head, shorter);
      NotAmong(operations);
      AddOneKeepsPositions(AddOperations(head, shorter), last);
      assert head.operations + shorter + [last] == head.operations + operations;
      IDsOfLonger(shorter, last);
      assert operations == shorter + [last];
    }
  }

  lemma NoIDs()
    ensures IDs([]) == {}
  {
  }

  lemma NotAmong(operations: seq<Operation>)
    requires DistinctIDs(operations) && operations != []
    ensures operations[|operations| - 1].id !in IDs(operations[..|operations| - 1])
  {
  }

  lemma IDsOfLonger(operations: seq<Operation>, last: Operation)
    ensures IDs(operations + [last]) == IDs(operations) + {last.id}
  {
    var longer := operations + [last];
    assert longer[|operations|] == last;
    forall id | id in IDs(operations)
      ensures id in IDs(longer)
    {
      var i :| 0 <= i < |operations| && operations[i].id == id;
      assert longer[i].id == id;
    }
  }

  lemma AppendIsCanonical(stored: Stored, data: Data, operations: seq<Operation>, at: Time)
    requires Canonical(stored) && at != 0 && Append(stored, data, operations, at).Ok?
    ensures var next := Append(stored, data, operations, at).value;
      && Canonical(next)
      && |next.items| == |stored.items| + 1
      && next.items[..|stored.items|] == stored.items
      && next.items[|stored.items|] == Recorded(SessionItem(|stored.items| + 1, at, data), operations)
      && next.head.session == stored.head.session
  {
    if data.StatusData? && (data.status.turnID, data.status.callID) !in stored.head.toolCallStatuses {
      AddKeepsPositions(stored.head.(toolCallStatuses := stored.head.toolCallStatuses
                          + {(data.status.turnID, data.status.callID)}), operations);
    }
  }

  lemma SaveIsCanonical(stored: Stored, value: Operation)
    requires Canonical(stored) && Save(stored, value).Ok?
    ensures var next := Save(stored, value).value;
      Canonical(next) && next.items == stored.items && next.head.session == stored.head.session
  {
  }

  lemma InheritIsCanonical(stored: Stored, item: SessionItem)
    requires Canonical(stored) && item.sequence == |stored.items| + 1 && item.recordedAt != 0
    ensures var next := Inherit(stored, item);
      && Canonical(next)
      && next.items == stored.items + [Bare(item)]
      && next.head.session == stored.head.session
  {
  }

  // ---- Invariants of the two passes ----

  function ItemsIn(records: seq<Record>): nat {
    if records == [] then 0
    else ItemsIn(records[..|records| - 1]) + (if records[|records| - 1].ItemRecord? then 1 else 0)
  }

  // Every item record has the sequence of its place and a time.
  predicate Numbered(records: seq<Record>) {
    forall i | 0 <= i < |records| && records[i].ItemRecord? ::
      records[i].item.sequence == ItemsIn(records[..i]) + 1 && records[i].item.recordedAt != 0
  }

  lemma NumberedLonger(records: seq<Record>, record: Record)
    requires Numbered(records)
    ensures (record.ItemRecord? ==> record.item.sequence == ItemsIn(records) + 1 && record.item.recordedAt != 0)
            ==> Numbered(records + [record])
    ensures ItemsIn(records + [record]) == ItemsIn(records) + (if record.ItemRecord? then 1 else 0)
  {
    var longer := records + [record];
    assert longer[..|records|] == records;
    assert forall i | 0 <= i < |records| :: longer[..i] == records[..i];
  }

  predicate GoodScan(scan: Scan) {
    && Numbered(scan.records)
    && scan.itemCount == ItemsIn(scan.records)
    && scan.inheritedItemCount <= scan.itemCount
    && (scan.session.Some? ==> scan.session.value.createdAt != 0 && ValidSessionID(scan.session.value.id))
  }

  lemma ScanLineNumbers(e: Encoding, before: Scan, index: nat, line: Bytes)
    requires GoodScan(before) && ScanLine(e, before, index, line).Ok?
    requires index > 0 ==> before.session.Some?
    ensures GoodScan(ScanLine(e, before, index, line).value)
    ensures ScanLine(e, before, index, line).value.session.Some?
  {
    hide Numbered, ItemsIn, ValidSessionID;
    NumberedLonger(before.records, e.decode(line).value);
  }

  lemma {:induction false} ScanNumbers(e: Encoding, lines: seq<Bytes>)
    requires ScanLines(e, lines).Ok?
    ensures GoodScan(ScanLines(e, lines).value)
    ensures lines != [] ==> ScanLines(e, lines).value.session.Some?
    decreases |lines|
  {
    hide ScanLine;
    if lines != [] {
      ScanNumbers(e, lines[..|lines| - 1]);
      ScanLineNumbers(e, ScanLines(e, lines[..|lines| - 1]).value, |lines| - 1, lines[|lines| - 1]);
    }
  }

  lemma {:induction false} ReplayIsCanonical(session: SessionInfo, inherited: nat, records: seq<Record>)
    requires Numbered(records) && ReplayRecords(NewStored(session), inherited, records).Ok?
    ensures var replay := ReplayRecords(NewStored(session), inherited, records).value;
      && Canonical(replay.stored)
      && replay.replayedItems == |replay.stored.items| == ItemsIn(records)
      && replay.stored.head.session == session
    decreases |records|
  {
    hide Append, Save, Inherit, Canonical;
    if records == [] {
      NewIsCanonical(session);
    } else {
      var shorter, record := records[..|records| - 1], records[|records| - 1];
      assert forall i | 0 <= i < |shorter| :: shorter[..i] == records[..i];
      ReplayIsCanonical(session, inherited, shorter);
      var before := ReplayRecords(NewStored(session), inherited, shorter).value;
      match record
      case SessionRecord(_, _) =>
      case ItemRecord(item, operations) =>
        if before.replayedItems < inherited {
          InheritIsCanonical(before.stored, item);
        } else {
          AppendIsCanonical(before.stored, item.data, operations, item.recordedAt);
        }
      case OperationRecord(operation) => SaveIsCanonical(before.stored, operation);
    }
  }

  lemma NewIsCanonical(session: SessionInfo)
    ensures Canonical(NewStored(session))
  {
  }

  // A log only ever decodes to a canonical state of a session with a valid ID.
  lemma DecodeIsCanonical(e: Encoding, bytes: Bytes)
    requires Decode(e, bytes).Ok?
    ensures var d := Decode(e, bytes).value;
      && Canonical(d.stored)
      && ValidSessionID(d.stored.head.session.id) && d.stored.head.session.createdAt != 0
      && d.committedSize == CommittedSize(bytes)
  {
    hide ScanLines, ReplayRecords, Lines, Canonical;
    var lines := Lines(bytes[..CommittedSize(bytes)]);
    ScanNumbers(e, lines);
    var scan := ScanLines(e, lines).value;
    ReplayIsCanonical(scan.session.value, scan.inheritedItemCount, scan.records);
  }

  // A line of a log that can be read: the first, and no other, is a session record of the
  // current version with a valid ID and a time; items have a time, and only statuses have
  // operations.
  predicate GoodLine(e: Encoding, line: Bytes, first: bool) {
    match e.decode(line)
    case None => false
    case Some(SessionRecord(version, session)) =>
      first && version == 2 && ValidSessionID(session.id) && session.createdAt != 0
    case Some(ItemRecord(item, operations)) => !first && item.recordedAt != 0 && (operations == [] || item.data.StatusData?)
    case Some(OperationRecord(_)) => !first
  }

  lemma {:induction false} ScannedLinesAreGood(e: Encoding, lines: seq<Bytes>)
    requires ScanLines(e, lines).Ok?
    ensures forall i | 0 <= i < |lines| :: GoodLine(e, lines[i], i == 0)
    ensures lines != [] ==>
      var session := ScanLines(e, lines).value.session;
      session.Some? && e.decode(lines[0]) == Some(SessionRecord(2, session.value))
    decreases |lines|
  {
    if lines != [] {
      ScannedLinesAreGood(e, lines[..|lines| - 1]);
    }
  }

  // Any other log is refused.
  lemma BadLogsAreRefused(e: Encoding, bytes: Bytes)
    requires Decode(e, bytes).Ok?
    ensures var lines := Lines(bytes[..CommittedSize(bytes)]);
      && lines != [] && (forall i | 0 <= i < |lines| :: GoodLine(e, lines[i], i == 0))
      && e.decode(lines[0]) == Some(SessionRecord(2, Decode(e, bytes).value.stored.head.session))
  {
    hide ScanLines, ReplayRecords, Lines, GoodLine, Canonical;
    var lines := Lines(bytes[..CommittedSize(bytes)]);
    ScannedLinesAreGood(e, lines);
    NothingScanned(e);
    ScanNumbers(e, lines);
    var scan := ScanLines(e, lines).value;
    ReplayIsCanonical(scan.session.value, scan.inheritedItemCount, scan.records);
  }

  lemma NothingScanned(e: Encoding)
    ensures ScanLines(e, []) == Ok(Scan(None, [], 0, 0))
  {
  }

  // ---- Appending a record ----

  // What a record that the store appends does to the state.
  function Applied(stored: Stored, record: Record): Result<Stored> {
    match record
    case SessionRecord(_, _) => Err(BadLog)
    case ItemRecord(item, operations) =>
      if || item.sequence != |stored.items| + 1 || item.recordedAt == 0 || item.data.ForkData?
         || (!item.data.StatusData? && operations != []) then Err(BadLog)
      else ReplayItem(stored, item, operations)
    case OperationRecord(operation) => Save(stored, operation)
  }

  // Appending the line of a record to the committed part of a log gives a log that
  // decodes to the state with the record applied: the cached head that was updated
  // in memory is the head that decoding the file gives.
  lemma AppendedLineDecodes(e: Encoding, bytes: Bytes, record: Record)
    requires Lawful(e) && Decode(e, bytes).Ok?
    requires Applied(Decode(e, bytes).value.stored, record).Ok?
    ensures var d := Decode(e, bytes).value;
      Decode(e, bytes[..d.committedSize] + Line(e, record))
      == Ok(Decoded(Applied(d.stored, record).value, d.committedSize + |Line(e, record)|))
  {
    hide Append, Save, Inherit, ScanLines, ReplayRecords;
    var size := CommittedSize(bytes);
    var base, line := bytes[..size], e.encode(record);
    var longer := base + Line(e, record);
    assert e.decode(line) == Some(record) && NEWLINE !in line;
    CommittedPrefixIsWhole(bytes);
    LinesOfLonger(base, line);
    WholeIsCommitted(longer);
    assert longer[..|longer|] == longer;
    var scan := ScanLines(e, Lines(base)).value;
    ScanNumbers(e, Lines(base));
    ReplayIsCanonical(scan.session.value, scan.inheritedItemCount, scan.records);
    ScanLonger(e, Lines(base), line, record);
    ReplayLonger(NewStored(scan.session.value), scan.inheritedItemCount, scan.records, record);
  }

  lemma ScanLonger(e: Encoding, lines: seq<Bytes>, line: Bytes, record: Record)
    requires ScanLines(e, lines).Ok? && e.decode(line) == Some(record)
    requires lines != [] && !record.SessionRecord?
    requires record.ItemRecord? ==>
      && record.item.sequence == ScanLines(e, lines).value.itemCount + 1
      && record.item.recordedAt != 0 && !record.item.data.ForkData?
      && (record.item.data.StatusData? || record.operations == [])
    ensures var scan := ScanLines(e, lines).value;
      ScanLines(e, lines + [line])
      == Ok(scan.(records := scan.records + [record],
                  itemCount := scan.itemCount + (if record.ItemRecord? then 1 else 0)))
  {
    assert (lines + [line])[..|lines|] == lines;
  }

  lemma ReplayLonger(start: Stored, inherited: nat, records: seq<Record>, record: Record)
    requires ReplayRecords(start, inherited, records).Ok?
    ensures ReplayRecords(start, inherited, records + [record])
      == ReplayRecord(ReplayRecords(start, inherited, records).value, inherited, record)
  {
    hide ReplayRecord;
    assert (records + [record])[..|records|] == records;
  }

  // A crash at any byte of an append leaves a log that decodes to the state before
  // the record, or, when its newline is there, to the state after it.
  lemma CrashLeavesBeforeOrAfter(e: Encoding, bytes: Bytes, record: Record, k: nat)
    requires Lawful(e) && Decode(e, bytes).Ok? && k <= |Line(e, record)|
    requires Applied(Decode(e, bytes).value.stored, record).Ok?
    ensures var d := Decode(e, bytes).value;
      Decode(e, bytes[..d.committedSize] + Line(e, record)[..k])
      == if k < |Line(e, record)| then Ok(d)
         else Ok(Decoded(Applied(d.stored, record).value, d.committedSize + |Line(e, record)|))
  {
    hide ScanLines, ReplayRecords, Applied, Lines;
    var line := Line(e, record);
    var base := bytes[..CommittedSize(bytes)];
    if k == |line| {
      assert line[..k] == line;
      AppendedLineDecodes(e, bytes, record);
    } else {
      assert line[..k] == e.encode(record)[..k];
      CommittedPrefixIsWhole(bytes);
      TornTailIsNotCommitted(base, line[..k]);
      assert (base + line[..k])[..|base|] == base;
    }
  }

  // Bytes after the last newline do not matter.
  lemma TornTailIsIgnored(e: Encoding, bytes: Bytes, torn: Bytes)
    requires NEWLINE !in torn
    ensures Decode(e, bytes + torn) == Decode(e, bytes)
  {
    hide ScanLines, ReplayRecords, Lines;
    TornTailIsNotCommitted(bytes, torn);
    assert (bytes + torn)[..CommittedSize(bytes)] == bytes[..CommittedSize(bytes)];
  }
}
