// The session log: harness/sessionstore/localfile/codec.go. A log is a sequence of
// bytes; its records are the lines that a newline has committed.
module Codec {
  import opened Utf8
  import opened Session
  import opened SessionState

  const NEWLINE: Byte := 0x0A
  const FORMAT_VERSION := 2

  datatype Record =
    | SessionRecord(version: int, session: SessionInfo)
    | ItemRecord(item: SessionItem, operations: seq<Operation>)
    | OperationRecord(operation: Operation)

  // The JSON encoding of records, as far as the log depends on it.
  datatype Encoding = Encoding(encode: Record -> Bytes, decode: Bytes -> Option<Record>)

  // Decoding gives back what was encoded, and an encoding has no newline.
  ghost predicate Lawful(e: Encoding) {
    forall r: Record :: e.decode(e.encode(r)) == Some(r) && NEWLINE !in e.encode(r)
  }

  // encodeRecord
  function Line(e: Encoding, record: Record): Bytes {
    e.encode(record) + [NEWLINE]
  }

  function EncodeLines(e: Encoding, records: seq<Record>): Bytes {
    if records == [] then [] else EncodeLines(e, records[..|records| - 1]) + Line(e, records[|records| - 1])
  }

  // ---- Reading lines ----

  // The size of the prefix up to and with the last newline.
  function CommittedSize(bytes: Bytes): (n: nat)
    ensures n <= |bytes| && NEWLINE !in bytes[n..] && (n > 0 ==> bytes[n - 1] == NEWLINE)
  {
    if bytes == [] then 0
    else if bytes[|bytes| - 1] == NEWLINE then |bytes|
    else
      var n := CommittedSize(bytes[..|bytes| - 1]);
      assert bytes[n..] == bytes[..|bytes| - 1][n..] + [bytes[|bytes| - 1]];
      n
  }

  // The lines of a text that ends in a newline, without their newlines.
  function Lines(bytes: Bytes): seq<Bytes>
    decreases |bytes|
  {
    if bytes == [] || bytes[|bytes| - 1] != NEWLINE then []
    else
      var start := CommittedSize(bytes[..|bytes| - 1]);
      Lines(bytes[..start]) + [bytes[start..|bytes| - 1]]
  }

  // ---- The first pass ----

  datatype Scan = Scan(session: Option<SessionInfo>, records: seq<Record>, itemCount: nat, inheritedItemCount: nat)

  function ScanLine(e: Encoding, scan: Scan, index: nat, line: Bytes): Result<Scan> {
    match e.decode(line)
    case None => Err(BadLog)
    case Some(record) =>
      match record
      case SessionRecord(version, session) =>
        if index != 0 || version != FORMAT_VERSION || !ValidSessionID(session.id) || session.createdAt == 0 then Err(BadLog)
        else Ok(scan.(session := Some(session)))
      case ItemRecord(item, operations) =>
        if || index == 0
           || item.sequence != scan.itemCount + 1
           || item.recordedAt == 0
           || (!item.data.StatusData? && operations != []) then Err(BadLog)
        else
          Ok(scan.(records := scan.records + [record], itemCount := scan.itemCount + 1,
                   inheritedItemCount := if item.data.ForkData? then scan.itemCount + 1 else scan.inheritedItemCount))
      case OperationRecord(_) =>
        if index == 0 then Err(BadLog) else Ok(scan.(records := scan.records + [record]))
  }

  function ScanLines(e: Encoding, lines: seq<Bytes>): Result<Scan> {
    if lines == [] then Ok(Scan(None, [], 0, 0))
    else
      var scan :- ScanLines(e, lines[..|lines| - 1]);
      ScanLine(e, scan, |lines| - 1, lines[|lines| - 1])
  }

  // ---- The second pass ----

  // replayItem
  function ReplayItem(stored: Stored, item: SessionItem, operations: seq<Operation>): Result<Stored> {
    Append(stored, item.data, operations, item.recordedAt)
  }

  datatype Replay = Replay(stored: Stored, replayedItems: nat)

  function ReplayRecord(replay: Replay, inherited: nat, record: Record): Result<Replay> {
    match record
    case SessionRecord(_, _) => Ok(replay)
    case ItemRecord(item, operations) =>
      if replay.replayedItems < inherited then
        if operations != [] then Err(BadItem)
        else Ok(Replay(Inherit(replay.stored, item), replay.replayedItems + 1))
      else
        var stored :- ReplayItem(replay.stored, item, operations);
        Ok(Replay(stored, replay.replayedItems + 1))
    case OperationRecord(operation) =>
      if replay.replayedItems < inherited then Err(BadItem)
      else
        var stored :- Save(replay.stored, operation);
        Ok(replay.(stored := stored))
  }

  function ReplayRecords(start: Stored, inherited: nat, records: seq<Record>): Result<Replay> {
    if records == [] then Ok(Replay(start, 0))
    else
      var replay :- ReplayRecords(start, inherited, records[..|records| - 1]);
      ReplayRecord(replay, inherited, records[|records| - 1])
  }

  datatype Decoded = Decoded(stored: Stored, committedSize: nat)

  // decodeLog
  function Decode(e: Encoding, bytes: Bytes): Result<Decoded> {
    var size := CommittedSize(bytes);
    if size == 0 then Err(BadLog)
    else
      var scan :- ScanLines(e, Lines(bytes[..size]));
      if scan.session.None? then Err(BadLog)
      else
        var replay :- ReplayRecords(NewStored(scan.session.value), scan.inheritedItemCount, scan.records);
        Ok(Decoded(replay.stored, size))
  }

  // ---- Initial logs ----

  // The record of an item: the operations of a status are kept beside it.
  function RecordOf(item: SessionItem): Record {
    ItemRecord(Bare(item), Snapshots(item))
  }

  function RecordsOf(items: seq<SessionItem>): seq<Record> {
    seq(|items|, i requires 0 <= i < |items| => RecordOf(items[i]))
  }

  predicate Encodable(items: seq<SessionItem>) {
    forall i | 0 <= i < |items| :: items[i].sequence == i + 1 && items[i].recordedAt != 0
  }

  // encodeInitialLog
  function InitialLog(e: Encoding, session: SessionInfo, items: seq<SessionItem>): Result<Bytes> {
    if !ValidSessionID(session.id) then Err(InvalidSessionID)
    else if !Encodable(items) then Err(BadItem)
    else Ok(EncodeLines(e, [SessionRecord(FORMAT_VERSION, session)] + RecordsOf(items)))
  }
}
