// Session files with a cached write head: harness/sessionstore/localfile/store.go.
module Store {
  import opened Utf8
  import opened Session
  import opened SessionState
  import opened SessionHeads
  import opened Codec
  import opened CodecProofs
  import opened LogDecoder
  import ForkProofs

  // A cached head is the object that appends update, so between the update and the
  // end of the append the entry is ahead of the file.
  datatype CachedWriteState = CachedWriteState(head: SessionHead, committedSize: nat)

  datatype Page = Page(items: seq<SessionItem>, nextAfter: nat, more: bool)

  // readState, as a function of the files.
  function Read(e: Encoding, files: map<Id, Bytes>, id: Id): Result<Decoded> {
    if !ValidSessionID(id) then Err(InvalidSessionID)
    else if id !in files then Err(NoSession)
    else
      var d :- Decode(e, files[id]);
      if d.stored.head.session.id != id then Err(BadLog) else Ok(d)
  }

  // What an append may leave behind in the file: with success the state with the
  // record applied, else the state before it or the state after it.
  predicate LeavesBeforeOrAfter(e: Encoding, before: map<Id, Bytes>, after: map<Id, Bytes>, id: Id, next: Stored, ok: bool) {
    var was, now := Read(e, before, id), Read(e, after, id);
    && was.Ok? && now.Ok?
    && (ok ==> now.value.stored == next)
    && (now.value.stored == was.value.stored || now.value.stored == next)
  }

  predicate OnlyChanges(before: map<Id, Bytes>, after: map<Id, Bytes>, id: Id) {
    before - {id} == after - {id}
  }

  // The outcome of an append of data to a session.
  predicate AppendOutcome(e: Encoding, before: map<Id, Bytes>, after: map<Id, Bytes>, id: Id,
                          data: Data, operations: seq<Operation>, at: Time, r: Result<()>)
  {
    && OnlyChanges(before, after, id)
    && (|| (r.Err? && after == before)
        || (Read(e, before, id).Ok?
            && var next := Append(Read(e, before, id).value.stored, data, operations, at);
               next.Ok? && LeavesBeforeOrAfter(e, before, after, id, next.value, r.Ok?)))
  }

  lemma OthersUnchanged(before: map<Id, Bytes>, after: map<Id, Bytes>, id: Id, other: Id)
    requires OnlyChanges(before, after, id) && other != id
    ensures other in before <==> other in after
    ensures other in before ==> before[other] == after[other]
    ensures forall e :: Read(e, after, other) == Read(e, before, other)
  {
    hide Decode;
    assert other in before ==> other in before - {id};
    assert other in after ==> other in after - {id};
    if other in before {
      assert (before - {id})[other] == (after - {id})[other];
    }
  }

  lemma FileIsLongEnough(e: Encoding, files: map<Id, Bytes>, id: Id)
    requires Read(e, files, id).Ok?
    ensures id in files && Read(e, files, id).value.committedSize <= |files[id]|
  {
    hide Decode;
    DecodeIsCanonical(e, files[id]);
  }

  // The file after appendFile, however far it came.
  lemma FileAfterAppend(e: Encoding, before: map<Id, Bytes>, after: map<Id, Bytes>, id: Id,
                        record: Record, written: nat, ok: bool)
    requires Lawful(e) && Read(e, before, id).Ok? && Applied(Read(e, before, id).value.stored, record).Ok?
    requires var line, size := Line(e, record), Read(e, before, id).value.committedSize;
      && size <= |before[id]|
      && (|| (after == before && !ok)
          || (written <= |line| && id in after && after[id] == before[id][..size] + line[..written]))
      && (ok ==> written == |line|)
    ensures var d, next := Read(e, before, id).value, Applied(Read(e, before, id).value.stored, record).value;
      && LeavesBeforeOrAfter(e, before, after, id, next, ok)
      && (ok ==> Read(e, after, id) == Ok(Decoded(next, d.committedSize + |Line(e, record)|)))
  {
    hide Applied, Decode, Line;
    AppliedKeepsSession(e, before[id], record);
    DecodeIsCanonical(e, before[id]);
    if after != before || ok {
      CrashLeavesBeforeOrAfter(e, before[id], record, written);
    }
  }

  // Records that the store appends keep the session and count on.
  lemma AppliedKeepsSession(e: Encoding, bytes: Bytes, record: Record)
    requires Decode(e, bytes).Ok? && Applied(Decode(e, bytes).value.stored, record).Ok?
    ensures Applied(Decode(e, bytes).value.stored, record).value.head.session
      == Decode(e, bytes).value.stored.head.session
  {
    hide Append, Save, Decode;
    var stored := Decode(e, bytes).value.stored;
    DecodeIsCanonical(e, bytes);
    match record
    case ItemRecord(item, operations) => AppendIsCanonical(stored, item.data, operations, item.recordedAt);
    case OperationRecord(operation) => SaveIsCanonical(stored, operation);
    case SessionRecord(_, _) =>
  }

  // The record of an item that the head has accepted.
  lemma AcceptedItemApplies(e: Encoding, bytes: Bytes, data: Data, operations: seq<Operation>, at: Time)
    requires Decode(e, bytes).Ok? && at != 0
    requires AppendToHead(Decode(e, bytes).value.stored.head, data, operations, at).Ok?
    requires !data.StatusData? ==> operations == []
    ensures var stored := Decode(e, bytes).value.stored;
      var (head, item) := AppendToHead(stored.head, data, operations, at).value;
      && Append(stored, data, operations, at).Ok?
      && Applied(stored, ItemRecord(item, operations)) == Append(stored, data, operations, at)
      && Append(stored, data, operations, at).value.head == head
  {
    hide Decode, Initializable, ValidReferences, AddOperations;
    DecodeIsCanonical(e, bytes);
  }

  lemma ForkSession(parent: Stored, id: Id, previousTurnID: Id, at: Time)
    requires ForkOf(parent, id, previousTurnID, at).Ok?
    ensures ForkOf(parent, id, previousTurnID, at).value.head.session == SessionInfo(id, at)
  {
    hide Boundary, Inherit;
    ForkProofs.InheritedItems(NewStored(SessionInfo(id, at)),
                              parent.items[..Boundary(parent.items, previousTurnID, 0, -1) + 1]);
  }

  // A page of at most limit items after a sequence number.
  function PageOf(items: seq<SessionItem>, after: nat, limit: nat): Page {
    var start := if after < |items| then after else |items|;
    var end := if start + limit < |items| then start + limit else |items|;
    Page(items[start..end], if start < end then items[end - 1].sequence else after, end < |items|)
  }

  class Store {
    const e: Encoding
    var files: map<Id, Bytes>
    var cache: map<Id, CachedWriteState>

    ghost function Heads(): set<SessionHead>
      reads this
    {
      set id | id in cache :: cache[id].head
    }

    // The entry agrees with decoding the whole file.
    ghost predicate Agrees(id: Id)
      requires id in cache
      reads this, Heads()
    {
      var d := Read(e, files, id);
      d.Ok? && d.value.stored.head == cache[id].head.Value() && d.value.committedSize == cache[id].committedSize
    }

    // Every entry but those to skip agrees with its file, and entries share no head.
    ghost predicate ValidExcept(skip: set<Id>)
      reads this, Heads()
    {
      && Lawful(e)
      && (forall a | a in cache && a !in skip :: Agrees(a))
      && (forall a, b | a in cache && b in cache && a != b :: cache[a].head != cache[b].head)
    }

    ghost predicate Valid()
      reads this, Heads()
    {
      ValidExcept({})
    }

    // New on a directory that holds these files.
    constructor (e: Encoding, files: map<Id, Bytes>)
      requires Lawful(e)
      ensures Valid() && this.e == e && this.files == files && cache == map[]
    {
      this.e, this.files, cache := e, files, map[];
    }

    // ---- The file ----

    // appendFile. Opening, truncating, writing, syncing and closing can each fail; a
    // write that fails can leave any part of the data in the file.
    method AppendFile(id: Id, committedSize: nat, data: Bytes) returns (ok: bool, ghost written: nat)
      requires id in files && committedSize <= |files[id]|
      modifies `files
      ensures OnlyChanges(old(files), files, id)
      ensures files == old(files)
              || (written <= |data| && id in files && files[id] == old(files[id])[..committedSize] + data[..written])
      ensures ok ==> written == |data| && id in files && files[id] == old(files[id])[..committedSize] + data[..written]
    {
      written := 0;
      if * {
        return false, 0;
      }
      var base := files[id][..committedSize];
      files := files[id := base];
      assert files[id] == base + data[..0];
      var n: int := *;
      if 0 <= n < |data| {
        files := files[id := base + data[..n]];
        return false, n;
      }
      files := files[id := base + data];
      assert data[..|data|] == data;
      written := |data|;
      ok := *;
    }

    // publishFile: the file is replaced as a whole or not at all, and syncing the
    // directory afterwards can fail.
    method PublishFile(id: Id, data: Bytes) returns (ok: bool)
      modifies `files
      ensures OnlyChanges(old(files), files, id)
      ensures files == old(files) || files == old(files)[id := data]
      ensures ok ==> files == old(files)[id := data]
    {
      if * {
        return false;
      }
      files := files[id := data];
      ok := *;
    }

    // ---- The cache ----

    method EvictCachedWriteState(id: Id)
      requires ValidExcept({id})
      modifies `cache
      ensures Valid() && Heads() <= old(Heads())
      ensures cache == old(cache) - {id}
    {
      hide Read;
      cache := cache - {id};
    }

    method PutCachedWriteState(id: Id, head: SessionHead, committedSize: nat)
      requires ValidExcept({id})
      requires forall a | a in cache && a != id :: cache[a].head != head
      requires var d := Read(e, files, id);
        d.Ok? && d.value.stored.head == head.Value() && d.value.committedSize == committedSize
      modifies `cache
      ensures Valid() && Heads() <= old(Heads()) + {head}
      ensures cache == old(cache)[id := CachedWriteState(head, committedSize)]
    {
      hide Read;
      cache := cache[id := CachedWriteState(head, committedSize)];
    }

    method ReadState(id: Id) returns (r: Result<Loaded>)
      ensures match Read(e, files, id)
        case Err(_) => r.Err?
        case Ok(d) => r.Ok? ==> fresh(r.value.head) && Stored(r.value.head.Value(), r.value.items) == d.stored
                                && r.value.committedSize == d.committedSize
    {
      hide Decode;
      if !ValidSessionID(id) {
        return Err(InvalidSessionID);
      }
      if * {
        return Err(Interrupted);
      }
      if id !in files {
        return Err(NoSession);
      }
      r := DecodeLog(e, files[id]);
      if r.Ok? && r.value.head.session.id != id {
        return Err(BadLog);
      }
    }

    // loadWriteState: the cached head, or the decoded one, which is then cached.
    method LoadWriteState(id: Id) returns (r: Result<CachedWriteState>)
      requires Valid()
      modifies `cache
      ensures Valid() && fresh(Heads() - old(Heads()))
      ensures r.Ok? ==> id in cache && cache[id] == r.value && Agrees(id)
    {
      hide Decode, Read;
      if !ValidSessionID(id) {
        return Err(InvalidSessionID);
      }
      if * {
        return Err(Interrupted);
      }
      if id in cache {
        return Ok(cache[id]);
      }
      var loaded := ReadState(id);
      if loaded.Err? {
        return Err(loaded.error);
      }
      PutCachedWriteState(id, loaded.value.head, loaded.value.committedSize);
      assert forall a | a in cache && a != id :: cache[a] == old(cache)[a] && old(Agrees(a));
      return Ok(cache[id]);
    }

    // append: the line goes into the file, and the entry is put again or evicted.
    method AppendRecord(id: Id, cached: CachedWriteState, record: Record, ghost next: Stored) returns (ok: bool)
      requires ValidExcept({id}) && id in cache && cache[id] == cached
      requires Read(e, files, id).Ok? && Read(e, files, id).value.committedSize == cached.committedSize
      requires Applied(Read(e, files, id).value.stored, record) == Ok(next)
      requires cached.head.Value() == next.head
      modifies `files, `cache
      ensures Valid() && Heads() <= old(Heads())
      ensures OnlyChanges(old(files), files, id)
      ensures LeavesBeforeOrAfter(e, old(files), files, id, next, ok)
    {
      hide Applied, Read, Line, LeavesBeforeOrAfter, OnlyChanges;
      var encoded := Line(e, record);
      FileIsLongEnough(e, files, id);
      ghost var written;
      ok, written := AppendFile(id, cached.committedSize, encoded);
      FileAfterAppend(e, old(files), files, id, record, written, ok);
      OthersStayValid(id);
      if ok {
        PutCachedWriteState(id, cached.head, cached.committedSize + |encoded|);
      } else {
        EvictCachedWriteState(id);
      }
    }

    // A change of one file leaves the entries of the others valid.
    twostate lemma OthersStayValid(id: Id)
      requires old(ValidExcept({id})) && cache == old(cache)
      requires forall a | a in cache :: unchanged(cache[a].head)
      requires OnlyChanges(old(files), files, id)
      ensures ValidExcept({id})
    {
      hide Read;
      forall a | a in cache && a != id
        ensures Agrees(a)
      {
        assert old(Agrees(a));
        OthersUnchanged(old(files), files, id, a);
      }
    }

    // Updating the head of one entry leaves the other entries valid, and that entry
    // too when nothing was changed.
    twostate lemma UpdatedHead(id: Id)
      requires old(Valid()) && unchanged(this) && id in cache
      requires forall a | a in cache && a != id :: unchanged(cache[a].head)
      ensures ValidExcept({id})
      ensures cache[id].head.Value() == old(cache[id].head.Value()) ==> Valid()
    {
      hide Read;
      forall a | a in cache && a != id
        ensures Agrees(a)
      {
        assert old(Agrees(a));
      }
      assert old(Agrees(id));
    }

    method AppendInput(id: Id, input: Input, now: Time) returns (r: Result<()>)
      requires Valid() && now != 0
      modifies this, Heads()
      ensures Valid() && fresh(Heads() - old(Heads()))
      ensures AppendOutcome(e, old(files), files, id, InputData(input), [], now, r)
    {
      hide Append, AppendToHead, Decode, Applied, LeavesBeforeOrAfter;
      var loaded := LoadWriteState(id);
      if loaded.Err? {
        return Err(loaded.error);
      }
      var cached := loaded.value;
      ghost var stored := Read(e, files, id).value.stored;
      label loadedState:
      var item := cached.head.AppendInput(input, now);
      UpdatedHead@loadedState(id);
      if item.Err? {
        return Err(item.error);
      }
      AcceptedItemApplies(e, files[id], InputData(input), [], now);
      ghost var next := Append(stored, InputData(input), [], now).value;
      var ok := AppendRecord(id, cached, ItemRecord(item.value, []), next);
      return if ok then Ok(()) else Err(StorageFailed);
    }

    method AppendTurn(id: Id, turn: Turn, now: Time) returns (r: Result<()>)
      requires Valid() && now != 0
      modifies this, Heads()
      ensures Valid() && fresh(Heads() - old(Heads()))
      ensures AppendOutcome(e, old(files), files, id, TurnData(turn), [], now, r)
    {
      hide Append, AppendToHead, Decode, Applied, LeavesBeforeOrAfter;
      var loaded := LoadWriteState(id);
      if loaded.Err? {
        return Err(loaded.error);
      }
      var cached := loaded.value;
      ghost var stored := Read(e, files, id).value.stored;
      label loadedState:
      var item := cached.head.AppendTurn(turn, now);
      UpdatedHead@loadedState(id);
      if item.Err? {
        return Err(item.error);
      }
      AcceptedItemApplies(e, files[id], TurnData(turn), [], now);
      ghost var next := Append(stored, TurnData(turn), [], now).value;
      var ok := AppendRecord(id, cached, ItemRecord(item.value, []), next);
      return if ok then Ok(()) else Err(StorageFailed);
    }

    method AppendModelResponse(id: Id, response: ModelResponse, now: Time) returns (r: Result<()>)
      requires Valid() && now != 0
      modifies this, Heads()
      ensures Valid() && fresh(Heads() - old(Heads()))
      ensures AppendOutcome(e, old(files), files, id, ResponseData(response), [], now, r)
    {
      hide Append, AppendToHead, Decode, Applied, LeavesBeforeOrAfter;
      var loaded := LoadWriteState(id);
      if loaded.Err? {
        return Err(loaded.error);
      }
      var cached := loaded.value;
      ghost var stored := Read(e, files, id).value.stored;
      label loadedState:
      var item := cached.head.AppendModelResponse(response, now);
      UpdatedHead@loadedState(id);
      if item.Err? {
        return Err(item.error);
      }
      AcceptedItemApplies(e, files[id], ResponseData(response), [], now);
      ghost var next := Append(stored, ResponseData(response), [], now).value;
      var ok := AppendRecord(id, cached, ItemRecord(item.value, []), next);
      return if ok then Ok(()) else Err(StorageFailed);
    }

    method AppendToolCallStatus(id: Id, status: ToolCallStatus, now: Time) returns (r: Result<()>)
      requires Valid() && now != 0
      modifies this, Heads()
      ensures Valid() && fresh(Heads() - old(Heads()))
      ensures AppendOutcome(e, old(files), files, id, StatusData(status.(operations := [])), status.operations, now, r)
    {
      hide Append, AppendToHead, Decode, Applied, LeavesBeforeOrAfter;
      var loaded := LoadWriteState(id);
      if loaded.Err? {
        return Err(loaded.error);
      }
      var cached := loaded.value;
      ghost var stored := Read(e, files, id).value.stored;
      label loadedState:
      var item := cached.head.AppendToolCallStatus(status.(operations := []), status.operations, now);
      UpdatedHead@loadedState(id);
      if item.Err? {
        return Err(item.error);
      }
      AcceptedItemApplies(e, files[id], StatusData(status.(operations := [])), status.operations, now);
      ghost var next := Append(stored, StatusData(status.(operations := [])), status.operations, now).value;
      var ok := AppendRecord(id, cached, ItemRecord(item.value, status.operations), next);
      return if ok then Ok(()) else Err(StorageFailed);
    }

    method SaveOperation(id: Id, value: Operation) returns (r: Result<()>)
      requires Valid()
      modifies this, Heads()
      ensures Valid() && fresh(Heads() - old(Heads()))
      ensures OnlyChanges(old(files), files, id)
      ensures || (r.Err? && files == old(files))
              || (Read(e, old(files), id).Ok?
                  && var next := Save(Read(e, old(files), id).value.stored, value);
                     next.Ok? && LeavesBeforeOrAfter(e, old(files), files, id, next.value, r.Ok?))
    {
      hide Decode, LeavesBeforeOrAfter, SessionState.SaveOperation;
      if !ValidOperation(value) {
        return Err(InvalidOperation);
      }
      var loaded := LoadWriteState(id);
      if loaded.Err? {
        return Err(loaded.error);
      }
      var cached := loaded.value;
      DecodeIsCanonical(e, files[id]);
      ghost var stored := Read(e, files, id).value.stored;
      label loadedState:
      var saved := cached.head.SaveOperation(value);
      UpdatedHead@loadedState(id);
      if saved.Err? {
        return Err(saved.error);
      }
      ghost var next := Save(stored, value).value;
      var ok := AppendRecord(id, cached, OperationRecord(value), next);
      return if ok then Ok(()) else Err(StorageFailed);
    }

    // publishInitialState
    method PublishInitialState(id: Id, head: SessionHead, items: seq<SessionItem>) returns (r: Result<()>)
      requires Valid() && head !in Heads() && head.session.id == id && ValidSessionID(id)
      requires var log := InitialLog(e, head.session, items);
        log.Ok? ==> Decode(e, log.value) == Ok(Decoded(Stored(head.Value(), items), |log.value|))
      modifies `files, `cache
      ensures Valid() && Heads() <= old(Heads()) + {head}
      ensures OnlyChanges(old(files), files, id)
      ensures files == old(files) || IsPublished(id, Stored(head.Value(), items))
      ensures r.Ok? ==> IsPublished(id, Stored(head.Value(), items))
    {
      hide Decode, InitialLog;
      var encoded := EncodeInitialLog(e, head.session, items);
      if encoded.Err? {
        return Err(encoded.error);
      }
      var ok := PublishFile(id, encoded.value);
      OthersStayValid(id);
      if !ok {
        EvictCachedWriteState(id);
        return Err(StorageFailed);
      }
      PutCachedWriteState(id, head, |encoded.value|);
      return Ok(());
    }

    // The session's file decodes to this state.
    ghost predicate IsPublished(id: Id, stored: Stored)
      reads `files
    {
      Read(e, files, id).Ok? && Read(e, files, id).value.stored == stored
    }

    method Create(id: Id, now: Time) returns (r: Result<SessionInfo>)
      requires Valid() && now != 0
      modifies this, Heads()
      ensures Valid() && fresh(Heads() - old(Heads()))
      ensures OnlyChanges(old(files), files, id)
      ensures files == old(files) || IsPublished(id, NewStored(SessionInfo(id, now)))
      ensures r.Ok? ==> IsPublished(id, NewStored(SessionInfo(id, now))) && r.value == SessionInfo(id, now)
    {
      hide Decode, InitialLog;
      if !ValidSessionID(id) {
        return Err(InvalidSessionID);
      }
      if * {
        return Err(Interrupted);
      }
      var head := new SessionHead(SessionInfo(id, now));
      ForkProofs.InitialLogDecodes(e, head.session, []);
      var published := PublishInitialState(id, head, []);
      return if published.Ok? then Ok(head.session) else Err(published.error);
    }

    method Fork(id: Id, parentID: Id, previousTurnID: Id, now: Time) returns (r: Result<SessionInfo>)
      requires Valid() && now != 0
      modifies this, Heads()
      ensures Valid() && fresh(Heads() - old(Heads()))
      ensures OnlyChanges(old(files), files, id)
      ensures || (r.Err? && files == old(files))
              || (Read(e, old(files), parentID).Ok?
                  && var child := ForkOf(Read(e, old(files), parentID).value.stored, id, previousTurnID, now);
                     child.Ok? && id != parentID && IsPublished(id, child.value)
                     && (r.Ok? ==> r.value == SessionInfo(id, now)))
    {
      hide Decode, InitialLog, ForkOf;
      if !ValidSessionID(id) {
        return Err(InvalidSessionID);
      }
      if id == parentID {
        return Err(InvalidSessionID);
      }
      var parent := ReadState(parentID);
      if parent.Err? {
        return Err(parent.error);
      }
      ghost var stored := Read(e, files, parentID).value.stored;
      DecodeIsCanonical(e, files[parentID]);
      var state, items := ForkStoredState(parent.value.head.session.id, parent.value.items, id, previousTurnID, now);
      if state.Err? {
        return Err(state.error);
      }
      ForkProofs.ForkRoundTrip(e, stored, id, previousTurnID, now);
      ForkSession(stored, id, previousTurnID, now);
      var published := PublishInitialState(id, state.value, items);
      return if published.Ok? then Ok(state.value.session) else Err(published.error);
    }

    // Resume reads the file, never the cache.
    method ResumeSession(id: Id) returns (r: Result<ResumeState>)
      ensures r.Ok? ==> Read(e, files, id).Ok? && r.value == Resume(Read(e, files, id).value.stored)
    {
      hide Decode, Resume;
      var state := ReadState(id);
      if state.Err? {
        return Err(state.error);
      }
      var resumed := ComputeResume(state.value.head, state.value.items);
      return Ok(resumed);
    }

    method Items(id: Id, after: nat, limit: int) returns (r: Result<Page>)
      ensures r.Ok? ==> limit > 0 && Read(e, files, id).Ok?
                        && r.value == PageOf(Read(e, files, id).value.stored.items, after, limit)
    {
      hide Decode;
      if limit <= 0 {
        return Err(BadItem);
      }
      var state := ReadState(id);
      if state.Err? {
        return Err(state.error);
      }
      var items := state.value.items;
      var start := if after < |items| then after else |items|;
      var end := if start + limit < |items| then start + limit else |items|;
      var page := items[start..end];
      var nextAfter := after;
      if |page| > 0 {
        nextAfter := page[|page| - 1].sequence;
      }
      return Ok(Page(page, nextAfter, end < |items|));
    }

    // loadHistory of the coordinator (harness/coordinator/loop.go): it pages through
    // the items until there are no more. The error for a page that does not advance
    // is not modelled, because no page is like that.
    method LoadHistory(id: Id, pageSize: nat) returns (r: Result<seq<SessionItem>>)
      requires pageSize > 0
      ensures r.Ok? ==> Read(e, files, id).Ok? && r.value == Read(e, files, id).value.stored.items
    {
      hide Decode;
      var items: seq<SessionItem> := [];
      var after: nat := 0;
      ghost var all := Read(e, files, id);
      while true
        invariant after > 0 ==> all.Ok? && after <= |all.value.stored.items|
        invariant after == |items|
        invariant after > 0 ==> items == all.value.stored.items[..after]
        decreases (if all.Ok? then |all.value.stored.items| else 0) - after
      {
        var page := Items(id, after, pageSize);
        if page.Err? {
          return Err(page.error);
        }
        DecodeIsCanonical(e, files[id]);
        ghost var whole := all.value.stored.items;
        items := items + page.value.items;
        if !page.value.more {
          assert items == whole;
          return Ok(items);
        }
        assert page.value.nextAfter > after;
        assert items == whole[..page.value.nextAfter];
        after := page.value.nextAfter;
      }
    }
  }
}
