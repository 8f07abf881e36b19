// The data of one framed event: harness/primitives/sse.go, after section 9.2.6 of the
// WHATWG HTML Living Standard.
module SseData {
  import opened Utf8
  import opened SseFramer
  import R = SseReference

  const BYTE_ORDER_MARK: Bytes := [0xEF, 0xBB, 0xBF]
  const COLON: Byte := 0x3A
  const SPACE: Byte := 0x20
  const DATA: Bytes := [0x64, 0x61, 0x74, 0x61]

  datatype Option<T> = None | Some(value: T)

  function TrimPrefix(bytes: Bytes, prefix: Bytes): Bytes {
    if prefix <= bytes then bytes[|prefix|..] else bytes
  }

  // bytes.FieldsFunc with the two line break bytes: the lines that are not empty.
  function Lines(bytes: Bytes): seq<Bytes>
    decreases |bytes|
  {
    if bytes == [] then []
    else if IsBreak(bytes[0]) then Lines(bytes[1..])
    else
      var n := FirstBreak(bytes);
      [bytes[..n]] + Lines(bytes[n..])
  }

  function ColonAt(line: Bytes): (i: nat)
    ensures i <= |line| && COLON !in line[..i] && (i < |line| ==> line[i] == COLON)
  {
    if line == [] || line[0] == COLON then 0
    else
      var i := ColonAt(line[1..]);
      assert line[..i + 1] == [line[0]] + line[1..][..i];
      i + 1
  }

  // The value of a line whose field is "data".
  function DataValue(line: Bytes): Option<Bytes> {
    var i := ColonAt(line);
    if line[..i] != DATA then None
    else Some(TrimPrefix(if i < |line| then line[i + 1..] else [], [SPACE]))
  }

  function Values(lines: seq<Bytes>): seq<Bytes> {
    if lines == [] then []
    else
      var rest := Values(lines[..|lines| - 1]);
      match DataValue(lines[|lines| - 1])
      case None => rest
      case Some(value) => rest + [value]
  }

  function JoinWithLF(values: seq<Bytes>): Bytes
    requires values != []
  {
    if |values| == 1 then values[0] else JoinWithLF(values[..|values| - 1]) + [LF] + values[|values| - 1]
  }

  // The values of all data fields, joined with line feeds; None when there are none.
  function EventData(frame: Bytes): Option<Bytes> {
    var values := Values(Lines(TrimPrefix(frame, BYTE_ORDER_MARK)));
    if values == [] then None else Some(JoinWithLF(values))
  }

  // The data gathered from these values: each is followed by a line feed.
  function Gathered(values: seq<Bytes>): Option<Bytes> {
    if values == [] then None else Some(JoinWithLF(values) + [LF])
  }

  lemma GatheredLonger(values: seq<Bytes>, value: Bytes)
    ensures Gathered(values + [value])
      == Some((if Gathered(values).None? then [] else Gathered(values).value) + value + [LF])
  {
    assert (values + [value])[..|values|] == values;
    if values == [] {
      assert [] + value == value;
    } else {
      assert JoinWithLF(values) + [LF] + value + [LF] == (JoinWithLF(values) + [LF] + value) + [LF];
    }
  }

  lemma ValuesLonger(lines: seq<Bytes>, i: nat)
    requires i < |lines|
    ensures Values(lines[..i + 1])
      == match DataValue(lines[i]) case None => Values(lines[..i]) case Some(value) => Values(lines[..i]) + [value]
  {
    hide DataValue;
    assert lines[..i + 1][..i] == lines[..i];
  }

  // SSEData. A nil slice is None; every data line appends its value and a line feed,
  // and the last line feed is cut off.
  method ExtractData(frame: Bytes) returns (r: Option<Bytes>)
    ensures r == EventData(frame)
  {
    hide Values, Lines, TrimPrefix, DataValue, JoinWithLF, Gathered;
    var lines := Lines(TrimPrefix(frame, BYTE_ORDER_MARK));
    var data: Option<Bytes> := None;
    var i := 0;
    NothingGathered();
    assert lines[..0] == [];
    while i < |lines|
      invariant 0 <= i <= |lines|
      invariant data == Gathered(Values(lines[..i]))
    {
      ValuesLonger(lines, i);
      var value := DataValue(lines[i]);
      if value.Some? {
        GatheredLonger(Values(lines[..i]), value.value);
        data := Some((if data.None? then [] else data.value) + value.value + [LF]);
      }
      i := i + 1;
    }
    assert lines[..|lines|] == lines;
    WithoutLastLF(Values(lines));
    if data.None? {
      return None;
    }
    return Some(data.value[..|data.value| - 1]);
  }

  lemma NothingGathered()
    ensures Values([]) == [] && Gathered([]) == None
  {
  }

  lemma WithoutLastLF(values: seq<Bytes>)
    ensures Gathered(values).None? <==> values == []
    ensures values != [] ==>
      var data := Gathered(values).value;
      |data| > 0 && data[..|data| - 1] == JoinWithLF(values)
  {
    hide JoinWithLF;
  }

  predicate OnlyBreaks(bytes: Bytes) {
    forall i | 0 <= i < |bytes| :: IsBreak(bytes[i])
  }

  lemma {:induction false} NoLines(bytes: Bytes)
    requires OnlyBreaks(bytes)
    ensures Lines(bytes) == []
    decreases |bytes|
  {
    if bytes != [] {
      NoLines(bytes[1..]);
    }
  }

  lemma {:induction false} FirstBreakOfConcat(a: Bytes, b: Bytes)
    requires OnlyBreaks(b)
    ensures FirstBreak(a + b) == FirstBreak(a)
    decreases |a|
  {
    if a == [] {
      assert a + b == b;
    } else {
      assert (a + b)[1..] == a[1..] + b;
      FirstBreakOfConcat(a[1..], b);
    }
  }

  lemma {:induction false} TrailingBreaksAreNoLines(bytes: Bytes, breaks: Bytes)
    requires OnlyBreaks(breaks)
    ensures Lines(bytes + breaks) == Lines(bytes)
    decreases |bytes|
  {
    hide FirstBreak;
    if bytes == [] {
      assert bytes + breaks == breaks;
      NoLines(breaks);
    } else if IsBreak(bytes[0]) {
      assert (bytes + breaks)[1..] == bytes[1..] + breaks;
      TrailingBreaksAreNoLines(bytes[1..], breaks);
    } else {
      var n := FirstBreak(bytes);
      FirstBreakOfConcat(bytes, breaks);
      assert n > 0 by { StartsLine(bytes); }
      assert (bytes + breaks)[..n] == bytes[..n];
      assert (bytes + breaks)[n..] == bytes[n..] + breaks;
      TrailingBreaksAreNoLines(bytes[n..], breaks);
    }
  }

  lemma StartsLine(bytes: Bytes)
    requires bytes != [] && !IsBreak(bytes[0])
    ensures FirstBreak(bytes) > 0
  {
  }

  lemma TrimBeforeBreaks(bytes: Bytes, breaks: Bytes)
    requires OnlyBreaks(breaks)
    ensures TrimPrefix(bytes + breaks, BYTE_ORDER_MARK) == TrimPrefix(bytes, BYTE_ORDER_MARK) + breaks
  {
    if |bytes| < 3 && BYTE_ORDER_MARK <= bytes + breaks {
      assert (bytes + breaks)[|bytes|] == breaks[0];
      assert BYTE_ORDER_MARK[|bytes|] == (bytes + breaks)[|bytes|];
    } else if |bytes| >= 3 {
      assert (bytes + breaks)[..3] == bytes[..3];
    }
  }

  lemma EndingIsBreaks(bytes: Bytes, i: nat)
    requires i < |bytes| && IsBreak(bytes[i])
    ensures OnlyBreaks(bytes[i..i + R.EndingSize(bytes, i)])
  {
  }

  lemma BreaksJoin(bytes: Bytes, a: nat, b: nat, c: nat)
    requires a <= b <= c <= |bytes| && OnlyBreaks(bytes[a..b]) && OnlyBreaks(bytes[b..c])
    ensures OnlyBreaks(bytes[..c][a..])
  {
    forall k | 0 <= k < c - a
      ensures IsBreak(bytes[..c][a..][k])
    {
      if k < b - a {
        assert bytes[a..b][k] == bytes[..c][a..][k];
      } else {
        assert bytes[b..c][k - (b - a)] == bytes[..c][a..][k];
      }
    }
  }

  // What strip mode leaves out of a frame is line breaks.
  lemma {:induction false} StrippedPartIsBreaks(bytes: Bytes, from: nat, dataEnd: nat)
    requires dataEnd <= from <= |bytes| && OnlyBreaks(bytes[dataEnd..from])
    ensures var r := R.FirstBlock(bytes, from, dataEnd);
      r.Complete? ==> OnlyBreaks(r.block.wire[|r.block.data|..])
    decreases |bytes| - from
  {
    hide R.LineEndFrom, R.EndingSize, OnlyBreaks;
    var i := R.LineEndFrom(bytes, from);
    if i < |bytes| {
      var next := i + R.EndingSize(bytes, i);
      EndingIsBreaks(bytes, i);
      if i == from {
        BreaksJoin(bytes, dataEnd, from, next);
      } else {
        StrippedPartIsBreaks(bytes, next, i);
      }
    }
  }

  // The data of a frame is the same with and without its terminators, for every
  // frame of every stream.
  lemma {:induction false} StrippingKeepsData(bytes: Bytes, k: nat)
    requires k < |R.Blocks(bytes)|
    ensures EventData(R.Blocks(bytes)[k].data) == EventData(R.Blocks(bytes)[k].wire)
    decreases |bytes|
  {
    hide R.FirstBlock, EventData;
    var block := R.FirstBlock(bytes, 0, 0).block;
    if k == 0 {
      StrippedPartIsBreaks(bytes, 0, 0);
      var breaks := block.wire[|block.data|..];
      assert block.wire == block.data + breaks;
      BreaksAddNoData(block.data, breaks);
    } else {
      StrippingKeepsData(bytes[|block.wire|..], k - 1);
    }
  }

  lemma BreaksAddNoData(bytes: Bytes, breaks: Bytes)
    requires OnlyBreaks(breaks)
    ensures EventData(bytes + breaks) == EventData(bytes)
  {
    hide TrimPrefix, Lines;
    TrimBeforeBreaks(bytes, breaks);
    TrailingBreaksAreNoLines(TrimPrefix(bytes, BYTE_ORDER_MARK), breaks);
  }
}
