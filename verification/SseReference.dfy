// A parser of the whole stream, and why the framer agrees with it on every cutting
// of the stream into chunks.
module SseReference {
  import opened Utf8
  import opened SseFramer

  // A complete frame: the part before the ending of its last line that is not blank,
  // all of it on the wire, and the size of the ending of its blank line.
  datatype Block = Block(data: Bytes, wire: Bytes, blankEnding: nat)

  // The size of the line ending at i: LF, CR, or CR and LF together.
  function EndingSize(bytes: Bytes, i: nat): (size: nat)
    requires i < |bytes| && IsBreak(bytes[i])
    ensures i + size <= |bytes|
  {
    if bytes[i] == CR && i + 1 < |bytes| && bytes[i + 1] == LF then 2 else 1
  }

  // Where the line that starts at from ends; |bytes| when it does not.
  function LineEndFrom(bytes: Bytes, from: nat): (i: nat)
    requires from <= |bytes|
    ensures from <= i <= |bytes| && NoBreak(bytes[from..i]) && (i < |bytes| ==> IsBreak(bytes[i]))
    ensures i < |bytes| || NoBreak(bytes[from..])
  {
    var n := FirstBreak(bytes[from..]);
    assert bytes[from..from + n] == bytes[from..][..n];
    assert bytes[from..][..|bytes| - from] == bytes[from..];
    from + n
  }

  datatype Found = NotYet | Complete(block: Block)

  // The first frame of bytes, when its lines before from are not blank and the last
  // of them had its text end at dataEnd.
  function FirstBlock(bytes: Bytes, from: nat, dataEnd: nat): (r: Found)
    requires dataEnd <= from <= |bytes|
    ensures r.Complete? ==> from < |r.block.wire| && r.block.wire <= bytes && r.block.data <= r.block.wire
    ensures r.Complete? ==> 1 <= r.block.blankEnding <= 2 && from + r.block.blankEnding <= |r.block.wire|
    decreases |bytes| - from
  {
    var i := LineEndFrom(bytes, from);
    if i == |bytes| then NotYet
    else
      var next := i + EndingSize(bytes, i);
      if i == from then Complete(Block(bytes[..dataEnd], bytes[..next], next - i)) else FirstBlock(bytes, next, i)
  }

  function Blocks(bytes: Bytes): seq<Block>
    decreases |bytes|
  {
    match FirstBlock(bytes, 0, 0)
    case NotYet => []
    case Complete(block) => [block] + Blocks(bytes[|block.wire|..])
  }

  // What is left after the complete frames.
  function Remainder(bytes: Bytes): Bytes
    decreases |bytes|
  {
    match FirstBlock(bytes, 0, 0)
    case NotYet => bytes
    case Complete(block) => Remainder(bytes[|block.wire|..])
  }

  // A blank line that ends in CR and LF is recognised at its CR.
  function SizeWhenRecognised(block: Block): int {
    |block.wire| - block.blankEnding + 1
  }

  datatype Parsed = Parsed(frames: seq<Frame>, failed: bool)

  // The frames of the stream, each at the offset of its data in the output, up to the
  // first frame that is too large.
  function Parse(bytes: Bytes, offset: nat, maximum: nat): Parsed
    decreases |bytes|, 1
  {
    ParseFrom(bytes, 0, 0, offset, maximum)
  }

  // Parse from inside the first frame, as FirstBlock takes it up.
  function ParseFrom(bytes: Bytes, from: nat, dataEnd: nat, offset: nat, maximum: nat): Parsed
    requires dataEnd <= from <= |bytes|
    decreases |bytes|, 0
  {
    match FirstBlock(bytes, from, dataEnd)
    case NotYet => Parsed([], |bytes| > maximum)
    case Complete(block) =>
      var frame := Frame(offset, block.data);
      if SizeWhenRecognised(block) > maximum then Parsed([], true)
      else if |block.wire| > maximum then Parsed([frame], true)
      else WithFrame([frame], Parse(bytes[|block.wire|..], offset + |block.data|, maximum))
  }

  function Result(p: Progress): Parsed {
    Parsed(p.frames, p.failed)
  }

  function WithFrame(frames: seq<Frame>, parsed: Parsed): Parsed {
    Parsed(frames + parsed.frames, parsed.failed)
  }

  // The framer at the start of a line, after from bytes of a frame.
  function AtLine(bytes: Bytes, from: nat, dataEnd: nat, offset: nat): State
    requires from <= |bytes|
  {
    State(from, offset, bytes[..from], dataEnd, false, false, false, 0)
  }

  // In strip mode the frames already emitted do not matter for what follows.
  lemma {:induction false} FramesAccumulate(c: Config, state: State, frames: seq<Frame>, bytes: Bytes)
    requires c.strip
    ensures var q := Steps(c, Progress(state, [], false), bytes);
      Steps(c, Progress(state, frames, false), bytes) == Progress(q.state, frames + q.frames, q.failed)
    decreases |bytes|
  {
    hide Step;
    if bytes == [] {
      assert frames + [] == frames;
    } else {
      var p, q := Step(c, Progress(state, [], false), bytes[0]), Step(c, Progress(state, frames, false), bytes[0]);
      StepAccumulates(c, state, frames, bytes[0]);
      if p.failed {
        StepsAfterFailure(c, p, bytes[1..]);
        StepsAfterFailure(c, q, bytes[1..]);
      } else {
        FramesAccumulate(c, p.state, p.frames, bytes[1..]);
        FramesAccumulate(c, q.state, q.frames, bytes[1..]);
        var r := Steps(c, Progress(p.state, [], false), bytes[1..]);
        assert (frames + p.frames) + r.frames == frames + (p.frames + r.frames);
      }
    }
  }

  lemma StepAccumulates(c: Config, state: State, frames: seq<Frame>, b: Byte)
    requires c.strip
    ensures var q := Step(c, Progress(state, [], false), b);
      Step(c, Progress(state, frames, false), b) == Progress(q.state, frames + q.frames, q.failed)
  {
    assert frames + [] == frames;
  }

  // After a carriage return the framer behaves as at the start of a line, unless a
  // line feed comes first.
  lemma AfterCarriageReturn(c: Config, p: Progress, bytes: Bytes)
    requires !p.failed && (bytes != [] ==> bytes[0] != LF)
    ensures Result(Steps(c, p, bytes)) == Result(Steps(c, p.(state := Cleared(p.state)), bytes))
  {
    hide Step;
    if bytes != [] {
      ClearingIsSilent(c, p, bytes);
    }
  }

  // Taking one whole line that is not blank, with its ending.
  lemma TakesLine(c: Config, bytes: Bytes, from: nat, dataEnd: nat, offset: nat)
    requires dataEnd <= from <= c.maximum && from <= |bytes|
    requires var i := LineEndFrom(bytes, from); from < i < |bytes|
    ensures var i := LineEndFrom(bytes, from);
      var next := i + EndingSize(bytes, i);
      Result(Steps(c, Progress(AtLine(bytes, from, dataEnd, offset), [], false), bytes[from..]))
      == if next > c.maximum then Parsed([], true)
         else Result(Steps(c, Progress(AtLine(bytes, next, i, offset), [], false), bytes[next..]))
  {
    hide Step, Steps, LineEndFrom, StateValid;
    var i := LineEndFrom(bytes, from);
    var next := i + EndingSize(bytes, i);
    var p := Progress(AtLine(bytes, from, dataEnd, offset), [], false);
    var segment := bytes[from..i + 1];
    StartIsValid(c, bytes, from, dataEnd, offset);
    assert segment[..i - from] == bytes[from..i];
    SegmentSteps(c, p, segment, i - from);
    assert bytes[from..] == segment + bytes[i + 1..];
    StepsConcat(c, p, segment, bytes[i + 1..]);
    var q := Steps(c, p, segment);
    if i + 1 > c.maximum {
      StepsAfterFailure(c, q, bytes[i + 1..]);
    } else {
      assert bytes[..from] + segment == bytes[..i + 1];
      assert q.state == AtLine(bytes, i + 1, i, offset).(afterCR := bytes[i] == CR);
      if next == i + 2 {
        TakesSecondHalf(c, q, bytes[i + 1..]);
        assert bytes[..i + 1] + [LF] == bytes[..i + 2];
      } else if bytes[i] == CR {
        AfterCarriageReturn(c, q, bytes[i + 1..]);
      }
    }
  }

  lemma StartIsValid(c: Config, bytes: Bytes, from: nat, dataEnd: nat, offset: nat)
    requires dataEnd <= from <= c.maximum && from <= |bytes|
    ensures StateValid(c, AtLine(bytes, from, dataEnd, offset))
  {
  }

  // The line feed of a CRLF in the middle of a frame.
  lemma TakesSecondHalf(c: Config, p: Progress, bytes: Bytes)
    requires !p.failed && bytes != [] && bytes[0] == LF
    requires p.state.afterCR && !p.state.frameEndedAtCR
    ensures Steps(c, p, bytes)
      == if !Fits(c, p.state, 1) then Failure(p)
         else Steps(c, p.(state := Extend(p.state, [LF]).(afterCR := false)), bytes[1..])
  {
    if !Fits(c, p.state, 1) {
      StepsAfterFailure(c, Failure(p), bytes[1..]);
    }
  }

  // Taking the blank line that ends the frame.
  lemma TakesBlankLine(c: Config, bytes: Bytes, from: nat, dataEnd: nat, offset: nat)
    requires c.strip && dataEnd <= from <= c.maximum && from < |bytes| && IsBreak(bytes[from])
    ensures var next := from + EndingSize(bytes, from);
      var frame := Frame(offset, bytes[..dataEnd]);
      Result(Steps(c, Progress(AtLine(bytes, from, dataEnd, offset), [], false), bytes[from..]))
      == if from + 1 > c.maximum then Parsed([], true)
         else if next > c.maximum then Parsed([frame], true)
         else WithFrame([frame],
                Result(Steps(c, Progress(AtLine(bytes[next..], 0, 0, offset + dataEnd), [], false), bytes[next..])))
  {
    hide Step, StateValid, Steps;
    var next := from + EndingSize(bytes, from);
    var p := Progress(AtLine(bytes, from, dataEnd, offset), [], false);
    var segment := bytes[from..from + 1];
    StartIsValid(c, bytes, from, dataEnd, offset);
    SegmentSteps(c, p, segment, 0);
    assert bytes[from..] == segment + bytes[from + 1..];
    StepsConcat(c, p, segment, bytes[from + 1..]);
    var q := Steps(c, p, segment);
    if from + 1 > c.maximum {
      StepsAfterFailure(c, q, bytes[from + 1..]);
    } else {
      var frame := Frame(offset, bytes[..dataEnd]);
      assert bytes[..from] + segment == bytes[..from + 1];
      assert bytes[..from + 1][..dataEnd] == bytes[..dataEnd];
      assert q.frames == [frame];
      var start := AtLine(bytes[next..], 0, 0, offset + dataEnd);
      assert Cleared(q.state) == start;
      if next == from + 2 {
        TakesLateLineFeed(c, q, bytes[from + 1..]);
        if next <= c.maximum {
          FramesAccumulate(c, start, [frame], bytes[next..]);
          assert bytes[from + 1..][1..] == bytes[next..];
        }
      } else {
        if bytes[from] == CR {
          AfterCarriageReturn(c, q, bytes[from + 1..]);
        }
        FramesAccumulate(c, start, [frame], bytes[next..]);
      }
    }
  }

  lemma TakesLateLineFeed(c: Config, p: Progress, bytes: Bytes)
    requires c.strip && !p.failed && bytes != [] && bytes[0] == LF
    requires p.state.afterCR && p.state.frameEndedAtCR
    ensures Steps(c, p, bytes)
      == if p.state.endedFrameWireSize >= c.maximum then Failure(p)
         else Steps(c, p.(state := Cleared(p.state)), bytes[1..])
  {
    if p.state.endedFrameWireSize >= c.maximum {
      StepsAfterFailure(c, Failure(p), bytes[1..]);
    }
  }

  // The framer at the start of a line of a frame does what the reference does with
  // that frame and all that follow it.
  lemma {:induction false} FramerParses(c: Config, bytes: Bytes, from: nat, dataEnd: nat, offset: nat)
    requires c.strip && dataEnd <= from <= c.maximum && from <= |bytes|
    ensures Result(Steps(c, Progress(AtLine(bytes, from, dataEnd, offset), [], false), bytes[from..]))
      == ParseFrom(bytes, from, dataEnd, offset, c.maximum)
    decreases |bytes| - from
  {
    hide Step, Steps, LineEndFrom, FirstBlock;
    var i := LineEndFrom(bytes, from);
    if i == |bytes| {
      TakesUnfinishedLine(c, bytes, from, dataEnd, offset);
    } else if i == from {
      BlankLineEndsBlock(bytes, from, dataEnd);
      TakesBlankLine(c, bytes, from, dataEnd, offset);
      var next := from + EndingSize(bytes, from);
      if next <= c.maximum {
        assert bytes[next..][0..] == bytes[next..];
        FramerParses(c, bytes[next..], 0, 0, offset + dataEnd);
      }
    } else {
      TakesLine(c, bytes, from, dataEnd, offset);
      NextLineOfBlock(bytes, from, dataEnd);
      var next := i + EndingSize(bytes, i);
      if next <= c.maximum {
        FramerParses(c, bytes, next, i, offset);
      }
    }
  }

  lemma TakesUnfinishedLine(c: Config, bytes: Bytes, from: nat, dataEnd: nat, offset: nat)
    requires dataEnd <= from <= c.maximum && from <= |bytes|
    requires LineEndFrom(bytes, from) == |bytes|
    ensures Result(Steps(c, Progress(AtLine(bytes, from, dataEnd, offset), [], false), bytes[from..]))
      == Parsed([], |bytes| > c.maximum)
    ensures FirstBlock(bytes, from, dataEnd) == NotYet
  {
    hide Step;
    if from < |bytes| {
      StepsOfStretch(c, Progress(AtLine(bytes, from, dataEnd, offset), [], false), bytes[from..]);
    }
  }

  lemma BlankLineEndsBlock(bytes: Bytes, from: nat, dataEnd: nat)
    requires dataEnd <= from < |bytes| && LineEndFrom(bytes, from) == from
    ensures var size := EndingSize(bytes, from);
      FirstBlock(bytes, from, dataEnd) == Complete(Block(bytes[..dataEnd], bytes[..from + size], size))
  {
  }

  lemma NextLineOfBlock(bytes: Bytes, from: nat, dataEnd: nat)
    requires dataEnd <= from <= |bytes|
    requires from < LineEndFrom(bytes, from) < |bytes|
    ensures var i := LineEndFrom(bytes, from);
      var next := i + EndingSize(bytes, i);
      && FirstBlock(bytes, from, dataEnd) == FirstBlock(bytes, next, i)
      && (FirstBlock(bytes, next, i).Complete? ==> SizeWhenRecognised(FirstBlock(bytes, next, i).block) >= next)
  {
  }

  // ---- Main results ----

  function Concat(chunks: seq<Bytes>): Bytes {
    if chunks == [] then [] else chunks[0] + Concat(chunks[1..])
  }

  // One append per chunk, each starting a list of its own, until one fails.
  function Appends(c: Config, state: State, chunks: seq<Bytes>): Progress
    decreases |chunks|
  {
    if chunks == [] then Progress(state, [], false)
    else
      var p := Steps(c, Progress(state, [], false), chunks[0]);
      if p.failed then p
      else
        var rest := Appends(c, p.state, chunks[1..]);
        rest.(frames := p.frames + rest.frames)
  }

  lemma {:induction false} AppendsAreSteps(c: Config, state: State, chunks: seq<Bytes>)
    requires c.strip
    ensures Appends(c, state, chunks) == Steps(c, Progress(state, [], false), Concat(chunks))
    decreases |chunks|
  {
    hide Steps, Step;
    if chunks == [] {
      assert Steps(c, Progress(state, [], false), []) == Progress(state, [], false) by {
        NoSteps(c, Progress(state, [], false));
      }
    } else {
      var p := Steps(c, Progress(state, [], false), chunks[0]);
      StepsConcat(c, Progress(state, [], false), chunks[0], Concat(chunks[1..]));
      if p.failed {
        StepsAfterFailure(c, p, Concat(chunks[1..]));
      } else {
        AppendsAreSteps(c, p.state, chunks[1..]);
        FramesAccumulate(c, p.state, p.frames, Concat(chunks[1..]));
      }
    }
  }

  // Chunk independence: in strip mode the frames and the size verdict are those of
  // the reference parser on the whole stream, wherever the stream was cut.
  lemma ChunksDoNotMatter(maximum: nat, chunks: seq<Bytes>)
    ensures Result(Appends(Config(maximum, true), INITIAL, chunks)) == Parse(Concat(chunks), 0, maximum)
  {
    hide Steps, FirstBlock;
    var c, bytes := Config(maximum, true), Concat(chunks);
    AppendsAreSteps(c, INITIAL, chunks);
    assert bytes[0..] == bytes;
    assert AtLine(bytes, 0, 0, 0) == INITIAL;
    FramerParses(c, bytes, 0, 0, 0);
  }

  predicate TooLarge(bytes: Bytes, maximum: nat) {
    |Remainder(bytes)| > maximum || exists i :: 0 <= i < |Blocks(bytes)| && |Blocks(bytes)[i].wire| > maximum
  }

  // A size error occurs exactly when a frame with its terminators, or the unfinished
  // rest of the stream, exceeds the maximum.
  lemma {:induction false} FailsExactlyWhenTooLarge(bytes: Bytes, offset: nat, maximum: nat)
    ensures Parse(bytes, offset, maximum).failed <==> TooLarge(bytes, maximum)
    decreases |bytes|
  {
    hide FirstBlock;
    match FirstBlock(bytes, 0, 0)
    case NotYet =>
    case Complete(block) =>
      var rest := bytes[|block.wire|..];
      FailsExactlyWhenTooLarge(rest, offset + |block.data|, maximum);
      var blocks := Blocks(bytes);
      assert blocks == [block] + Blocks(rest);
      assert blocks[0] == block;
      forall i | 0 <= i < |Blocks(rest)|
        ensures blocks[i + 1] == Blocks(rest)[i]
      {
      }
  }

  function Wires(blocks: seq<Block>): Bytes {
    if blocks == [] then [] else blocks[0].wire + Wires(blocks[1..])
  }

  // The frames of a block list, as strip mode emits them.
  function Stripped(blocks: seq<Block>, offset: nat): seq<Frame> {
    if blocks == [] then []
    else [Frame(offset, blocks[0].data)] + Stripped(blocks[1..], offset + |blocks[0].data|)
  }

  // Nothing is lost in the parse: the frames on the wire and the remainder are the
  // stream, and the remainder holds no complete frame.
  lemma {:induction false} BlocksMakeUpStream(bytes: Bytes)
    ensures Wires(Blocks(bytes)) + Remainder(bytes) == bytes
    ensures FirstBlock(Remainder(bytes), 0, 0) == NotYet
    decreases |bytes|
  {
    hide FirstBlock;
    match FirstBlock(bytes, 0, 0)
    case NotYet =>
      assert [] + bytes == bytes;
    case Complete(block) =>
      var rest := bytes[|block.wire|..];
      BlocksMakeUpStream(rest);
      WiresOfLonger(block, Blocks(rest), Remainder(rest));
      assert block.wire + rest == bytes;
  }

  lemma WiresOfLonger(block: Block, blocks: seq<Block>, remainder: Bytes)
    ensures Wires([block] + blocks) + remainder == block.wire + (Wires(blocks) + remainder)
  {
    assert ([block] + blocks)[1..] == blocks;
  }

  // Without a size error every complete frame is emitted, and nothing else.
  lemma {:induction false} ParseEmitsBlocks(bytes: Bytes, offset: nat, maximum: nat)
    requires !Parse(bytes, offset, maximum).failed
    ensures Parse(bytes, offset, maximum).frames == Stripped(Blocks(bytes), offset)
    decreases |bytes|
  {
    hide FirstBlock;
    match FirstBlock(bytes, 0, 0)
    case NotYet =>
    case Complete(block) =>
      var rest := bytes[|block.wire|..];
      ParseEmitsBlocks(rest, offset + |block.data|, maximum);
      assert ([block] + Blocks(rest))[1..] == Blocks(rest);
  }

  // ---- Pass-through ----

  // The frames lie end to end from offset from on, and their data make up bytes.
  predicate Covers(frames: seq<Frame>, from: nat, bytes: Bytes)
    decreases |frames|
  {
    if frames == [] then bytes == []
    else
      && frames[0].offset == from
      && frames[0].data <= bytes
      && Covers(frames[1..], from + |frames[0].data|, bytes[|frames[0].data|..])
  }

  // In strip mode too the frames lie end to end, so that each is at the size of those
  // before it.
  lemma {:induction false} FramesLieEndToEnd(bytes: Bytes, offset: nat, maximum: nat) returns (emitted: Bytes)
    ensures Covers(Parse(bytes, offset, maximum).frames, offset, emitted)
    decreases |bytes|
  {
    hide FirstBlock, Covers;
    emitted := [];
    NothingCovered(offset);
    match FirstBlock(bytes, 0, 0)
    case NotYet =>
    case Complete(block) =>
      if SizeWhenRecognised(block) > maximum {
      } else if |block.wire| > maximum {
        NothingCovered(offset + |block.data|);
        OneMoreCovered(offset, block.data, [], []);
        emitted := block.data + [];
        assert [Frame(offset, block.data)] + [] == [Frame(offset, block.data)];
      } else {
        var rest := FramesLieEndToEnd(bytes[|block.wire|..], offset + |block.data|, maximum);
        OneMoreCovered(offset, block.data, Parse(bytes[|block.wire|..], offset + |block.data|, maximum).frames, rest);
        emitted := block.data + rest;
      }
  }

  lemma OneMoreCovered(offset: nat, data: Bytes, frames: seq<Frame>, rest: Bytes)
    requires Covers(frames, offset + |data|, rest)
    ensures Covers([Frame(offset, data)] + frames, offset, data + rest)
  {
    assert ([Frame(offset, data)] + frames)[1..] == frames;
    assert (data + rest)[|data|..] == rest;
  }

  lemma {:induction false} CoversConcat(a: seq<Frame>, b: seq<Frame>, from: nat, x: Bytes, y: Bytes)
    requires Covers(a, from, x) && Covers(b, from + |x|, y)
    ensures Covers(a + b, from, x + y)
    decreases |a|
  {
    if a == [] {
      assert a + b == b && x + y == y;
    } else {
      var n := |a[0].data|;
      CoversConcat(a[1..], b, from + n, x[n..], y);
      assert (a + b)[1..] == a[1..] + b;
      assert (x + y)[n..] == x[n..] + y;
    }
  }

  lemma CoversOne(offset: nat, data: Bytes)
    ensures Covers([Frame(offset, data)], offset, data)
  {
    assert [Frame(offset, data)][1..] == [];
    assert data[|data|..] == [];
  }

  function Longer(frames: seq<Frame>, b: Byte): seq<Frame>
    requires frames != []
  {
    var last := frames[|frames| - 1];
    frames[|frames| - 1 := last.(data := last.data + [b])]
  }

  lemma {:induction false} CoversLonger(frames: seq<Frame>, from: nat, bytes: Bytes, b: Byte)
    requires frames != [] && Covers(frames, from, bytes)
    ensures Covers(Longer(frames, b), from, bytes + [b])
    decreases |frames|
  {
    var n := |frames[0].data|;
    if |frames| == 1 {
      assert bytes == frames[0].data;
      CoversOne(from, bytes + [b]);
      assert Longer(frames, b) == [Frame(from, bytes + [b])];
    } else {
      CoversLonger(frames[1..], from + n, bytes[n..], b);
      assert Longer(frames, b)[1..] == Longer(frames[1..], b);
      assert (bytes + [b])[n..] == bytes[n..] + [b];
    }
  }

  // Of the bytes given so far, done are emitted and the rest is the frame under way.
  ghost predicate Conserves(from: nat, p: Progress, done: Bytes, given: Bytes) {
    && given == done + p.state.frame
    && Covers(p.frames, from, done)
    && p.state.emittedOffset == from + |done|
    && (p.state.frameEndedAtCR ==> p.state.frame == [])
  }

  lemma StepConserves(c: Config, from: nat, p: Progress, done: Bytes, given: Bytes, b: Byte)
    requires !c.strip && !p.failed && Conserves(from, p, done, given)
    ensures var q := Step(c, p, b);
      && (!q.failed ==> Conserves(from, q, done, given + [b]) || Conserves(from, q, given + [b], given + [b]))
      && (q.failed ==> q.frames == p.frames)
  {
    hide Covers;
    var grown := p.state.frame + [b];
    assert given + [b] == done + grown;
    assert given + [b] == (given + [b]) + [];
    if p.state.afterCR && b == LF && p.state.frameEndedAtCR {
      assert given == done;
      if p.frames != [] {
        CoversLonger(p.frames, from, done, b);
      } else {
        CoversOne(from + |done|, [LF]);
        CoversConcat(p.frames, [Frame(from + |done|, [LF])], from, done, [LF]);
        assert p.frames + [Frame(from + |done|, [LF])] == [Frame(from + |done|, [LF])];
      }
    } else {
      CoversOne(from + |done|, grown);
      CoversConcat(p.frames, [Frame(from + |done|, grown)], from, done, grown);
    }
  }

  // How many of the bytes given the frames of an append hold.
  lemma {:induction false} StepsConserve(c: Config, from: nat, p: Progress, done: Bytes, given: Bytes, more: Bytes)
    returns (emitted: Bytes)
    requires !c.strip && !p.failed && Conserves(from, p, done, given)
    ensures var q := Steps(c, p, more);
      && emitted <= given + more && Covers(q.frames, from, emitted)
      && (!q.failed ==> Conserves(from, q, emitted, given + more))
    decreases |more|
  {
    hide Step, Covers;
    if more == [] {
      assert given + more == given;
      emitted := done;
    } else {
      var next := Step(c, p, more[0]);
      StepConserves(c, from, p, done, given, more[0]);
      if next.failed {
        StepsAfterFailure(c, next, more[1..]);
        assert given + more == done + (p.state.frame + more);
        emitted := done;
      } else {
        var longer := given + [more[0]];
        assert longer + more[1..] == given + more;
        emitted := StepsConserve(c, from, next, if Conserves(from, next, done, longer) then done else longer, longer, more[1..]);
      }
    }
  }

  // Pass-through emits every byte once and in order: with no size error the emitted
  // data, and what finish adds, are the whole input at contiguous offsets; with one,
  // what was emitted is a prefix of the input.
  lemma {:induction false} PassThroughConserves(c: Config, state: State, chunks: seq<Bytes>) returns (emitted: Bytes)
    requires !c.strip && (state.frameEndedAtCR ==> state.frame == [])
    ensures var p, given := Appends(c, state, chunks), state.frame + Concat(chunks);
      && emitted <= given && Covers(p.frames, state.emittedOffset, emitted)
      && (!p.failed ==> Covers(p.frames + Rest(c, p.state), state.emittedOffset, given))
    decreases |chunks|
  {
    hide Steps, Step, Covers;
    NothingCovered(state.emittedOffset);
    var start := Progress(state, [], false);
    if chunks == [] {
      emitted := [];
      assert state.frame + Concat(chunks) == state.frame;
      assert state.frame == [] + state.frame;
      RestCovers(c, state.emittedOffset, start, [], state.frame);
    } else {
      var p := Steps(c, start, chunks[0]);
      assert state.frame == [] + state.frame;
      var first := StepsConserve(c, state.emittedOffset, start, [], state.frame, chunks[0]);
      assert state.frame + Concat(chunks) == (state.frame + chunks[0]) + Concat(chunks[1..]);
      if p.failed {
        emitted := first;
      } else {
        var rest := PassThroughConserves(c, p.state, chunks[1..]);
        var q := Appends(c, p.state, chunks[1..]);
        var later := p.state.frame + Concat(chunks[1..]);
        assert first + later == state.frame + Concat(chunks);
        emitted := first + rest;
        CoversConcat(p.frames, q.frames, state.emittedOffset, first, rest);
        if !q.failed {
          CoversConcat(p.frames, q.frames + Rest(c, q.state), state.emittedOffset, first, later);
          assert p.frames + (q.frames + Rest(c, q.state)) == (p.frames + q.frames) + Rest(c, q.state);
        }
      }
    }
  }

  lemma NothingCovered(from: nat)
    ensures Covers([], from, [])
  {
  }

  lemma RestCovers(c: Config, from: nat, p: Progress, done: Bytes, given: Bytes)
    requires !c.strip && Conserves(from, p, done, given)
    ensures Covers(p.frames + Rest(c, p.state), from, given)
  {
    hide Covers;
    if p.state.frame == [] {
      assert p.frames + [] == p.frames && given == done;
    } else {
      CoversOne(from + |done|, p.state.frame);
      CoversConcat(p.frames, Rest(c, p.state), from, done, p.state.frame);
    }
  }

  // ---- Both modes ----

  // Two framers that differ in their mode only, and so in what they emit.
  predicate SameButOutput(a: State, b: State) {
    a == b.(emittedOffset := a.emittedOffset)
  }

  lemma {:induction false} ModesStepTogether(maximum: nat, p: Progress, q: Progress, bytes: Bytes)
    requires p.failed == q.failed && SameButOutput(p.state, q.state)
    ensures var a, b := Steps(Config(maximum, true), p, bytes), Steps(Config(maximum, false), q, bytes);
      a.failed == b.failed && SameButOutput(a.state, b.state)
    decreases |bytes|
  {
    if bytes != [] {
      ModesStepTogether(maximum, Step(Config(maximum, true), p, bytes[0]), Step(Config(maximum, false), q, bytes[0]), bytes[1..]);
    }
  }

  lemma {:induction false} ModesAppendTogether(maximum: nat, a: State, b: State, chunks: seq<Bytes>)
    requires SameButOutput(a, b)
    ensures Appends(Config(maximum, true), a, chunks).failed == Appends(Config(maximum, false), b, chunks).failed
    decreases |chunks|
  {
    hide Steps;
    if chunks != [] {
      ModesStepTogether(maximum, Progress(a, [], false), Progress(b, [], false), chunks[0]);
      var p := Steps(Config(maximum, true), Progress(a, [], false), chunks[0]);
      var q := Steps(Config(maximum, false), Progress(b, [], false), chunks[0]);
      ModesAppendTogether(maximum, p.state, q.state, chunks[1..]);
    }
  }

  // In either mode and for every cutting, the stream is refused exactly when one of
  // its frames on the wire is larger than the maximum.
  lemma SizeVerdict(maximum: nat, strip: bool, chunks: seq<Bytes>)
    ensures Appends(Config(maximum, strip), INITIAL, chunks).failed <==> TooLarge(Concat(chunks), maximum)
  {
    hide TooLarge, Parse, Appends;
    ChunksDoNotMatter(maximum, chunks);
    FailsExactlyWhenTooLarge(Concat(chunks), 0, maximum);
    ModesAppendTogether(maximum, INITIAL, INITIAL, chunks);
  }

  // streamRemoteResponse: one framer, one append per chunk read, finish at the end.
  method StreamFrames(maximum: nat, strip: bool, chunks: seq<Bytes>) returns (frames: seq<Frame>, failed: bool)
    ensures failed <==> TooLarge(Concat(chunks), maximum)
    ensures strip ==> frames == Parse(Concat(chunks), 0, maximum).frames
    ensures !strip && !failed ==> Covers(frames, 0, Concat(chunks))
  {
    hide Steps, Step, Parse, TooLarge, Covers, StateValid;
    ghost var c := Config(maximum, strip);
    ghost var whole := Appends(c, INITIAL, chunks);
    SizeVerdict(maximum, strip, chunks);
    if strip {
      ChunksDoNotMatter(maximum, chunks);
    } else {
      ghost var emitted := PassThroughConserves(c, INITIAL, chunks);
      assert INITIAL.frame + Concat(chunks) == Concat(chunks);
    }
    var framer := new Framer(maximum, strip);
    frames := [];
    var i := 0;
    while i < |chunks|
      invariant 0 <= i <= |chunks|
      invariant framer.Valid() && framer.Conf() == c && fresh(framer)
      invariant var rest := Appends(c, framer.Value(), chunks[i..]);
        whole == rest.(frames := frames + rest.frames)
    {
      assert chunks[i..][1..] == chunks[i + 1..];
      var more;
      more, failed := framer.Append(chunks[i]);
      ghost var was := frames;
      frames := frames + more;
      if failed {
        return;
      }
      ghost var rest := Appends(c, framer.Value(), chunks[i + 1..]);
      assert was + (more + rest.frames) == frames + rest.frames;
      i := i + 1;
    }
    failed := false;
    assert frames + [] == frames;
    assert whole == Progress(framer.Value(), frames, false);
    var last := framer.Finish();
    frames := frames + last;
  }
}
