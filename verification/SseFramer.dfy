// Framing of a server-sent event stream: harness/primitives/remote_sse.go. Line
// and event boundaries are those of the WHATWG HTML Living Standard, section 9.2.5.
module SseFramer {
  import opened Utf8

  const CR: Byte := 0x0D
  const LF: Byte := 0x0A

  datatype Frame = Frame(offset: nat, data: Bytes)

  // The fields of remoteSSEFramer that change.
  datatype State = State(
    frameWireSize: nat,
    emittedOffset: nat,
    frame: Bytes,
    delimiterStart: nat,
    lineHasData: bool,
    afterCR: bool,
    frameEndedAtCR: bool,
    endedFrameWireSize: nat)

  const INITIAL := State(0, 0, [], 0, false, false, false, 0)

  datatype Config = Config(maximum: nat, strip: bool)

  // What one append call has done so far.
  datatype Progress = Progress(state: State, frames: seq<Frame>, failed: bool)

  predicate IsBreak(b: Byte) {
    b == CR || b == LF
  }

  // ---- One byte at a time ----

  predicate Fits(c: Config, state: State, size: nat) {
    state.frameWireSize + size <= c.maximum
  }

  function Extend(state: State, bytes: Bytes): State {
    state.(frame := state.frame + bytes, frameWireSize := state.frameWireSize + |bytes|)
  }

  function Cleared(state: State): State {
    state.(afterCR := false, frameEndedAtCR := false, endedFrameWireSize := 0)
  }

  // takeFrame: the frame and the state without it.
  function Take(c: Config, state: State, delimiterStart: nat): (Frame, State) {
    var data := if c.strip && delimiterStart <= |state.frame| then state.frame[..delimiterStart] else state.frame;
    (Frame(state.emittedOffset, data),
     state.(emittedOffset := state.emittedOffset + |data|, frameWireSize := 0, frame := [], delimiterStart := 0))
  }

  // The size error; the state is no longer of interest.
  function Failure(p: Progress): Progress {
    Progress(INITIAL, p.frames, true)
  }

  function Emit(c: Config, frames: seq<Frame>, state: State): Progress {
    var (frame, rest) := Take(c, state, state.delimiterStart);
    Progress(rest, frames + [frame], false)
  }

  // A line feed that completes the CRLF of a blank line whose frame is already out.
  function LateLineFeed(c: Config, p: Progress): Progress {
    if p.state.endedFrameWireSize >= c.maximum then Failure(p)
    else if c.strip then p.(state := Cleared(p.state))
    else
      var frames :=
        if p.frames != [] then
          var last := p.frames[|p.frames| - 1];
          p.frames[|p.frames| - 1 := last.(data := last.data + [LF])]
        else [Frame(p.state.emittedOffset, [LF])];
      Progress(Cleared(p.state).(emittedOffset := p.state.emittedOffset + 1), frames, false)
  }

  // The end of a line whose last byte b is in the frame: of a blank line, and with
  // it of the frame, or of one that may be the last before the blank line.
  function LineEnd(c: Config, frames: seq<Frame>, grown: State, b: Byte): Progress {
    if grown.lineHasData && grown.frame != [] then
      Progress(grown.(delimiterStart := |grown.frame| - 1, lineHasData := false, afterCR := b == CR), frames, false)
    else
      Emit(c, frames, if b != CR then grown
                      else grown.(afterCR := true, frameEndedAtCR := true, endedFrameWireSize := grown.frameWireSize))
  }

  function Step(c: Config, p: Progress, b: Byte): Progress {
    if p.failed then p
    else if p.state.afterCR && b == LF then
      if p.state.frameEndedAtCR then LateLineFeed(c, p)
      else if !Fits(c, p.state, 1) then Failure(p)
      else p.(state := Extend(p.state, [b]).(afterCR := false))
    else if !Fits(c, p.state, 1) then Failure(p)
    else
      var grown := Extend(Cleared(p.state), [b]);
      if IsBreak(b) then LineEnd(c, p.frames, grown, b) else p.(state := grown.(lineHasData := true))
  }

  function Steps(c: Config, p: Progress, bytes: Bytes): Progress
    decreases |bytes|
  {
    if bytes == [] then p else Steps(c, Step(c, p, bytes[0]), bytes[1..])
  }

  lemma {:induction false} StepsConcat(c: Config, p: Progress, a: Bytes, b: Bytes)
    ensures Steps(c, p, a + b) == Steps(c, Steps(c, p, a), b)
    decreases |a|
  {
    hide Step;
    if a == [] {
      assert a + b == b;
    } else {
      assert (a + b)[1..] == a[1..] + b;
      StepsConcat(c, Step(c, p, a[0]), a[1..], b);
    }
  }

  lemma {:induction false} StepsAfterFailure(c: Config, p: Progress, bytes: Bytes)
    requires p.failed
    ensures Steps(c, p, bytes) == p
    decreases |bytes|
  {
    if bytes != [] {
      StepsAfterFailure(c, p, bytes[1..]);
    }
  }

  predicate NoBreak(bytes: Bytes) {
    forall i | 0 <= i < |bytes| :: !IsBreak(bytes[i])
  }

  // A stretch of a line goes in as a whole, or the frame is too large.
  lemma {:induction false} StepsOfStretch(c: Config, p: Progress, bytes: Bytes)
    requires !p.failed && NoBreak(bytes) && bytes != [] && p.state.frameWireSize <= c.maximum
    ensures var q := Steps(c, p, bytes);
      && q.frames == p.frames
      && (q.failed <==> !Fits(c, p.state, |bytes|))
      && (!q.failed ==> q.state == Extend(Cleared(p.state), bytes).(lineHasData := true))
    decreases |bytes|
  {
    var next := Step(c, p, bytes[0]);
    if |bytes| == 1 {
      assert Steps(c, next, bytes[1..]) == next;
      assert bytes == [bytes[0]];
    } else if next.failed {
      StepsAfterFailure(c, next, bytes[1..]);
    } else {
      StepsOfStretch(c, next, bytes[1..]);
      assert p.state.frame + [bytes[0]] + bytes[1..] == p.state.frame + bytes;
    }
  }

  // ---- The framer ----

  function FirstBreak(bytes: Bytes): (i: nat)
    ensures i <= |bytes| && NoBreak(bytes[..i]) && (i < |bytes| ==> IsBreak(bytes[i]))
  {
    if bytes == [] || IsBreak(bytes[0]) then 0
    else
      var i := FirstBreak(bytes[1..]);
      assert bytes[..i + 1] == [bytes[0]] + bytes[1..][..i];
      i + 1
  }

  // Between appends a frame under way fits, and its delimiter lies within it.
  predicate StateValid(c: Config, state: State) {
    && state.frameWireSize <= c.maximum
    && |state.frame| == state.frameWireSize
    && state.delimiterStart <= |state.frame|
    && (state.lineHasData ==> state.frame != [])
    && (state.afterCR ==> !state.lineHasData)
    && (!state.afterCR ==> Cleared(state) == state)
    && (state.frameEndedAtCR ==> state.frame == [])
    && (!state.frameEndedAtCR ==> state.endedFrameWireSize == 0)
  }

  // A carriage return that no line feed follows needs no memory.
  lemma ClearingIsSilent(c: Config, p: Progress, bytes: Bytes)
    requires !p.failed && bytes != [] && bytes[0] != LF
    ensures Steps(c, p.(state := Cleared(p.state)), bytes) == Steps(c, p, bytes)
  {
  }

  // A whole segment of a line goes in at once, or does not fit.
  lemma SegmentSteps(c: Config, p: Progress, segment: Bytes, lineEnding: nat)
    requires !p.failed && StateValid(c, p.state) && !p.state.afterCR
    requires segment != [] && lineEnding <= |segment| && NoBreak(segment[..lineEnding])
    requires lineEnding < |segment| ==> lineEnding + 1 == |segment| && IsBreak(segment[lineEnding])
    ensures var q, grown := Steps(c, p, segment), Extend(p.state, segment);
      if !Fits(c, p.state, |segment|) then q.failed && q.frames == p.frames
      else if lineEnding == |segment| then q == p.(state := grown.(lineHasData := true))
      else q == LineEnd(c, p.frames, grown.(lineHasData := p.state.lineHasData || lineEnding != 0), segment[lineEnding])
  {
    hide LineEnd, Step, Steps;
    var stretch := segment[..lineEnding];
    if stretch != [] {
      StepsOfStretch(c, p, stretch);
    }
    if lineEnding == |segment| {
      assert stretch == segment;
    } else {
      var b := segment[lineEnding];
      assert segment == stretch + [b];
      StepsConcat(c, p, stretch, [b]);
      var q := Steps(c, p, stretch);
      LastStep(c, q, b);
      NoSteps(c, p);
      assert p.state.frame + stretch + [b] == p.state.frame + segment;
      if !q.failed {
        BreakStep(c, q, b);
      }
    }
  }

  lemma LastStep(c: Config, p: Progress, b: Byte)
    ensures Steps(c, p, [b]) == Step(c, p, b)
    ensures p.failed ==> Step(c, p, b) == p
  {
    NoSteps(c, Step(c, p, b));
  }

  lemma NoSteps(c: Config, p: Progress)
    ensures Steps(c, p, []) == p
  {
  }

  lemma BreakStep(c: Config, p: Progress, b: Byte)
    requires !p.failed && Cleared(p.state) == p.state && IsBreak(b)
    ensures Step(c, p, b)
      == if !Fits(c, p.state, 1) then Failure(p) else LineEnd(c, p.frames, Extend(p.state, [b]), b)
  {
    hide LineEnd;
  }

  lemma LineEndIsValid(c: Config, frames: seq<Frame>, grown: State, b: Byte)
    requires grown.frameWireSize <= c.maximum && |grown.frame| == grown.frameWireSize && grown.frame != []
    requires grown.delimiterStart <= |grown.frame| && Cleared(grown) == grown
    ensures var q := LineEnd(c, frames, grown, b); !q.failed && StateValid(c, q.state)
  {
  }

  class Framer {
    const maximumFrameSize: nat
    const strip: bool
    var frameWireSize: nat
    var emittedOffset: nat
    var frame: Bytes
    var delimiterStart: nat
    var lineHasData: bool
    var afterCR: bool
    var frameEndedAtCR: bool
    var endedFrameWireSize: nat

    ghost function Value(): State
      reads this
    {
      State(frameWireSize, emittedOffset, frame, delimiterStart, lineHasData, afterCR, frameEndedAtCR, endedFrameWireSize)
    }

    ghost function Conf(): Config {
      Config(maximumFrameSize, strip)
    }

    ghost predicate Valid()
      reads this
    {
      StateValid(Conf(), Value())
    }

    constructor (maximumFrameSize: nat, strip: bool)
      ensures Valid() && Value() == INITIAL && Conf() == Config(maximumFrameSize, strip)
    {
      this.maximumFrameSize, this.strip := maximumFrameSize, strip;
      frameWireSize, emittedOffset, frame, delimiterStart := 0, 0, [], 0;
      lineHasData, afterCR, frameEndedAtCR, endedFrameWireSize := false, false, false, 0;
    }

    // The outcome of a piece of an append is the one p describes. A framer that has
    // failed is not used again.
    ghost predicate Agrees(frames: seq<Frame>, failed: bool, p: Progress)
      reads this
    {
      frames == p.frames && failed == p.failed && (!failed ==> Value() == p.state && Valid())
    }

    // append
    method Append(encoded: Bytes) returns (frames: seq<Frame>, failed: bool)
      requires Valid()
      modifies this
      ensures Agrees(frames, failed, Steps(Conf(), Progress(old(Value()), [], false), encoded))
    {
      hide Step, StateValid;
      ghost var c, whole := Conf(), Steps(Conf(), Progress(Value(), [], false), encoded);
      frames := [];
      var left := encoded;
      while left != []
        invariant Valid()
        invariant whole == Steps(c, Progress(Value(), frames, false), left)
        decreases |left|
      {
        ghost var before := Progress(Value(), frames, false);
        if afterCR && left[0] == LF {
          frames, failed := LineFeedAfterCR(frames);
          if failed {
            StepsAfterFailure(c, Step(c, before, LF), left[1..]);
            return;
          }
          left := left[1..];
        } else {
          if afterCR {
            ClearingIsSilent(c, before, left);
            Forget();
          }
          var lineEnding := FirstBreak(left);
          var segment := if lineEnding == |left| then left else left[..lineEnding + 1];
          assert left == segment + left[|segment|..];
          StepsConcat(c, Progress(Value(), frames, false), segment, left[|segment|..]);
          ghost var after := Steps(c, Progress(Value(), frames, false), segment);
          frames, failed := AppendSegment(frames, segment, lineEnding);
          if failed {
            StepsAfterFailure(c, after, left[|segment|..]);
            return;
          }
          left := left[|segment|..];
        }
      }
      failed := false;
    }

    method Forget()
      requires Valid()
      modifies this
      ensures Valid() && Value() == Cleared(old(Value()))
    {
      afterCR := false;
      frameEndedAtCR := false;
      endedFrameWireSize := 0;
    }

    // The line feed of a CRLF whose carriage return has been taken.
    method LineFeedAfterCR(before: seq<Frame>) returns (frames: seq<Frame>, failed: bool)
      requires Valid() && afterCR
      modifies this
      ensures Agrees(frames, failed, Step(Conf(), Progress(old(Value()), before, false), LF))
    {
      frames := before;
      if frameEndedAtCR {
        if endedFrameWireSize >= maximumFrameSize {
          return frames, true;
        }
        if !strip {
          if |frames| != 0 {
            var last := frames[|frames| - 1];
            frames := frames[|frames| - 1 := last.(data := last.data + [LF])];
          } else {
            frames := frames + [Frame(emittedOffset, [LF])];
          }
          emittedOffset := emittedOffset + 1;
        }
        Forget();
        return frames, false;
      }
      failed := AppendFrameBytes([LF]);
      if !failed {
        afterCR := false;
      }
    }

    // The rest of a line, with its ending when the line is complete.
    method AppendSegment(before: seq<Frame>, segment: Bytes, lineEnding: nat) returns (frames: seq<Frame>, failed: bool)
      requires Valid() && !afterCR
      requires segment != [] && lineEnding <= |segment| && NoBreak(segment[..lineEnding])
      requires lineEnding < |segment| ==> lineEnding + 1 == |segment| && IsBreak(segment[lineEnding])
      modifies this
      ensures Agrees(frames, failed, Steps(Conf(), Progress(old(Value()), before, false), segment))
    {
      hide Step, Steps, LineEnd;
      frames := before;
      SegmentSteps(Conf(), Progress(Value(), before, false), segment, lineEnding);
      failed := AppendFrameBytes(segment);
      if failed {
        return;
      }
      if lineEnding == |segment| {
        lineHasData := true;
        return;
      }
      if lineEnding != 0 {
        lineHasData := true;
      }
      LineEndIsValid(Conf(), frames, Value(), segment[lineEnding]);
      frames := EndLine(frames, segment[lineEnding]);
    }

    // The switch on the character that ended the line.
    method EndLine(before: seq<Frame>, character: Byte) returns (frames: seq<Frame>)
      requires frame != [] && IsBreak(character) && Cleared(Value()) == Value()
      modifies this
      ensures Progress(Value(), frames, false) == LineEnd(Conf(), before, old(Value()), character)
    {
      frames := before;
      if character == CR {
        frameEndedAtCR := !lineHasData;
        if lineHasData {
          delimiterStart := |frame| - 1;
        }
        lineHasData := false;
        afterCR := true;
        if frameEndedAtCR {
          endedFrameWireSize := frameWireSize;
          var taken := TakeFrame(delimiterStart);
          frames := frames + [taken];
        }
      } else {
        if lineHasData {
          delimiterStart := |frame| - 1;
        } else {
          var taken := TakeFrame(delimiterStart);
          frames := frames + [taken];
        }
        lineHasData := false;
      }
    }

    method AppendFrameBytes(bytes: Bytes) returns (failed: bool)
      modifies `frame, `frameWireSize
      ensures failed <==> !Fits(Conf(), old(Value()), |bytes|)
      ensures Value() == if failed then old(Value()) else Extend(old(Value()), bytes)
    {
      if |bytes| > maximumFrameSize - frameWireSize {
        return true;
      }
      frame := frame + bytes;
      frameWireSize := frameWireSize + |bytes|;
      return false;
    }

    method TakeFrame(delimiterStart: nat) returns (taken: Frame)
      modifies this
      ensures (taken, Value()) == Take(Conf(), old(Value()), delimiterStart)
    {
      var data := frame;
      if strip && delimiterStart <= |data| {
        data := data[..delimiterStart];
      }
      taken := Frame(emittedOffset, data);
      emittedOffset := emittedOffset + |data|;
      frameWireSize := 0;
      frame := [];
      this.delimiterStart := 0;
    }

    // finish
    method Finish() returns (frames: seq<Frame>)
      modifies this
      ensures frames == Rest(Conf(), old(Value()))
    {
      afterCR := false;
      frameEndedAtCR := false;
      endedFrameWireSize := 0;
      if frame == [] || strip {
        frameWireSize := 0;
        frame := [];
        delimiterStart := 0;
        return [];
      }
      var taken := TakeFrame(|frame|);
      return [taken];
    }
  }

  // What finish emits: an unfinished frame is passed through, or dropped.
  function Rest(c: Config, state: State): seq<Frame> {
    if state.frame == [] || c.strip then [] else [Frame(state.emittedOffset, state.frame)]
  }
}
