// What an event says and what its data is: frames as they are written, line by line, after
// sections 9.2.5 and 9.2.6 of the WHATWG HTML Living Standard, and what is read from them.
module SseEncoding {
  import opened Utf8
  import opened Output
  import F = SseFramer
  import R = SseReference
  import D = SseData

  datatype Ending = LineFeed | CarriageReturn | Both

  // A line as it is written: a data field with a space after its colon or without one, one
  // without a colon, or anything else: other fields, comments and blank lines.
  datatype Line =
    | Spaced(value: Bytes, ending: Ending)
    | Tight(value: Bytes, ending: Ending)
    | NoColon(ending: Ending)
    | Other(text: Bytes, ending: Ending)

  function Text(line: Line): Bytes {
    match line
    case Spaced(value, _) => Ascii("data: ") + value
    case Tight(value, _) => Ascii("data:") + value
    case NoColon(_) => Ascii("data")
    case Other(text, _) => text
  }

  function Break(ending: Ending): Bytes {
    match ending
    case LineFeed => [10]
    case CarriageReturn => [13]
    case Both => [13, 10]
  }

  function EndingOf(line: Line): Bytes {
    Break(line.ending)
  }

  predicate OneLine(text: Bytes) {
    10 !in text && 13 !in text
  }

  // No line holds a line break, a value without a space before it does not start with one,
  // and what is not a data field does not look like one.
  predicate IsLine(line: Line) {
    && OneLine(Text(line))
    && (line.Tight? ==> !(Ascii(" ") <= line.value))
    && (line.Other? ==> line.text != Ascii("data") && !(Ascii("data:") <= line.text))
  }

  predicate AreLines(lines: seq<Line>) {
    forall i | 0 <= i < |lines| :: IsLine(lines[i])
  }

  function Encode(lines: seq<Line>): Bytes {
    if lines == [] then [] else Text(lines[0]) + EndingOf(lines[0]) + Encode(lines[1..])
  }

  function ValueOf(line: Line): D.Option<Bytes> {
    match line
    case Spaced(value, _) => D.Some(value)
    case Tight(value, _) => D.Some(value)
    case NoColon(_) => D.Some([])
    case Other(_, _) => D.None
  }

  // The values of the data fields, in order.
  function DataOf(lines: seq<Line>): seq<Bytes> {
    if lines == [] then []
    else
      var value := ValueOf(lines[0]);
      (if value.Some? then [value.value] else []) + DataOf(lines[1..])
  }

  function Joined(values: seq<Bytes>): Bytes
    requires values != []
  {
    if |values| == 1 then values[0] else values[0] + [10] + Joined(values[1..])
  }

  // ---- One line ----

  lemma NotBefore(bytes: Bytes, n: nat, b: Byte)
    requires n <= |bytes| && b !in bytes[..n]
    ensures forall k | 0 <= k < n :: bytes[k] != b
  {
    assert forall k | 0 <= k < n :: bytes[..n][k] == bytes[k];
  }

  lemma ColonOfData(text: Bytes, rest: Bytes)
    requires text == Ascii("data:") + rest
    ensures D.DataValue(text) == D.Some(D.TrimPrefix(rest, [D.SPACE]))
  {
    var i := D.ColonAt(text);
    assert text[0] == 0x64 && text[1] == 0x61 && text[2] == 0x74 && text[3] == 0x61 && text[4] == D.COLON;
    NotBefore(text, i, D.COLON);
    assert i == 4;
    assert text[..4] == D.DATA && text[5..] == rest;
  }

  lemma DataLooksSo(text: Bytes)
    ensures D.DataValue(text).Some? ==> text == Ascii("data") || Ascii("data:") <= text
  {
    var i := D.ColonAt(text);
    if text[..i] == D.DATA {
      assert text[..4] == Ascii("data");
      if i < |text| {
        assert text[..5] == Ascii("data:");
      } else {
        assert text == text[..4];
      }
    }
  }

  lemma DataValueOfLine(line: Line)
    requires IsLine(line)
    ensures D.DataValue(Text(line)) == ValueOf(line)
  {
    hide D.DataValue;
    match line
    case Spaced(value, _) =>
      assert Text(line) == Ascii("data:") + ([D.SPACE] + value);
      ColonOfData(Text(line), [D.SPACE] + value);
    case Tight(value, _) =>
      ColonOfData(Text(line), value);
      assert Ascii(" ") == [D.SPACE];
    case NoColon(_) => DataAlone();
    case Other(text, _) => DataLooksSo(text);
  }

  lemma DataAlone()
    ensures D.DataValue(Ascii("data")) == D.Some([])
  {
    var text := Ascii("data");
    var i := D.ColonAt(text);
    assert text == D.DATA;
    assert forall k | 0 <= k < 4 :: text[k] != D.COLON;
    assert i == 4 && text[..4] == text;
  }

  // ---- Frames ----

  lemma LineIsSplitOff(line: Line, rest: Bytes)
    requires OneLine(Text(line))
    ensures D.Lines(Text(line) + EndingOf(line) + rest) == (if Text(line) == [] then [] else [Text(line)]) + D.Lines(rest)
  {
    hide Text, OneLine, D.Lines;
    var text, ending := Text(line), EndingOf(line);
    EndingIsSkipped(ending, rest);
    assert text + (ending + rest) == text + ending + rest;
    if text == [] {
      assert text + ending + rest == ending + rest;
    } else {
      TextIsLine(text, ending + rest);
    }
  }

  lemma TextIsLine(text: Bytes, rest: Bytes)
    requires OneLine(text) && text != [] && rest != [] && F.IsBreak(rest[0])
    ensures D.Lines(text + rest) == [text] + D.Lines(rest)
  {
    hide OneLine, F.IsBreak;
    BreakComesAfter(text, rest);
    assert (text + rest)[..|text|] == text && (text + rest)[|text|..] == rest;
  }

  lemma EndingIsSkipped(ending: Bytes, rest: Bytes)
    requires ending in {[10], [13], [13, 10]}
    ensures D.Lines(ending + rest) == D.Lines(rest)
    ensures F.IsBreak((ending + rest)[0])
  {
    var all := ending + rest;
    assert all[0] == ending[0];
    if |ending| == 1 {
      assert all[1..] == rest;
    } else {
      assert all[1..] == [ending[1]] + rest;
      assert all[1..][1..] == rest;
    }
  }

  lemma BreakComesAfter(text: Bytes, rest: Bytes)
    requires OneLine(text) && text != [] && rest != [] && F.IsBreak(rest[0])
    ensures F.FirstBreak(text + rest) == |text| && !F.IsBreak((text + rest)[0])
  {
    var all := text + rest;
    var n := F.FirstBreak(all);
    NoBreakBefore(all, n);
    assert all[|text|] == rest[0];
    forall k | 0 <= k < |text|
      ensures !F.IsBreak(all[k])
    {
      assert all[k] == text[k] && text[k] in text;
    }
  }

  lemma NoBreakBefore(bytes: Bytes, n: nat)
    requires n <= |bytes| && F.NoBreak(bytes[..n])
    ensures forall k | 0 <= k < n :: !F.IsBreak(bytes[k])
  {
    assert forall k | 0 <= k < n :: bytes[..n][k] == bytes[k];
  }

  lemma {:induction false} ValuesConcat(a: seq<Bytes>, b: seq<Bytes>)
    ensures D.Values(a + b) == D.Values(a) + D.Values(b)
    decreases |b|
  {
    hide D.DataValue;
    if b == [] {
      assert a + b == a;
    } else {
      assert (a + b)[..|a + b| - 1] == a + b[..|b| - 1];
      ValuesConcat(a, b[..|b| - 1]);
    }
  }

  lemma ValuesOfLine(line: Line)
    requires IsLine(line)
    ensures D.Values(if Text(line) == [] then [] else [Text(line)]) == DataOf([line])
  {
    hide D.DataValue;
    DataValueOfLine(line);
    assert [Text(line)][..0] == [];
    assert [line][1..] == [];
  }

  lemma {:induction false} ValuesOfEncoded(lines: seq<Line>)
    requires AreLines(lines)
    ensures D.Values(D.Lines(Encode(lines))) == DataOf(lines)
    decreases |lines|
  {
    hide D.Values, IsLine, Text, EndingOf, OneLine;
    if lines == [] {
      NoValues();
    } else {
      var rest := Encode(lines[1..]);
      ValuesOfEncoded(lines[1..]);
      LinesAreOneLine(lines[0]);
      LineIsSplitOff(lines[0], rest);
      ValuesOfLine(lines[0]);
      ValuesConcat(if Text(lines[0]) == [] then [] else [Text(lines[0])], D.Lines(rest));
      assert [lines[0]][1..] == [];
    }
  }

  lemma LinesAreOneLine(line: Line)
    requires IsLine(line)
    ensures OneLine(Text(line))
  {
  }

  lemma NoValues()
    ensures D.Values(D.Lines([])) == []
  {
  }

  lemma {:induction false} JoinedFromFront(values: seq<Bytes>)
    requires values != []
    ensures D.JoinWithLF(values) == Joined(values)
    decreases |values|
  {
    if |values| > 1 {
      var front, last := values[..|values| - 1], values[|values| - 1];
      JoinedFromFront(front);
      JoinedLonger(front, last);
      assert values == front + [last];
    }
  }

  lemma {:induction false} JoinedLonger(values: seq<Bytes>, last: Bytes)
    requires values != []
    ensures Joined(values + [last]) == Joined(values) + [10] + last
    decreases |values|
  {
    if |values| == 1 {
      assert (values + [last])[1..] == [last];
    } else {
      assert (values + [last])[1..] == values[1..] + [last];
      JoinedLonger(values[1..], last);
      assert values[0] + [10] + (Joined(values[1..]) + [10] + last) == values[0] + [10] + Joined(values[1..]) + [10] + last;
    }
  }

  // A byte order mark, U+FEFF in UTF-8.
  const MARK: Bytes := [239, 187, 191]

  // The data of a frame is the values of its data fields joined with line feeds, however
  // its lines end and whatever else stands between them; a frame without data fields has
  // none. A byte order mark before it makes no difference.
  lemma DataOfEncoded(lines: seq<Line>)
    requires AreLines(lines)
    ensures var data := if DataOf(lines) == [] then D.None else D.Some(Joined(DataOf(lines)));
      && D.EventData(MARK + Encode(lines)) == data
      && (!(MARK <= Encode(lines)) ==> D.EventData(Encode(lines)) == data)
  {
    hide D.Values, D.Lines, IsLine, Encode, DataOf;
    ValuesOfEncoded(lines);
    if DataOf(lines) != [] {
      JoinedFromFront(DataOf(lines));
    }
    assert (MARK + Encode(lines))[..3] == MARK && (MARK + Encode(lines))[3..] == Encode(lines);
  }

  // Each frame that ends in a line break is one that is written so, so that this says what
  // the data of every frame is.
  lemma {:induction false} FrameIsEncoded(frame: Bytes) returns (lines: seq<Line>)
    requires frame == [] || frame[|frame| - 1] in {10, 13}
    ensures AreLines(lines) && Encode(lines) == frame
    decreases |frame|
  {
    if frame == [] {
      lines := [];
    } else {
      var n := F.FirstBreak(frame);
      NoBreakBefore(frame, n);
      assert F.IsBreak(frame[|frame| - 1]);
      var line := LineOf(frame[..n], if frame[n] == 10 then LineFeed else CarriageReturn);
      assert frame == frame[..n] + [frame[n]] + frame[n + 1..];
      var rest := FrameIsEncoded(frame[n + 1..]);
      lines := [line] + rest;
      assert lines[1..] == rest;
    }
  }

  lemma LineOf(text: Bytes, ending: Ending) returns (line: Line)
    requires F.NoBreak(text)
    ensures IsLine(line) && Text(line) == text && line.ending == ending
  {
    assert 10 !in text && 13 !in text;
    if text == Ascii("data") {
      line := NoColon(ending);
    } else if Ascii("data: ") <= text {
      line := Spaced(text[6..], ending);
      assert Ascii("data: ") + text[6..] == text;
    } else if Ascii("data:") <= text {
      line := Tight(text[5..], ending);
      assert Ascii("data:") + text[5..] == text;
      SpaceAfterColon(text);
    } else {
      line := Other(text, ending);
    }
  }

  lemma SpaceAfterColon(text: Bytes)
    requires Ascii("data:") <= text
    ensures Ascii(" ") <= text[5..] <==> Ascii("data: ") <= text
  {
    if Ascii(" ") <= text[5..] {
      assert text[5] == text[5..][0] == 32;
      assert text[..6] == Ascii("data: ");
    }
    if Ascii("data: ") <= text {
      assert text[5..][0] == text[5] == 32;
      assert text[5..][..1] == Ascii(" ");
    }
  }

  // ---- Frames in a stream ----

  // Lines of a frame: none is blank.
  predicate AreFrameLines(lines: seq<Line>) {
    forall i | 0 <= i < |lines| :: OneLine(Text(lines[i])) && Text(lines[i]) != []
  }

  // What follows a carriage return does not make it a carriage return and line feed.
  predicate StandsAlone(ending: Ending, next: Bytes) {
    ending == CarriageReturn ==> next == [] || next[0] != 10
  }

  // The part of a frame that is emitted: without the ending of its last line.
  function Stripped(lines: seq<Line>): Bytes {
    if lines == [] then []
    else if |lines| == 1 then Text(lines[0])
    else Text(lines[0]) + EndingOf(lines[0]) + Stripped(lines[1..])
  }

  lemma EndingIsFound(bytes: Bytes, before: Bytes, text: Bytes, ending: Ending, rest: Bytes)
    requires bytes == before + text + Break(ending) + rest && OneLine(text) && StandsAlone(ending, rest)
    ensures R.LineEndFrom(bytes, |before|) == |before| + |text| < |bytes|
    ensures R.EndingSize(bytes, |before| + |text|) == |Break(ending)|
  {
    var tail := Break(ending) + rest;
    assert bytes[|before|..] == text + tail;
    if text == [] {
      assert text + tail == tail;
    } else {
      BreakComesAfter(text, tail);
    }
    assert bytes[|before| + |text|] == tail[0];
    assert |Break(ending)| == 1 && rest != [] ==> bytes[|before| + |text| + 1] == rest[0];
    assert ending == Both ==> bytes[|before| + |text| + 1] == 10;
  }

  function FrameOf(lines: seq<Line>, blank: Ending): Bytes {
    Encode(lines) + Break(blank)
  }

  predicate EndsAlone(lines: seq<Line>, blank: Ending, rest: Bytes) {
    && StandsAlone(blank, rest)
    && (lines != [] ==> StandsAlone(lines[|lines| - 1].ending, Break(blank)))
  }

  lemma StartsWithText(lines: seq<Line>, rest: Bytes)
    requires lines != [] && OneLine(Text(lines[0])) && Text(lines[0]) != []
    ensures Encode(lines) + rest != [] && (Encode(lines) + rest)[0] != 10
  {
    hide Break;
    var text := Text(lines[0]);
    assert (Encode(lines) + rest)[0] == text[0] && text[0] in text;
  }

  lemma FirstLine(lines: seq<Line>, blank: Ending, rest: Bytes)
    requires AreFrameLines(lines) && lines != [] && EndsAlone(lines, blank, rest)
    ensures OneLine(Text(lines[0])) && Text(lines[0]) != []
    ensures StandsAlone(lines[0].ending, FrameOf(lines[1..], blank) + rest)
    ensures AreFrameLines(lines[1..]) && EndsAlone(lines[1..], blank, rest)
  {
    hide Text, OneLine, Encode;
    var after := FrameOf(lines[1..], blank) + rest;
    if |lines| > 1 {
      StartsWithText(lines[1..], Break(blank) + rest);
      assert Encode(lines[1..]) + (Break(blank) + rest) == after;
    } else {
      NothingEncoded();
      assert after[0] == Break(blank)[0];
    }
  }

  lemma NothingEncoded()
    ensures Encode([]) == []
  {
  }

  // One line of a parse.
  lemma OneLineIsRead(bytes: Bytes, before: Bytes, dataEnd: nat, text: Bytes, ending: Ending, rest: Bytes)
    requires bytes == before + text + Break(ending) + rest && dataEnd <= |before|
    requires OneLine(text) && StandsAlone(ending, rest)
    ensures var next := before + text + Break(ending);
      R.FirstBlock(bytes, |before|, dataEnd)
      == if text == [] then R.Complete(R.Block(bytes[..dataEnd], next, |Break(ending)|))
         else R.FirstBlock(bytes, |next|, |before| + |text|)
  {
    hide R.LineEndFrom, R.EndingSize, StandsAlone, OneLine, Break;
    EndingIsFound(bytes, before, text, ending, rest);
    var next := before + text + Break(ending);
    assert bytes[..|next|] == next;
  }

  lemma {:induction false} LinesAreRead(bytes: Bytes, before: Bytes, dataEnd: nat, lines: seq<Line>, blank: Ending, rest: Bytes)
    requires bytes == before + FrameOf(lines, blank) + rest && dataEnd <= |before|
    requires AreFrameLines(lines) && EndsAlone(lines, blank, rest)
    ensures R.FirstBlock(bytes, |before|, dataEnd)
      == R.Complete(R.Block(if lines == [] then bytes[..dataEnd] else before + Stripped(lines), before + FrameOf(lines, blank),
                            |Break(blank)|))
    decreases |lines|
  {
    hide R.FirstBlock, OneLine, StandsAlone, Text, Break, Encode, FrameOf, AreFrameLines, EndsAlone;
    if lines == [] {
      NoText();
      BlankFrame(before, lines, blank, rest);
      OneLineIsRead(bytes, before, dataEnd, [], blank, rest);
    } else {
      var text, ending := Text(lines[0]), lines[0].ending;
      var after := FrameOf(lines[1..], blank) + rest;
      var next := before + text + Break(ending);
      FrameSplits(lines, blank, before);
      FirstLine(lines, blank, rest);
      Regroup(next, FrameOf(lines[1..], blank), rest, [], []);
      OneLineIsRead(bytes, before, dataEnd, text, ending, after);
      LinesAreRead(bytes, next, |before| + |text|, lines[1..], blank, rest);
      TextEnds(bytes, before, text, Break(ending), after);
    }
  }

  lemma BlankFrame(before: Bytes, lines: seq<Line>, blank: Ending, rest: Bytes)
    requires lines == []
    ensures before + FrameOf(lines, blank) == before + [] + Break(blank)
    ensures EndsAlone(lines, blank, rest) ==> StandsAlone(blank, rest)
  {
  }

  lemma TextEnds(bytes: Bytes, before: Bytes, text: Bytes, ending: Bytes, after: Bytes)
    requires bytes == before + text + ending + after
    ensures bytes[..|before| + |text|] == before + text
  {
  }

  lemma FrameSplits(lines: seq<Line>, blank: Ending, before: Bytes)
    requires lines != []
    ensures var next := before + Text(lines[0]) + Break(lines[0].ending);
      && before + FrameOf(lines, blank) == next + FrameOf(lines[1..], blank)
      && before + Stripped(lines)
         == if |lines| == 1 then before + Text(lines[0]) else next + Stripped(lines[1..])
  {
    hide Text, Break;
    Regroup(before, Text(lines[0]), Break(lines[0].ending), Encode(lines[1..]), Break(blank));
    if |lines| > 1 {
      Regroup(before, Text(lines[0]), Break(lines[0].ending), Stripped(lines[1..]), []);
    }
  }

  lemma Regroup(a: Bytes, b: Bytes, c: Bytes, d: Bytes, e: Bytes)
    ensures a + (b + c + d + e) == a + b + c + (d + e)
    ensures a + (b + c + d) == a + b + c + d
    ensures a + b + c == a + (b + c)
  {
  }

  lemma NoText()
    ensures OneLine([])
  {
  }

  // A frame that is written to a stream is the first that is read from it: all its lines
  // up to the blank one, and none of what follows.
  lemma FrameIsRead(lines: seq<Line>, blank: Ending, rest: Bytes)
    requires AreFrameLines(lines) && EndsAlone(lines, blank, rest)
    ensures var stream := FrameOf(lines, blank) + rest;
      && R.Blocks(stream) == [R.Block(Stripped(lines), FrameOf(lines, blank), |Break(blank)|)] + R.Blocks(rest)
      && R.Remainder(stream) == R.Remainder(rest)
  {
    hide R.FirstBlock, StandsAlone, Break;
    var stream := FrameOf(lines, blank) + rest;
    assert stream == [] + FrameOf(lines, blank) + rest;
    LinesAreRead(stream, [], 0, lines, blank, rest);
    assert stream[..0] == [] && [] + Stripped(lines) == Stripped(lines);
    assert [] + FrameOf(lines, blank) == FrameOf(lines, blank);
    assert stream[|FrameOf(lines, blank)|..] == rest;
  }

  // And what is written without a blank line is no frame yet.
  lemma {:induction false} UnfinishedIsNoFrame(bytes: Bytes, before: Bytes, dataEnd: nat, lines: seq<Line>, text: Bytes)
    requires bytes == before + Encode(lines) + text && dataEnd <= |before| && OneLine(text) && AreFrameLines(lines)
    requires lines != [] ==> StandsAlone(lines[|lines| - 1].ending, text)
    ensures R.FirstBlock(bytes, |before|, dataEnd) == R.NotYet
    decreases |lines|
  {
    hide R.FirstBlock, StandsAlone, Text, Break, OneLine, AreFrameLines;
    if lines == [] {
      assert bytes == before + text;
      LastLineIsOpen(bytes, before, dataEnd, text);
    } else {
      var first, ending := Text(lines[0]), lines[0].ending;
      var after := Encode(lines[1..]) + text;
      Regroup(before, first, Break(ending), Encode(lines[1..]), text);
      NextIsText(lines, text);
      OneLineIsRead(bytes, before, dataEnd, first, ending, after);
      UnfinishedIsNoFrame(bytes, before + first + Break(ending), |before| + |first|, lines[1..], text);
    }
  }

  lemma LastLineIsOpen(bytes: Bytes, before: Bytes, dataEnd: nat, text: Bytes)
    requires bytes == before + text && OneLine(text) && dataEnd <= |before|
    ensures R.FirstBlock(bytes, |before|, dataEnd) == R.NotYet
  {
    assert bytes[|before|..] == text;
    var n := F.FirstBreak(text);
    assert forall k | 0 <= k < |text| :: text[k] in text;
  }

  lemma NextIsText(lines: seq<Line>, text: Bytes)
    requires AreFrameLines(lines) && lines != [] && StandsAlone(lines[|lines| - 1].ending, text)
    ensures OneLine(Text(lines[0])) && Text(lines[0]) != []
    ensures StandsAlone(lines[0].ending, Encode(lines[1..]) + text)
    ensures AreFrameLines(lines[1..])
  {
    hide Text, OneLine, Encode;
    if |lines| > 1 {
      StartsWithText(lines[1..], text);
    } else {
      NothingEncoded();
      assert lines[1..] == [];
      assert [] + text == text;
    }
  }
}
