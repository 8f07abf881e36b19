// Truncation of captured output: harness/operation/output.go.
module Output {
  import opened Utf8

  const MAX_OUTPUT_LENGTH := 1_000_000

  // What boundOutput gives back; Panic stands for its run-time panic.
  datatype Bounded = Bounded(text: Bytes, truncated: bool) | Panic

  // The bytes of a text literal; every literal here is ASCII.
  function Ascii(s: string): (r: Bytes)
    ensures |r| == |s|
  {
    seq(|s|, i requires 0 <= i < |s| => if s[i] < 128 as char then s[i] as int else 0x3F)
  }

  function Digits(n: nat): (r: Bytes)
    ensures r != []
  {
    if n < 10 then [0x30 + n] else Digits(n / 10) + [0x30 + n % 10]
  }

  // The number that digits, the first of them the most significant, stand for.
  function ReadAs(digits: Bytes): int {
    if digits == [] then 0 else 10 * ReadAs(digits[..|digits| - 1]) + digits[|digits| - 1] - 48
  }

  // Digits as one writes them: at least one, and no zero before others.
  predicate IsDecimal(digits: Bytes) {
    && digits != [] && (digits[0] == 48 ==> |digits| == 1)
    && forall i | 0 <= i < |digits| :: 48 <= digits[i] <= 57
  }

  lemma {:induction false} DigitsReadBack(n: nat)
    ensures IsDecimal(Digits(n)) && ReadAs(Digits(n)) == n
    ensures n > 0 ==> Digits(n)[0] != 48
  {
    if n >= 10 {
      DigitsReadBack(n / 10);
      assert Digits(n)[..|Digits(n)| - 1] == Digits(n / 10);
    } else {
      assert [0x30 + n][..0] == [];
    }
  }

  // fmt's %d
  function Decimal(n: int): Bytes {
    if n < 0 then [0x2D] + Digits(-n) else Digits(n)
  }

  function Marker(skipped: int, path: Bytes): Bytes {
    Ascii("...") + Decimal(skipped) + Ascii(" bytes truncated")
    + (if path == [] then [] else Ascii("; complete output in ") + path) + Ascii("...")
  }

  function AtLeastZero(n: int): nat {
    if n < 0 then 0 else n
  }

  // What boundOutput computes from the first and last bytes of a text of fullSize
  // bytes; an empty tail says that head is the whole text.
  function BoundParts(head: Bytes, tail: Bytes, fullSize: int, limit: int, path: Bytes): Bounded {
    var limit := AtLeastZero(limit);
    if tail == [] && fullSize != |head| then Panic
    else if tail == [] && RuneCount(head) <= limit then Bounded(Sanitize(head), false)
    else
      var tail := if tail == [] then head else tail;
      var headSize := HeadSize(head, limit / 2);
      var tailSize := TailSize(tail, limit - limit / 2);
      Bounded(Sanitize(head[..headSize]) + Marker(fullSize - (headSize + tailSize), path)
              + Sanitize(tail[|tail| - tailSize..]), true)
  }

  // The truncation of a text that is at hand as a whole.
  function Truncation(full: Bytes, limit: int, path: Bytes): Bounded {
    BoundParts(full, [], |full|, limit, path)
  }

  // outputPart for the tail: the last runes of the text, at most limit of them.
  method TailPart(text: Bytes, limit: int) returns (part: Bytes, size: nat)
    ensures size == TailSize(text, AtLeastZero(limit)) && part == Sanitize(text[|text| - size..])
  {
    hide SequenceLength, LastRuneSize, Sanitize;
    var start, left := |text|, limit;
    assert text[..start] == text;
    while start > 0 && left > 0
      invariant 0 <= start <= |text|
      invariant |text| - start + TailSize(text[..start], AtLeastZero(left)) == TailSize(text, AtLeastZero(limit))
      decreases start
    {
      var runeSize := LastRuneSize(text[..start]);
      assert text[..start][..start - runeSize] == text[..start - runeSize];
      start := start - runeSize;
      left := left - 1;
    }
    return Sanitize(text[start..]), |text| - start;
  }

  // outputPart for the head: the first runes of the text, at most limit of them.
  method HeadPart(text: Bytes, limit: int) returns (part: Bytes, size: nat)
    ensures size == HeadSize(text, AtLeastZero(limit)) && part == Sanitize(text[..size])
  {
    hide SequenceLength, FirstRuneSize, Sanitize;
    var end, left := 0, limit;
    while end < |text| && left > 0
      invariant 0 <= end <= |text|
      invariant end + HeadSize(text[end..], AtLeastZero(left)) == HeadSize(text, AtLeastZero(limit))
      decreases |text| - end
    {
      var runeSize := FirstRuneSize(text[end..]);
      assert text[end..][runeSize..] == text[end + runeSize..];
      end := end + runeSize;
      left := left - 1;
    }
    return Sanitize(text[..end]), end;
  }

  // boundOutput
  method BoundOutput(head: Bytes, tail: Bytes, fullSize: int, limit: int, path: Bytes) returns (r: Bounded)
    ensures r == BoundParts(head, tail, fullSize, limit, path)
  {
    hide HeadSize, TailSize, RuneCount, Sanitize, Marker;
    var limit := if limit < 0 then 0 else limit;
    var tail := tail;
    if tail == [] {
      if fullSize != |head| {
        return Panic;
      }
      if RuneCount(head) <= limit {
        return Bounded(Sanitize(head), false);
      }
      tail := head;
    }
    var headPart, headSize := HeadPart(head, limit / 2);
    var tailPart, tailSize := TailPart(tail, limit - limit / 2);
    var skipped := fullSize - (headSize + tailSize);
    r := Bounded(headPart + Marker(skipped, path) + tailPart, true);
  }

  // The bytes the shell reads of a file that is longer than 4 * limit: the first
  // 4 * (limit / 2) and the last 4 * (limit - limit / 2).
  predicate ReadParts(full: Bytes, head: Bytes, tail: Bytes, limit: nat) {
    if |full| <= MAX_RUNE_SIZE * limit then head == full && tail == []
    else
      && head == full[..MAX_RUNE_SIZE * (limit / 2)]
      && tail == full[|full| - MAX_RUNE_SIZE * (limit - limit / 2)..]
  }

  // Truncating from the bounded head and tail is truncating the whole file.
  lemma PartsGiveWholeTruncation(full: Bytes, head: Bytes, tail: Bytes, limit: nat, path: Bytes)
    requires limit >= 1 && ReadParts(full, head, tail, limit)
    ensures BoundParts(head, tail, |full|, limit, path) == Truncation(full, limit, path)
  {
    hide HeadSize, TailSize, RuneCount, Sanitize, Marker;
    if |full| > MAX_RUNE_SIZE * limit {
      var h, t := limit / 2, limit - limit / 2;
      HeadIsLocal(full, MAX_RUNE_SIZE * h, h);
      TailIsLocal(full, |full| - MAX_RUNE_SIZE * t, t);
      var headSize, tailSize := HeadSize(full, h), TailSize(full, t);
      assert head[..headSize] == full[..headSize];
      assert tail[|tail| - tailSize..] == full[|full| - tailSize..];
    }
  }

  lemma {:induction false} HeadCount(s: Bytes, n: nat)
    requires n <= RuneCount(s)
    ensures RuneCount(s[..HeadSize(s, n)]) == n && RuneBoundary(s, HeadSize(s, n))
    decreases n
  {
    hide SequenceLength, FirstRuneSize;
    if n != 0 {
      var size := FirstRuneSize(s);
      HeadCount(s[size..], n - 1);
      PrependRune(s, size, HeadSize(s[size..], n - 1));
    }
  }

  // How a text is cut: at rune boundaries, keeping exactly the runes the limit
  // allows, and never keeping a byte twice.
  predicate CutsInto(full: Bytes, limit: nat, head: Bytes, skipped: Bytes, tail: Bytes) {
    && full == head + skipped + tail
    && RuneCount(head) == limit / 2
    && RuneCount(tail) == limit - limit / 2
    && skipped != []
    && Sanitize(full) == Sanitize(head) + Sanitize(skipped) + Sanitize(tail)
  }

  // What a truncated text is made of.
  lemma TruncationCuts(full: Bytes, limit: nat, path: Bytes) returns (head: Bytes, skipped: Bytes, tail: Bytes)
    ensures var r := Truncation(full, limit, path);
      && r.Bounded?
      && r.truncated == (RuneCount(full) > limit)
      && (!r.truncated ==> r.text == Sanitize(full) && (IsValid(full) ==> r.text == full))
      && (r.truncated ==>
          && CutsInto(full, limit, head, skipped, tail)
          && r.text == Sanitize(head) + Marker(|skipped|, path) + Sanitize(tail))
  {
    hide SequenceLength, FirstRuneSize, LastRuneSize, RuneCount, HeadSize, TailSize, Sanitize, Marker, RuneBoundary, IsValid;
    head, skipped, tail := [], [], [];
    if IsValid(full) {
      SanitizeValid(full);
    }
    if RuneCount(full) > limit {
      var h, t := limit / 2, limit - limit / 2;
      var i, j := HeadSize(full, h), |full| - TailSize(full, t);
      HeadAndTailDoNotOverlap(full, h, t);
      HeadMeetsTail(full, t);
      HeadCount(full, h);
      HeadCount(full, RuneCount(full) - t);
      head, skipped, tail := full[..i], full[i..j], full[j..];
      SplitCounts(full, i, j);
    }
  }

  // The truncation never panics. A text within the limit comes back whole, and as it is
  // when it is valid; any other loses a nonempty run of bytes whose length the marker
  // states, in decimal.
  lemma TruncationMeaning(full: Bytes, limit: nat, path: Bytes)
    returns (head: Bytes, skipped: Bytes, tail: Bytes, number: Bytes)
    ensures var r := Truncation(full, limit, path);
      && r.Bounded?
      && r.truncated == (RuneCount(full) > limit)
      && (!r.truncated ==> r.text == Sanitize(full) && (IsValid(full) ==> r.text == full))
      && (r.truncated ==>
          && CutsInto(full, limit, head, skipped, tail)
          && IsDecimal(number) && ReadAs(number) == |skipped|
          && r.text == Sanitize(head) + Ascii("...") + number + AfterNumber(path) + Sanitize(tail))
  {
    hide Truncation, RuneCount, Sanitize, IsValid, IsDecimal, ReadAs, Ascii, Marker, AfterNumber, CutsInto, Digits;
    head, skipped, tail := TruncationCuts(full, limit, path);
    number := Digits(|skipped|);
    DigitsReadBack(|skipped|);
    MarkerBetween(Sanitize(head), |skipped|, path, Sanitize(tail));
  }

  // What the marker says after the number.
  function AfterNumber(path: Bytes): Bytes {
    if path == [] then Ascii(" bytes truncated...")
    else Ascii(" bytes truncated; complete output in ") + path + Ascii("...")
  }

  lemma MarkerBetween(head: Bytes, skipped: nat, path: Bytes, tail: Bytes)
    ensures head + Marker(skipped, path) + tail == head + Ascii("...") + Digits(skipped) + AfterNumber(path) + tail
  {
    hide Digits, Ascii, Marker, AfterNumber;
    MarkerText(skipped, path);
    Regrouped(head, Ascii("..."), Digits(skipped), AfterNumber(path), tail);
  }

  lemma Regrouped(a: Bytes, b: Bytes, c: Bytes, d: Bytes, e: Bytes)
    ensures a + (b + c + d) + e == a + b + c + d + e
  {
  }

  lemma MarkerText(skipped: nat, path: Bytes)
    ensures Marker(skipped, path) == Ascii("...") + Digits(skipped) + AfterNumber(path)
  {
    hide Digits, Ascii;
    Literals();
    MarkerParts(Ascii("..."), Digits(skipped), Ascii(" bytes truncated"), Ascii("; complete output in "), path, Ascii("..."));
  }

  lemma Literals()
    ensures Ascii(" bytes truncated") + Ascii("...") == Ascii(" bytes truncated...")
    ensures Ascii(" bytes truncated") + Ascii("; complete output in ") == Ascii(" bytes truncated; complete output in ")
  {
  }

  lemma MarkerParts(a: Bytes, b: Bytes, c: Bytes, d: Bytes, path: Bytes, e: Bytes)
    ensures a + b + c + (d + path) + e == a + b + (c + d + path + e)
    ensures a + b + c + [] + e == a + b + (c + e)
  {
  }

  lemma SplitCounts(full: Bytes, i: nat, j: nat)
    requires i <= j <= |full| && RuneBoundary(full, i) && RuneBoundary(full, j)
    requires RuneCount(full[..i]) <= RuneCount(full[..j])
    ensures RuneCount(full[j..]) == RuneCount(full) - RuneCount(full[..j])
    ensures Sanitize(full) == Sanitize(full[..i]) + Sanitize(full[i..j]) + Sanitize(full[j..])
  {
    hide SequenceLength, FirstRuneSize, RuneCount, Sanitize, RuneBoundary;
    assert full == full[..j] + full[j..];
    SanitizeConcat(full[..j], full[j..]);
    BoundaryOfPrefix(full, i, j);
    assert full[..j] == full[..i] + full[i..j];
    SanitizeConcat(full[..i], full[i..j]);
  }

  lemma {:induction false} BoundaryOfPrefix(s: Bytes, i: nat, j: nat)
    requires i <= j <= |s| && RuneBoundary(s, i) && RuneBoundary(s, j)
    ensures RuneBoundary(s[..j], i)
    decreases i
  {
    hide SequenceLength, FirstRuneSize;
    if i != 0 {
      var size := FirstRuneSize(s);
      FirstRuneOfPrefix(s, j);
      assert s[..j][size..] == s[size..][..j - size];
      BoundaryOfPrefix(s[size..], i - size, j - size);
    }
  }
}
