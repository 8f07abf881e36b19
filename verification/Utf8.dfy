// Runes of arbitrary bytes: the valid sequences of RFC 3629 sections 3 and 4,
// with Go's rule that every byte outside a valid sequence is a rune of size 1.
module Utf8 {

  type Byte = x: int | 0 <= x < 0x100

  type Bytes = seq<Byte>

  const MAX_RUNE_SIZE := 4

  // The encoding of U+FFFD.
  const REPLACEMENT: Bytes := [0xEF, 0xBF, 0xBD]

  predicate IsTail(b: Byte) {
    0x80 <= b <= 0xBF
  }

  // utf8.RuneStart
  predicate IsRuneStart(b: Byte) {
    !IsTail(b)
  }

  predicate ThreeByteLead(b0: Byte, b1: Byte) {
    || (b0 == 0xE0 && 0xA0 <= b1 <= 0xBF)
    || (0xE1 <= b0 <= 0xEC && IsTail(b1))
    || (b0 == 0xED && 0x80 <= b1 <= 0x9F)
    || (0xEE <= b0 <= 0xEF && IsTail(b1))
  }

  predicate FourByteLead(b0: Byte, b1: Byte) {
    || (b0 == 0xF0 && 0x90 <= b1 <= 0xBF)
    || (0xF1 <= b0 <= 0xF3 && IsTail(b1))
    || (b0 == 0xF4 && 0x80 <= b1 <= 0x8F)
  }

  // The length of the valid sequence at the start of s; 0 when there is none.
  function SequenceLength(s: Bytes): nat {
    if |s| >= 1 && s[0] < 0x80 then 1
    else if |s| >= 2 && 0xC2 <= s[0] <= 0xDF && IsTail(s[1]) then 2
    else if |s| >= 3 && ThreeByteLead(s[0], s[1]) && IsTail(s[2]) then 3
    else if |s| >= 4 && FourByteLead(s[0], s[1]) && IsTail(s[2]) && IsTail(s[3]) then 4
    else 0
  }

  // The size utf8.DecodeRuneInString reports.
  function FirstRuneSize(s: Bytes): (size: nat)
    requires s != []
    ensures 1 <= size <= |s| && size <= MAX_RUNE_SIZE
  {
    if SequenceLength(s) == 0 then 1 else SequenceLength(s)
  }

  // Whether the last k bytes of s are one valid sequence.
  predicate EndsWithSequence(s: Bytes, k: nat) {
    1 <= k <= |s| && SequenceLength(s[|s| - k..]) == k
  }

  // The size utf8.DecodeLastRuneInString reports.
  function LastRuneSize(s: Bytes): (size: nat)
    requires s != []
    ensures 1 <= size <= |s| && size <= MAX_RUNE_SIZE
  {
    if EndsWithSequence(s, 2) then 2
    else if EndsWithSequence(s, 3) then 3
    else if EndsWithSequence(s, 4) then 4
    else 1
  }

  // utf8.RuneCountInString
  function RuneCount(s: Bytes): (count: nat)
    ensures count <= |s| <= MAX_RUNE_SIZE * count
  {
    if s == [] then 0 else 1 + RuneCount(s[FirstRuneSize(s)..])
  }

  predicate IsValid(s: Bytes) {
    s == [] || (SequenceLength(s) != 0 && IsValid(s[SequenceLength(s)..]))
  }

  // The first rune re-encoded, an invalid byte as U+FFFD.
  function FirstRune(s: Bytes): Bytes
    requires s != []
  {
    if SequenceLength(s) == 0 then REPLACEMENT else s[..FirstRuneSize(s)]
  }

  // string([]rune(s))
  function Sanitize(s: Bytes): Bytes {
    if s == [] then [] else FirstRune(s) + Sanitize(s[FirstRuneSize(s)..])
  }

  // The number of bytes in the first n runes of s, counted from the front.
  function HeadSize(s: Bytes, n: nat): (size: nat)
    ensures size <= |s| && size <= MAX_RUNE_SIZE * n
  {
    if s == [] || n == 0 then 0
    else FirstRuneSize(s) + HeadSize(s[FirstRuneSize(s)..], n - 1)
  }

  // The number of bytes in the last n runes of s, counted from the back.
  function TailSize(s: Bytes, n: nat): (size: nat)
    ensures size <= |s| && size <= MAX_RUNE_SIZE * n
  {
    if s == [] || n == 0 then 0
    else LastRuneSize(s) + TailSize(s[..|s| - LastRuneSize(s)], n - 1)
  }

  // Only a lead byte starts a sequence, and the bytes after it are tails.
  lemma SequenceBytes(s: Bytes, k: nat)
    requires k < SequenceLength(s)
    ensures k == 0 ==> IsRuneStart(s[k])
    ensures 0 < k ==> IsTail(s[k]) && SequenceLength(s[k..]) == 0
  {
  }

  // A sequence is decided by its own bytes.
  lemma SequenceIsLocal(s: Bytes, t: Bytes)
    requires SequenceLength(s) != 0
    requires SequenceLength(s) <= |t| && t[..SequenceLength(s)] == s[..SequenceLength(s)]
    ensures SequenceLength(t) == SequenceLength(s)
  {
    forall k: nat | k < SequenceLength(s)
      ensures t[k] == s[k]
    {
      assert t[..SequenceLength(s)][k] == s[..SequenceLength(s)][k];
    }
  }

  // Four bytes, or all that are left, decide the first rune.
  lemma FirstRuneIsLocal(s: Bytes, m: nat)
    requires s != [] && 0 < m <= |s| && (m >= MAX_RUNE_SIZE || m == |s|)
    ensures SequenceLength(s[..m]) == SequenceLength(s)
    ensures FirstRuneSize(s[..m]) == FirstRuneSize(s)
  {
  }

  // Four bytes, or all that are left, decide the last rune.
  lemma LastRuneIsLocal(s: Bytes, from: nat)
    requires from < |s| && (|s| - from >= MAX_RUNE_SIZE || from == 0)
    ensures LastRuneSize(s[from..]) == LastRuneSize(s)
  {
    var t := s[from..];
    forall k: nat | 1 <= k <= |t|
      ensures EndsWithSequence(t, k) == EndsWithSequence(s, k)
    {
      assert t[|t| - k..] == s[|s| - k..];
    }
  }

  lemma SameEnding(s: Bytes, from: nat, k: nat)
    requires from <= |s| && 1 <= k <= |s| - from
    ensures EndsWithSequence(s[from..], k) == EndsWithSequence(s, k)
  {
    hide SequenceLength;
    assert s[from..][|s| - from - k..] == s[|s| - k..];
  }

  // No sequence at the end reaches into the first rune.
  lemma NoSequenceFromFirst(s: Bytes, k: nat)
    requires s != [] && FirstRuneSize(s) < |s| && |s| - FirstRuneSize(s) < k
    ensures !EndsWithSequence(s, k)
  {
    if k <= |s| {
      var i := |s| - k;
      if 0 < i {
        SequenceBytes(s, i);
      } else {
        assert s[0..] == s;
      }
    }
  }

  // Dropping a first rune that is not the whole text leaves the last rune as it was.
  lemma LastRuneAfterFirst(s: Bytes)
    requires s != [] && FirstRuneSize(s) < |s|
    ensures LastRuneSize(s) == LastRuneSize(s[FirstRuneSize(s)..])
  {
    hide SequenceLength, EndsWithSequence, FirstRuneSize;
    var size := FirstRuneSize(s);
    var t := s[size..];
    forall k: nat | 2 <= k <= MAX_RUNE_SIZE
      ensures EndsWithSequence(t, k) == EndsWithSequence(s, k)
    {
      if k <= |t| {
        SameEnding(s, size, k);
      } else {
        NoSequenceFromFirst(s, k);
        TooLongIsNoSequence(t, k);
      }
    }
  }

  lemma TooLongIsNoSequence(s: Bytes, k: nat)
    requires k > |s|
    ensures !EndsWithSequence(s, k)
  {
  }

  lemma OnlyRune(s: Bytes)
    requires s != [] && FirstRuneSize(s) == |s|
    ensures LastRuneSize(s) == |s|
  {
    assert s[0..] == s;
    if |s| > 1 {
      forall k: nat | 1 <= k < |s|
        ensures !EndsWithSequence(s, k)
      {
        SequenceBytes(s, |s| - k);
      }
    }
  }

  // The backward decoder cuts the text where the forward decoder does.
  lemma {:induction false} CountFromBack(s: Bytes)
    requires s != []
    ensures RuneCount(s) == RuneCount(s[..|s| - LastRuneSize(s)]) + 1
    ensures RuneBoundary(s, |s| - LastRuneSize(s))
    decreases |s|
  {
    hide SequenceLength, LastRuneSize;
    var size := FirstRuneSize(s);
    if size == |s| {
      OnlyRune(s);
      assert s[size..] == [];
    } else {
      var t, last := s[size..], LastRuneSize(s);
      LastRuneAfterFirst(s);
      CountFromBack(t);
      assert RuneBoundary(t, |t| - last);
      PrependRune(s, size, |t| - last);
      assert s[..|s| - last] == s[..size + |t| - last];
    }
  }

  lemma PrependRune(s: Bytes, size: nat, m: nat)
    requires s != [] && size == FirstRuneSize(s) && size + m <= |s|
    requires RuneBoundary(s[size..], m)
    ensures RuneCount(s[..size + m]) == 1 + RuneCount(s[size..][..m])
    ensures RuneBoundary(s, size + m)
  {
    hide SequenceLength, FirstRuneSize;
    FirstRuneOfPrefix(s, size + m);
    assert s[..size + m][size..] == s[size..][..m];
  }

  // A prefix that holds a whole first rune has the same first rune.
  lemma FirstRuneOfPrefix(s: Bytes, m: nat)
    requires s != [] && FirstRuneSize(s) <= m <= |s|
    requires 0 < m
    ensures FirstRuneSize(s[..m]) == FirstRuneSize(s)
    ensures SequenceLength(s[..m]) == SequenceLength(s)
  {
    var t := s[..m];
    if SequenceLength(s) != 0 {
      SequenceIsLocal(s, t);
    } else if SequenceLength(t) != 0 {
      SequenceIsLocal(t, s);
    }
  }

  // The first n runes and the last RuneCount - n runes make up the text.
  lemma {:induction false} HeadMeetsTail(s: Bytes, n: nat)
    requires n <= RuneCount(s)
    ensures HeadSize(s, RuneCount(s) - n) + TailSize(s, n) == |s|
    decreases |s|
  {
    hide SequenceLength, FirstRuneSize, LastRuneSize, RuneCount, HeadSize, RuneBoundary;
    if n == 0 {
      HeadOfAll(s, RuneCount(s));
    } else {
      var last := LastRuneSize(s);
      var front := s[..|s| - last];
      CountFromBack(s);
      HeadMeetsTail(front, n - 1);
      assert TailSize(s, n) == last + TailSize(front, n - 1);
      HeadOfPrefix(s, |s| - last, RuneCount(s) - n);
    }
  }

  lemma {:induction false} HeadOfAll(s: Bytes, n: nat)
    requires n >= RuneCount(s)
    ensures HeadSize(s, n) == |s|
    decreases n
  {
    if s != [] {
      HeadOfAll(s[FirstRuneSize(s)..], n - 1);
    }
  }

  // Cutting off the last runes leaves the first n runes as they were.
  lemma {:induction false} HeadOfPrefix(s: Bytes, m: nat, n: nat)
    requires m <= |s| && n <= RuneCount(s[..m])
    requires RuneBoundary(s, m)
    ensures HeadSize(s[..m], n) == HeadSize(s, n)
    decreases n
  {
    hide SequenceLength, FirstRuneSize, RuneBoundary;
    if n != 0 {
      var size := FirstRuneSize(s);
      BoundaryAfterFirst(s, m);
      FirstRuneOfPrefix(s, m);
      assert s[..m][size..] == s[size..][..m - size];
      HeadOfPrefix(s[size..], m - size, n - 1);
    }
  }

  // m is where the forward decoder starts a rune, or the end of the text.
  predicate RuneBoundary(s: Bytes, m: nat)
    requires m <= |s|
    decreases |s|
  {
    m == 0 || (FirstRuneSize(s) <= m && RuneBoundary(s[FirstRuneSize(s)..], m - FirstRuneSize(s)))
  }

  lemma BoundaryAfterFirst(s: Bytes, m: nat)
    requires 0 < m <= |s| && RuneBoundary(s, m)
    ensures FirstRuneSize(s) <= m && RuneBoundary(s[FirstRuneSize(s)..], m - FirstRuneSize(s))
  {
  }

  // Fewer than RuneCount runes from both ends leave bytes between them.
  lemma {:induction false} HeadIsMonotone(s: Bytes, n: nat, m: nat)
    requires n < m <= RuneCount(s)
    ensures HeadSize(s, n) < HeadSize(s, m)
    decreases n
  {
    if n != 0 {
      HeadIsMonotone(s[FirstRuneSize(s)..], n - 1, m - 1);
    }
  }

  lemma HeadAndTailDoNotOverlap(s: Bytes, h: nat, t: nat)
    requires h + t < RuneCount(s)
    ensures HeadSize(s, h) + TailSize(s, t) < |s|
  {
    HeadMeetsTail(s, t);
    HeadIsMonotone(s, h, RuneCount(s) - t);
  }

  // The first n runes lie within the first 4n bytes and are decided there.
  lemma {:induction false} HeadIsLocal(s: Bytes, m: nat, n: nat)
    requires MAX_RUNE_SIZE * n <= m <= |s|
    ensures HeadSize(s[..m], n) == HeadSize(s, n)
    decreases n
  {
    hide SequenceLength, FirstRuneSize;
    if n != 0 {
      FirstRuneIsLocal(s, m);
      var size := FirstRuneSize(s);
      assert s[..m][size..] == s[size..][..m - size];
      HeadIsLocal(s[size..], m - size, n - 1);
    }
  }

  // The last n runes lie within the last 4n bytes and are decided there.
  lemma {:induction false} TailIsLocal(s: Bytes, from: nat, n: nat)
    requires from <= |s| && MAX_RUNE_SIZE * n <= |s| - from
    ensures TailSize(s[from..], n) == TailSize(s, n)
    decreases n
  {
    hide SequenceLength, LastRuneSize;
    if n != 0 {
      LastRuneIsLocal(s, from);
      var size := LastRuneSize(s);
      assert s[from..][..|s| - from - size] == s[..|s| - size][from..];
      TailIsLocal(s[..|s| - size], from, n - 1);
    }
  }

  lemma {:induction false} SanitizeConcat(s: Bytes, t: Bytes)
    requires RuneBoundary(s + t, |s|)
    ensures Sanitize(s + t) == Sanitize(s) + Sanitize(t)
    ensures RuneCount(s + t) == RuneCount(s) + RuneCount(t)
    decreases |s|
  {
    hide SequenceLength, FirstRuneSize, RuneBoundary, FirstRune;
    if s == [] {
      assert s + t == t;
    } else {
      var size := FirstRuneSize(s + t);
      FirstRuneOfConcat(s, t);
      SanitizeConcat(s[size..], t);
      assert FirstRune(s) + (Sanitize(s[size..]) + Sanitize(t)) == (FirstRune(s) + Sanitize(s[size..])) + Sanitize(t);
    }
  }

  lemma FirstRuneOfConcat(s: Bytes, t: Bytes)
    requires s != [] && RuneBoundary(s + t, |s|)
    ensures var size := FirstRuneSize(s + t);
      && size == FirstRuneSize(s) && FirstRune(s + t) == FirstRune(s)
      && (s + t)[size..] == s[size..] + t
      && RuneBoundary(s[size..] + t, |s| - size)
  {
    hide SequenceLength, FirstRuneSize;
    var u := s + t;
    assert u[..|s|] == s;
    FirstRuneOfPrefix(u, |s|);
    var size := FirstRuneSize(u);
    assert u[size..] == s[size..] + t;
    assert u[..size] == s[..size];
  }

  // Sanitizing gives valid UTF-8 with as many runes.
  lemma {:induction false} SanitizeIsValid(s: Bytes)
    ensures IsValid(Sanitize(s)) && RuneCount(Sanitize(s)) == RuneCount(s)
    decreases |s|
  {
    if s != [] {
      SanitizeIsValid(s[FirstRuneSize(s)..]);
      PrependSequence(FirstRune(s), Sanitize(s[FirstRuneSize(s)..]));
    }
  }

  lemma PrependSequence(rune: Bytes, rest: Bytes)
    requires rune != [] && SequenceLength(rune) == |rune|
    ensures IsValid(rest) ==> IsValid(rune + rest)
    ensures RuneCount(rune + rest) == 1 + RuneCount(rest)
  {
    hide SequenceLength;
    assert (rune + rest)[..|rune|] == rune;
    SequenceIsLocal(rune, rune + rest);
    assert (rune + rest)[|rune|..] == rest;
  }

  // Valid text is left alone, so sanitizing twice is sanitizing once.
  lemma {:induction false} SanitizeValid(s: Bytes)
    requires IsValid(s)
    ensures Sanitize(s) == s
    decreases |s|
  {
    if s != [] {
      SanitizeValid(s[SequenceLength(s)..]);
    }
  }
}
