// Pages of a text on UTF-8 boundaries: paginate in gui/tools.go.
module Paginate {
  import opened Utf8
  import opened Session

  // Go's int on 64-bit systems.
  const MAX_INT := 0x7FFF_FFFF_FFFF_FFFF

  type Int = x: int | -MAX_INT - 1 <= x <= MAX_INT

  function Wrapped(x: int): Int
    requires -2 * MAX_INT - 2 <= x <= 2 * MAX_INT
  {
    if x > MAX_INT then x - 2 * MAX_INT - 2 else if x < -MAX_INT - 1 then x + 2 * MAX_INT + 2 else x
  }

  // The bytes shown, where they begin and end, and the offset to continue at if there is
  // more.
  datatype Page = Page(body: Bytes, from: nat, to: nat, next: Option<nat>)

  predicate AtRune(text: Bytes, m: int) {
    m == |text| || (0 <= m < |text| && IsRuneStart(text[m]))
  }

  // The first rune start from an offset on.
  function NextStart(text: Bytes, offset: nat): nat
    requires offset <= |text|
    decreases |text| - offset
  {
    if offset < |text| && !IsRuneStart(text[offset]) then NextStart(text, offset + 1) else offset
  }

  // The last rune start up to an end; from when there is none after it.
  function LastStart(text: Bytes, from: nat, end: nat): nat
    requires from <= end < |text|
    decreases end
  {
    if end > from && !IsRuneStart(text[end]) then LastStart(text, from, end - 1) else end
  }

  function Begin(text: Bytes, offset: Int): nat {
    NextStart(text, if offset < 0 then 0 else if offset > |text| then |text| else offset)
  }

  // paginate; None is a panic.
  function PageOf(text: Bytes, offset: Int, limit: Int): Option<Page>
    requires |text| <= MAX_INT && Begin(text, offset) <= |text|
  {
    var from := Begin(text, offset);
    var sum := Wrapped(from + limit);
    if limit <= 0 || sum >= |text| then Some(Page(text[from..], from, |text|, None))
    else if sum < from then None
    else
      var to := LastStart(text, from, sum);
      if from <= to <= |text| then Some(Page(text[from..to], from, to, Some(to))) else None
  }

  lemma {:induction false} NextStartIsFirst(text: Bytes, offset: nat)
    requires offset <= |text|
    ensures offset <= NextStart(text, offset) <= |text| && AtRune(text, NextStart(text, offset))
    ensures forall m | offset <= m < NextStart(text, offset) :: !AtRune(text, m)
    decreases |text| - offset
  {
    if offset < |text| && !IsRuneStart(text[offset]) {
      NextStartIsFirst(text, offset + 1);
    }
  }

  lemma {:induction false} LastStartIsLast(text: Bytes, from: nat, end: nat)
    requires from <= end < |text|
    ensures from <= LastStart(text, from, end) <= end
    ensures LastStart(text, from, end) > from ==> AtRune(text, LastStart(text, from, end))
    ensures forall m | LastStart(text, from, end) < m <= end :: !AtRune(text, m)
    decreases end
  {
    if end > from && !IsRuneStart(text[end]) {
      LastStartIsLast(text, from, end - 1);
    }
  }

  // A page begins at the first rune start from the offset on, and at the end of the text
  // when there is none.
  lemma BeginIsInText(text: Bytes, offset: Int)
    ensures if offset > |text| then Begin(text, offset) == |text| else Begin(text, offset) >= offset
    ensures forall m: nat | offset <= m <= |text| && AtRune(text, m) :: Begin(text, offset) <= m
    ensures Begin(text, offset) <= |text| && AtRune(text, Begin(text, offset))
    ensures 0 <= offset <= |text| && AtRune(text, offset) ==> Begin(text, offset) == offset
  {
    NextStartIsFirst(text, if offset < 0 then 0 else if offset > |text| then |text| else offset);
  }

  // The loops of paginate, to the next rune start and back to the last one.
  method SkipToRune(text: Bytes, offset: nat) returns (from: nat)
    requires offset <= |text|
    ensures from == NextStart(text, offset)
  {
    from := offset;
    while from < |text| && !IsRuneStart(text[from])
      invariant from <= |text| && NextStart(text, from) == NextStart(text, offset)
    {
      from := from + 1;
    }
  }

  method BackToRune(text: Bytes, from: nat, sum: int) returns (end: int)
    requires from <= |text| && sum < |text|
    ensures end == if sum < from then sum else LastStart(text, from, sum)
  {
    end := sum;
    while end > from && !IsRuneStart(text[end])
      invariant end <= sum
      invariant from <= sum ==> from <= end && LastStart(text, from, end) == LastStart(text, from, sum)
      invariant sum < from ==> end == sum
    {
      end := end - 1;
    }
  }

  method Paginate(text: Bytes, offset: Int, limit: Int) returns (page: Option<Page>)
    requires |text| <= MAX_INT
    ensures Begin(text, offset) <= |text| && page == PageOf(text, offset, limit)
  {
    hide LastStart, NextStart;
    BeginIsInText(text, offset);
    var total := |text|;
    var from := SkipToRune(text, if offset < 0 then 0 else if offset > total then total else offset);
    var end: int := total;
    if limit > 0 && Wrapped(from + limit) < total {
      var sum := Wrapped(from + limit);
      end := BackToRune(text, from, sum);
      if from <= sum {
        LastStartIsLast(text, from, sum);
      }
    }
    if end < from {
      return None;
    }
    assert text[from..total] == text[from..];
    return Some(Page(text[from..end], from, end, if end < total then Some(end) else None));
  }

  // It panics exactly when the offset and the limit add up to more than an int holds.
  lemma PanicsExactlyOnOverflow(text: Bytes, offset: Int, limit: Int)
    requires |text| <= MAX_INT
    ensures Begin(text, offset) <= |text|
    ensures PageOf(text, offset, limit) == None <==> limit > 0 && Begin(text, offset) + limit > MAX_INT
  {
    BeginIsInText(text, offset);
    var from := Begin(text, offset);
    var sum := Wrapped(from + limit);
    if limit > 0 && from <= sum < |text| {
      LastStartIsLast(text, from, sum);
    }
  }

  // ---- Valid texts ----

  // A valid text can be cut at any rune start.
  lemma {:induction false} CutsAreValid(text: Bytes, m: nat)
    requires IsValid(text) && m <= |text| && AtRune(text, m)
    ensures IsValid(text[..m]) && IsValid(text[m..])
    decreases |text|
  {
    if m == 0 {
      assert text[0..] == text && text[..0] == [];
    } else {
      var k := SequenceLength(text);
      var rest := text[k..];
      if m < k {
        SequenceBytes(text, m);
        assert false;
      } else {
        assert AtRune(rest, m - k);
        CutsAreValid(rest, m - k);
        assert text[m..] == rest[m - k..];
        assert text[..m] == text[..k] + rest[..m - k];
        SequenceIsLocal(text, text[..m]);
        assert text[..m][k..] == rest[..m - k];
      }
    }
  }

  // After a rune of a valid text another one begins, or the text ends.
  lemma RuneEndsAtRune(text: Bytes)
    requires IsValid(text) && text != []
    ensures var k := SequenceLength(text);
      && 1 <= k <= |text| && k <= MAX_RUNE_SIZE && AtRune(text, k)
      && forall m | 0 < m < k :: !AtRune(text, m)
  {
    var k := SequenceLength(text);
    if k < |text| {
      var rest := text[k..];
      assert rest[0] == text[k];
      SequenceBytes(rest, 0);
    }
    forall m | 0 < m < k
      ensures !AtRune(text, m)
    {
      SequenceBytes(text, m);
    }
  }

  // Where a page that starts at a rune ends.
  lemma PageFromRune(text: Bytes, offset: nat, limit: Int)
    requires |text| <= MAX_INT && offset < |text| && AtRune(text, offset) && (limit > 0 ==> offset + limit <= MAX_INT)
    ensures Begin(text, offset) == offset && PageOf(text, offset, limit).Some?
    ensures var page := PageOf(text, offset, limit).value;
      && page.from == offset <= page.to <= |text| && page.body == text[offset..page.to]
      && AtRune(text, page.to) && (limit > 0 ==> page.to - offset <= limit)
      && page.next == (if page.to < |text| then Some(page.to) else None)
      && (forall m | page.to < m <= |text| && (limit > 0 ==> m <= offset + limit) :: !AtRune(text, m))
  {
    BeginIsInText(text, offset);
    if limit > 0 && offset + limit < |text| {
      LastStartIsLast(text, offset, offset + limit);
    } else {
      assert text[offset..|text|] == text[offset..];
    }
  }

  // A page of a valid text that starts at a rune is valid and within the limit, and it
  // gets on exactly when its first rune does not exceed the limit.
  lemma PageOfValidText(text: Bytes, offset: nat, limit: Int)
    requires |text| <= MAX_INT && IsValid(text)
    requires offset < |text| && AtRune(text, offset) && (limit > 0 ==> offset + limit <= MAX_INT)
    ensures Begin(text, offset) == offset && PageOf(text, offset, limit).Some?
    ensures var page := PageOf(text, offset, limit).value;
      && page.from == offset <= page.to <= |text| && page.body == text[offset..page.to]
      && IsValid(page.body) && AtRune(text, page.to)
      && (limit > 0 ==> |page.body| <= limit)
      && page.next == (if page.to < |text| then Some(page.to) else None)
      && (page.to > offset <==> limit <= 0 || SequenceLength(text[offset..]) <= limit)
  {
    hide IsValid, SequenceLength, PageOf, AtRune;
    PageFromRune(text, offset, limit);
    var page := PageOf(text, offset, limit).value;
    CutsAreValid(text, offset);
    var rest := text[offset..];
    RuneEndsAtRune(rest);
    SameRunes(text, offset, page.to);
    SameRunes(text, offset, offset + SequenceLength(rest));
    CutsAreValid(rest, page.to - offset);
    assert page.body == rest[..page.to - offset];
    if page.to > offset {
      assert AtRune(rest, page.to - offset);
    }
  }

  lemma SameRunes(text: Bytes, offset: nat, m: nat)
    requires offset <= m <= |text|
    ensures AtRune(text[offset..], m - offset) <==> AtRune(text, m)
  {
  }

  // ---- Following the pages ----

  // The pages one gets by going on where each says, for as long as that gets on.
  function Pages(text: Bytes, offset: nat, limit: Int): seq<Page>
    requires |text| <= MAX_INT && offset <= |text|
    decreases |text| - offset
  {
    BeginIsInText(text, offset);
    match PageOf(text, offset, limit)
    case None => []
    case Some(page) =>
      if page.next.Some? && offset < page.next.value <= |text| then [page] + Pages(text, page.next.value, limit)
      else [page]
  }

  function Bodies(pages: seq<Page>): Bytes {
    if pages == [] then [] else pages[0].body + Bodies(pages[1..])
  }

  // The pages come to an end, each is valid and within the limit, and together they are
  // the text from an offset on.
  predicate Cover(pages: seq<Page>, text: Bytes, offset: nat, limit: Int)
    requires offset <= |text|
  {
    && pages != [] && pages[|pages| - 1].next == None
    && (forall i | 0 <= i < |pages| :: IsValid(pages[i].body) && (limit > 0 ==> |pages[i].body| <= limit))
    && Bodies(pages) == text[offset..]
  }

  lemma OneMorePage(page: Page, pages: seq<Page>, text: Bytes, offset: nat, to: nat, limit: Int)
    requires offset <= to <= |text| && page.body == text[offset..to]
    requires IsValid(page.body) && (limit > 0 ==> |page.body| <= limit)
    requires if to == |text| then pages == [] && page.next == None else Cover(pages, text, to, limit)
    ensures Cover([page] + pages, text, offset, limit)
  {
    hide IsValid;
    var all := [page] + pages;
    assert all[1..] == pages;
    assert text[offset..] == text[offset..to] + text[to..];
    assert Bodies(all) == page.body + Bodies(pages);
    assert forall i | 0 < i < |all| :: all[i] == pages[i - 1];
    assert pages != [] ==> all[|all| - 1] == pages[|pages| - 1];
  }

  // With a limit that any rune fits in, or none, following the pages of a valid text gives
  // all of it.
  lemma {:induction false} PagesCoverText(text: Bytes, offset: nat, limit: Int)
    requires |text| <= MAX_INT && IsValid(text) && offset <= |text| && AtRune(text, offset)
    requires limit <= 0 || MAX_RUNE_SIZE <= limit <= MAX_INT - |text|
    ensures Cover(Pages(text, offset, limit), text, offset, limit)
    decreases |text| - offset
  {
    hide IsValid, PageOf, Cover, AtRune, SequenceLength;
    if offset == |text| {
      PageAtEnd(text, limit);
      OneMorePage(Page([], |text|, |text|, None), [], text, offset, offset, limit);
      assert Pages(text, offset, limit) == [Page([], |text|, |text|, None)] + [];
    } else {
      PageOfValidText(text, offset, limit);
      CutsAreValid(text, offset);
      RuneEndsAtRune(text[offset..]);
      var page := PageOf(text, offset, limit).value;
      if page.next.Some? {
        PagesCoverText(text, page.to, limit);
        OneMorePage(page, Pages(text, page.to, limit), text, offset, page.to, limit);
      } else {
        OneMorePage(page, [], text, offset, page.to, limit);
        assert Pages(text, offset, limit) == [page] + [];
      }
    }
  }

  lemma PageAtEnd(text: Bytes, limit: Int)
    requires |text| <= MAX_INT && (limit > 0 ==> |text| + limit <= MAX_INT)
    ensures Begin(text, |text|) == |text| && PageOf(text, |text|, limit) == Some(Page([], |text|, |text|, None))
    ensures IsValid([]) && text[|text|..] == []
  {
    BeginIsInText(text, |text|);
    assert text[|text|..] == [];
  }

  // A limit that a rune does not fit in: the page that starts with it is empty and says
  // to continue where it is.
  lemma TooSmallLimitDoesNotGetOn(text: Bytes, offset: nat, limit: Int)
    requires |text| <= MAX_INT && IsValid(text) && offset < |text| && AtRune(text, offset)
    requires 0 < limit < SequenceLength(text[offset..]) && offset + limit <= MAX_INT
    ensures Begin(text, offset) == offset
    ensures PageOf(text, offset, limit) == Some(Page([], offset, offset, Some(offset)))
  {
    hide IsValid, SequenceLength;
    PageOfValidText(text, offset, limit);
    assert text[offset..offset] == [];
  }
}
