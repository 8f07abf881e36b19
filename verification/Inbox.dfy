// The inbox of a session, a queue that drops duplicates: harness/inbox/local.go.
module Inbox {
  import opened Session
  import AppendRules

  function InputIDs(inputs: seq<Input>): set<Id> {
    set i | 0 <= i < |inputs| :: inputs[i].id
  }

  // Of the submitted inputs those whose ID was neither seen to begin with nor submitted
  // before, in order.
  function Firsts(seen: set<Id>, submitted: seq<Input>): seq<Input> {
    if submitted == [] then []
    else
      var earlier, last := submitted[..|submitted| - 1], submitted[|submitted| - 1];
      Firsts(seen, earlier) + (if last.id in seen || last.id in InputIDs(earlier) then [] else [last])
  }

  lemma FirstsOfLonger(seen: set<Id>, submitted: seq<Input>, input: Input)
    ensures Firsts(seen, submitted + [input])
      == Firsts(seen, submitted) + (if input.id in seen || input.id in InputIDs(submitted) then [] else [input])
    ensures InputIDs(submitted + [input]) == InputIDs(submitted) + {input.id}
  {
    var all := submitted + [input];
    assert all[..|submitted|] == submitted;
    forall id | id in InputIDs(submitted)
      ensures id in InputIDs(all)
    {
      var i :| 0 <= i < |submitted| && submitted[i].id == id;
      assert all[i].id == id;
    }
    assert all[|submitted|] == input;
  }

  // Exactly once: every submitted ID that was not seen before comes out, and none comes
  // out twice.
  lemma {:induction false} FirstsComeOnce(seen: set<Id>, submitted: seq<Input>)
    ensures var out := Firsts(seen, submitted);
      && InputIDs(out) == InputIDs(submitted) - seen
      && (forall i, j | 0 <= i < j < |out| :: out[i].id != out[j].id)
    decreases |submitted|
  {
    hide InputIDs;
    if submitted == [] {
      NoInputIDs();
    } else {
      var earlier, last := submitted[..|submitted| - 1], submitted[|submitted| - 1];
      assert submitted == earlier + [last];
      FirstsComeOnce(seen, earlier);
      FirstsOfLonger(seen, earlier, last);
      var out := Firsts(seen, earlier);
      AmongInputIDs(out);
      IDsOfOneMore(out, last);
      if last.id in seen || last.id in InputIDs(earlier) {
        assert out + [] == out;
        assert InputIDs(earlier) + {last.id} - seen == InputIDs(earlier) - seen;
      }
    }
  }

  lemma NoInputIDs()
    ensures InputIDs([]) == {}
  {
  }

  lemma AmongInputIDs(inputs: seq<Input>)
    ensures forall i | 0 <= i < |inputs| :: inputs[i].id in InputIDs(inputs)
  {
  }

  // And what comes out is the input first submitted under its ID.
  lemma {:induction false} FirstComesOut(seen: set<Id>, submitted: seq<Input>, k: nat)
    requires k < |submitted| && submitted[k].id !in seen
    requires forall j | 0 <= j < k :: submitted[j].id != submitted[k].id
    ensures submitted[k] in Firsts(seen, submitted)
    decreases |submitted|
  {
    if k < |submitted| - 1 {
      FirstComesOut(seen, submitted[..|submitted| - 1], k);
    }
  }

  lemma IDsOfOneMore(inputs: seq<Input>, input: Input)
    ensures InputIDs(inputs + [input]) == InputIDs(inputs) + {input.id}
  {
    FirstsOfLonger({}, inputs, input);
  }

  // First in, first out: what is submitted later comes out later.
  lemma {:induction false} FirstsStayInOrder(seen: set<Id>, submitted: seq<Input>, n: nat)
    requires n <= |submitted|
    ensures Firsts(seen, submitted[..n]) <= Firsts(seen, submitted)
    decreases |submitted|
  {
    if n == |submitted| {
      assert submitted[..n] == submitted;
    } else {
      assert submitted[..|submitted| - 1][..n] == submitted[..n];
      FirstsStayInOrder(seen, submitted[..|submitted| - 1], n);
    }
  }

  // What the select statement of run finds ready: a submission, or a receiver.
  datatype InboxEvent = Submission(input: Input) | Receiver

  // The inputs among events that are let through.
  function Submissions(events: seq<InboxEvent>): seq<Input> {
    if events == [] then []
    else
      var last := events[|events| - 1];
      Submissions(events[..|events| - 1]) + (if last.Submission? && ValidInput(last.input) then [last.input] else [])
  }

  class Queue {
    var seen: set<Id>
    var queued: seq<Input>
    // What was received from the output channel.
    var emitted: seq<Input>
    ghost const seeded: set<Id>
    ghost var submitted: seq<Input>

    ghost predicate Valid()
      reads this
    {
      && emitted + queued == Firsts(seeded, submitted)
      && seen == seeded + InputIDs(submitted)
    }

    constructor (seen: set<Id>)
      ensures Valid() && seeded == seen && submitted == [] && emitted == []
    {
      this.seen, this.seeded := seen, seen;
      queued, emitted, submitted := [], [], [];
    }

    // Submit and the receiving end of its channel.
    method Submit(input: Input) returns (r: Result<()>)
      requires Valid()
      modifies this`seen, this`queued, this`submitted
      ensures Valid() && emitted == old(emitted)
      ensures r.Ok? <==> AppendRules.IsWellFormedInput(input)
      ensures submitted == old(submitted) + if r.Ok? then [input] else []
    {
      if !ValidInput(input) {
        return Err(InvalidInput);
      }
      FirstsOfLonger(seeded, submitted, input);
      submitted := submitted + [input];
      if input.id in seen {
        return Ok(());
      }
      seen := seen + {input.id};
      queued := queued + [input];
      assert emitted + queued == (emitted + old(queued)) + [input];
      return Ok(());
    }

    method Emit()
      requires Valid()
      modifies this`queued, this`emitted
      ensures Valid()
      ensures old(queued) != [] ==> emitted == old(emitted) + [old(queued)[0]] && |queued| == |old(queued)| - 1
    {
      if queued != [] {
        assert emitted + queued == (emitted + [queued[0]]) + queued[1..];
        emitted := emitted + [queued[0]];
        queued := queued[1..];
      }
    }

    // run: whatever the order in which submissions and receivers come, what goes out is
    // the beginning of the first submissions.
    method Run(events: seq<InboxEvent>)
      requires Valid() && submitted == [] && emitted == []
      modifies this
      ensures Valid() && submitted == Submissions(events)
      ensures emitted <= Firsts(seeded, Submissions(events))
    {
      for i := 0 to |events|
        invariant Valid() && submitted == Submissions(events[..i])
      {
        assert events[..i + 1][..i] == events[..i];
        match events[i] {
          case Submission(input) => var _ := Submit(input);
          case Receiver => Emit();
        }
      }
      assert events[..|events|] == events;
    }
  }

  // New: an empty ID cannot have been seen.
  method NewInbox(seenIDs: seq<Id>) returns (r: Result<Queue>)
    ensures r.Ok? <==> "" !in seenIDs
    ensures r.Ok? ==> fresh(r.value) && r.value.Valid() && r.value.seeded == (set id | id in seenIDs)
                      && r.value.submitted == [] && r.value.emitted == []
  {
    var seen: set<Id> := {};
    for i := 0 to |seenIDs|
      invariant seen == (set id | id in seenIDs[..i]) && "" !in seenIDs[..i]
    {
      if seenIDs[i] == "" {
        return Err(InvalidInput);
      }
      assert seenIDs[..i + 1] == seenIDs[..i] + [seenIDs[i]];
      seen := seen + {seenIDs[i]};
    }
    assert seenIDs[..|seenIDs|] == seenIDs;
    var queue := new Queue(seen);
    return Ok(queue);
  }
}
