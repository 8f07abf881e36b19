// Restarts of a shell operation from any checkpoint it has emitted, for a process that
// stops before its last ones are stored.
module ShellRestarts {
  import opened Utf8
  import opened Output
  import opened ShellMachine
  import opened ShellProofs
  import opened ShellCapture
  import opened ShellRun
  import P = Primitives

  function StepStarts(step: Step): nat {
    if step.Step? then Starts(step.dispatches) else 0
  }

  // 1 while the process has not been dispatched.
  function Unstarted(operation: Operation): nat {
    if Progress(operation) < Process.Rank() then 1 else 0
  }

  // ---- Runs ----

  datatype Happening = Hear(event: P.Event) | RestartAt(n: nat)

  // A run so far: the shell in memory, the operation as it was given and every checkpoint
  // since, every step, and how many restarts were from before the process phase.
  datatype Life = Life(shell: Shell, checkpoints: seq<Operation>, log: seq<Step>, early: nat)

  function Longer(w: Life, outcome: Outcome): Life {
    var step := outcome.step;
    Life(outcome.shell,
          w.checkpoints + (if step.Step? && step.checkpoint.Some? then [step.checkpoint.value] else []),
          w.log + [step], w.early)
  }

  function Live(w: Life, input: Happening): Life {
    match input
    case Hear(event) => Longer(w, Handle(w.shell, Some(event)))
    case RestartAt(n) =>
      if n >= |w.checkpoints| || IsTerminal(w.checkpoints[n].status) then w
      else Longer(w.(early := w.early + Unstarted(w.checkpoints[n])), Handle(Load(w.checkpoints[n]), None))
  }

  function LiveOn(w: Life, inputs: seq<Happening>): Life {
    if inputs == [] then w else Live(LiveOn(w, inputs[..|inputs| - 1]), inputs[|inputs| - 1])
  }

  function Begin(operation: Operation): Life {
    Life(Load(operation), [operation], [], 0)
  }

  ghost predicate KeepsCount(w: Life) {
    && Sound(w.shell)
    && (forall i | 0 <= i < |w.checkpoints| :: Sound(Load(w.checkpoints[i])))
    && (forall i | 0 <= i < |w.log| :: !w.log[i].Panicked?)
    && TotalStarts(w.log) + Unstarted(w.shell.operation) <= 1 + w.early
  }

  lemma LoadIsSound(shell: Shell)
    requires Sound(shell)
    ensures Sound(Load(shell.operation))
  {
  }

  // One good step starts the process only while it is unstarted.
  lemma GoodStepCounts(before: Shell, outcome: Outcome)
    requires GoodStep(before, outcome)
    ensures StepStarts(outcome.step) + Unstarted(outcome.shell.operation) <= Unstarted(before.operation)
  {
    hide Sound;
  }

  lemma RecordCounts(w: Life, before: Shell, outcome: Outcome)
    requires GoodStep(before, outcome)
    requires forall i | 0 <= i < |w.checkpoints| :: Sound(Load(w.checkpoints[i]))
    requires forall i | 0 <= i < |w.log| :: !w.log[i].Panicked?
    requires TotalStarts(w.log) + Unstarted(before.operation) <= 1 + w.early
    ensures KeepsCount(Longer(w, outcome))
  {
    hide Sound;
    LoadIsSound(outcome.shell);
    GoodStepCounts(before, outcome);
    assert (w.log + [outcome.step])[..|w.log|] == w.log;
  }

  lemma ApplyCounts(w: Life, input: Happening)
    requires KeepsCount(w)
    ensures KeepsCount(Live(w, input))
  {
    hide Sound, Handle, GoodStep, Progress;
    match input
    case Hear(event) =>
      HandleIsGood(w.shell, Some(event));
      RecordCounts(w, w.shell, Handle(w.shell, Some(event)));
    case RestartAt(n) =>
      if n < |w.checkpoints| && !IsTerminal(w.checkpoints[n].status) {
        var shell := Load(w.checkpoints[n]);
        HandleIsGood(shell, None);
        RecordCounts(w.(early := w.early + Unstarted(w.checkpoints[n])), shell, Handle(shell, None));
      }
  }

  // Over any events and any restarts, from whichever checkpoints: the process is dispatched
  // at most once, and once more for each restart from before the process phase.
  lemma {:induction false} EarlyRestartsStartAgain(operation: Operation, inputs: seq<Happening>)
    requires FreshOperation(operation)
    ensures KeepsCount(LiveOn(Begin(operation), inputs))
    ensures TotalStarts(LiveOn(Begin(operation), inputs).log) <= 1 + LiveOn(Begin(operation), inputs).early
    decreases |inputs|
  {
    hide Live, Sound;
    if inputs != [] {
      EarlyRestartsStartAgain(operation, inputs[..|inputs| - 1]);
      ApplyCounts(LiveOn(Begin(operation), inputs[..|inputs| - 1]), inputs[|inputs| - 1]);
    }
  }

  // ---- One restart ----

  // The starts while a shell is given these events.
  function StartsIn(shell: Shell, events: seq<P.Event>): nat
    decreases |events|
  {
    if events == [] then 0
    else
      var outcome := Handle(shell, Some(events[0]));
      StepStarts(outcome.step) + StartsIn(outcome.shell, events[1..])
  }

  // The starts after a restart from a checkpoint.
  function StartsAfterRestart(checkpoint: Operation, events: seq<P.Event>): nat {
    var outcome := Handle(Load(checkpoint), None);
    StepStarts(outcome.step) + StartsIn(outcome.shell, events)
  }

  lemma {:induction false} StartsAreBounded(shell: Shell, events: seq<P.Event>)
    requires Sound(shell)
    ensures StartsIn(shell, events) <= Unstarted(shell.operation)
    decreases |events|
  {
    hide Sound, Handle, Progress, StepStarts;
    if events != [] {
      var outcome := Handle(shell, Some(events[0]));
      HandleIsGood(shell, Some(events[0]));
      GoodStepCounts(shell, outcome);
      StartsAreBounded(outcome.shell, events[1..]);
    }
  }

  // Completing what is still to be created leads to the process.
  lemma CreatesLeadToStart(shell: Shell, phase: Phase) returns (events: seq<P.Event>)
    requires AtPhase(shell, phase) && phase in {CreateDirectory, CreateOut, CreateErr}
    ensures StartsIn(shell, events) == 1
    decreases Process.Rank() - phase.Rank()
  {
    hide AtPhase, Handle, StepStarts;
    var event := CreatedEvent(shell.operation);
    var outcome := Handle(shell, Some(event));
    CreateMovesOn(shell, phase);
    CreateDispatches(shell, phase);
    if phase == CreateErr {
      events := [event];
      assert StartsIn(outcome.shell, []) == 0;
      assert events[1..] == [];
    } else {
      var rest := CreatesLeadToStart(outcome.shell, PhaseAfter(phase));
      events := [event] + rest;
      assert events[1..] == rest;
    }
  }

  lemma CreateDispatches(shell: Shell, phase: Phase)
    requires AtPhase(shell, phase) && phase in {CreateDirectory, CreateOut, CreateErr}
    ensures StepStarts(Handle(shell, Some(CreatedEvent(shell.operation))).step) == if phase == CreateErr then 1 else 0
  {
    hide Sound, Message, End, Truncation;
    NameOfAwaiting(shell);
    var dispatches := Handle(shell, Some(CreatedEvent(shell.operation))).step.dispatches;
    assert |dispatches| == 1 && (dispatches[0].StartProcess? <==> phase == CreateErr);
    assert dispatches[1..] == [] && Starts([]) == 0;
  }

  lemma RestartDispatches(checkpoint: Operation)
    requires Sound(Load(checkpoint)) && !IsTerminal(checkpoint.status) && ValidName(checkpoint.id)
    requires Progress(checkpoint) < Process.Rank()
    ensures StepStarts(Handle(Load(checkpoint), None).step) == 0
    ensures exists phase :: phase in {CreateDirectory, CreateOut, CreateErr} && AtPhase(Handle(Load(checkpoint), None).shell, phase)
  {
    hide Message, End, StepStarts;
    HandleIsGood(Load(checkpoint), None);
    GoodStepCounts(Load(checkpoint), Handle(Load(checkpoint), None));
    if checkpoint.status == StatusReady {
      FirstStep(checkpoint);
    } else {
      ResumeRepeatsPhase(Load(checkpoint));
      assert AtPhase(Handle(Load(checkpoint), None).shell, checkpoint.state.phase);
    }
  }

  // A restart can have the process dispatched again exactly when its checkpoint precedes
  // the process phase.
  lemma StartsAgainExactly(checkpoint: Operation)
    requires Sound(Load(checkpoint)) && !IsTerminal(checkpoint.status) && ValidName(checkpoint.id)
    ensures (exists events :: StartsAfterRestart(checkpoint, events) > 0) <==> Progress(checkpoint) < Process.Rank()
    ensures forall events :: StartsAfterRestart(checkpoint, events) <= 1
  {
    hide Sound, Handle, StepStarts, StartsIn;
    var outcome := Handle(Load(checkpoint), None);
    HandleIsGood(Load(checkpoint), None);
    GoodStepCounts(Load(checkpoint), outcome);
    forall events
      ensures StartsAfterRestart(checkpoint, events) <= Unstarted(checkpoint)
    {
      StartsAreBounded(outcome.shell, events);
    }
    if Progress(checkpoint) < Process.Rank() {
      RestartDispatches(checkpoint);
      var phase :| phase in {CreateDirectory, CreateOut, CreateErr} && AtPhase(outcome.shell, phase);
      var events := CreatesLeadToStart(outcome.shell, phase);
      assert StartsAfterRestart(checkpoint, events) == 1;
    }
  }
}
