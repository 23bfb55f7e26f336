/**
What one undisturbed pass through the boundary comes to, told by what the record says before it and by what the
handler does: how it ends, what it leaves of the step and of the marker, and whether the handler was invoked.
*/
module Passes {
  import opened Ledger
  import opened Attempts
  import opened EffectsBoundary

  // ── the handler runs ─────────────────────────────────────────────────────

  /** How the step reads after a handler that was invoked under a live token. */
  function Left(task: Task, outcome: HandlerOutcome): Option<Step<Value>> {
    match outcome
    case Cancelled => Some(Running)
    case NothingHappened(_) => None
    case Yields(value) => Some(Done(if task.ToolCall? then Envelope(Succeeded(value)) else Response(value)))
    case Raises(error) => if task.ToolCall? then Some(Done(Envelope(Failed(error)))) else None
  }

  /** From the running step on: a tool that finished goes on to its marker, everything else ends here. */
  lemma HandledPass(l: BranchLedger<Value>, a: Attempt, task: Task, choice: Choice)
    requires Read(l, KeyOf(task)) == Some(Running) && !Stale(l, a.token)
    ensures var (m, result, invoked) := Alone(l, a, task, Handling(0), choice);
      && invoked
      && (choice.outcome.Cancelled? ==> m == l && result == Raised(Interrupted))
      && (choice.outcome.NothingHappened? || (choice.outcome.Raises? && task.ModelRequest?) ==>
        m == l.(steps := l.steps - {KeyOf(task)}) && result == Raised(Cleared))
      && (choice.outcome.Yields? && task.ModelRequest? ==>
        m == l.(steps := l.steps[KeyOf(task) := Done(Response(choice.outcome.value))])
        && result == Answered(choice.outcome.value))
      && (task.ToolCall? && (choice.outcome.Yields? || choice.outcome.Raises?) ==>
        var record := if choice.outcome.Yields? then Succeeded(choice.outcome.value) else Failed(choice.outcome.error);
        var rest := Alone(l.(steps := l.steps[KeyOf(task) := Done(Envelope(record))]), a, task, JournalReading(record), choice);
        m == rest.0 && result == rest.1)
  {
    hide KeyOf, Alone;
    AloneStep(l, a, task, Handling(0), choice);
    match choice.outcome
    case Cancelled =>
    case NothingHappened(_) => AloneStep(l, a, task, Abandoning, choice);
    case Yields(value) =>
      var done := if task.ToolCall? then Envelope(Succeeded(value)) else Response(value);
      AloneStep(l, a, task, Finishing(done), choice);
    case Raises(error) =>
      AloneStep(l, a, task, if task.ToolCall? then Finishing(Envelope(Failed(error))) else Abandoning, choice);
  }

  // ── the marker ───────────────────────────────────────────────────────────

  /** What the hook makes of a result: it may rewrite a value, and only that. */
  predicate IsRewriting(record: Record, hook: Option<Payload>, projection: Record) {
    && hook.Some?
    && (record.Succeeded? ==> projection == Succeeded(hook.value))
    && (record.Failed? ==> projection == record)
  }

  /**
  With the effect on record: a projection that is there is the answer; without controls the record is; and
  otherwise the hook's, which is there from then on. A hook that raises leaves no marker.
  */
  lemma JournalPass(l: BranchLedger<Value>, a: Attempt, id: string, record: Record, choice: Choice)
    ensures var (m, result, invoked) := Alone(l, a, ToolCall(id), JournalReading(record), choice);
      var marker := Read(l, AfterKey(id));
      && !invoked
      && (IsDone(l, AfterKey(id)) ==>
        m == l && result == if marker.value.value.Journaled? then Returned(marker.value.value.record) else Raised(Malformed))
      && (!IsDone(l, AfterKey(id)) && !a.hooked ==> m == l && result == Returned(record))
      && (!IsDone(l, AfterKey(id)) && a.hooked && choice.hook.None? ==> m == l && result == Raised(HookRaised))
      && (!IsDone(l, AfterKey(id)) && a.hooked && choice.hook.Some? && Stale(l, a.token) ==>
        m == l && result == Raised(FencedOut))
      && (!IsDone(l, AfterKey(id)) && a.hooked && choice.hook.Some? && !Stale(l, a.token) ==>
        && result.Returned? && IsRewriting(record, choice.hook, result.record)
        && m == l.(steps := l.steps[AfterKey(id) := Done(Journaled(result.record))]))
  {
    hide KeyOf, AfterKey, Alone;
    var task := ToolCall(id);
    JournalInvokesNothing(l, a, task, JournalReading(record), choice);
    AloneStep(l, a, task, JournalReading(record), choice);
    AloneStep(l, a, task, Hooking(record), choice);
    if choice.hook.Some? {
      AloneStep(l, a, task, JournalWriting(Projected(record, choice.hook.value)), choice);
    }
  }

  // ── the whole pass ───────────────────────────────────────────────────────

  /** The pass may run its handler: the step is absent, or running for an attempt that retries. */
  predicate MayRun(l: BranchLedger<Value>, a: Attempt, task: Task) {
    var step := Read(l, KeyOf(task));
    !Stale(l, a.token) && (step.None? || (step == Some(Running) && a.retry))
  }

  /** No handler, and nothing written: the record answers, the step is in doubt, or the token is stale. */
  lemma IdlePass(l: BranchLedger<Value>, a: Attempt, task: Task, choice: Choice)
    ensures var (m, result, invoked) := Alone(l, a, task, Reading, choice);
      var step := Read(l, KeyOf(task));
      && (step == Some(Running) && !a.retry ==> m == l && result == Raised(Indeterminate) && !invoked)
      && (step.None? || (step == Some(Running) && a.retry) ==>
        Stale(l, a.token) ==> m == l && result == Raised(FencedOut) && !invoked)
      && (IsDone(l, KeyOf(task)) && task.ModelRequest? ==>
        m == l && !invoked
        && result == if step.value.value.Response? then Answered(step.value.value.body) else Raised(Malformed))
      && (IsDone(l, KeyOf(task)) && task.ToolCall? && !step.value.value.Envelope? ==> m == l && result == Raised(Malformed) && !invoked)
      && (IsDone(l, KeyOf(task)) && task.ToolCall? && step.value.value.Envelope? ==>
        Alone(l, a, task, Reading, choice) == Alone(l, a, task, JournalReading(step.value.value.record), choice))
  {
    hide KeyOf, Alone;
    PassStarts(l, a, task, choice);
  }

  lemma RunningPass(l: BranchLedger<Value>, a: Attempt, task: Task, choice: Choice)
    requires MayRun(l, a, task)
    ensures var begun := l.(steps := l.steps[KeyOf(task) := Running]);
      Alone(l, a, task, Reading, choice) == Alone(begun, a, task, Handling(0), choice)
  {
    hide KeyOf, Alone;
    PassStarts(l, a, task, choice);
    assert (l.steps - {KeyOf(task)})[KeyOf(task) := Running] == l.steps[KeyOf(task) := Running];
  }

  /**
  A pass that may run its handler runs it, and leaves what the handler did: running if it was cancelled, absent
  if nothing happened, and otherwise the record of what it returned or raised. A model request that raised
  counts as nothing happened.
  */
  lemma PassLeaves(l: BranchLedger<Value>, a: Attempt, task: Task, choice: Choice)
    requires MayRun(l, a, task)
    ensures var (m, result, invoked) := Alone(l, a, task, Reading, choice);
      && invoked && Read(m, KeyOf(task)) == Left(task, choice.outcome)
      && (choice.outcome.Cancelled? <==> result == Raised(Interrupted))
      && (result == Raised(Cleared) <==> Left(task, choice.outcome).None?)
      && (choice.outcome.Yields? && task.ModelRequest? ==> result == Answered(choice.outcome.value))
      && (result.Returned? ==> task.ToolCall? && (choice.outcome.Yields? || choice.outcome.Raises?))
  {
    hide KeyOf, Alone, MarkerOf, AfterKey;
    RunningPass(l, a, task, choice);
    var begun := l.(steps := l.steps[KeyOf(task) := Running]);
    HandledPass(begun, a, task, choice);
    if task.ToolCall? && (choice.outcome.Yields? || choice.outcome.Raises?) {
      var record := if choice.outcome.Yields? then Succeeded(choice.outcome.value) else Failed(choice.outcome.error);
      var done := begun.(steps := begun.steps[KeyOf(task) := Done(Envelope(record))]);
      JournalPass(done, a, task.id, record, choice);
      KeysApart(task, task, task.id, "");
    }
  }

  /** And the doubt stays: an attempt that does not retry invokes nothing after a cancelled handler. */
  lemma CancelledIsInDoubt(l: BranchLedger<Value>, a: Attempt, b: Attempt, task: Task, first: Choice, second: Choice)
    requires MayRun(l, a, task) && first.outcome.Cancelled? && !b.retry
    ensures var m := Alone(l, a, task, Reading, first).0;
      Alone(m, b, task, Reading, second) == (m, Raised(Indeterminate), false)
  {
    hide KeyOf, Alone;
    PassLeaves(l, a, task, first);
    IdlePass(Alone(l, a, task, Reading, first).0, b, task, second);
  }

  /** What became of the world outside is what the pass leaves behind, read as a report. */
  lemma FateIsTold(task: Task, outcome: HandlerOutcome)
    ensures FateOf(task, outcome) == match Left(task, outcome)
      case None => Nothing
      case Some(Running) => InDoubt
      case Some(Done(_)) => Happened
  {
  }
}
