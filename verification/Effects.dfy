/**
The execution boundary of one attempt, left to itself: `Effects` drives the store call by call, and
each of its methods ends where the frame of `Attempts` ends when nothing comes between its steps.
*/
module EffectsBoundary {
  import opened Ledger
  import opened MemoryLedger
  import opened Attempts
  import FencedRetry

  // ── a frame left to itself ───────────────────────────────────────────────

  function Rank(pc: Pc): nat {
    match pc
    case Reading => 9
    case Clearing => 8
    case Starting => 7
    case Entitled => 6
    case Handling(_) => 5
    case Abandoning => 4
    case Finishing(_) => 4
    case JournalReading(_) => 3
    case Hooking(_) => 2
    case JournalWriting(_) => 1
    case CopyStarting(_) => 2
    case CopyFinishing(_) => 1
    case Ended(_) => 0
  }

  lemma AdvancedFalls(l: BranchLedger<Value>, a: Attempt, task: Task, pc: Pc, choice: Choice)
    ensures !pc.Ended? ==> Rank(Advanced(l, a, task, pc, choice, 0).1) < Rank(pc)
  {
  }

  /** Where the frame ends, and whether the handler was invoked on the way. */
  function Alone(l: BranchLedger<Value>, a: Attempt, task: Task, pc: Pc, choice: Choice)
    : (BranchLedger<Value>, Result, bool)
    decreases Rank(pc)
  {
    if pc.Ended? then (l, pc.result, false)
    else
      AdvancedFalls(l, a, task, pc, choice);
      var (m, next) := Advanced(l, a, task, pc, choice, 0);
      var (end, result, invoked) := Alone(m, a, task, next, choice);
      (end, result, invoked || pc.Handling?)
  }

  /** One step of it, spelled out for the methods below. */
  lemma AloneStep(l: BranchLedger<Value>, a: Attempt, task: Task, pc: Pc, choice: Choice)
    requires !pc.Ended?
    ensures var (m, next) := Advanced(l, a, task, pc, choice, 0);
      && Alone(l, a, task, pc, choice)
        == (Alone(m, a, task, next, choice).0, Alone(m, a, task, next, choice).1,
            Alone(m, a, task, next, choice).2 || pc.Handling?)
      && (next.Ended? ==> Alone(l, a, task, pc, choice) == (m, next.result, pc.Handling?))
  {
  }

  /** How a pass goes up to its handler, or to what it ends with instead. */
  lemma PassStarts(l: BranchLedger<Value>, a: Attempt, task: Task, choice: Choice)
    ensures var key := KeyOf(task);
      var step, pass := Read(l, key), Alone(l, a, task, Reading, choice);
      var m := if step.None? then l else Forgotten(l, key, a.token).0;
      && (step == Some(Running) && !a.retry ==> pass == (l, Raised(Indeterminate), false))
      && (!IsDone(l, key) && (step.None? || a.retry) && Stale(l, a.token) ==> pass == (l, Raised(FencedOut), false))
      && (!IsDone(l, key) && (step.None? || a.retry) && !Stale(l, a.token) ==>
        && Started(m, key, a.token).1 == Inserted(true)
        && pass == Alone(Started(m, key, a.token).0, a, task, Handling(0), choice) && pass.2)
      && (IsDone(l, key) && task.ToolCall? ==>
        pass == if step.value.value.Envelope? then Alone(l, a, task, JournalReading(step.value.value.record), choice)
          else (l, Raised(Malformed), false))
      && (IsDone(l, key) && task.ModelRequest? ==>
        pass == (l, if step.value.value.Response? then Answered(step.value.value.body) else Raised(Malformed), false))
  {
    hide KeyOf, Alone;
    var key := KeyOf(task);
    var m := if key !in l.steps then l else Forgotten(l, key, a.token).0;
    AloneStep(l, a, task, Reading, choice);
    AloneStep(l, a, task, Clearing, choice);
    AloneStep(m, a, task, Starting, choice);
    var n := Started(m, key, a.token).0;
    AloneStep(n, a, task, Entitled, choice);
    AloneStep(n, a, task, Handling(0), choice);
  }

  /** What the frame leaves of the ledger outside its own step and marker: everything. */
  lemma {:induction false} AloneTouches(l: BranchLedger<Value>, a: Attempt, task: Task, pc: Pc, choice: Choice, key: string)
    requires key != KeyOf(task) && key != MarkerOf(task)
    ensures var m := Alone(l, a, task, pc, choice).0;
      Read(m, key) == Read(l, key) && m.issued == l.issued
    decreases Rank(pc)
  {
    hide Advanced, KeyOf, MarkerOf;
    if !pc.Ended? {
      AdvancedFalls(l, a, task, pc, choice);
      FencedRetry.TouchedKeys(l, a, task, pc, choice, 0, key);
      AloneTouches(Advanced(l, a, task, pc, choice, 0).0, a, task, Advanced(l, a, task, pc, choice, 0).1, choice, key);
    }
  }

  /** Past the effect the step is done, and an answer is the projection on record, or the envelope itself. */
  predicate Settled(l: BranchLedger<Value>, a: Attempt, task: Task, pc: Pc) {
    var step := Read(l, KeyOf(task));
    match pc
    case JournalReading(record) => task.ToolCall? && step == Some(Done(Envelope(record)))
    case Hooking(_) => task.ToolCall? && a.hooked && IsDone(l, KeyOf(task)) && step.value.value.Envelope?
    case JournalWriting(_) => task.ToolCall? && a.hooked && IsDone(l, KeyOf(task)) && step.value.value.Envelope?
    case Ended(result) =>
      (match result
       case Answered(body) => task.ModelRequest? && step == Some(Done(Response(body)))
       case Returned(record) =>
         && task.ToolCall? && IsDone(l, KeyOf(task)) && step.value.value.Envelope?
         && if IsDone(l, MarkerOf(task)) then Read(l, MarkerOf(task)) == Some(Done(Journaled(record)))
            else !a.hooked && step.value.value.record == record
       case _ => true)
    case _ => true
  }

  lemma SettledStep(l: BranchLedger<Value>, a: Attempt, task: Task, pc: Pc, choice: Choice)
    requires Settled(l, a, task, pc)
    ensures var (m, next) := Advanced(l, a, task, pc, choice, 0); Settled(m, a, task, next)
  {
  }

  lemma {:induction false} AloneSettles(l: BranchLedger<Value>, a: Attempt, task: Task, pc: Pc, choice: Choice)
    requires Settled(l, a, task, pc)
    ensures var (end, result, _) := Alone(l, a, task, pc, choice); Settled(end, a, task, Ended(result))
    decreases Rank(pc)
  {
    hide Advanced, Settled;
    if !pc.Ended? {
      AdvancedFalls(l, a, task, pc, choice);
      SettledStep(l, a, task, pc, choice);
      AloneSettles(Advanced(l, a, task, pc, choice, 0).0, a, task, Advanced(l, a, task, pc, choice, 0).1, choice);
    }
  }

  /** Past the effect no handler is invoked. */
  lemma {:induction false} JournalInvokesNothing(l: BranchLedger<Value>, a: Attempt, task: Task, pc: Pc, choice: Choice)
    requires pc.JournalReading? || pc.Hooking? || pc.JournalWriting? || pc.Ended?
    ensures !Alone(l, a, task, pc, choice).2
    decreases Rank(pc)
  {
    if !pc.Ended? {
      AdvancedFalls(l, a, task, pc, choice);
      JournalInvokesNothing(Advanced(l, a, task, pc, choice, 0).0, a, task, Advanced(l, a, task, pc, choice, 0).1, choice);
    }
  }

  /** A step that answered, or reported that nothing happened, was run exactly if it was not on record. */
  lemma InvokedUnlessRecorded(l: BranchLedger<Value>, a: Attempt, task: Task, choice: Choice)
    ensures var (_, result, invoked) := Alone(l, a, task, Reading, choice);
      && (invoked ==> !IsDone(l, KeyOf(task)))
      && (result.Returned? || result.Answered? || result == Raised(Cleared) ==> (invoked <==> !IsDone(l, KeyOf(task))))
  {
    hide KeyOf, MarkerOf, Alone;
    AloneStep(l, a, task, Reading, choice);
    if IsDone(l, KeyOf(task)) {
      var next := Advanced(l, a, task, Reading, choice, 0).1;
      JournalInvokesNothing(l, a, task, next, choice);
    } else {
      var m := if KeyOf(task) in l.steps then Forgotten(l, KeyOf(task), a.token).0 else l;
      AloneStep(l, a, task, Clearing, choice);
      AloneStep(m, a, task, Starting, choice);
      var n := Started(m, KeyOf(task), a.token).0;
      AloneStep(n, a, task, Entitled, choice);
      AloneStep(n, a, task, Handling(0), choice);
    }
  }

  /**
  A step that answered, answers: asked again, by any attempt under the same controls and whatever the
  tool or the model would do now, it gives the same result, invokes nothing and writes nothing.
  */
  lemma AnswersAgain(l: BranchLedger<Value>, a: Attempt, b: Attempt, task: Task, first: Choice, second: Choice)
    requires a.hooked == b.hooked
    requires var result := Alone(l, a, task, Reading, first).1; result.Returned? || result.Answered?
    ensures var (m, result, _) := Alone(l, a, task, Reading, first);
      Alone(m, b, task, Reading, second) == (m, result, false)
  {
    hide KeyOf, MarkerOf, Alone;
    AloneSettles(l, a, task, Reading, first);
    var (m, result, _) := Alone(l, a, task, Reading, first);
    AloneStep(m, b, task, Reading, second);
    if result.Returned? {
      AloneStep(m, b, task, JournalReading(m.steps[KeyOf(task)].value.record), second);
    }
  }

  // ── the gate of a round ──────────────────────────────────────────────────

  /** One call of a round; `approved` when a person's answer brought it back. */
  datatype Call = Call(id: string, tool: string, approved: bool)

  datatype Made = Made(id: string, refused: bool)

  datatype Verdict =
    | Go
    | Refuse(result: Payload)
    | NotExecuted
    | Park(pending: string)
    | Unroutable

  /** The gate in force: which records it is asked about again, and which tools want approval. */
  datatype Rules = Rules(regate: set<string>, approvalTools: set<string>)

  /** A record replays without being gated, unless it is a copy to be gated again. */
  predicate Bypasses(l: BranchLedger<Value>, rules: Rules, call: Call) {
    call.id !in rules.regate && IsDone(l, StepKey(call.id))
  }

  /** A tool that wants approval parks where the policy would let it run. */
  function Asked(rules: Rules, call: Call, decision: Decision): Decision {
    if !call.approved && decision.Continue? && call.tool in rules.approvalTools then Suspend(call.id) else decision
  }

  predicate Suspends(l: BranchLedger<Value>, rules: Rules, call: Call, decision: Decision) {
    !Bypasses(l, rules, call) && Asked(rules, call, decision).Suspend?
  }

  predicate Behind(l: BranchLedger<Value>, rules: Rules, calls: seq<Call>, decisions: seq<Decision>, i: nat)
    requires i <= |calls| == |decisions|
  {
    exists j :: 0 <= j < i && Suspends(l, rules, calls[j], decisions[j])
  }

  /** The verdict on one call, given whether a suspension came before it. */
  function VerdictOn(l: BranchLedger<Value>, rules: Rules, call: Call, decision: Decision, behind: bool): Verdict {
    if Bypasses(l, rules, call) then Go
    else
      match Asked(rules, call, decision)
      case Suspend(pending) => if pending == "" then Unroutable else Park(pending)
      case Deny(result) => if !call.approved && behind then NotExecuted else Refuse(result)
      case Continue => if !call.approved && behind then NotExecuted else Go
  }

  /**
  The verdict on each call, by the ledger the round began with: a record replays, a suspension parks,
  behind the first suspension nothing else passes, and otherwise the policy decides.
  */
  predicate Decided(l: BranchLedger<Value>, rules: Rules, calls: seq<Call>, decisions: seq<Decision>, i: nat, verdict: Verdict)
    requires i < |calls| == |decisions|
  {
    verdict == VerdictOn(l, rules, calls[i], decisions[i], Behind(l, rules, calls, decisions, i))
  }

  /** The ledger after the first `n` calls: those that may go have gone, one after another. */
  function RoundLedger(l: BranchLedger<Value>, a: Attempt, calls: seq<Call>, verdicts: seq<Verdict>, choices: seq<Choice>, n: nat)
    : BranchLedger<Value>
    requires n <= |calls| && n <= |verdicts| && n <= |choices|
  {
    if n == 0 then l
    else
      var before := RoundLedger(l, a, calls, verdicts, choices, n - 1);
      if verdicts[n - 1].Go? then Alone(before, a, ToolCall(calls[n - 1].id), Reading, choices[n - 1]).0 else before
  }

  /** What a call leaves for the end of the round: an approval to ask for, or an outside result to wait for. */
  datatype Pause = Unpaused | Asks(pending: Option<string>) | Waits

  /** The gate parks a call before its tool runs; a tool that ran may ask for approval, or defer, itself. */
  function PauseOf(verdict: Verdict, ran: bool, outcome: HandlerOutcome): Pause {
    if verdict.Park? then Asks(Some(verdict.pending))
    else if ran && outcome.NothingHappened? then
      match outcome.signal
      case WantsApproval(pending) => Asks(pending)
      case Defers => Waits
      case Retries => Unpaused
    else Unpaused
  }

  predicate DistinctCalls(calls: seq<Call>) {
    forall i, j :: 0 <= i < j < |calls| ==> calls[i].id != calls[j].id
  }

  lemma {:induction false} RoundTouches(
      l: BranchLedger<Value>, a: Attempt, calls: seq<Call>, verdicts: seq<Verdict>, choices: seq<Choice>, n: nat, key: string)
    requires n <= |calls| && n <= |verdicts| && n <= |choices|
    requires forall i :: 0 <= i < n ==> key != StepKey(calls[i].id) && key != AfterKey(calls[i].id)
    ensures Read(RoundLedger(l, a, calls, verdicts, choices, n), key) == Read(l, key)
    ensures RoundLedger(l, a, calls, verdicts, choices, n).issued == l.issued
  {
    hide Alone, StepKey, AfterKey;
    if n > 0 {
      RoundTouches(l, a, calls, verdicts, choices, n - 1, key);
      var task := ToolCall(calls[n - 1].id);
      assert KeyOf(task) == StepKey(calls[n - 1].id) && MarkerOf(task) == AfterKey(calls[n - 1].id);
      AloneTouches(RoundLedger(l, a, calls, verdicts, choices, n - 1), a, task, Reading, choices[n - 1], key);
    }
  }

  /** The step and the marker of a call are no other call's. */
  lemma OwnKeysApart(calls: seq<Call>, n: nat)
    requires n < |calls| && DistinctCalls(calls)
    ensures forall i :: 0 <= i < n ==> StepKey(calls[n].id) != StepKey(calls[i].id) && StepKey(calls[n].id) != AfterKey(calls[i].id)
    ensures forall i :: 0 <= i < n ==> AfterKey(calls[n].id) != StepKey(calls[i].id) && AfterKey(calls[n].id) != AfterKey(calls[i].id)
  {
    hide StepKey, AfterKey;
    forall i | 0 <= i < n
      ensures StepKey(calls[n].id) != StepKey(calls[i].id) && StepKey(calls[n].id) != AfterKey(calls[i].id)
      ensures AfterKey(calls[n].id) != StepKey(calls[i].id) && AfterKey(calls[n].id) != AfterKey(calls[i].id)
    {
      StepKeysApart(calls[i].id, calls[n].id);
      KeysApart(ToolCall(calls[n].id), ToolCall(calls[i].id), calls[n].id, calls[i].id);
      assert KeyOf(ToolCall(calls[i].id)) == StepKey(calls[i].id) && MarkerOf(ToolCall(calls[i].id)) == AfterKey(calls[i].id);
    }
  }

  lemma {:induction false} RoundLedgerPrefix(
      l: BranchLedger<Value>, a: Attempt, calls: seq<Call>, verdicts: seq<Verdict>, more: seq<Verdict>, choices: seq<Choice>, n: nat)
    requires n <= |calls| && n <= |verdicts| && n <= |choices| && verdicts <= more
    ensures RoundLedger(l, a, calls, more, choices, n) == RoundLedger(l, a, calls, verdicts, choices, n)
  {
    hide Alone;
    if n > 0 {
      RoundLedgerPrefix(l, a, calls, verdicts, more, choices, n - 1);
    }
  }

  lemma RoundLedgerSnoc(l: BranchLedger<Value>, a: Attempt, calls: seq<Call>, verdicts: seq<Verdict>, choices: seq<Choice>, verdict: Verdict)
    requires |verdicts| < |calls| == |choices|
    ensures var n := |verdicts|;
      var before := RoundLedger(l, a, calls, verdicts, choices, n);
      RoundLedger(l, a, calls, verdicts + [verdict], choices, n + 1)
        == if verdict.Go? then Alone(before, a, ToolCall(calls[n].id), Reading, choices[n]).0 else before
  {
    hide Alone;
    RoundLedgerPrefix(l, a, calls, verdicts, verdicts + [verdict], choices, |verdicts|);
  }

  /** A suspension of the gate among the first `n` verdicts: what the flag of the round says. */
  predicate Held(verdicts: seq<Verdict>, n: nat)
    requires n <= |verdicts|
  {
    exists j :: 0 <= j < n && verdicts[j].Park?
  }

  /** The tool's pass neither returned nor reported that nothing happened. */
  predicate Breaks(result: Result) {
    !result.Returned? && result != Raised(Cleared)
  }

  /** What became of one call, on the ledger it found: exactly when its tool ran, and when it ended the round. */
  predicate CallIs(
      m: BranchLedger<Value>, a: Attempt, rules: Rules, call: Call, decision: Decision, choice: Choice, held: bool,
      verdict: Verdict, ran: bool, pause: Pause, broken: bool)
  {
    && verdict == VerdictOn(m, rules, call, decision, held)
    && pause == PauseOf(verdict, ran, choice.outcome)
    && (ran <==> verdict.Go? && Alone(m, a, ToolCall(call.id), Reading, choice).2)
    && (broken <==> verdict.Unroutable? || (verdict.Go? && Breaks(Alone(m, a, ToolCall(call.id), Reading, choice).1)))
  }

  /** What the record of its own step alone tells of one call. */
  predicate CallShows(
      m: BranchLedger<Value>, rules: Rules, call: Call, decision: Decision, outcome: HandlerOutcome, held: bool,
      verdict: Verdict, ran: bool, pause: Pause, broken: bool)
  {
    && pause == PauseOf(verdict, ran, outcome)
    && verdict == VerdictOn(m, rules, call, decision, held)
    && (ran ==> verdict.Go? && !IsDone(m, StepKey(call.id)))
    && (!broken ==> verdict != Unroutable && (ran <==> verdict.Go? && !IsDone(m, StepKey(call.id))))
  }

  /** What a round did, call by call, whatever its calls are named. */
  ghost predicate RoundRuns(
      l: BranchLedger<Value>, a: Attempt, rules: Rules, calls: seq<Call>, decisions: seq<Decision>, choices: seq<Choice>,
      verdicts: seq<Verdict>, invoked: seq<bool>, pauses: seq<Pause>, raised: bool)
    requires |calls| == |decisions| == |choices|
  {
    && |invoked| == |pauses| == |verdicts| <= |calls|
    && (forall i :: 0 <= i < |verdicts| ==>
      CallIs(RoundLedger(l, a, calls, verdicts, choices, i), a, rules, calls[i], decisions[i], choices[i],
        Held(verdicts, i), verdicts[i], invoked[i], pauses[i], raised && i == |verdicts| - 1))
  }

  lemma RoundBegins(l: BranchLedger<Value>, a: Attempt, rules: Rules, calls: seq<Call>, decisions: seq<Decision>, choices: seq<Choice>)
    requires |calls| == |decisions| == |choices|
    ensures RoundLedger(l, a, calls, [], choices, 0) == l && !Held([], 0)
    ensures forall raised :: RoundRuns(l, a, rules, calls, decisions, choices, [], [], [], raised)
  {
  }

  lemma RoundMore(
      l: BranchLedger<Value>, a: Attempt, rules: Rules, calls: seq<Call>, decisions: seq<Decision>, choices: seq<Choice>,
      verdicts: seq<Verdict>, invoked: seq<bool>, pauses: seq<Pause>, verdict: Verdict, ran: bool, pause: Pause, raised: bool)
    requires |verdicts| < |calls| == |decisions| == |choices|
    requires RoundRuns(l, a, rules, calls, decisions, choices, verdicts, invoked, pauses, false)
    requires var n := |verdicts|;
      CallIs(RoundLedger(l, a, calls, verdicts, choices, n), a, rules, calls[n], decisions[n], choices[n],
        Held(verdicts, n), verdict, ran, pause, raised)
    ensures RoundRuns(l, a, rules, calls, decisions, choices, verdicts + [verdict], invoked + [ran], pauses + [pause], raised)
    ensures Held(verdicts + [verdict], |verdicts| + 1) <==> Held(verdicts, |verdicts|) || verdict.Park?
  {
    hide RoundLedger, CallIs;
    var n, more := |verdicts|, verdicts + [verdict];
    forall i | 0 <= i <= n
      ensures RoundLedger(l, a, calls, more, choices, i) == RoundLedger(l, a, calls, verdicts, choices, i)
      ensures Held(more, i) == Held(verdicts, i)
    {
      RoundLedgerPrefix(l, a, calls, verdicts, more, choices, i);
    }
    assert more[n] == verdict;
  }

  /**
  What a round did, by the ledger it began with: each call met its verdict, a handler was invoked only for
  a call that may go and was not on record, and for each of those unless the round broke off at it. A call
  whose tool reported that nothing happened does not end the round.
  */
  ghost predicate RoundIs(
      l: BranchLedger<Value>, rules: Rules, calls: seq<Call>, decisions: seq<Decision>, choices: seq<Choice>,
      verdicts: seq<Verdict>, invoked: seq<bool>, pauses: seq<Pause>, raised: bool)
    requires |calls| == |decisions| == |choices|
  {
    && |invoked| == |pauses| == |verdicts| <= |calls|
    && (forall i :: 0 <= i < |verdicts| ==> pauses[i] == PauseOf(verdicts[i], invoked[i], choices[i].outcome))
    && (forall i :: 0 <= i < |verdicts| ==> Decided(l, rules, calls, decisions, i, verdicts[i]))
    && (forall i :: 0 <= i < |verdicts| && invoked[i] ==> verdicts[i].Go? && !IsDone(l, StepKey(calls[i].id)))
    && (forall i :: 0 <= i < |verdicts| && verdicts[i].Go? && (i < |verdicts| - 1 || !raised) ==>
      (invoked[i] <==> !IsDone(l, StepKey(calls[i].id))))
  }

  /** The entries a round adds to `calls_made`: one for each call with a verdict, refused or not. */
  function MadeIn(calls: seq<Call>, verdicts: seq<Verdict>): seq<Made>
    requires |verdicts| <= |calls|
  {
    if verdicts == [] then []
    else
      var n := |verdicts| - 1;
      MadeIn(calls, verdicts[..n]) + (if verdicts[n].Unroutable? then [] else [Made(calls[n].id, !verdicts[n].Go?)])
  }

  function IdsOf(calls: seq<Call>): seq<string> {
    seq(|calls|, i requires 0 <= i < |calls| => calls[i].id)
  }

  /**
  The stateful loop meets the specification: with distinct call ids, what each call finds is what the
  round began with, and the suspended flag says that the gate suspended an earlier call.
  */
  lemma RoundMeetsSpec(
      l: BranchLedger<Value>, a: Attempt, turn: nat, rules: Rules, calls: seq<Call>, decisions: seq<Decision>,
      choices: seq<Choice>, verdicts: seq<Verdict>, invoked: seq<bool>, pauses: seq<Pause>, raised: bool)
    requires |calls| == |decisions| == |choices| && DistinctCalls(calls)
    requires RoundRuns(RoundBegun(l, a.token, IdsOf(calls), turn).0, a, rules, calls, decisions, choices, verdicts, invoked, pauses, raised)
    ensures RoundIs(l, rules, calls, decisions, choices, verdicts, invoked, pauses, raised)
  {
    hide RoundLedger, StepKey, RoundBegun, VerdictOn, PauseOf, Behind, Held, Bypasses;
    var begun := RoundBegun(l, a.token, IdsOf(calls), turn).0;
    forall i | 0 <= i < |verdicts|
      ensures Read(RoundLedger(begun, a, calls, verdicts, choices, i), StepKey(calls[i].id)) == Read(l, StepKey(calls[i].id))
    {
      OwnKeysApart(calls, i);
      RoundTouches(begun, a, calls, verdicts, choices, i, StepKey(calls[i].id));
      StepIsProtocol(calls[i].id);
      BeginningTouches(l, a.token, IdsOf(calls), turn, StepKey(calls[i].id));
    }
    HeldIsBehind(l, begun, a, rules, calls, decisions, choices, verdicts, invoked, pauses, raised);
    forall i | 0 <= i < |verdicts|
      ensures CallShows(l, rules, calls[i], decisions[i], choices[i].outcome, Behind(l, rules, calls, decisions, i),
        verdicts[i], invoked[i], pauses[i], raised && i == |verdicts| - 1)
    {
      ShowsItself(RoundLedger(begun, a, calls, verdicts, choices, i), a, rules, calls[i], decisions[i], choices[i],
        Held(verdicts, i), verdicts[i], invoked[i], pauses[i], raised && i == |verdicts| - 1);
      SameRecordSameCall(RoundLedger(begun, a, calls, verdicts, choices, i), l, rules, calls[i], decisions[i],
        choices[i].outcome, Held(verdicts, i), verdicts[i], invoked[i], pauses[i], raised && i == |verdicts| - 1);
    }
  }

  lemma ShowsItself(
      m: BranchLedger<Value>, a: Attempt, rules: Rules, call: Call, decision: Decision, choice: Choice, held: bool,
      verdict: Verdict, ran: bool, pause: Pause, broken: bool)
    requires CallIs(m, a, rules, call, decision, choice, held, verdict, ran, pause, broken)
    ensures CallShows(m, rules, call, decision, choice.outcome, held, verdict, ran, pause, broken)
  {
    hide Alone, StepKey, VerdictOn;
    InvokedUnlessRecorded(m, a, ToolCall(call.id), choice);
    assert KeyOf(ToolCall(call.id)) == StepKey(call.id);
  }

  lemma SameRecordSameCall(
      m: BranchLedger<Value>, l: BranchLedger<Value>, rules: Rules, call: Call, decision: Decision, outcome: HandlerOutcome,
      held: bool, verdict: Verdict, ran: bool, pause: Pause, broken: bool)
    requires CallShows(m, rules, call, decision, outcome, held, verdict, ran, pause, broken)
    requires Read(m, StepKey(call.id)) == Read(l, StepKey(call.id))
    ensures CallShows(l, rules, call, decision, outcome, held, verdict, ran, pause, broken)
  {
    hide StepKey, PauseOf;
  }

  lemma StepIsProtocol(id: string)
    ensures IsProtocolKey(StepKey(id))
  {
  }

  lemma HeldIsBehind(
      l: BranchLedger<Value>, begun: BranchLedger<Value>, a: Attempt, rules: Rules, calls: seq<Call>,
      decisions: seq<Decision>, choices: seq<Choice>, verdicts: seq<Verdict>, invoked: seq<bool>, pauses: seq<Pause>, raised: bool)
    requires |calls| == |decisions| == |choices|
    requires RoundRuns(begun, a, rules, calls, decisions, choices, verdicts, invoked, pauses, raised)
    requires forall i :: 0 <= i < |verdicts| ==>
      Read(RoundLedger(begun, a, calls, verdicts, choices, i), StepKey(calls[i].id)) == Read(l, StepKey(calls[i].id))
    ensures forall i :: 0 <= i < |verdicts| ==> (Held(verdicts, i) <==> Behind(l, rules, calls, decisions, i))
  {
    hide RoundLedger, StepKey, Alone;
    forall i | 0 <= i < |verdicts| - 1
      ensures verdicts[i].Park? <==> Suspends(l, rules, calls[i], decisions[i])
    {
      assert CallIs(RoundLedger(begun, a, calls, verdicts, choices, i), a, rules, calls[i], decisions[i], choices[i],
        Held(verdicts, i), verdicts[i], invoked[i], pauses[i], false);
    }
  }

  lemma StepKeysApart(other: string, id: string)
    requires other != id
    ensures StepKey(id) != KeyOf(ToolCall(other)) && StepKey(id) != MarkerOf(ToolCall(other))
  {
    KeysApart(ToolCall(other), ToolCall(id), other, "");
    assert KeyOf(ToolCall(id)) == StepKey(id) && MarkerOf(ToolCall(other)) == AfterKey(other);
  }

  class Effects {
    const store: MemorySteps<Value>
    const branch: string
    const attempt: Attempt
    const rules: Rules
    var suspendedThisRound: bool
    var callsMade: seq<Made>

    constructor (store: MemorySteps<Value>, branch: string, attempt: Attempt, rules: Rules)
      ensures this.store == store && this.branch == branch && this.attempt == attempt && this.rules == rules
      ensures !suspendedThisRound && callsMade == []
    {
      this.store, this.branch, this.attempt, this.rules := store, branch, attempt, rules;
      suspendedThisRound, callsMade := false, [];
    }

    ghost function Ledger(): BranchLedger<Value>
      requires store.Valid()
      reads store
    {
      store.View(branch)
    }

    /** The store moved from `before` as the frame at `pc`, which ends with `result`, says. */
    ghost predicate EndsAs(before: Tables<Value>, l: BranchLedger<Value>, task: Task, pc: Pc, choice: Choice, result: Result, invoked: bool)
      reads store
    {
      && Moved(before, store.Now(), branch, Alone(l, attempt, task, pc, choice).0)
      && Alone(l, attempt, task, pc, choice).1 == result
      && Alone(l, attempt, task, pc, choice).2 == invoked
    }

    /** Ends as a frame that has its record and stands before the marker: no tool is invoked from here on. */
    method JournalOnce(id: string, record: Record, choice: Choice) returns (result: Result)
      requires store.Valid()
      modifies store
      ensures store.Valid()
      ensures EndsAs(old(store.Now()), old(Ledger()), ToolCall(id), JournalReading(record), choice, result, false)
    {
      hide Moved, GoodBranch, ViewOf, Alone, StepKey, AfterKey;
      ghost var l, task := Ledger(), ToolCall(id);
      StoodStill(store.Now(), branch);
      AloneStep(l, attempt, task, JournalReading(record), choice);
      var key := AfterKey(id);
      var journal := store.ReadStep(branch, key);
      if journal.Some? && journal.value.Done? {
        if !journal.value.value.Journaled? { return Raised(Malformed); }
        return Returned(journal.value.value.record);
      }
      if !attempt.hooked { return Returned(record); }
      AloneStep(l, attempt, task, Hooking(record), choice);
      if choice.hook.None? { return Raised(HookRaised); }
      var projection := Projected(record, choice.hook.value);
      AloneStep(l, attempt, task, JournalWriting(projection), choice);
      var reply := store.WriteControl(branch, key, Journaled(projection), attempt.token);
      if reply.Refused? { return Raised(FencedOut); }
      result := Returned(projection);
    }

    /** Run the handler and record what it did, or give the intent back when nothing happened. */
    method Execute(id: string, choice: Choice) returns (record: Option<Record>, signal: Signal)
      requires store.Valid()
      modifies store
      ensures store.Valid()
      ensures var task := ToolCall(id);
        var all := Alone(old(Ledger()), attempt, task, Handling(0), choice);
        var l := Ledger();
        && Moved(old(store.Now()), store.Now(), branch, l)
        && match record
          case None => all == (l, Raised(signal), true)
          case Some(r) =>
            var rest := Alone(l, attempt, task, JournalReading(r), choice);
            all == (rest.0, rest.1, true)
    {
      hide Moved, GoodBranch, ViewOf, Alone, StepKey, AfterKey;
      ghost var l, task := Ledger(), ToolCall(id);
      StoodStill(store.Now(), branch);
      AloneStep(l, attempt, task, Handling(0), choice);
      signal := Interrupted;
      var key := StepKey(id);
      match choice.outcome {
        case NothingHappened(_) =>
          AloneStep(l, attempt, task, Abandoning, choice);
          var reply := store.Forget(branch, key, attempt.token);
          MovedView(old(store.Now()), store.Now(), branch, Forgotten(l, key, attempt.token).0);
          return None, if reply.Refused? then FencedOut else Cleared;
        case Cancelled =>
          return None, Interrupted;
        case Yields(value) => record := Some(Succeeded(value));
        case Raises(error) => record := Some(Failed(error));
      }
      var value := Envelope(record.value);
      AloneStep(l, attempt, task, Finishing(value), choice);
      var reply := store.FinishEffect(branch, key, value, attempt.token);
      MovedView(old(store.Now()), store.Now(), branch, Finished(l, key, value, attempt.token).0);
      if reply.Refused? {
        return None, if reply.error.Fenced? then FencedOut else Conflicted;
      }
    }

    /** Ends as a tool frame that began by reading, when no other action comes between its store calls. */
    method WrapToolExecute(id: string, choice: Choice) returns (result: Result, invoked: bool)
      requires store.Valid()
      modifies store
      ensures store.Valid()
      ensures EndsAs(old(store.Now()), old(Ledger()), ToolCall(id), Reading, choice, result, invoked)
    {
      hide Moved, GoodBranch, ViewOf, Alone, StepKey, AfterKey, Advanced;
      ghost var t, l, task := store.Now(), Ledger(), ToolCall(id);
      StoodStill(t, branch);
      PassStarts(l, attempt, task, choice);
      invoked := false;
      var record: Record;
      var key := StepKey(id);
      var step := store.ReadStep(branch, key);
      if step == Some(Running) {
        if !attempt.retry { return Raised(Indeterminate), false; }
        var reply := store.Forget(branch, key, attempt.token);
        if reply.Refused? { return Raised(FencedOut), false; }
        step := None;
        MovedView(t, store.Now(), branch, Forgotten(l, key, attempt.token).0);
      }
      ghost var u, m := store.Now(), Ledger();
      if step.None? {
        var reply := store.Start(branch, key, attempt.token);
        MovedTwice(t, u, store.Now(), branch, m, Started(m, key, attempt.token).0);
        if reply.Refused? { return Raised(FencedOut), false; }
        if reply != Inserted(true) { return Raised(Indeterminate), false; }
        ghost var v, n := store.Now(), Started(m, key, attempt.token).0;
        MovedView(t, v, branch, n);
        invoked := true;
        var done, signal := Execute(id, choice);
        MovedTwice(t, v, store.Now(), branch, n, Ledger());
        if done.None? { return Raised(signal), true; }
        record := done.value;
      } else {
        if !step.value.value.Envelope? { return Raised(Malformed), false; }
        record := step.value.value.record;
      }
      ghost var x, k := store.Now(), Ledger();
      result := JournalOnce(id, record, choice);
      MovedTwice(t, x, store.Now(), branch, k, Alone(k, attempt, task, JournalReading(record), choice).0);
    }

    /** Ask the model and record its response; a request that raised gives the intent back. */
    method AskModel(digest: string, choice: Choice) returns (result: Result)
      requires store.Valid()
      modifies store
      ensures store.Valid()
      ensures EndsAs(old(store.Now()), old(Ledger()), ModelRequest(digest), Handling(0), choice, result, true)
    {
      hide Moved, GoodBranch, ViewOf, Alone, KeyOf;
      ghost var l, task := Ledger(), ModelRequest(digest);
      StoodStill(store.Now(), branch);
      AloneStep(l, attempt, task, Handling(0), choice);
      var key := KeyOf(ModelRequest(digest));
      match choice.outcome {
        case Cancelled =>
          return Raised(Interrupted);
        case Yields(body) =>
          AloneStep(l, attempt, task, Finishing(Response(body)), choice);
          var reply := store.FinishEffect(branch, key, Response(body), attempt.token);
          if reply.Refused? {
            return Raised(if reply.error.Fenced? then FencedOut else Conflicted);
          }
          return Answered(body);
        case _ =>
          AloneStep(l, attempt, task, Abandoning, choice);
          var reply := store.Forget(branch, key, attempt.token);
          return Raised(if reply.Refused? then FencedOut else Cleared);
      }
    }

    /** Ends as a frame of the request that began by reading; model requests have no marker. */
    method WrapModelRequest(digest: string, choice: Choice) returns (result: Result, invoked: bool)
      requires store.Valid()
      modifies store
      ensures store.Valid()
      ensures EndsAs(old(store.Now()), old(Ledger()), ModelRequest(digest), Reading, choice, result, invoked)
    {
      hide Moved, GoodBranch, ViewOf, Alone, KeyOf, Advanced;
      ghost var t, l, task := store.Now(), Ledger(), ModelRequest(digest);
      StoodStill(t, branch);
      PassStarts(l, attempt, task, choice);
      var key := KeyOf(ModelRequest(digest));
      var step := store.ReadStep(branch, key);
      if step.Some? && step.value.Done? {
        if !step.value.value.Response? { return Raised(Malformed), false; }
        return Answered(step.value.value.body), false;
      }
      if step.Some? {
        if !attempt.retry { return Raised(Indeterminate), false; }
        var reply := store.Forget(branch, key, attempt.token);
        if reply.Refused? { return Raised(FencedOut), false; }
        MovedView(t, store.Now(), branch, Forgotten(l, key, attempt.token).0);
      }
      ghost var u, m := store.Now(), Ledger();
      var reply := store.Start(branch, key, attempt.token);
      MovedTwice(t, u, store.Now(), branch, m, Started(m, key, attempt.token).0);
      if reply.Refused? { return Raised(FencedOut), false; }
      if reply != Inserted(true) { return Raised(Indeterminate), false; }
      ghost var v, n := store.Now(), Started(m, key, attempt.token).0;
      MovedView(t, v, branch, n);
      result := AskModel(digest, choice);
      invoked := true;
      MovedTwice(t, v, store.Now(), branch, n, Alone(n, attempt, task, Handling(0), choice).0);
    }

    // ── one round ──────────────────────────────────────────────────────────

    /** Ask the gate about one call: may it go, is it refused, or does it park first. */
    method BeforeToolExecute(call: Call, decision: Decision) returns (verdict: Verdict)
      requires store.Valid()
      modifies this
      ensures verdict == VerdictOn(old(Ledger()), rules, call, decision, old(suspendedThisRound))
      ensures suspendedThisRound == (old(suspendedThisRound) || verdict.Park?)
      ensures callsMade == if verdict == Unroutable then old(callsMade) else old(callsMade) + [Made(call.id, !verdict.Go?)]
    {
      hide GoodBranch, ViewOf, StepKey;
      var verdictOf := decision;
      var notExecuted := false;
      var recorded := false;
      if call.id !in rules.regate {
        var step := store.ReadStep(branch, StepKey(call.id));
        recorded := step.Some? && step.value.Done?;
      }
      if recorded {
        verdictOf := Continue;
      } else if !call.approved {
        if decision.Continue? && call.tool in rules.approvalTools {
          verdictOf := Suspend(call.id);
        }
        notExecuted := suspendedThisRound && !verdictOf.Suspend?;
      }
      if notExecuted {
        callsMade := callsMade + [Made(call.id, true)];
        return NotExecuted;
      }
      match verdictOf {
        case Deny(result) =>
          callsMade := callsMade + [Made(call.id, true)];
          verdict := Refuse(result);
        case Suspend(pending) =>
          if pending == "" { return Unroutable; }
          suspendedThisRound := true;
          callsMade := callsMade + [Made(call.id, true)];
          verdict := Park(pending);
        case Continue =>
          callsMade := callsMade + [Made(call.id, false)];
          verdict := Go;
      }
    }

    /** The ledger with this round on record, or the refusal of a stale token; a round without calls is not told of. */
    method RecordPending(ids: seq<string>, turn: nat) returns (reply: Reply)
      requires store.Valid()
      modifies store
      ensures store.Valid()
      ensures Moved(old(store.Now()), store.Now(), branch, RoundBegun(old(Ledger()), attempt.token, ids, turn).0)
      ensures reply == RoundBegun(old(Ledger()), attempt.token, ids, turn).1
    {
      hide Moved, GoodBranch, ViewOf;
      StoodStill(store.Now(), branch);
      if ids == [] { return Written; }
      reply := store.WriteControl(branch, PENDING_ROUND, PendingRound(ids, turn), attempt.token);
    }

    /**
    One call of a round: the gate, and then the tool if it may go. A tool that reported that nothing
    happened leaves the round going; any other signal ends it.
    */
    method RunCall(call: Call, decision: Decision, choice: Choice)
        returns (verdict: Verdict, invoked: bool, pause: Pause, raised: bool)
      requires store.Valid()
      modifies this, store
      ensures store.Valid()
      ensures CallIs(old(Ledger()), attempt, rules, call, decision, choice, old(suspendedThisRound), verdict, invoked, pause, raised)
      ensures suspendedThisRound == (old(suspendedThisRound) || verdict.Park?)
      ensures callsMade == if verdict == Unroutable then old(callsMade) else old(callsMade) + [Made(call.id, !verdict.Go?)]
      ensures Moved(old(store.Now()), store.Now(), branch, if verdict.Go?
        then Alone(old(Ledger()), attempt, ToolCall(call.id), Reading, choice).0 else old(Ledger()))
    {
      hide Moved, GoodBranch, ViewOf, Alone, VerdictOn;
      StoodStill(store.Now(), branch);
      invoked := false;
      verdict := BeforeToolExecute(call, decision);
      raised := verdict.Unroutable?;
      if verdict.Go? {
        var result;
        result, invoked := WrapToolExecute(call.id, choice);
        raised := !result.Returned? && result != Raised(Cleared);
      }
      pause := PauseOf(verdict, invoked, choice.outcome);
    }

    /**
    One sequential round: its calls are recorded, then each is gated and run. `decisions` are what the
    policy says of each call, `choices` what its tool does; a signal that is not about its own call, or a
    suspension nobody could answer, ends the round there.
    */
    method RunRound(turn: nat, calls: seq<Call>, decisions: seq<Decision>, choices: seq<Choice>)
        returns (verdicts: seq<Verdict>, invoked: seq<bool>, pauses: seq<Pause>, raised: bool)
      requires store.Valid() && |calls| == |decisions| == |choices|
      modifies this, store
      ensures store.Valid()
      ensures |verdicts| <= |calls| && (!raised ==> |verdicts| == |calls|)
      ensures calls != [] && Stale(old(Ledger()), attempt.token) ==> verdicts == []
      ensures verdicts == [] ==> (raised <==> calls != [] && Stale(old(Ledger()), attempt.token))
      ensures suspendedThisRound == Held(verdicts, |verdicts|) && callsMade == old(callsMade) + MadeIn(calls, verdicts)
      ensures var begun := RoundBegun(old(Ledger()), attempt.token, IdsOf(calls), turn).0;
        && RoundRuns(begun, attempt, rules, calls, decisions, choices, verdicts, invoked, pauses, raised)
        && Moved(old(store.Now()), store.Now(), branch, RoundLedger(begun, attempt, calls, verdicts, choices, |verdicts|))
    {
      hide Moved, GoodBranch, ViewOf, Alone, StepKey, RoundRuns, CallIs, Held, RoundLedger, Bypasses;
      ghost var t := store.Now();
      suspendedThisRound := false;
      var reply := RecordPending(IdsOf(calls), turn);
      ghost var l := RoundBegun(old(Ledger()), attempt.token, IdsOf(calls), turn).0;
      verdicts, invoked, pauses, raised := [], [], [], reply.Refused?;
      RoundBegins(l, attempt, rules, calls, decisions, choices);
      if raised { return; }
      var n := 0;
      while n < |calls|
        invariant 0 <= n <= |calls| && store.Valid()
        invariant |verdicts| == |invoked| == |pauses| == n && !raised
        invariant RoundRuns(l, attempt, rules, calls, decisions, choices, verdicts, invoked, pauses, false)
        invariant suspendedThisRound == Held(verdicts, n) && callsMade == old(callsMade) + MadeIn(calls, verdicts)
        invariant Moved(t, store.Now(), branch, RoundLedger(l, attempt, calls, verdicts, choices, n))
      {
        ghost var u, m := store.Now(), RoundLedger(l, attempt, calls, verdicts, choices, n);
        MovedView(t, u, branch, m);
        var verdict, ran, pause;
        verdict, ran, pause, raised := RunCall(calls[n], decisions[n], choices[n]);
        RoundLedgerSnoc(l, attempt, calls, verdicts, choices, verdict);
        MovedTwice(t, u, store.Now(), branch, m,
          RoundLedger(l, attempt, calls, verdicts + [verdict], choices, n + 1));
        RoundMore(l, attempt, rules, calls, decisions, choices, verdicts, invoked, pauses, verdict, ran, pause, raised);
        assert (verdicts + [verdict])[..n] == verdicts;
        verdicts, invoked, pauses := verdicts + [verdict], invoked + [ran], pauses + [pause];
        n := n + 1;
        if raised { return; }
      }
    }
  }

  // ── what the verdicts mean ───────────────────────────────────────────────

  /** A tool that may go behind a suspension is on record, or a person approved it. */
  lemma NothingRunsBehind(l: BranchLedger<Value>, rules: Rules, calls: seq<Call>, decisions: seq<Decision>, i: nat, j: nat)
    requires j < i < |calls| == |decisions| && !calls[i].approved
    requires Suspends(l, rules, calls[j], decisions[j])
    requires Decided(l, rules, calls, decisions, i, Go)
    ensures IsDone(l, StepKey(calls[i].id)) && calls[i].id !in rules.regate
  {
  }

  /** A call neither on record nor approved: when it goes, when it parks, when it is put off. */
  lemma RoundOrder(l: BranchLedger<Value>, rules: Rules, calls: seq<Call>, decisions: seq<Decision>, i: nat, verdict: Verdict)
    requires i < |calls| == |decisions| && !calls[i].approved
    requires calls[i].id !in rules.regate && !IsDone(l, StepKey(calls[i].id))
    requires Decided(l, rules, calls, decisions, i, verdict)
    ensures var wantsApproval := calls[i].tool in rules.approvalTools;
      && (verdict.Go? <==> decisions[i].Continue? && !wantsApproval && !Behind(l, rules, calls, decisions, i))
      && (verdict.Park? || verdict.Unroutable? <==> decisions[i].Suspend? || (decisions[i].Continue? && wantsApproval))
      && (verdict.NotExecuted? ==> Behind(l, rules, calls, decisions, i))
  {
  }

  /**
  Only the gate holds up a round: a tool that asked for approval itself, deferred, or wants to be called
  again does not keep the calls behind it from running.
  */
  lemma OnlyGateHolds(
      l: BranchLedger<Value>, rules: Rules, calls: seq<Call>, decisions: seq<Decision>, choices: seq<Choice>,
      verdicts: seq<Verdict>, invoked: seq<bool>, pauses: seq<Pause>, i: nat)
    requires |calls| == |decisions| == |choices|
    requires RoundIs(l, rules, calls, decisions, choices, verdicts, invoked, pauses, false)
    requires i < |verdicts| && !calls[i].approved && calls[i].tool !in rules.approvalTools
    requires !IsDone(l, StepKey(calls[i].id)) && decisions[i].Continue?
    ensures invoked[i] <==> forall j :: 0 <= j < i ==> !verdicts[j].Park? && !verdicts[j].Unroutable?
  {
    hide StepKey;
    forall j | 0 <= j < i
      ensures verdicts[j].Park? || verdicts[j].Unroutable? <==> Suspends(l, rules, calls[j], decisions[j])
    {
      assert Decided(l, rules, calls, decisions, j, verdicts[j]);
    }
    assert Decided(l, rules, calls, decisions, i, verdicts[i]);
  }
}
