/**
What a round comes to, told by the ledger it begins with: the verdict on each call, when the round ends early and
at which call, and that it otherwise meets every call.
*/
module Rounds {
  import opened Ledger
  import opened Attempts
  import opened EffectsBoundary
  import opened Passes

  // ── verdicts ─────────────────────────────────────────────────────────────

  /**
  What the gate's verdict is, case by case. A record passes, unless it is to be gated again. A call a person
  approved is judged by what the policy says now, wherever it stands in the round. Any other call is put off
  behind a suspension, unless it suspends itself, under the request that the policy or its own id names.
  */
  lemma VerdictIs(l: BranchLedger<Value>, rules: Rules, call: Call, decision: Decision, behind: bool)
    ensures var verdict := VerdictOn(l, rules, call, decision, behind);
      var recorded := IsDone(l, StepKey(call.id)) && call.id !in rules.regate;
      var gated := !recorded && !call.approved;
      && (recorded ==> verdict == Go)
      && (!recorded && call.approved ==>
        && (decision.Continue? ==> verdict == Go)
        && (decision.Deny? ==> verdict == Refuse(decision.result))
        && (decision.Suspend? ==> verdict == if decision.pending == "" then Unroutable else Park(decision.pending)))
      && (gated && decision.Suspend? ==> verdict == if decision.pending == "" then Unroutable else Park(decision.pending))
      && (gated && decision.Continue? && call.tool in rules.approvalTools ==>
        verdict == if call.id == "" then Unroutable else Park(call.id))
      && (gated && decision.Deny? ==> verdict == if behind then NotExecuted else Refuse(decision.result))
      && (gated && decision.Continue? && call.tool !in rules.approvalTools ==>
        verdict == if behind then NotExecuted else Go)
  {
  }

  /** What a call leaves to wait for: the gate's request, or the one its own tool made when it ran. */
  lemma PauseIs(verdict: Verdict, ran: bool, outcome: HandlerOutcome)
    requires ran ==> verdict.Go?
    ensures var pause := PauseOf(verdict, ran, outcome);
      && (verdict.Park? ==> pause == Asks(Some(verdict.pending)))
      && (pause == Waits <==> ran && outcome == NothingHappened(Defers))
      && (forall pending :: !verdict.Park? ==> (pause == Asks(pending) <==> ran && outcome == NothingHappened(WantsApproval(pending))))
  {
  }

  // ── when a round ends early ──────────────────────────────────────────────

  /** The hook or the marker does not let the result through. */
  predicate JournalBreaks(l: BranchLedger<Value>, a: Attempt, id: string, choice: Choice) {
    var marker := Read(l, AfterKey(id));
    if IsDone(l, AfterKey(id)) then !marker.value.value.Journaled?
    else a.hooked && (choice.hook.None? || Stale(l, a.token))
  }

  /** The record is in doubt or not an envelope, the token is stale, the tool is cancelled, or its journal breaks. */
  predicate PassBreaks(l: BranchLedger<Value>, a: Attempt, id: string, choice: Choice) {
    var step := Read(l, StepKey(id));
    if IsDone(l, StepKey(id)) then !step.value.value.Envelope? || JournalBreaks(l, a, id, choice)
    else
      || (step.Some? && !a.retry) || Stale(l, a.token) || choice.outcome.Cancelled?
      || (!choice.outcome.NothingHappened? && JournalBreaks(l, a, id, choice))
  }

  lemma PassBreaksExactly(l: BranchLedger<Value>, a: Attempt, id: string, choice: Choice)
    ensures Breaks(Alone(l, a, ToolCall(id), Reading, choice).1) <==> PassBreaks(l, a, id, choice)
  {
    hide StepKey, AfterKey, Alone;
    var task := ToolCall(id);
    assert KeyOf(task) == StepKey(id);
    KeysApart(task, task, id, "");
    IdlePass(l, a, task, choice);
    if IsDone(l, StepKey(id)) {
      if l.steps[StepKey(id)].value.Envelope? {
        JournalPass(l, a, id, l.steps[StepKey(id)].value.record, choice);
      }
    } else if MayRun(l, a, task) {
      var begun := l.(steps := l.steps[StepKey(id) := Running]);
      RunningPass(l, a, task, choice);
      HandledPass(begun, a, task, choice);
      if choice.outcome.Yields? || choice.outcome.Raises? {
        var record := if choice.outcome.Yields? then Succeeded(choice.outcome.value) else Failed(choice.outcome.error);
        JournalPass(begun.(steps := begun.steps[StepKey(id) := Done(Envelope(record))]), a, id, record, choice);
      }
    }
  }

  /** Call `i` ends the round, by the ledger the round begins with. */
  predicate EndsRound(
      l: BranchLedger<Value>, a: Attempt, rules: Rules, calls: seq<Call>, decisions: seq<Decision>, choices: seq<Choice>, i: nat)
    requires i < |calls| == |decisions| == |choices|
  {
    var verdict := VerdictOn(l, rules, calls[i], decisions[i], Behind(l, rules, calls, decisions, i));
    verdict.Unroutable? || (verdict.Go? && PassBreaks(l, a, calls[i].id, choices[i]))
  }

  lemma SameRecordsSameBreak(m: BranchLedger<Value>, l: BranchLedger<Value>, a: Attempt, id: string, choice: Choice)
    requires Read(m, StepKey(id)) == Read(l, StepKey(id)) && Read(m, AfterKey(id)) == Read(l, AfterKey(id)) && m.issued == l.issued
    ensures PassBreaks(m, a, id, choice) <==> PassBreaks(l, a, id, choice)
  {
    hide StepKey, AfterKey;
  }

  /** Each call met ends the round exactly if its own records, verdict and outcome say so. */
  lemma CallEndsExactly(
      l: BranchLedger<Value>, a: Attempt, turn: nat, rules: Rules, calls: seq<Call>, decisions: seq<Decision>,
      choices: seq<Choice>, verdicts: seq<Verdict>, invoked: seq<bool>, pauses: seq<Pause>, raised: bool, i: nat)
    requires |calls| == |decisions| == |choices| && DistinctCalls(calls)
    requires RoundRuns(RoundBegun(l, a.token, IdsOf(calls), turn).0, a, rules, calls, decisions, choices, verdicts, invoked, pauses, raised)
    requires i < |verdicts|
    ensures EndsRound(l, a, rules, calls, decisions, choices, i) <==> raised && i == |verdicts| - 1
  {
    hide RoundLedger, StepKey, AfterKey, RoundBegun, VerdictOn, PauseOf, Behind, Held, Bypasses, Alone, PassBreaks, Breaks, IsProtocolKey, RoundIs;
    var begun := RoundBegun(l, a.token, IdsOf(calls), turn).0;
    var m, id := RoundLedger(begun, a, calls, verdicts, choices, i), calls[i].id;
    OwnKeysApart(calls, i);
    RoundTouches(begun, a, calls, verdicts, choices, i, StepKey(id));
    RoundTouches(begun, a, calls, verdicts, choices, i, AfterKey(id));
    StepIsProtocol(id);
    KeysApart(ToolCall(id), ToolCall(id), id, id);
    BeginningTouches(l, a.token, IdsOf(calls), turn, StepKey(id));
    BeginningTouches(l, a.token, IdsOf(calls), turn, AfterKey(id));
    BegunIssued(l, a.token, IdsOf(calls), turn);
    SameRecordsSameBreak(m, l, a, id, choices[i]);
    PassBreaksExactly(m, a, id, choices[i]);
    RoundMeetsSpec(l, a, turn, rules, calls, decisions, choices, verdicts, invoked, pauses, raised);
    MetVerdict(l, rules, calls, decisions, choices, verdicts, invoked, pauses, raised, i);
  }

  lemma BegunIssued(l: BranchLedger<Value>, token: nat, ids: seq<string>, turn: nat)
    ensures RoundBegun(l, token, ids, turn).0.issued == l.issued
  {
  }

  lemma MetVerdict(
      l: BranchLedger<Value>, rules: Rules, calls: seq<Call>, decisions: seq<Decision>, choices: seq<Choice>,
      verdicts: seq<Verdict>, invoked: seq<bool>, pauses: seq<Pause>, raised: bool, i: nat)
    requires |calls| == |decisions| == |choices| && RoundIs(l, rules, calls, decisions, choices, verdicts, invoked, pauses, raised)
    requires i < |verdicts|
    ensures verdicts[i] == VerdictOn(l, rules, calls[i], decisions[i], Behind(l, rules, calls, decisions, i))
  {
    hide VerdictOn, Behind, StepKey, PauseOf;
    assert Decided(l, rules, calls, decisions, i, verdicts[i]);
  }

  /**
  A round under a live token ends early exactly if one of its calls ends it, and then at the first such call;
  otherwise it meets every call. The last two hypotheses are what the loop of a round promises of its lengths.
  */
  lemma RoundEndsExactly(
      l: BranchLedger<Value>, a: Attempt, turn: nat, rules: Rules, calls: seq<Call>, decisions: seq<Decision>,
      choices: seq<Choice>, verdicts: seq<Verdict>, invoked: seq<bool>, pauses: seq<Pause>, raised: bool)
    requires |calls| == |decisions| == |choices| && DistinctCalls(calls) && !Stale(l, a.token)
    requires RoundRuns(RoundBegun(l, a.token, IdsOf(calls), turn).0, a, rules, calls, decisions, choices, verdicts, invoked, pauses, raised)
    requires !raised ==> |verdicts| == |calls|
    requires verdicts == [] ==> (raised <==> calls != [] && Stale(l, a.token))
    ensures raised <==> exists i :: 0 <= i < |calls| && EndsRound(l, a, rules, calls, decisions, choices, i)
    ensures raised ==>
      && verdicts != [] && EndsRound(l, a, rules, calls, decisions, choices, |verdicts| - 1)
      && forall i :: 0 <= i < |verdicts| - 1 ==> !EndsRound(l, a, rules, calls, decisions, choices, i)
    ensures !raised ==> |verdicts| == |calls|
  {
    hide RoundRuns, EndsRound, RoundBegun;
    RunsMeans(RoundBegun(l, a.token, IdsOf(calls), turn).0, a, rules, calls, decisions, choices, verdicts, invoked, pauses, raised);
    forall i | 0 <= i < |verdicts|
      ensures EndsRound(l, a, rules, calls, decisions, choices, i) <==> raised && i == |verdicts| - 1
    {
      CallEndsExactly(l, a, turn, rules, calls, decisions, choices, verdicts, invoked, pauses, raised, i);
    }
    assert raised ==> EndsRound(l, a, rules, calls, decisions, choices, |verdicts| - 1);
  }

  lemma RunsMeans(
      l: BranchLedger<Value>, a: Attempt, rules: Rules, calls: seq<Call>, decisions: seq<Decision>, choices: seq<Choice>,
      verdicts: seq<Verdict>, invoked: seq<bool>, pauses: seq<Pause>, raised: bool)
    requires |calls| == |decisions| == |choices|
    requires RoundRuns(l, a, rules, calls, decisions, choices, verdicts, invoked, pauses, raised)
    ensures |verdicts| <= |calls|
  {
  }

  /** An ordinary round, with nothing on record and no request that nobody could answer, meets every call. */
  lemma OrdinaryRoundIsWhole(
      l: BranchLedger<Value>, a: Attempt, turn: nat, rules: Rules, calls: seq<Call>, decisions: seq<Decision>,
      choices: seq<Choice>, verdicts: seq<Verdict>, invoked: seq<bool>, pauses: seq<Pause>, raised: bool)
    requires |calls| == |decisions| == |choices| && DistinctCalls(calls) && !Stale(l, a.token)
    requires RoundRuns(RoundBegun(l, a.token, IdsOf(calls), turn).0, a, rules, calls, decisions, choices, verdicts, invoked, pauses, raised)
    requires !raised ==> |verdicts| == |calls|
    requires verdicts == [] ==> (raised <==> calls != [] && Stale(l, a.token))
    requires forall i :: 0 <= i < |calls| ==>
      && calls[i].id != "" && StepKey(calls[i].id) !in l.steps && AfterKey(calls[i].id) !in l.steps
      && (decisions[i].Suspend? ==> decisions[i].pending != "")
      && !choices[i].outcome.Cancelled? && choices[i].hook.Some?
    ensures !raised && |verdicts| == |calls|
  {
    hide RoundRuns, StepKey, AfterKey, RoundBegun, Behind;
    RoundEndsExactly(l, a, turn, rules, calls, decisions, choices, verdicts, invoked, pauses, raised);
    forall i | 0 <= i < |calls|
      ensures !EndsRound(l, a, rules, calls, decisions, choices, i)
    {
      VerdictIs(l, rules, calls[i], decisions[i], Behind(l, rules, calls, decisions, i));
    }
  }
}
