/**
What one undisturbed `resume` or `recover` comes to, told by the park it finds, the answers there are, and how the
attempt ends that it drives.
*/
module WorkerPasses {
  import opened Ledger
  import opened Suspension
  import opened AgentRuntime
  import AnswersKept
  import Selections

  lemma {:induction false} UndecidedInOrder(calls: seq<ParkedCall>, answers: map<string, Answer>) returns (at: seq<nat>)
    ensures Selections.InOrder(Undecided(calls, answers), calls, at)
    ensures forall i :: 0 <= i < |calls| ==> (i in at <==> calls[i].id !in answers)
  {
    at := [];
    if calls != [] {
      hide Selections.InOrder, Undecided;
      var n := |calls| - 1;
      at := UndecidedInOrder(calls[..n], answers);
      UndecidedLast(calls, answers);
      Selections.OneMore(Undecided(calls[..n], answers), calls, at);
      forall i | 0 <= i < n
        ensures i in at <==> calls[i].id !in answers
      {
        assert calls[..n][i] == calls[i];
      }
      if calls[n].id !in answers {
        at := at + [n];
      }
    }
  }

  lemma UndecidedLast(calls: seq<ParkedCall>, answers: map<string, Answer>)
    requires calls != []
    ensures var n := |calls| - 1;
      Undecided(calls, answers)
        == if calls[n].id in answers then Undecided(calls[..n], answers) else Undecided(calls[..n], answers) + [calls[n]]
  {
  }

  /** The requests nobody answered, in the order of the round. */
  ghost predicate Announces(end: End, park: Park, answers: map<string, Answer>) {
    && end.StillSuspended?
    && exists at ::
      && Selections.InOrder(end.undecided, park.calls, at)
      && forall i :: 0 <= i < |park.calls| ==> (i in at <==> park.calls[i].id !in answers)
  }

  predicate AllAnswered(park: Park, answers: map<string, Answer>) {
    forall i :: 0 <= i < |park.calls| ==> park.calls[i].id in answers
  }

  /** The continuation and nothing else of the ledger. */
  function WithActive(l: BranchLedger<Control>, control: Control): BranchLedger<Control> {
    l.(steps := l.steps[ACTIVE := Done(control)])
  }

  /** The round parked anew: under its own requests, unanswered, and indexed; other keys are as they were. */
  ghost predicate ParksAnew(
      l: BranchLedger<Control>, m: BranchLedger<Control>, number: nat, approvals: seq<string>, requests: map<string, string>, end: End)
  {
    && end.Reparked? && |end.undecided| == |approvals| != 0
    && (forall i :: 0 <= i < |approvals| ==>
      approvals[i] in requests && end.undecided[i] == ParkedCall(approvals[i], requests[approvals[i]]))
    && Active(m) == Some(Park(number, end.undecided, map[], false))
    && AnswersKept.Indexed(m, Park(number, end.undecided, map[], false))
    && (forall key :: !IsSuspensionKey(key) ==> Read(m, key) == Read(l, key))
    && m.queue == l.queue && m.issued == l.issued && m.lease == l.lease
  }

  /** A driven attempt: it finished, it failed, or it parked; `marked` is what is finalized by it. */
  ghost predicate Drives(
      l: BranchLedger<Control>, m: BranchLedger<Control>, number: nat, origin: Option<Park>, drive: Drive, end: End)
  {
    match drive
    case Returns => end == Finished && m == if origin.Some? then WithActive(l, Completed) else l
    case Fails => end == Failed && m == l
    case Parks(deferred, approvals, requests, hookRaises) =>
      if Parkable(deferred, approvals, requests) && !hookRaises then ParksAnew(l, m, number, approvals, requests, end)
      else end == Failed && m == l
  }

  lemma DrivenPass(l: BranchLedger<Control>, number: nat, token: nat, origin: Option<Park>, drive: Drive)
    requires !Stale(l, token)
    ensures var (m, end) := Alone(l, number, token, Driving(origin), drive); Drives(l, m, number, origin, drive, end)
  {
    hide Alone, Transitioned, ParkWrites, SuspendKey, AnswersKept.Indexed, IsSuspensionKey, DistinctPendings;
    AloneStep(l, number, token, Driving(origin), drive);
    match drive
    case Returns =>
      if origin.Some? {
        AloneStep(l, number, token, Completing(origin.value), drive);
      }
    case Fails =>
    case Parks(deferred, approvals, requests, hookRaises) =>
      if Parkable(deferred, approvals, requests) && !hookRaises {
        var park := Park(number, Requested(approvals, requests), map[], false);
        AnswersKept.ParkLands(l, number, park, token);
        ParkTouches(l, park, token);
      }
  }

  lemma ParkTouches(l: BranchLedger<Control>, park: Park, token: nat)
    requires park.calls != [] && !Stale(l, token)
    ensures var m := Transitioned(l, Transition([], ParkWrites(park), []), token).0;
      && (forall key :: !IsSuspensionKey(key) ==> Read(m, key) == Read(l, key))
      && m.queue == l.queue && m.issued == l.issued && m.lease == l.lease
  {
    forall key | key in ParkWrites(park)
      ensures IsSuspensionKey(key)
    {
      if key != ACTIVE {
        var id :| id in CallIds(park.calls) && key == SuspendKey(id);
        SuspendKeysApart(id, id);
      }
    }
  }

  /** With every answer in: the park is marked with them, the attempt is driven, and only its return completes it. */
  lemma FinalizingPass(l: BranchLedger<Control>, number: nat, token: nat, park: Park, answers: map<string, Answer>, drive: Drive)
    ensures var (m, end) := Alone(l, number, token, Marking(park, answers), drive);
      var marked := park.(answers := answers, resuming := true);
      if Stale(l, token) then m == l && end == FencedOut
      else Drives(WithActive(l, Continuation(marked)), m, number, Some(marked), drive, end)
  {
    hide Alone, Transitioned, Drives;
    AloneStep(l, number, token, Marking(park, answers), drive);
    var marked := park.(answers := answers, resuming := true);
    if !Stale(l, token) {
      DrivenPass(WithActive(l, Continuation(marked)), number, token, Some(marked), drive);
    }
  }

  /** Announce the rest, or finalize. */
  ghost predicate Proceeds(
      l: BranchLedger<Control>, m: BranchLedger<Control>, number: nat, token: nat, park: Park, answers: map<string, Answer>,
      drive: Drive, end: End)
  {
    var marked := park.(answers := answers, resuming := true);
    if !AllAnswered(park, answers) then m == l && Announces(end, park, answers)
    else if Stale(l, token) then m == l && end == FencedOut
    else Drives(WithActive(l, Continuation(marked)), m, number, Some(marked), drive, end)
  }

  lemma ProceedingPass(l: BranchLedger<Control>, number: nat, token: nat, park: Park, answers: map<string, Answer>, drive: Drive)
    ensures var (m, end) := Alone(l, number, token, Proceed(park, answers), drive);
      Proceeds(l, m, number, token, park, answers, drive, end)
  {
    hide Drives, Undecided, Stepped;
    var at := UndecidedInOrder(park.calls, answers);
    if Undecided(park.calls, answers) == [] {
      assert AllAnswered(park, answers);
      FinalizingPass(l, number, token, park, answers, drive);
    } else {
      assert park.calls[at[0]].id !in answers by { assert at[0] in at; }
      assert !AllAnswered(park, answers);
    }
  }

  /**
  An answer: to a request that nobody waits for it changes nothing. Otherwise it is recorded with the park, under
  the call of the request, and then the rest is announced or, if there is none, the park finalized.
  */
  lemma ResumingPass(l: BranchLedger<Control>, number: nat, token: nat, pending: string, answer: Answer, drive: Drive)
    ensures var (m, end) := Alone(l, number, token, Asking(pending, answer), drive);
      && (Active(l).None? ==> m == l && end == NoSuchPending)
      && (Active(l).Some? ==>
        var park := Active(l).value;
        && ((forall i :: 0 <= i < |park.calls| ==> park.calls[i].pending != pending) ==> m == l && end == NoSuchPending)
        && (forall i :: 0 <= i < |park.calls| && park.calls[i].pending == pending && DistinctPendings(park.calls) ==>
          Answers(l, m, number, token, park, park.answers[park.calls[i].id := answer], drive, end)))
  {
    hide Alone, Stepped, Proceeds, Undecided, CallFor, Proceed;
    if Active(l).Some? {
      var park := Active(l).value;
      AnswersKept.CallForIs(park.calls, pending);
      AsksPass(l, number, token, pending, answer, drive);
      if CallFor(park.calls, pending).Some? {
        var answers := park.answers[CallFor(park.calls, pending).value := answer];
        ProceedingPass(WithActive(l, Continuation(park.(answers := answers))), number, token, park, answers, drive);
      }
    } else {
      AsksPass(l, number, token, pending, answer, drive);
    }
  }

  ghost predicate Answers(
      l: BranchLedger<Control>, m: BranchLedger<Control>, number: nat, token: nat, park: Park, answers: map<string, Answer>,
      drive: Drive, end: End)
  {
    if Stale(l, token) then m == l && end == FencedOut
    else Proceeds(WithActive(l, Continuation(park.(answers := answers))), m, number, token, park, answers, drive, end)
  }

  lemma AsksPass(l: BranchLedger<Control>, number: nat, token: nat, pending: string, answer: Answer, drive: Drive)
    ensures var pass := Alone(l, number, token, Asking(pending, answer), drive);
      if Active(l).None? || CallFor(Active(l).value.calls, pending).None? then pass == (l, NoSuchPending)
      else if Stale(l, token) then pass == (l, FencedOut)
      else
        var park := Active(l).value;
        var answers := park.answers[CallFor(park.calls, pending).value := answer];
        pass == Alone(WithActive(l, Continuation(park.(answers := answers))), number, token, Proceed(park, answers), drive)
  {
    hide Alone, CallFor, Proceed, Transitioned;
    AloneStep(l, number, token, Asking(pending, answer), drive);
    if Active(l).Some? && CallFor(Active(l).value.calls, pending).Some? {
      var park := Active(l).value;
      AloneStep(l, number, token, Answering(park, park.answers[CallFor(park.calls, pending).value := answer]), drive);
    }
  }

  /** The calls recorded for the round at hand. */
  predicate RoundHas(l: BranchLedger<Control>, ids: seq<string>) {
    Read(l, Attempts.PENDING_ROUND) == Some(Done(Suspension.PendingRound(ids)))
  }

  /**
  A recovery: a live park comes before everything, whatever history is presented. Without one, a history that
  owes a call outside the recorded round is refused; any other is driven on.
  */
  lemma RecoveringPass(l: BranchLedger<Control>, number: nat, token: nat, unanswered: seq<string>, drive: Drive)
    ensures var (m, end) := Alone(l, number, token, Looking(unanswered), drive);
      && (Active(l).Some? ==> Proceeds(l, m, number, token, Active(l).value, Active(l).value.answers, drive, end))
      && (Active(l).None? ==>
        && (forall ids, id :: RoundHas(l, ids) && id in unanswered && id !in ids ==> m == l && end == Mismatched)
        && (forall ids :: RoundHas(l, ids) && (forall id :: id in unanswered ==> id in ids) && !Stale(l, token) ==>
          Drives(l, m, number, None, drive, end))
        && ((forall ids :: !RoundHas(l, ids)) && !Stale(l, token) ==> Drives(l, m, number, None, drive, end)))
  {
    hide Alone, Proceeds, Proceed, Drives, Transitioned;
    AloneStep(l, number, token, Looking(unanswered), drive);
    if Active(l).Some? {
      ProceedingPass(l, number, token, Active(l).value, Active(l).value.answers, drive);
    } else {
      AloneStep(l, number, token, Matching(unanswered), drive);
      if !Stale(l, token) {
        DrivenPass(l, number, token, None, drive);
      }
      assert RecordedRound(l).Some? ==> RoundHas(l, RecordedRound(l).value);
      assert FitsRound(RecordedRound(l), unanswered) <==> RecordedRound(l).Some? ==> forall id :: id in unanswered ==> id in RecordedRound(l).value;
    }
  }
}
