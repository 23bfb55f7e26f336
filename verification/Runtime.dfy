/**
`resume`, `recover` and `_park` of one worker, driving the store call by call. Left to itself each ends
where the worker of `Suspension` ends when nothing comes between its steps.
*/
module AgentRuntime {
  import opened Ledger
  import opened MemoryLedger
  import opened Suspension
  import Attempts
  import EffectsBoundary

  // ── a worker left to itself ──────────────────────────────────────────────

  function Rank(pc: Pc): nat {
    match pc
    case Asking(_, _) => 5
    case Looking(_) => 5
    case Matching(_) => 4
    case Answering(_, _) => 4
    case Marking(_, _) => 3
    case Driving(_) => 2
    case Completing(_) => 1
    case Ended(_) => 0
  }

  lemma SteppedFalls(l: BranchLedger<Control>, number: nat, token: nat, pc: Pc, drive: Drive)
    ensures !pc.Ended? ==> Rank(Stepped(l, number, token, pc, drive).1) < Rank(pc)
  {
    hide Transitioned, Undecided, CallFor, ParkWrites;
  }

  function Alone(l: BranchLedger<Control>, number: nat, token: nat, pc: Pc, drive: Drive): (BranchLedger<Control>, End)
    decreases Rank(pc)
  {
    if pc.Ended? then (l, pc.end)
    else
      SteppedFalls(l, number, token, pc, drive);
      var (m, next) := Stepped(l, number, token, pc, drive);
      Alone(m, number, token, next, drive)
  }

  lemma AloneStep(l: BranchLedger<Control>, number: nat, token: nat, pc: Pc, drive: Drive)
    requires !pc.Ended?
    ensures var (m, next) := Stepped(l, number, token, pc, drive);
      && Alone(l, number, token, pc, drive) == Alone(m, number, token, next, drive)
      && (next.Ended? ==> Alone(l, number, token, pc, drive) == (m, next.end))
  {
    hide Stepped;
  }

  class AgentRuntime {
    const store: MemorySteps<Control>
    const branch: string

    constructor (store: MemorySteps<Control>, branch: string)
      ensures this.store == store && this.branch == branch
    {
      this.store, this.branch := store, branch;
    }

    ghost function Ledger(): BranchLedger<Control>
      requires store.Valid()
      reads store
    {
      store.View(branch)
    }

    ghost predicate EndsAs(before: Tables<Control>, l: BranchLedger<Control>, number: nat, token: nat, pc: Pc, drive: Drive, end: End)
      reads store
    {
      && Moved(before, store.Now(), branch, Alone(l, number, token, pc, drive).0)
      && Alone(l, number, token, pc, drive).1 == end
    }

    method ActiveContinuation() returns (active: Option<Park>)
      requires store.Valid()
      ensures active == Active(Ledger())
    {
      var record := store.ReadStep(branch, ACTIVE);
      if record.None? || record.value.Running? || !record.value.value.Continuation? { return None; }
      active := Some(record.value.value.park);
    }

    /**
    Ends as a worker whose driven round parks. Calls deferred to the outside, a call without a request, and two
    requests under one pending id are refused before the hook, and then nothing is written.
    */
    method ParkRound(number: nat, token: nat, origin: Option<Park>, deferred: seq<string>, approvals: seq<string>,
        requests: map<string, string>, hookRaises: bool) returns (end: End)
      requires store.Valid()
      modifies store
      ensures store.Valid()
      ensures EndsAs(old(store.Now()), old(Ledger()), number, token, Driving(origin),
        Parks(deferred, approvals, requests, hookRaises), end)
    {
      hide Moved, GoodBranch, ViewOf, Alone, Transitioned, Undecided;
      AloneStep(Ledger(), number, token, Driving(origin), Parks(deferred, approvals, requests, hookRaises));
      StoodStill(store.Now(), branch);
      if deferred != [] { return Failed; }
      if exists i :: 0 <= i < |approvals| && approvals[i] !in requests { return Failed; }
      var calls := Requested(approvals, requests);
      var pendings: set<string> := {};
      var n := 0;
      while n < |calls|
        invariant 0 <= n <= |calls|
        invariant pendings == set i | 0 <= i < n :: calls[i].pending
        invariant DistinctPendings(calls[..n])
      {
        if calls[n].pending in pendings {
          ghost var i :| 0 <= i < n && calls[i].pending == calls[n].pending;
          return Failed;
        }
        pendings := pendings + {calls[n].pending};
        n := n + 1;
      }
      assert calls[..n] == calls;
      if hookRaises || approvals == [] { return Failed; }
      var park := Park(number, calls, map[], false);
      var reply := store.CommitTransition(branch, Transition([], ParkWrites(park), []), token);
      end := if reply.Refused? then FencedOut else Reparked(calls);
    }

    /** Drive the attempt that finishes a continuation, or one that found nothing parked. */
    method Attempt(number: nat, token: nat, origin: Option<Park>, drive: Drive) returns (end: End)
      requires store.Valid()
      modifies store
      ensures store.Valid()
      ensures EndsAs(old(store.Now()), old(Ledger()), number, token, Driving(origin), drive, end)
    {
      hide Moved, GoodBranch, ViewOf, Alone, Transitioned, Undecided, ParkWrites, Requested;
      ghost var l := Ledger();
      StoodStill(store.Now(), branch);
      match drive {
        case Parks(deferred, approvals, requests, hookRaises) =>
          end := ParkRound(number, token, origin, deferred, approvals, requests, hookRaises);
        case Fails =>
          AloneStep(l, number, token, Driving(origin), drive);
          end := Failed;
        case Returns =>
          AloneStep(l, number, token, Driving(origin), drive);
          if origin.None? { return Finished; }
          AloneStep(l, number, token, Completing(origin.value), drive);
          var reply := store.WriteControl(branch, ACTIVE, Completed, token);
          end := if reply.Refused? then FencedOut else Finished;
      }
    }

    /** What the attempt is told of the parked calls: for each of them its own answer. */
    method ApprovalsOf(active: Park, answers: map<string, Answer>) returns (approvals: map<string, Approval>)
      requires Undecided(active.calls, answers) == []
      ensures Approves(approvals, active.calls, answers)
    {
      UndecidedNone(active.calls, answers);
      approvals := map[];
      var n := 0;
      while n < |active.calls|
        invariant 0 <= n <= |active.calls|
        invariant Approves(approvals, active.calls[..n], answers)
      {
        var answer := answers[active.calls[n].id];
        approvals := approvals[active.calls[n].id :=
          if answer.Objection? then ToolDenied(answer.message) else ToolApproved(answer.args)];
        AllCallIds(active.calls, n);
        n := n + 1;
      }
      assert active.calls[..n] == active.calls;
    }

    /** Ends as a worker that is about to mark the park; the approvals are the answers, call by call. */
    method FinalizePark(number: nat, token: nat, active: Park, answers: map<string, Answer>, drive: Drive)
        returns (end: End, approvals: map<string, Approval>)
      requires store.Valid() && Undecided(active.calls, answers) == []
      modifies store
      ensures store.Valid()
      ensures EndsAs(old(store.Now()), old(Ledger()), number, token, Marking(active, answers), drive, end)
      ensures Approves(approvals, active.calls, answers)
    {
      hide Moved, GoodBranch, ViewOf, Alone, Transitioned, Undecided, Approves;
      ghost var t, l := store.Now(), Ledger();
      approvals := ApprovalsOf(active, answers);
      AloneStep(l, number, token, Marking(active, answers), drive);
      var marked := active.(answers := answers, resuming := true);
      var reply := store.WriteControl(branch, ACTIVE, Continuation(marked), token);
      if reply.Refused? { return FencedOut, approvals; }
      ghost var u, m := store.Now(), ControlWritten(l, ACTIVE, Continuation(marked), token).0;
      MovedView(t, u, branch, m);
      end := Attempt(number, token, Some(marked), drive);
      MovedTwice(t, u, store.Now(), branch, m, Alone(m, number, token, Driving(Some(marked)), drive).0);
    }

    /** Announce what is undecided, or finalize. */
    method ProceedWith(number: nat, token: nat, active: Park, answers: map<string, Answer>, drive: Drive) returns (end: End)
      requires store.Valid()
      modifies store
      ensures store.Valid()
      ensures EndsAs(old(store.Now()), old(Ledger()), number, token, Proceed(active, answers), drive, end)
    {
      hide Moved, GoodBranch, ViewOf;
      StoodStill(store.Now(), branch);
      var undecided := Undecided(active.calls, answers);
      if undecided != [] { return StillSuspended(undecided); }
      var approvals;
      end, approvals := FinalizePark(number, token, active, answers, drive);
    }

    /** Ends as a worker with one answer in hand, whether it is the last one, an early one or a stray one. */
    method Resume(number: nat, token: nat, pending: string, answer: Answer, drive: Drive) returns (end: End)
      requires store.Valid()
      modifies store
      ensures store.Valid()
      ensures EndsAs(old(store.Now()), old(Ledger()), number, token, Asking(pending, answer), drive, end)
    {
      hide Moved, GoodBranch, ViewOf, Alone, Transitioned, Undecided, CallFor, Proceed;
      ghost var t, l := store.Now(), Ledger();
      StoodStill(t, branch);
      AloneStep(l, number, token, Asking(pending, answer), drive);
      var active := ActiveContinuation();
      if active.None? || CallFor(active.value.calls, pending).None? { return NoSuchPending; }
      var answers := active.value.answers[CallFor(active.value.calls, pending).value := answer];
      AloneStep(l, number, token, Answering(active.value, answers), drive);
      var answered := Continuation(active.value.(answers := answers));
      var reply := store.WriteControl(branch, ACTIVE, answered, token);
      if reply.Refused? { return FencedOut; }
      ghost var u, m := store.Now(), ControlWritten(l, ACTIVE, answered, token).0;
      MovedView(t, u, branch, m);
      end := ProceedWith(number, token, active.value, answers, drive);
      MovedTwice(t, u, store.Now(), branch, m, Alone(m, number, token, Proceed(active.value, answers), drive).0);
    }

    method PendingCalls() returns (recorded: Option<seq<string>>)
      requires store.Valid()
      ensures recorded == RecordedRound(Ledger())
    {
      var record := store.ReadStep(branch, Attempts.PENDING_ROUND);
      if record.None? || record.value.Running? || !record.value.value.PendingRound? { return None; }
      recorded := Some(record.value.value.ids);
    }

    /**
    Ends as a worker that looks for a park before anything else: it leaves an undecided one alone, and without
    one it refuses a history that owes calls of another round than the recorded one.
    */
    method Recover(number: nat, token: nat, unanswered: seq<string>, drive: Drive) returns (end: End)
      requires store.Valid()
      modifies store
      ensures store.Valid()
      ensures EndsAs(old(store.Now()), old(Ledger()), number, token, Looking(unanswered), drive, end)
    {
      hide Moved, GoodBranch, ViewOf, Alone, Transitioned, Undecided, Proceed;
      AloneStep(Ledger(), number, token, Looking(unanswered), drive);
      StoodStill(store.Now(), branch);
      var active := ActiveContinuation();
      if active.Some? {
        end := ProceedWith(number, token, active.value, active.value.answers, drive);
        return;
      }
      AloneStep(Ledger(), number, token, Matching(unanswered), drive);
      var recorded := PendingCalls();
      if !FitsRound(recorded, unanswered) { return Mismatched; }
      end := Attempt(number, token, None, drive);
    }
  }

  lemma {:induction false} UndecidedNone(calls: seq<ParkedCall>, answers: map<string, Answer>)
    requires Undecided(calls, answers) == []
    ensures forall i :: 0 <= i < |calls| ==> calls[i].id in answers
  {
    if calls != [] {
      UndecidedNone(calls[..|calls| - 1], answers);
      assert forall i :: 0 <= i < |calls| - 1 ==> calls[..|calls| - 1][i] == calls[i];
    }
  }

  lemma AllCallIds(calls: seq<ParkedCall>, n: nat)
    requires n < |calls|
    ensures CallIds(calls[..n + 1]) == CallIds(calls[..n]) + {calls[n].id}
  {
    forall id
      ensures id in CallIds(calls[..n + 1]) <==> id in CallIds(calls[..n]) || id == calls[n].id
    {
      if i :| 0 <= i < n && calls[..n][i].id == id {
        assert calls[..n + 1][i].id == id;
      }
      assert calls[..n + 1][n].id == calls[n].id;
    }
  }

  // ── from a round to its park ─────────────────────────────────────────────

  type Call = EffectsBoundary.Call
  type Pause = EffectsBoundary.Pause

  /** What the round leaves to be approved, in model order, each with its request if it carries one. */
  function AskedIn(calls: seq<Call>, pauses: seq<Pause>): seq<(string, Option<string>)>
    requires |calls| == |pauses|
  {
    if calls == [] then []
    else
      var n := |calls| - 1;
      AskedIn(calls[..n], pauses[..n]) + (if pauses[n].Asks? then [(calls[n].id, pauses[n].pending)] else [])
  }

  /** What it leaves to the outside. */
  function DeferredIn(calls: seq<Call>, pauses: seq<Pause>): seq<string>
    requires |calls| == |pauses|
  {
    if calls == [] then []
    else
      var n := |calls| - 1;
      DeferredIn(calls[..n], pauses[..n]) + (if pauses[n].Waits? then [calls[n].id] else [])
  }

  function IdsOf(asked: seq<(string, Option<string>)>): seq<string> {
    seq(|asked|, i requires 0 <= i < |asked| => asked[i].0)
  }

  /** The metadata of the round: the pending id of a request under its call id. */
  function RequestsOf(asked: seq<(string, Option<string>)>): map<string, string> {
    if asked == [] then map[]
    else
      var last := asked[|asked| - 1];
      var before := RequestsOf(asked[..|asked| - 1]);
      if last.1.Some? then before[last.0 := last.1.value] else before - {last.0}
  }

  predicate IsCall(calls: seq<Call>, id: string) {
    exists k :: 0 <= k < |calls| && calls[k].id == id
  }

  lemma IsCallMore(calls: seq<Call>, id: string)
    requires calls != []
    ensures var n := |calls| - 1; IsCall(calls, id) <==> IsCall(calls[..n], id) || calls[n].id == id
  {
    var n := |calls| - 1;
    if k :| 0 <= k < n && calls[..n][k].id == id {
      assert calls[k].id == id;
    }
    if k :| 0 <= k < |calls| && calls[k].id == id {
      assert k < n ==> calls[..n][k].id == id;
    }
  }

  predicate OneRequestEach(asked: seq<(string, Option<string>)>) {
    forall i, j :: 0 <= i < j < |asked| ==> asked[i].0 != asked[j].0
  }

  lemma {:induction false} AskedAreCalls(calls: seq<Call>, pauses: seq<Pause>)
    requires |calls| == |pauses| && EffectsBoundary.DistinctCalls(calls)
    ensures var asked := AskedIn(calls, pauses);
      OneRequestEach(asked) && forall i :: 0 <= i < |asked| ==> IsCall(calls, asked[i].0)
  {
    hide IsCall;
    if calls != [] {
      var n := |calls| - 1;
      var before, asked := AskedIn(calls[..n], pauses[..n]), AskedIn(calls, pauses);
      AskedAreCalls(calls[..n], pauses[..n]);
      LastIsNew(calls);
      forall i | 0 <= i < |asked|
        ensures IsCall(calls, asked[i].0)
      {
        IsCallMore(calls, asked[i].0);
        assert i < |before| ==> asked[i] == before[i];
      }
    }
  }

  lemma LastIsNew(calls: seq<Call>)
    requires calls != [] && EffectsBoundary.DistinctCalls(calls)
    ensures !IsCall(calls[..|calls| - 1], calls[|calls| - 1].id)
  {
  }

  predicate RequestIs(asked: seq<(string, Option<string>)>, i: nat)
    requires i < |asked|
  {
    var id, requests := asked[i].0, RequestsOf(asked);
    (id in requests <==> asked[i].1.Some?) && (id in requests ==> asked[i].1 == Some(requests[id]))
  }

  lemma {:induction false} RequestsAre(asked: seq<(string, Option<string>)>)
    requires OneRequestEach(asked)
    ensures forall i :: 0 <= i < |asked| ==> RequestIs(asked, i)
  {
    if asked != [] {
      var n := |asked| - 1;
      RequestsAre(asked[..n]);
      forall i | 0 <= i < n
        ensures RequestIs(asked, i)
      {
        assert RequestIs(asked[..n], i) && asked[..n][i] == asked[i];
      }
    }
  }

  /** `asked` are the calls that ask, taken from the positions `at` in order, each with the request it left. */
  ghost predicate AsksAt(asked: seq<(string, Option<string>)>, calls: seq<Call>, pauses: seq<Pause>, at: seq<nat>)
    requires |calls| == |pauses|
  {
    && |at| == |asked|
    && (forall k, m :: 0 <= k < m < |at| ==> at[k] < at[m])
    && (forall k :: 0 <= k < |at| ==>
      at[k] < |calls| && asked[k].0 == calls[at[k]].id && pauses[at[k]] == EffectsBoundary.Asks(asked[k].1))
    && (forall i :: 0 <= i < |calls| ==> (i in at <==> pauses[i].Asks?))
  }

  lemma AsksMore(asked: seq<(string, Option<string>)>, calls: seq<Call>, pauses: seq<Pause>, at: seq<nat>)
    requires |calls| == |pauses| != 0 && AsksAt(asked, calls[..|calls| - 1], pauses[..|calls| - 1], at)
    ensures var n := |calls| - 1;
      && (!pauses[n].Asks? ==> AsksAt(asked, calls, pauses, at))
      && (pauses[n].Asks? ==> AsksAt(asked + [(calls[n].id, pauses[n].pending)], calls, pauses, at + [n]))
  {
    var n := |calls| - 1;
    assert forall i :: 0 <= i < n ==> calls[..n][i] == calls[i] && pauses[..n][i] == pauses[i];
    assert forall i :: 0 <= i < n ==> (i in at + [n] <==> i in at);
    assert n !in at;
  }

  /** What waits for an approval: the calls whose pause asks for one. */
  lemma {:induction false} AskedAre(calls: seq<Call>, pauses: seq<Pause>) returns (at: seq<nat>)
    requires |calls| == |pauses|
    ensures AsksAt(AskedIn(calls, pauses), calls, pauses, at)
  {
    at := [];
    if calls != [] {
      hide AsksAt;
      var n := |calls| - 1;
      at := AskedAre(calls[..n], pauses[..n]);
      AsksMore(AskedIn(calls[..n], pauses[..n]), calls, pauses, at);
      if pauses[n].Asks? {
        at := at + [n];
      } else {
        assert AskedIn(calls, pauses) == AskedIn(calls[..n], pauses[..n]);
      }
    }
  }

  lemma {:induction false} NothingDeferred(calls: seq<Call>, pauses: seq<Pause>)
    requires |calls| == |pauses|
    ensures DeferredIn(calls, pauses) == [] <==> forall i :: 0 <= i < |pauses| ==> !pauses[i].Waits?
  {
    if calls != [] {
      var n := |calls| - 1;
      NothingDeferred(calls[..n], pauses[..n]);
      assert forall i :: 0 <= i < n ==> pauses[..n][i] == pauses[i];
    }
  }

  /**
  What a round paused on is what is persisted, in model order, each call under its own request. It is
  refused exactly if a tool deferred, if one asked for approval without a request to answer, or if two
  requests carry one pending id.
  */
  lemma RoundParks(calls: seq<Call>, pauses: seq<Pause>)
    requires |calls| == |pauses| && EffectsBoundary.DistinctCalls(calls)
    ensures var asked, deferred := AskedIn(calls, pauses), DeferredIn(calls, pauses);
      var approvals, requests := IdsOf(asked), RequestsOf(asked);
      && (Parkable(deferred, approvals, requests) <==>
        && asked != []
        && (forall i :: 0 <= i < |pauses| ==> !pauses[i].Waits?)
        && (forall i :: 0 <= i < |asked| ==> asked[i].1.Some?)
        && (forall i, j :: 0 <= i < j < |asked| ==> asked[i].1 != asked[j].1))
      && (Parkable(deferred, approvals, requests) ==>
        && |Requested(approvals, requests)| == |asked|
        && forall i :: 0 <= i < |asked| ==> Requested(approvals, requests)[i] == ParkedCall(asked[i].0, asked[i].1.value))
  {
    hide RequestsOf, DeferredIn;
    var asked := AskedIn(calls, pauses);
    var approvals, requests := IdsOf(asked), RequestsOf(asked);
    AskedAreCalls(calls, pauses);
    RequestsAre(asked);
    NothingDeferred(calls, pauses);
    forall i | 0 <= i < |asked|
      ensures approvals[i] in requests <==> asked[i].1.Some?
      ensures approvals[i] in requests ==> asked[i].1 == Some(requests[approvals[i]])
    {
      assert RequestIs(asked, i);
    }
    assert |approvals| == |asked|;
    if forall i :: 0 <= i < |asked| ==> asked[i].1.Some? {
      assert forall i :: 0 <= i < |approvals| ==> approvals[i] in requests;
      var calls := Requested(approvals, requests);
      assert forall i :: 0 <= i < |asked| ==> asked[i].1 == Some(calls[i].pending);
      assert (forall i, j :: 0 <= i < j < |asked| ==> asked[i].1 != asked[j].1) ==> DistinctPendings(calls);
    }
    if forall i :: 0 <= i < |approvals| ==> approvals[i] in requests {
      forall i | 0 <= i < |asked|
        ensures asked[i].1.Some?
      {
        assert approvals[i] in requests;
      }
    }
  }
}
