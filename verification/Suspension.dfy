/**
A parked round: a batch of calls waiting for answers, answered one by one by competing workers.

`resume` and `recover` read the one live continuation under their lease, and every write they make
presents their token. The workers interleave at every store call and may crash or be overtaken between
any two. What a continuation is finished by, an attempt at the run, is one choice of the world: it
returns, fails, or parks the round anew.
*/
module Suspension {
  import opened Ledger
  import Attempts

  type Payload = Attempts.Payload

  /** What a person says to one parked call: no, or yes, and then perhaps with other arguments. */
  datatype Answer = Objection(message: Option<Payload>) | Consent(args: Option<Payload>, body: Payload)

  /** What the attempt is told of it. A denial without words carries none. */
  datatype Approval = ToolDenied(message: Option<Payload>) | ToolApproved(overrideArgs: Option<Payload>)

  datatype ParkedCall = ParkedCall(id: string, pending: string)

  /** `number` names the park in the model; the program keeps no such number and never looks at it. */
  datatype Park = Park(number: nat, calls: seq<ParkedCall>, answers: map<string, Answer>, resuming: bool)

  datatype Control =
    | Continuation(park: Park)
    | Completed
    | Index(first: string)
    | PendingRound(ids: seq<string>)
    | Unrelated(body: Payload)

  const ACTIVE := "agent:active-suspension"

  function SuspendKey(id: string): string { "suspend:" + id }

  /** The keys of the suspension protocol. */
  predicate IsSuspensionKey(key: string) {
    key == ACTIVE || "suspend:" <= key
  }

  lemma SuspendKeysApart(id: string, other: string)
    ensures SuspendKey(id) != ACTIVE && IsSuspensionKey(SuspendKey(id))
    ensures SuspendKey(id) == SuspendKey(other) ==> id == other
  {
    assert SuspendKey(id)[0] == 's' && ACTIVE[0] == 'a';
    assert SuspendKey(id)[8..] == id && SuspendKey(other)[8..] == other;
  }

  /** The park under the key of the continuation; a completed one is none. */
  function Active(l: BranchLedger<Control>): Option<Park> {
    var record := Read(l, ACTIVE);
    if record.Some? && record.value.Done? && record.value.value.Continuation? then Some(record.value.value.park)
    else None
  }

  /** The calls without an answer yet, in the order of the round. */
  function Undecided(calls: seq<ParkedCall>, answers: map<string, Answer>): seq<ParkedCall> {
    if calls == [] then []
    else
      var last := calls[|calls| - 1];
      Undecided(calls[..|calls| - 1], answers) + (if last.id in answers then [] else [last])
  }

  /** The call a pending id stands for; of several, the last one. */
  function CallFor(calls: seq<ParkedCall>, pending: string): Option<string> {
    if calls == [] then None
    else
      var last := calls[|calls| - 1];
      if last.pending == pending then Some(last.id) else CallFor(calls[..|calls| - 1], pending)
  }

  /** One approval for each call, by its own answer: an objection denies it, in its words, and a consent approves it. */
  ghost predicate Approves(approvals: map<string, Approval>, calls: seq<ParkedCall>, answers: map<string, Answer>) {
    && approvals.Keys == CallIds(calls)
    && (forall i :: 0 <= i < |calls| ==>
      && calls[i].id in approvals && calls[i].id in answers
      && (answers[calls[i].id].Objection? ==> approvals[calls[i].id] == ToolDenied(answers[calls[i].id].message))
      && (answers[calls[i].id].Consent? ==> approvals[calls[i].id] == ToolApproved(answers[calls[i].id].args)))
  }

  /** The calls recorded for the round at hand, if a round was recorded. */
  function RecordedRound(l: BranchLedger<Control>): Option<seq<string>> {
    var record := Read(l, Attempts.PENDING_ROUND);
    if record.Some? && record.value.Done? && record.value.value.PendingRound? then Some(record.value.value.ids) else None
  }

  /** Whether a history that owes these calls fits the round that was recorded last. */
  predicate FitsRound(recorded: Option<seq<string>>, unanswered: seq<string>) {
    recorded.Some? ==> forall i :: 0 <= i < |unanswered| ==> unanswered[i] in recorded.value
  }

  // ── parking ──────────────────────────────────────────────────────────────

  /** The parked calls with the request recorded under each call id. */
  function Requested(approvals: seq<string>, requests: map<string, string>): seq<ParkedCall>
    requires forall i :: 0 <= i < |approvals| ==> approvals[i] in requests
  {
    seq(|approvals|, i requires 0 <= i < |approvals| => ParkedCall(approvals[i], requests[approvals[i]]))
  }

  predicate DistinctPendings(calls: seq<ParkedCall>) {
    forall i, j :: 0 <= i < j < |calls| ==> calls[i].pending != calls[j].pending
  }

  predicate DistinctCalls(calls: seq<ParkedCall>) {
    forall i, j :: 0 <= i < j < |calls| ==> calls[i].id != calls[j].id
  }

  function CallIds(calls: seq<ParkedCall>): set<string> {
    set i | 0 <= i < |calls| :: calls[i].id
  }

  /** Every parked call's index, and the one continuation: written in one transition. */
  function ParkWrites(park: Park): map<string, Control>
    requires park.calls != []
  {
    (map id | id in CallIds(park.calls) :: SuspendKey(id) := Index(park.calls[0].id))[ACTIVE := Continuation(park)]
  }

  /** No call waits for an outside result, each parked one has a request, and no two share a pending id. */
  predicate Parkable(deferred: seq<string>, approvals: seq<string>, requests: map<string, string>) {
    && deferred == []
    && approvals != []
    && (forall i :: 0 <= i < |approvals| ==> approvals[i] in requests)
    && DistinctPendings(Requested(approvals, requests))
  }

  // ── one worker ───────────────────────────────────────────────────────────

  datatype End =
    | NoSuchPending
    | Mismatched
    | StillSuspended(undecided: seq<ParkedCall>)
    | Reparked(undecided: seq<ParkedCall>)
    | Finished
    | FencedOut
    | Failed

  datatype Pc =
    | Asking(pending: string, answer: Answer)
    | Looking(unanswered: seq<string>)
    | Matching(unanswered: seq<string>)
    | Answering(active: Park, answers: map<string, Answer>)
    | Marking(active: Park, answers: map<string, Answer>)
    | Driving(origin: Option<Park>)
    | Completing(active: Park)
    | Ended(end: End)

  /** How the attempt that finishes a continuation ends. The `on_suspend` hook may raise. */
  datatype Drive =
    | Returns
    | Fails
    | Parks(deferred: seq<string>, approvals: seq<string>, requests: map<string, string>, hookRaises: bool)

  function Proceed(active: Park, answers: map<string, Answer>): Pc {
    var undecided := Undecided(active.calls, answers);
    if undecided != [] then Ended(StillSuspended(undecided)) else Marking(active, answers)
  }

  function OrFenced(reply: Reply, next: Pc): Pc {
    if reply.Refused? then Ended(FencedOut) else next
  }

  /** One store call of a worker, or the attempt it drives; `number` is free for a new park. */
  function Stepped(l: BranchLedger<Control>, number: nat, token: nat, pc: Pc, drive: Drive)
    : (BranchLedger<Control>, Pc)
  {
    match pc
    case Asking(pending, answer) =>
      (l, match Active(l)
          case None => Ended(NoSuchPending)
          case Some(active) =>
            match CallFor(active.calls, pending)
            case None => Ended(NoSuchPending)
            case Some(id) => Answering(active, active.answers[id := answer]))
    case Looking(unanswered) =>
      (l, match Active(l)
          case None => Matching(unanswered)
          case Some(active) => Proceed(active, active.answers))
    case Matching(unanswered) =>
      (l, if FitsRound(RecordedRound(l), unanswered) then Driving(None) else Ended(Mismatched))
    case Answering(active, answers) =>
      var (m, reply) := ControlWritten(l, ACTIVE, Continuation(active.(answers := answers)), token);
      (m, OrFenced(reply, Proceed(active, answers)))
    case Marking(active, answers) =>
      var marked := active.(answers := answers, resuming := true);
      var (m, reply) := ControlWritten(l, ACTIVE, Continuation(marked), token);
      (m, OrFenced(reply, Driving(Some(marked))))
    case Driving(origin) =>
      (match drive
       case Returns => (l, if origin.Some? then Completing(origin.value) else Ended(Finished))
       case Fails => (l, Ended(Failed))
       case Parks(deferred, approvals, requests, hookRaises) =>
         if !Parkable(deferred, approvals, requests) || hookRaises then (l, Ended(Failed))
         else
           var park := Park(number, Requested(approvals, requests), map[], false);
           var (m, reply) := Transitioned(l, Transition([], ParkWrites(park), []), token);
           (m, OrFenced(reply, Ended(Reparked(park.calls)))))
    case Completing(active) =>
      var (m, reply) := ControlWritten(l, ACTIVE, Completed, token);
      (m, OrFenced(reply, Ended(Finished)))
    case Ended(_) => (l, pc)
  }

  // ── competing workers ────────────────────────────────────────────────────

  datatype Worker = Worker(token: nat, pc: Pc)

  datatype World = World(ledger: BranchLedger<Control>, workers: map<string, Worker>, free: nat)

  datatype Action =
    | Resume(owner: string, now: real, until: real, pending: string, answer: Answer)
    | Recover(owner: string, now: real, until: real, unanswered: seq<string>)
    | RunUnchecked(owner: string, now: real, until: real)
    | Advance(owner: string, drive: Drive)
    | Crash(owner: string)
    | Environment(op: Op<Control>)

  /** Everything else on the branch: lease traffic, inputs, effects and control keys of other kinds. */
  predicate Foreign(op: Op<Control>, owners: set<string>) {
    match op
    case Start(key, _) => !IsSuspensionKey(key)
    case FinishEffect(key, _, _) => !IsSuspensionKey(key)
    case WriteControl(key, _, _) => !IsSuspensionKey(key)
    case Forget(key, _) => !IsSuspensionKey(key)
    case Acquire(owner, _, _) => owner in owners
    case Commit(t, _) =>
      && (forall key :: key in t.controls ==> !IsSuspensionKey(key))
      && (forall key :: key in EffectKeys(t.effects) ==> !IsSuspensionKey(key))
    case _ => true
  }

  predicate Enabled(w: World, action: Action) {
    match action
    case Advance(owner, _) => owner in w.workers && !w.workers[owner].pc.Ended?
    case Crash(owner) => owner in w.workers
    case Environment(op) => Foreign(op, w.workers.Keys)
    case _ => action.owner != "" && action.owner !in w.workers
  }

  function Joined(w: World, owner: string, now: real, until: real, pc: Pc): World {
    var (l, reply) := Acquired(w.ledger, owner, now, until);
    if reply == Granted(0) then w
    else w.(ledger := l, workers := w.workers[owner := Worker(l.issued, pc)])
  }

  function Next(w: World, action: Action): World
    requires Enabled(w, action)
  {
    match action
    case Resume(owner, now, until, pending, answer) => Joined(w, owner, now, until, Asking(pending, answer))
    case Recover(owner, now, until, unanswered) => Joined(w, owner, now, until, Looking(unanswered))
    case RunUnchecked(owner, now, until) => Joined(w, owner, now, until, Driving(None))
    case Advance(owner, drive) =>
      var worker := w.workers[owner];
      var (l, pc) := Stepped(w.ledger, w.free, worker.token, worker.pc, drive);
      World(l, w.workers[owner := worker.(pc := pc)], w.free + 1)
    case Crash(owner) => w.(workers := w.workers[owner := w.workers[owner].(pc := Ended(Failed))])
    case Environment(op) => w.(ledger := Apply(w.ledger, op).0)
  }

  ghost predicate IsRun(w: World, actions: seq<Action>)
    decreases |actions|
  {
    actions != [] ==> Enabled(w, actions[0]) && IsRun(Next(w, actions[0]), actions[1..])
  }

  function After(w: World, actions: seq<Action>): World
    requires IsRun(w, actions)
    decreases |actions|
  {
    if actions == [] then w else After(Next(w, actions[0]), actions[1..])
  }

  function Fresh(): World {
    World(Empty(), map[], 0)
  }

  /** An unchecked run is let in while nothing is parked, or not let in. */
  predicate Idle(w: World, action: Action) {
    action.RunUnchecked? ==>
      Active(w.ledger).None? || Acquired(w.ledger, action.owner, action.now, action.until).1 == Granted(0)
  }

  ghost predicate IdleRun(w: World, actions: seq<Action>)
    requires IsRun(w, actions)
    decreases |actions|
  {
    actions != [] ==> Idle(w, actions[0]) && IdleRun(Next(w, actions[0]), actions[1..])
  }

  ghost predicate Reachable(w: World) {
    exists actions :: IsRun(Fresh(), actions) && After(Fresh(), actions) == w
  }

  ghost predicate IdleReachable(w: World) {
    exists actions :: IsRun(Fresh(), actions) && IdleRun(Fresh(), actions) && After(Fresh(), actions) == w
  }
}
