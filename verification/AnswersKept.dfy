/**
No answer is lost: while one continuation stays live its answers only grow, it is finalized only when
every parked call is answered, and nothing but its own finalization replaces it.
*/
module AnswersKept {
  import opened Ledger
  import LedgerHistory
  import opened Suspension

  // ── what holds of every reachable world ──────────────────────────────────

  predicate Newest(w: World, owner: string) {
    owner in w.workers && w.workers[owner].token == w.ledger.issued
  }

  ghost predicate Tokens(w: World) {
    && (forall owner :: owner in w.workers ==> 0 < w.workers[owner].token <= w.ledger.issued)
    && (forall a, b :: a in w.workers && b in w.workers && w.workers[a].token == w.workers[b].token ==> a == b)
    && (w.ledger.lease.Some? ==> w.ledger.lease.value.owner == "" || w.ledger.lease.value.owner in w.workers)
  }

  /** Distinct pending ids, hence distinct call ids; answers to parked calls only. */
  ghost predicate WellFormed(p: Park) {
    && p.calls != []
    && DistinctPendings(p.calls) && DistinctCalls(p.calls)
    && p.answers.Keys <= CallIds(p.calls)
    && (p.resuming ==> Undecided(p.calls, p.answers) == [])
  }

  /** Each parked call's index names the first call of the batch. */
  ghost predicate Indexed(l: BranchLedger<Control>, p: Park)
    requires p.calls != []
  {
    forall i :: 0 <= i < |p.calls| ==> Read(l, SuspendKey(p.calls[i].id)) == Some(Done(Index(p.calls[0].id)))
  }

  ghost predicate Shape(l: BranchLedger<Control>, free: nat) {
    Active(l).Some? ==> WellFormed(Active(l).value) && Active(l).value.number < free && Indexed(l, Active(l).value)
  }

  /** The worker acts on what is live now. Only the newest token can be relied on for this. */
  predicate Aware(pc: Pc, active: Option<Park>) {
    match pc
    case Answering(a, _) => active == Some(a)
    case Marking(a, answers) => active == Some(a.(answers := answers))
    case Driving(origin) => origin.Some? ==> active == origin
    case Completing(a) => active == Some(a)
    case _ => true
  }

  /** What a worker knows of the continuation it holds, overtaken or not. */
  ghost predicate Sound(pc: Pc) {
    match pc
    case Answering(a, answers) => WellFormed(a) && a.answers.Keys <= answers.Keys <= CallIds(a.calls)
    case Marking(a, answers) => WellFormed(a.(answers := answers)) && Undecided(a.calls, answers) == []
    case Driving(origin) => origin.Some? ==> WellFormed(origin.value) && origin.value.resuming
    case Completing(a) => WellFormed(a) && a.resuming
    case _ => true
  }

  ghost predicate Inv(w: World) {
    && Tokens(w)
    && Shape(w.ledger, w.free)
    && (forall owner :: owner in w.workers ==> Sound(w.workers[owner].pc))
    && (forall owner :: Newest(w, owner) ==> Aware(w.workers[owner].pc, Active(w.ledger)))
  }

  /** The worker runs an attempt that finalizes nothing, or is about to. */
  predicate IsFree(pc: Pc) {
    pc == Driving(None) || pc.Matching?
  }

  /** An attempt that finalizes nothing runs while nothing is parked. */
  ghost predicate Careful(w: World) {
    forall owner :: Newest(w, owner) && IsFree(w.workers[owner].pc) ==> Active(w.ledger).None?
  }

  // ── the pieces of one step ───────────────────────────────────────────────

  lemma {:induction false} UndecidedIs(calls: seq<ParkedCall>, answers: map<string, Answer>)
    ensures forall c :: c in Undecided(calls, answers) <==> c in calls && c.id !in answers
  {
    if calls != [] {
      UndecidedIs(calls[..|calls| - 1], answers);
      assert calls == calls[..|calls| - 1] + [calls[|calls| - 1]];
    }
  }

  lemma {:induction false} CallForIs(calls: seq<ParkedCall>, pending: string)
    ensures CallFor(calls, pending).Some? <==> exists i :: 0 <= i < |calls| && calls[i].pending == pending
    ensures CallFor(calls, pending).Some? ==>
      exists i :: 0 <= i < |calls| && calls[i] == ParkedCall(CallFor(calls, pending).value, pending)
  {
    if calls != [] {
      var n := |calls| - 1;
      CallForIs(calls[..n], pending);
      if calls[n].pending == pending {
        assert calls[n] == ParkedCall(CallFor(calls, pending).value, pending);
      } else if CallFor(calls[..n], pending).Some? {
        var i :| 0 <= i < n && calls[..n][i] == ParkedCall(CallFor(calls, pending).value, pending);
        assert calls[i] == ParkedCall(CallFor(calls, pending).value, pending);
      } else {
        assert forall i :: 0 <= i < n ==> calls[..n][i].pending != pending;
      }
    }
  }

  /** A well-formed park with more answers to its calls is well-formed. */
  lemma MoreAnswers(p: Park, answers: map<string, Answer>)
    requires WellFormed(p) && p.answers.Keys <= answers.Keys <= CallIds(p.calls)
    ensures WellFormed(p.(answers := answers))
  {
    UndecidedFewer(p.calls, p.answers, answers);
  }

  lemma {:induction false} UndecidedFewer(calls: seq<ParkedCall>, fewer: map<string, Answer>, more: map<string, Answer>)
    requires fewer.Keys <= more.Keys
    ensures |Undecided(calls, more)| <= |Undecided(calls, fewer)|
  {
    if calls != [] {
      UndecidedFewer(calls[..|calls| - 1], fewer, more);
    }
  }

  lemma RewriteKeepsShape(l: BranchLedger<Control>, free: nat, q: Park)
    requires Shape(l, free) && Active(l).Some? && WellFormed(q)
    requires q.number == Active(l).value.number && q.calls == Active(l).value.calls
    ensures var m := l.(steps := l.steps[ACTIVE := Done(Continuation(q))]);
      Active(m) == Some(q) && Shape(m, free)
  {
  }

  /** A new park: distinct pending ids and one request per call id make the call ids distinct. */
  lemma NewParkIsWellFormed(number: nat, approvals: seq<string>, requests: map<string, string>)
    requires Parkable([], approvals, requests)
    ensures WellFormed(Park(number, Requested(approvals, requests), map[], false))
  {
  }

  /** A transition of controls alone is refused by the fence only, and writes them all. */
  lemma ControlsLand(l: BranchLedger<Control>, controls: map<string, Control>, token: nat)
    requires !Stale(l, token)
    ensures Transitioned(l, Transition([], controls, []), token)
      == (l.(steps := l.steps + Controlled(controls)), NewInputs({}))
  {
    var t := Transition([], controls, []);
    assert Acceptable(l, t);
    assert FreshInputs<Control>(l.queue, []) == {};
  }

  lemma ParkWritesAre(park: Park, i: nat)
    requires i < |park.calls|
    ensures var writes, key := ParkWrites(park), SuspendKey(park.calls[i].id);
      && ACTIVE in writes && writes[ACTIVE] == Continuation(park)
      && key in writes && writes[key] == Index(park.calls[0].id)
  {
    SuspendKeysApart(park.calls[i].id, "");
    var indices := map id | id in CallIds(park.calls) :: SuspendKey(id) := Index(park.calls[0].id);
    assert park.calls[i].id in CallIds(park.calls);
    assert SuspendKey(park.calls[i].id) in indices;
  }

  lemma ParkLands(l: BranchLedger<Control>, number: nat, park: Park, token: nat)
    requires !Stale(l, token) && park.calls != [] && park.number == number
    ensures var (m, reply) := Transitioned(l, Transition([], ParkWrites(park), []), token);
      && !reply.Refused? && Active(m) == Some(park) && Indexed(m, park)
      && m.issued == l.issued && m.lease == l.lease
  {
    hide Transitioned, ParkWrites, SuspendKey;
    ControlsLand(l, ParkWrites(park), token);
    ParkWritesAre(park, 0);
    forall i | 0 <= i < |park.calls|
      ensures SuspendKey(park.calls[i].id) in ParkWrites(park)
      ensures ParkWrites(park)[SuspendKey(park.calls[i].id)] == Index(park.calls[0].id)
    {
      ParkWritesAre(park, i);
    }
  }

  // ── every action keeps the invariant ─────────────────────────────────────

  /** `after` is the same continuation, further on. */
  predicate Continues(before: Park, after: Park) {
    && after.number == before.number && after.calls == before.calls
    && before.answers.Keys <= after.answers.Keys
    && (before.resuming ==> after.resuming)
  }

  /** A live continuation goes on, or was being finalized and is completed or gives way to a new park. */
  predicate Evolved(before: Option<Park>, after: Option<Park>, free: nat) {
    match before
    case None => after.None? || free <= after.value.number
    case Some(p) =>
      || (after.Some? && Continues(p, after.value))
      || (p.resuming && (after.None? || free <= after.value.number))
  }

  /** What a worker does while it presents the newest token. */
  lemma NewestSteps(l: BranchLedger<Control>, free: nat, token: nat, pc: Pc, drive: Drive)
    requires Shape(l, free) && !Stale(l, token) && Sound(pc) && Aware(pc, Active(l))
    ensures var (m, next) := Stepped(l, free, token, pc, drive);
      && m.issued == l.issued && m.lease == l.lease
      && Shape(m, free + 1) && Sound(next) && Aware(next, Active(m))
      && (IsFree(next) && (IsFree(pc) ==> Active(l).None?) ==> Active(m).None?)
      && ((IsFree(pc) ==> Active(l).None?) ==> Evolved(Active(l), Active(m), free))
  {
    hide Transitioned, Shape, WellFormed, ParkWrites, Requested;
    var (m, next) := Stepped(l, free, token, pc, drive);
    match pc
    case Asking(pending, answer) =>
      AskingSteps(l, free, token, pending, answer, drive);
    case Looking(unanswered) =>
      LookingSteps(l, free, token, unanswered, drive);
    case Matching(_) =>
      FreeRises(l, free);
    case Answering(a, answers) =>
      ShapeMeans(l, free);
      MoreAnswers(a, answers);
      RewriteKeepsShape(l, free, a.(answers := answers));
      FreeRises(m, free);
    case Marking(a, answers) =>
      MarkingIsWellFormed(a, answers);
      RewriteKeepsShape(l, free, a.(answers := answers, resuming := true));
      FreeRises(m, free);
    case Driving(origin) =>
      FreeRises(l, free);
      if drive.Parks? && Parkable(drive.deferred, drive.approvals, drive.requests) && !drive.hookRaises {
        var park := Park(free, Requested(drive.approvals, drive.requests), map[], false);
        NewParkIsWellFormed(free, drive.approvals, drive.requests);
        NewParkHasCalls(drive.approvals, drive.requests);
        ParkLands(l, free, park, token);
        NewShape(m, free, park);
      }
    case Completing(a) =>
      NothingLive(m, free + 1);
    case Ended(_) =>
      FreeRises(l, free);
  }

  lemma ShapeMeans(l: BranchLedger<Control>, free: nat)
    requires Shape(l, free) && Active(l).Some?
    ensures WellFormed(Active(l).value)
  {
  }

  lemma FreeRises(l: BranchLedger<Control>, free: nat)
    requires Shape(l, free)
    ensures Shape(l, free + 1)
  {
  }

  lemma NothingLive(l: BranchLedger<Control>, free: nat)
    requires Active(l).None?
    ensures Shape(l, free)
  {
  }

  lemma NewShape(l: BranchLedger<Control>, free: nat, park: Park)
    requires Active(l) == Some(park) && WellFormed(park) && park.number == free && Indexed(l, park)
    ensures Shape(l, free + 1)
  {
  }

  lemma NewParkHasCalls(approvals: seq<string>, requests: map<string, string>)
    requires Parkable([], approvals, requests)
    ensures Requested(approvals, requests) != []
  {
  }

  lemma MarkingIsWellFormed(a: Park, answers: map<string, Answer>)
    requires WellFormed(a.(answers := answers)) && Undecided(a.calls, answers) == []
    ensures WellFormed(a.(answers := answers, resuming := true))
  {
  }

  lemma AskingSteps(l: BranchLedger<Control>, free: nat, token: nat, pending: string, answer: Answer, drive: Drive)
    requires Shape(l, free)
    ensures var (m, next) := Stepped(l, free, token, Asking(pending, answer), drive);
      m == l && Sound(next) && Aware(next, Active(l)) && Shape(l, free + 1)
  {
    hide Indexed;
    if Active(l).Some? {
      CallForIs(Active(l).value.calls, pending);
    }
  }

  lemma LookingSteps(l: BranchLedger<Control>, free: nat, token: nat, unanswered: seq<string>, drive: Drive)
    requires Shape(l, free)
    ensures var (m, next) := Stepped(l, free, token, Looking(unanswered), drive);
      m == l && Sound(next) && Aware(next, Active(l)) && Shape(l, free + 1)
  {
    hide Indexed;
  }

  /** An overtaken worker changes nothing and learns nothing wrong. */
  lemma StaleSteps(l: BranchLedger<Control>, free: nat, token: nat, pc: Pc, drive: Drive)
    requires Stale(l, token) && Sound(pc) && Shape(l, free)
    ensures var (m, next) := Stepped(l, free, token, pc, drive);
      m == l && Sound(next) && Shape(l, free + 1)
  {
    hide Shape, ParkWrites, Requested, WellFormed;
    FreeRises(l, free);
    match pc
    case Asking(pending, answer) => AskingSteps(l, free, token, pending, answer, drive);
    case Looking(unanswered) => LookingSteps(l, free, token, unanswered, drive);
    case _ =>
  }

  lemma AdvanceKeeps(w: World, owner: string, drive: Drive)
    requires Inv(w) && Enabled(w, Advance(owner, drive))
    ensures var w' := Next(w, Advance(owner, drive));
      Inv(w') && (Careful(w) ==> Careful(w') && Evolved(Active(w.ledger), Active(w'.ledger), w.free))
  {
    hide Stepped, Shape, Sound, Active, Aware;
    var worker := w.workers[owner];
    if Stale(w.ledger, worker.token) {
      StaleSteps(w.ledger, w.free, worker.token, worker.pc, drive);
      SameEvolved(Active(w.ledger), w.free);
    } else {
      assert Newest(w, owner);
      NewestSteps(w.ledger, w.free, worker.token, worker.pc, drive);
    }
  }

  lemma SameEvolved(active: Option<Park>, free: nat)
    ensures Evolved(active, active, free)
  {
  }

  lemma AcquiredLedger(l: BranchLedger<Control>, owner: string, now: real, until: real, free: nat)
    requires l.lease.Some? ==> l.lease.value.owner != owner
    ensures var (m, reply) := Acquired(l, owner, now, until);
      && Active(m) == Active(l) && (Shape(l, free) ==> Shape(m, free))
      && (reply == Granted(0) || (m.issued == l.issued + 1 && m.lease.Some? && m.lease.value.owner == owner))
  {
    hide WellFormed;
  }

  lemma NewcomerKnowsNothing(pc: Pc, active: Option<Park>)
    requires pc.Asking? || pc.Looking? || pc == Driving(None)
    ensures Sound(pc) && Aware(pc, active)
  {
  }

  lemma JoinKeeps(w: World, owner: string, now: real, until: real, pc: Pc)
    requires Inv(w) && owner != "" && owner !in w.workers && (pc.Asking? || pc.Looking? || pc == Driving(None))
    ensures var w' := Joined(w, owner, now, until, pc);
      && Inv(w') && Active(w'.ledger) == Active(w.ledger) && w.free == w'.free
      && (Careful(w) && (pc == Driving(None) ==> Active(w.ledger).None? || w' == w) ==> Careful(w'))
  {
    hide Acquired, Active, Shape, Sound, Aware;
    AcquiredLedger(w.ledger, owner, now, until, w.free);
    NewcomerKnowsNothing(pc, Active(w.ledger));
  }

  lemma ForeignKeeps(l: BranchLedger<Control>, op: Op<Control>, owners: set<string>, key: string)
    requires Foreign(op, owners) && IsSuspensionKey(key)
    ensures Read(Apply(l, op).0, key) == Read(l, key)
  {
    if op.Commit? {
      LedgerHistory.CompletedStep(l.steps, op.transition.effects, key);
    }
  }

  lemma LeaseTraffic(l: BranchLedger<Control>, op: Op<Control>, owners: set<string>)
    requires Foreign(op, owners)
    requires l.lease.Some? ==> l.lease.value.owner == "" || l.lease.value.owner in owners
    ensures var m := Apply(l, op).0;
      l.issued <= m.issued && (m.lease.Some? ==> m.lease.value.owner == "" || m.lease.value.owner in owners)
  {
  }

  lemma EnvironmentKeeps(w: World, op: Op<Control>)
    requires Inv(w) && Enabled(w, Environment(op))
    ensures var w' := Next(w, Environment(op));
      && Inv(w') && Active(w'.ledger) == Active(w.ledger) && w.free == w'.free
      && (Careful(w) ==> Careful(w'))
  {
    hide Apply, Sound, Aware, WellFormed;
    var w' := Next(w, Environment(op));
    LeaseTraffic(w.ledger, op, w.workers.Keys);
    ForeignKeeps(w.ledger, op, w.workers.Keys, ACTIVE);
    forall id
      ensures Read(w'.ledger, SuspendKey(id)) == Read(w.ledger, SuspendKey(id))
    {
      SuspendKeysApart(id, id);
      ForeignKeeps(w.ledger, op, w.workers.Keys, SuspendKey(id));
    }
  }

  lemma CrashKeeps(w: World, owner: string)
    requires Inv(w) && owner in w.workers
    ensures Inv(Next(w, Crash(owner))) && (Careful(w) ==> Careful(Next(w, Crash(owner))))
  {
    hide Shape, Active;
  }

  lemma NextKeeps(w: World, action: Action)
    requires Inv(w) && Enabled(w, action)
    ensures var w' := Next(w, action);
      && Inv(w') && w.free <= w'.free
      && (Careful(w) && Idle(w, action) ==>
        Careful(w') && Evolved(Active(w.ledger), Active(w'.ledger), w.free))
  {
    hide Inv, Careful, Active, Evolved, Stepped, Apply, Acquired;
    SameEvolved(Active(w.ledger), w.free);
    match action
    case Resume(owner, now, until, pending, answer) => JoinKeeps(w, owner, now, until, Asking(pending, answer));
    case Recover(owner, now, until, unanswered) => JoinKeeps(w, owner, now, until, Looking(unanswered));
    case RunUnchecked(owner, now, until) => JoinKeeps(w, owner, now, until, Driving(None));
    case Advance(owner, drive) => AdvanceKeeps(w, owner, drive);
    case Crash(owner) => CrashKeeps(w, owner);
    case Environment(op) => EnvironmentKeeps(w, op);
  }

  lemma {:induction false} RunKeeps(w: World, actions: seq<Action>)
    requires Inv(w) && IsRun(w, actions)
    ensures Inv(After(w, actions)) && (Careful(w) && IdleRun(w, actions) ==> Careful(After(w, actions)))
    decreases |actions|
  {
    hide Next, Inv, Careful;
    if actions != [] {
      NextKeeps(w, actions[0]);
      RunKeeps(Next(w, actions[0]), actions[1..]);
    }
  }

  lemma ReachableInv(w: World)
    requires Reachable(w)
    ensures Inv(w)
  {
    var actions :| IsRun(Fresh(), actions) && After(Fresh(), actions) == w;
    RunKeeps(Fresh(), actions);
  }

  lemma IdleInv(w: World)
    requires IdleReachable(w)
    ensures Inv(w) && Careful(w)
  {
    var actions :| IsRun(Fresh(), actions) && IdleRun(Fresh(), actions) && After(Fresh(), actions) == w;
    RunKeeps(Fresh(), actions);
  }

  // ── the theorems ─────────────────────────────────────────────────────────

  /**
  In every reachable ledger a live continuation has distinct pending ids and distinct call ids, holds
  answers to its own calls only, and is indexed by each of them.
  */
  lemma ParksAreWellFormed(w: World)
    requires Reachable(w) && Active(w.ledger).Some?
    ensures WellFormed(Active(w.ledger).value) && Indexed(w.ledger, Active(w.ledger).value)
  {
    ReachableInv(w);
  }

  /** Any worker past its last answer, overtaken or not, holds a fully answered continuation. */
  lemma FinalizedWhenAnswered(w: World, owner: string)
    requires Reachable(w) && owner in w.workers
    ensures var pc := w.workers[owner].pc;
      && (pc.Marking? ==> Undecided(pc.active.calls, pc.answers) == [])
      && (pc.Driving? && pc.origin.Some? ==> Undecided(pc.origin.value.calls, pc.origin.value.answers) == [])
      && (pc.Completing? ==> Undecided(pc.active.calls, pc.active.answers) == [])
  {
    ReachableInv(w);
    assert Sound(w.workers[owner].pc);
  }

  /**
  A completion that lands replaces exactly the continuation its worker finalized, never a park written
  since.
  */
  lemma CompletionHitsItsOwn(w: World, owner: string)
    requires Reachable(w) && owner in w.workers && w.workers[owner].pc.Completing?
    requires !Stale(w.ledger, w.workers[owner].token)
    ensures Active(w.ledger) == Some(w.workers[owner].pc.active)
  {
    ReachableInv(w);
    assert Newest(w, owner);
  }

  /** One step replaces a live continuation only if it was being finalized, and so fully answered. */
  lemma UndecidedParkStays(w: World, action: Action)
    requires IdleReachable(w) && Enabled(w, action) && Idle(w, action)
    requires Active(w.ledger).Some?
    requires Undecided(Active(w.ledger).value.calls, Active(w.ledger).value.answers) != []
    ensures var after := Active(Next(w, action).ledger);
      after.Some? && Continues(Active(w.ledger).value, after.value)
  {
    IdleInv(w);
    hide Next;
    NextKeeps(w, action);
  }

  /** From here on the continuation is live with at least these answers, until it is being finalized. */
  ghost predicate Survives(w: World, actions: seq<Action>, p: Park)
    requires IsRun(w, actions)
    decreases |actions|
  {
    var now := Active(w.ledger);
    && now.Some? && Continues(p, now.value)
    && (|| (now.value.resuming && Undecided(now.value.calls, now.value.answers) == [])
        || actions == []
        || Survives(Next(w, actions[0]), actions[1..], p))
  }

  lemma {:induction false} SurvivesFrom(w: World, actions: seq<Action>, p: Park)
    requires Inv(w) && Careful(w) && IsRun(w, actions) && IdleRun(w, actions)
    requires Active(w.ledger).Some? && Continues(p, Active(w.ledger).value)
    ensures Survives(w, actions, p)
    decreases |actions|
  {
    hide Next;
    assert WellFormed(Active(w.ledger).value);
    if actions != [] && !Active(w.ledger).value.resuming {
      hide Inv, Careful, Active;
      NextKeeps(w, actions[0]);
      SurvivesFrom(Next(w, actions[0]), actions[1..], p);
    }
  }

  /** Live still with at least these answers, or gone for ever. */
  ghost predicate GrewOrGone(w: World, p: Park) {
    var now := Active(w.ledger);
    (now.Some? && Continues(p, now.value)) || (p.number < w.free && (now.None? || now.value.number != p.number))
  }

  lemma {:induction false} GrowsFrom(w: World, actions: seq<Action>, p: Park)
    requires Inv(w) && Careful(w) && IsRun(w, actions) && IdleRun(w, actions)
    requires GrewOrGone(w, p) && p.number < w.free
    ensures GrewOrGone(After(w, actions), p)
    decreases |actions|
  {
    hide Next, Inv, Careful, Active;
    if actions != [] {
      NextKeeps(w, actions[0]);
      GrowsFrom(Next(w, actions[0]), actions[1..], p);
    }
  }

  /**
  No answer lost, over every run of competing workers, runs that park included, as long as an unchecked run
  is let in only while nothing is parked: the continuation stays live, with every answer
  it has, until a worker finalizes it with every parked call answered; and whenever it is found live
  later its answered calls have only grown. A park written since has another number.
  */
  lemma NoAnswerLost(w: World, actions: seq<Action>, p: Park)
    requires IdleReachable(w) && IsRun(w, actions) && IdleRun(w, actions)
    requires Active(w.ledger) == Some(p)
    ensures Survives(w, actions, p)
    ensures var end := Active(After(w, actions).ledger);
      end.Some? && end.value.number == p.number ==> Continues(p, end.value)
  {
    IdleInv(w);
    SurvivesFrom(w, actions, p);
    GrowsFrom(w, actions, p);
  }

  /**
  The guard is exact: an unchecked run that is let in while a continuation is live can park over it, with
  its next store call, answered or not.
  */
  lemma UncheckedRunReplaces(w: World, owner: string, now: real, until: real, approvals: seq<string>, requests: map<string, string>)
    requires Reachable(w) && Enabled(w, RunUnchecked(owner, now, until)) && Parkable([], approvals, requests)
    requires Acquired(w.ledger, owner, now, until).1 != Granted(0) && Active(w.ledger).Some?
    ensures var w1 := Next(w, RunUnchecked(owner, now, until));
      && Enabled(w1, Advance(owner, Parks([], approvals, requests, false)))
      && var w2 := Next(w1, Advance(owner, Parks([], approvals, requests, false)));
        Active(w2.ledger).Some? && Active(w2.ledger).value.number != Active(w.ledger).value.number
  {
    hide Transitioned, Active, Shape, Requested;
    ReachableInv(w);
    var (l, _) := Acquired(w.ledger, owner, now, until);
    AcquiredLedger(w.ledger, owner, now, until, w.free);
    NumberIsTaken(w.ledger, w.free);
    NewParkHasCalls(approvals, requests);
    ParkLands(l, w.free, Park(w.free, Requested(approvals, requests), map[], false), l.issued);
  }

  lemma NumberIsTaken(l: BranchLedger<Control>, free: nat)
    requires Shape(l, free) && Active(l).Some?
    ensures Active(l).value.number < free
  {
  }

  // ── progress ─────────────────────────────────────────────────────────────

  /** Each answer to an undecided request lowers the number of undecided ones by exactly one. */
  lemma {:induction false} AnswerCountsDown(calls: seq<ParkedCall>, answers: map<string, Answer>, id: string, answer: Answer)
    requires DistinctCalls(calls)
    ensures |Undecided(calls, answers[id := answer])|
      == |Undecided(calls, answers)| - (if id in CallIds(calls) && id !in answers then 1 else 0)
  {
    if calls != [] {
      var n := |calls| - 1;
      assert DistinctCalls(calls[..n]);
      AnswerCountsDown(calls[..n], answers, id, answer);
      CallIdsOne(calls);
    }
  }

  lemma CallIdsOne(calls: seq<ParkedCall>)
    requires calls != []
    ensures var n := |calls| - 1;
      && CallIds(calls) == CallIds(calls[..n]) + {calls[n].id}
      && (DistinctCalls(calls) ==> calls[n].id !in CallIds(calls[..n]))
  {
  }

  /** `resume`, undisturbed up to the point where it announces the rest or goes on to finalize. */
  function Resumed(l: BranchLedger<Control>, token: nat, pending: string, answer: Answer): (BranchLedger<Control>, Pc) {
    var (m, pc) := Stepped(l, 0, token, Asking(pending, answer), Returns);
    if pc.Ended? then (m, pc) else Stepped(m, 0, token, pc, Returns)
  }

  /** A batch of answers, each brought by a `resume` of its own. */
  function ResumedEach(l: BranchLedger<Control>, token: nat, given: seq<(string, Answer)>): BranchLedger<Control> {
    if given == [] then l
    else
      var last := given[|given| - 1];
      Resumed(ResumedEach(l, token, given[..|given| - 1]), token, last.0, last.1).0
  }

  /** The last answer given to a pending id, if any was. */
  function LastAnswer(given: seq<(string, Answer)>, pending: string): Option<Answer> {
    if given == [] then None
    else
      var last := given[|given| - 1];
      if last.0 == pending then Some(last.1) else LastAnswer(given[..|given| - 1], pending)
  }

  function Recorded(answers: map<string, Answer>, id: string): Option<Answer> {
    if id in answers then Some(answers[id]) else None
  }

  lemma ResumedOnce(l: BranchLedger<Control>, token: nat, pending: string, answer: Answer)
    requires Active(l).Some? && WellFormed(Active(l).value) && !Stale(l, token)
    ensures var p := Active(l).value;
      var (m, pc) := Resumed(l, token, pending, answer);
      match CallFor(p.calls, pending)
      case None => m == l && pc == Ended(NoSuchPending)
      case Some(id) =>
        Active(m) == Some(p.(answers := p.answers[id := answer])) && m.issued == l.issued
        && WellFormed(Active(m).value) && pc == Proceed(p, p.answers[id := answer])
  {
    var p := Active(l).value;
    CallForIs(p.calls, pending);
    if CallFor(p.calls, pending).Some? {
      var id := CallFor(p.calls, pending).value;
      assert id in CallIds(p.calls);
      MoreAnswers(p, p.answers[id := answer]);
    }
  }

  /**
  After any batch of answers, the answer recorded for a call is the last one given to its pending id, or
  the one there was. So the value is kept exactly if nobody answered again or the last answer repeats it.
  */
  lemma {:induction false} LastAnswerIsRecorded(l: BranchLedger<Control>, token: nat, given: seq<(string, Answer)>)
    requires Active(l).Some? && WellFormed(Active(l).value) && !Stale(l, token)
    ensures var p, m := Active(l).value, ResumedEach(l, token, given);
      && Active(m).Some? && m.issued == l.issued && WellFormed(Active(m).value)
      && Active(m).value.calls == p.calls
      && forall i :: 0 <= i < |p.calls| ==>
        var id, last := p.calls[i].id, LastAnswer(given, p.calls[i].pending);
        && Recorded(Active(m).value.answers, id) == (if last.Some? then last else Recorded(p.answers, id))
        && (Recorded(Active(m).value.answers, id) == Recorded(p.answers, id) <==> last.None? || last == Recorded(p.answers, id))
  {
    hide Resumed, WellFormed;
    if given != [] {
      var n := |given| - 1;
      var p, mid := Active(l).value, ResumedEach(l, token, given[..n]);
      LastAnswerIsRecorded(l, token, given[..n]);
      ResumedOnce(mid, token, given[n].0, given[n].1);
      CallForIs(p.calls, given[n].0);
      forall i | 0 <= i < |p.calls|
        ensures CallFor(p.calls, given[n].0) == Some(p.calls[i].id) <==> given[n].0 == p.calls[i].pending
      {
        CallForUnique(Active(mid).value, i, given[n].0);
      }
    }
  }

  lemma CallForUnique(p: Park, i: nat, pending: string)
    requires WellFormed(p) && i < |p.calls|
    ensures CallFor(p.calls, pending) == Some(p.calls[i].id) <==> pending == p.calls[i].pending
  {
    CallForIs(p.calls, pending);
  }

  /**
  Answers in any order: `resume` calls one after another leave undecided exactly the requests nobody
  answered, in model order, and the last of them goes on to finalize exactly when none is left.
  */
  lemma AnyOrderFinalizes(l: BranchLedger<Control>, token: nat, given: seq<(string, Answer)>, pending: string, answer: Answer)
    requires Active(l).Some? && WellFormed(Active(l).value) && !Stale(l, token)
    requires exists i :: 0 <= i < |Active(l).value.calls| && Active(l).value.calls[i].pending == pending
    ensures var p := Active(l).value;
      var all := given + [(pending, answer)];
      var pc := Resumed(ResumedEach(l, token, given), token, pending, answer).1;
      pc.Marking? <==> forall c :: c in Undecided(p.calls, p.answers) ==> LastAnswer(all, c.pending).Some?
  {
    hide Resumed, Undecided, WellFormed;
    var p, all := Active(l).value, given + [(pending, answer)];
    assert all[..|given|] == given;
    var mid, end := ResumedEach(l, token, given), ResumedEach(l, token, all);
    LastAnswerIsRecorded(l, token, given);
    LastAnswerIsRecorded(l, token, all);
    ResumedOnce(mid, token, pending, answer);
    CallForIs(p.calls, pending);
    NoneLeft(p.calls, p.answers, Active(end).value.answers, all);
  }

  lemma NoneLeft(calls: seq<ParkedCall>, before: map<string, Answer>, after: map<string, Answer>, given: seq<(string, Answer)>)
    requires forall i :: 0 <= i < |calls| ==>
      (calls[i].id in after <==> LastAnswer(given, calls[i].pending).Some? || calls[i].id in before)
    ensures Undecided(calls, after) == [] <==> forall c :: c in Undecided(calls, before) ==> LastAnswer(given, c.pending).Some?
  {
    hide LastAnswer;
    UndecidedIs(calls, before);
    UndecidedIs(calls, after);
    if Undecided(calls, after) == [] {
      forall c | c in Undecided(calls, before)
        ensures LastAnswer(given, c.pending).Some?
      {
        assert c !in Undecided(calls, after);
      }
    } else {
      assert Undecided(calls, after)[0] in Undecided(calls, before);
    }
  }
}
