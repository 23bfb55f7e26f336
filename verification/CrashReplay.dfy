/**
Crash replay: all attempts at a run, however they overlap, crash and are replaced, follow one trail of
histories, and an attempt restarted from an earlier point of it walks to its end on the record alone.
*/
module CrashReplay {
  import opened Ledger
  import opened Attempts
  import opened FencedRetry
  import opened Replay
  import LedgerHistory

  // ── what the frames know ─────────────────────────────────────────────────

  predicate HoldsEnvelope(l: BranchLedger<Value>, task: Task) {
    task.ToolCall? && IsDone(l, KeyOf(task)) && l.steps[KeyOf(task)].value.Envelope?
  }

  predicate HoldsExactly(l: BranchLedger<Value>, task: Task, record: Record) {
    HoldsEnvelope(l, task) && l.steps[KeyOf(task)].value.record == record
  }

  /** A frame past its effect stands on a committed one. */
  predicate TruthfulPc(l: BranchLedger<Value>, hooked: bool, task: Task, pc: Pc) {
    match pc
    case JournalReading(record) => HoldsExactly(l, task, record)
    case Hooking(_) => hooked && HoldsEnvelope(l, task)
    case JournalWriting(_) => hooked && HoldsEnvelope(l, task)
    case Ended(result) =>
      (match result
       case Returned(record) => HoldsEnvelope(l, task) && (hooked || HoldsExactly(l, task, record))
       case Answered(body) => task.ModelRequest? && Read(l, KeyOf(task)) == Some(Done(Response(body)))
       case _ => true)
    case _ => true
  }

  ghost predicate Truthful(w: World, d: Driver) {
    && (forall owner :: owner in w.attempts ==> w.attempts[owner].hooked == d.hooked)
    && (forall f :: f in w.frames ==> TruthfulPc(w.ledger, d.hooked, f.1, w.frames[f]))
    && (!d.hooked ==> forall id :: AfterKey(id) !in w.ledger.steps)
  }

  lemma OwnTruth(l: BranchLedger<Value>, a: Attempt, task: Task, pc: Pc, choice: Choice, n: nat)
    requires TruthfulPc(l, a.hooked, task, pc)
    requires !a.hooked ==> MarkerOf(task) !in l.steps
    ensures var (m, next) := Advanced(l, a, task, pc, choice, n);
      && TruthfulPc(m, a.hooked, task, next)
      && (!a.hooked ==> MarkerOf(task) !in m.steps)
  {
  }

  lemma TruthStays(l: BranchLedger<Value>, m: BranchLedger<Value>, hooked: bool, task: Task, pc: Pc)
    requires TruthfulPc(l, hooked, task, pc)
    requires IsDone(l, KeyOf(task)) ==> Read(m, KeyOf(task)) == Read(l, KeyOf(task))
    ensures TruthfulPc(m, hooked, task, pc)
  {
    hide KeyOf;
  }

  lemma AdvanceIsTruthful(w: World, d: Driver, owner: string, task: Task, choice: Choice)
    requires Truthful(w, d) && Enabled(w, Advance(owner, task, choice))
    ensures Truthful(Next(w, Advance(owner, task, choice)), d)
  {
    hide Advanced, TruthfulPc, KeyOf, MarkerOf;
    var action := Advance(owner, task, choice);
    var w' := Next(w, action);
    assert TruthfulPc(w.ledger, d.hooked, task, w.frames[(owner, task)]);
    assert !d.hooked ==> MarkerOf(task) !in w.ledger.steps by { MarkerIsAfter(task); }
    OwnTruth(w.ledger, w.attempts[owner], task, w.frames[(owner, task)], choice, |w.invocations|);
    forall f | f in w'.frames && f != (owner, task)
      ensures TruthfulPc(w'.ledger, d.hooked, f.1, w'.frames[f])
    {
      if IsDone(w.ledger, KeyOf(f.1)) {
        ResultsStay(w, action, f.1);
      }
      TruthStays(w.ledger, w'.ledger, d.hooked, f.1, w.frames[f]);
    }
    if !d.hooked {
      forall id
        ensures AfterKey(id) !in w'.ledger.steps
      {
        UnhookedMarker(w, owner, task, choice, id);
      }
    }
  }

  lemma MarkerIsAfter(task: Task)
    ensures exists id :: MarkerOf(task) == AfterKey(id)
  {
    assert MarkerOf(task) == AfterKey(if task.ToolCall? then task.id else "");
  }

  lemma UnhookedMarker(w: World, owner: string, task: Task, choice: Choice, id: string)
    requires Enabled(w, Advance(owner, task, choice)) && AfterKey(id) !in w.ledger.steps
    requires MarkerOf(task) !in Next(w, Advance(owner, task, choice)).ledger.steps
    ensures AfterKey(id) !in Next(w, Advance(owner, task, choice)).ledger.steps
  {
    hide Advanced;
    KeysApart(task, task, id, if task.ToolCall? then task.id else "");
    TouchedKeys(w.ledger, w.attempts[owner], task, w.frames[(owner, task)], choice, |w.invocations|, AfterKey(id));
    assert Read(w.ledger, AfterKey(id)) == None;
  }

  // ── what any action leaves of the record ─────────────────────────────────

  ghost predicate Touched(w: World, id: string) {
    StepKey(id) in w.ledger.steps || exists owner :: (owner, ToolCall(id)) in w.frames
  }

  /** Committed results and projections are there as before. */
  ghost predicate Grew(l: BranchLedger<Value>, m: BranchLedger<Value>) {
    && (forall t :: IsDone(l, KeyOf(t)) ==> Read(m, KeyOf(t)) == Read(l, KeyOf(t)))
    && (forall id :: AfterKey(id) in l.steps ==> Read(m, AfterKey(id)) == Read(l, AfterKey(id)))
  }

  /** The driver's only actions on the world beside beginning a step. */
  predicate Plain(w: World, action: Action, d: Driver) {
    && Enabled(w, action)
    && (action.Environment? || action.Advance? || (action.Join? && action.hooked == d.hooked))
  }

  lemma PlainStep(w: World, action: Action, d: Driver)
    requires FenceInv(w) && Truthful(w, d) && Plain(w, action, d)
    ensures var w' := Next(w, action);
      && FenceInv(w') && Truthful(w', d) && Grew(w.ledger, w'.ledger)
      && w'.frames.Keys == w.frames.Keys && w.attempts.Keys <= w'.attempts.Keys
      && (forall id :: Touched(w', id) ==> Touched(w, id))
  {
    hide Next, FenceInv, Truthful, KeyOf, AfterKey, Touched, Enabled;
    var w' := Next(w, action);
    NextKeepsFence(w, action);
    forall t | IsDone(w.ledger, KeyOf(t))
      ensures Read(w'.ledger, KeyOf(t)) == Read(w.ledger, KeyOf(t))
    {
      ResultsStay(w, action, t);
    }
    forall id | AfterKey(id) in w.ledger.steps
      ensures Read(w'.ledger, AfterKey(id)) == Read(w.ledger, AfterKey(id))
    {
      ProjectionStays(w, action, id);
    }
    PlainIsTruthful(w, action, d);
    PlainKeys(w, action, d);
    forall id | Touched(w', id)
      ensures Touched(w, id)
    {
      PlainTouches(w, action, d, id);
    }
  }

  lemma PlainKeys(w: World, action: Action, d: Driver)
    requires Plain(w, action, d)
    ensures Next(w, action).frames.Keys == w.frames.Keys && w.attempts.Keys <= Next(w, action).attempts.Keys
  {
    hide Apply, Advanced;
  }

  lemma PlainTouches(w: World, action: Action, d: Driver, id: string)
    requires Plain(w, action, d) && Touched(Next(w, action), id)
    ensures Touched(w, id)
  {
    hide Next;
    PlainKeys(w, action, d);
    NewStep(w, action, d, id);
    if !(StepKey(id) in Next(w, action).ledger.steps) {
      var owner :| (owner, ToolCall(id)) in Next(w, action).frames;
      assert (owner, ToolCall(id)) in w.frames;
    } else if StepKey(id) !in w.ledger.steps {
      assert (action.owner, ToolCall(id)) in w.frames;
    }
  }

  lemma NewStep(w: World, action: Action, d: Driver, id: string)
    requires Plain(w, action, d)
    ensures StepKey(id) in Next(w, action).ledger.steps && StepKey(id) !in w.ledger.steps ==>
      action.Advance? && action.task == ToolCall(id)
  {
    hide Apply, Advanced;
    assert KeyOf(ToolCall(id)) == StepKey(id);
    match action
    case Advance(owner, task, choice) =>
      KeysApart(task, ToolCall(id), if task.ToolCall? then task.id else "", "");
      TouchedKeys(w.ledger, w.attempts[owner], task, w.frames[(owner, task)], choice, |w.invocations|, StepKey(id));
      assert task != ToolCall(id) ==> Read(Next(w, action).ledger, StepKey(id)) == Read(w.ledger, StepKey(id));
    case Environment(op) =>
      KeysApart(ToolCall(id), ToolCall(id), "", "");
      ForeignKeeps(w.ledger, op, w.attempts.Keys, StepKey(id));
      assert Read(Next(w, action).ledger, StepKey(id)) == Read(w.ledger, StepKey(id));
    case _ =>
  }

  lemma PlainIsTruthful(w: World, action: Action, d: Driver)
    requires FenceInv(w) && Truthful(w, d) && Plain(w, action, d)
    ensures Truthful(Next(w, action), d)
  {
    hide FenceInv, TruthfulPc, KeyOf, AfterKey, Apply, Advanced;
    var w' := Next(w, action);
    match action
    case Advance(owner, task, choice) => AdvanceIsTruthful(w, d, owner, task, choice);
    case Join(_, _, _, _, _) =>
      forall f | f in w'.frames
        ensures TruthfulPc(w'.ledger, d.hooked, f.1, w'.frames[f])
      {
        TruthStays(w.ledger, w'.ledger, d.hooked, f.1, w.frames[f]);
      }
    case Environment(op) =>
      forall f | f in w'.frames
        ensures TruthfulPc(w'.ledger, d.hooked, f.1, w'.frames[f])
      {
        if IsDone(w.ledger, KeyOf(f.1)) {
          ResultsStay(w, action, f.1);
        }
        TruthStays(w.ledger, w'.ledger, d.hooked, f.1, w.frames[f]);
      }
      forall id | !d.hooked
        ensures AfterKey(id) !in w'.ledger.steps
      {
        KeysApart(ToolCall(id), ToolCall(id), id, id);
        ForeignKeeps(w.ledger, op, w.attempts.Keys, AfterKey(id));
        assert Read(w'.ledger, AfterKey(id)) == Read(w.ledger, AfterKey(id));
      }
  }

  // ── the record of the round ──────────────────────────────────────────────

  lemma PendingIsNoStep(task: Task)
    ensures PENDING_ROUND != KeyOf(task) && PENDING_ROUND != MarkerOf(task) && !IsProtocolKey(PENDING_ROUND)
  {
    KeysApart(task, task, if task.ToolCall? then task.id else "", "");
    assert PENDING_ROUND[0] == 'a' && PENDING_ROUND[1] == 'g' && PENDING_ROUND[6] == 'p';
    assert "agent:model:"[6] == 'm';
  }

  lemma LeftAlone(l: BranchLedger<Value>, op: Op<Value>)
    requires LeavesRound(op)
    ensures Read(Apply(l, op).0, PENDING_ROUND) == Read(l, PENDING_ROUND)
  {
    if op.Commit? {
      LedgerHistory.CompletedStep(l.steps, op.transition.effects, PENDING_ROUND);
    }
  }

  /** No action but an attempt's own record touches the round on record. */
  lemma RoundStands(w: World, action: Action, d: Driver)
    requires Plain(w, action, d) && (action.Environment? ==> LeavesRound(action.op))
    ensures Read(Next(w, action).ledger, PENDING_ROUND) == Read(w.ledger, PENDING_ROUND)
  {
    hide Advanced, Apply, KeyOf, MarkerOf, IsProtocolKey;
    match action
    case Advance(owner, task, choice) =>
      PendingIsNoStep(task);
      TouchedKeys(w.ledger, w.attempts[owner], task, w.frames[(owner, task)], choice, |w.invocations|, PENDING_ROUND);
    case Environment(op) => LeftAlone(w.ledger, op);
    case _ =>
  }

  // ── what holds of every reachable state ──────────────────────────────────

  /** From `base` on, every message of the trail is the one the ledger decides. */
  ghost predicate Supported(r: Runs, d: Driver) {
    && 1 <= r.base <= |r.trail|
    && (forall k :: r.base <= k < |r.trail| ==> ReplayNext(r.world.ledger, d, r.trail[..k]) == Some(r.trail[k]))
  }

  /** The call was started on the word of the gate, which had denied its id to no earlier call. */
  ghost predicate Started(d: Driver, trail: seq<Body>, base: nat, k: nat, i: nat, id: string) {
    base <= k + 1 && Makes(d, trail, k, i, id) && d.gate(trail[..k + 1], i) == Continue && !DeniedBefore(d, trail, base, k, i, id)
  }

  /** A step exists, or is being made, for calls of the trail only that were started so. */
  ghost predicate Gated(r: Runs, d: Driver) {
    forall id :: Touched(r.world, id) ==> exists k, i :: Started(d, r.trail, r.base, k, i, id)
  }

  /** The round on record is one of the trail's. */
  ghost predicate RoundKnown(r: Runs, d: Driver) {
    RecordedRound(r.world.ledger).Some? ==> exists k :: IsRound(d, r.trail, k, RecordedRound(r.world.ledger).value)
  }

  /** These are the calls message `k` of the trail makes, and it makes some. */
  predicate IsRound(d: Driver, trail: seq<Body>, k: nat, calls: seq<string>) {
    k < |trail| && calls != [] && CallsOf(d, trail[..k + 1]) == calls
  }

  /** The step an attempt waits for is the next of its round. */
  predicate Waits(d: Driver, s: Session, task: Task) {
    var bodies := Bodies(s.history);
    bodies != [] &&
    if bodies[|bodies| - 1].Ask? then task == ModelRequest(d.digest(bodies))
    else |s.told| < |CallsOf(d, bodies)| && task == ToolCall(CallsOf(d, bodies)[|s.told|])
  }

  /** An attempt stands on the trail, and was told what the ledger says. */
  ghost predicate OnTrail(r: Runs, d: Driver, owner: string)
    requires owner in r.sessions
  {
    var s := r.sessions[owner];
    var bodies := Bodies(s.history);
    && owner in r.world.attempts
    && r.base <= |bodies| <= |r.trail| && bodies == r.trail[..|bodies|]
    && |s.told| <= |CallsOf(d, bodies)|
    && (forall i :: 0 <= i < |s.told| ==> ToldBy(r.world.ledger, d, bodies, i) == Some(s.told[i]))
    && (!s.begun && CallsOf(d, bodies) != [] ==> s.told == [] && !s.stage.Awaiting?)
    && (s.stage.Awaiting? ==> (owner, s.stage.task) in r.world.frames && Waits(d, s, s.stage.task))
  }

  ghost predicate AllOnTrail(r: Runs, d: Driver) {
    forall owner :: owner in r.sessions ==> OnTrail(r, d, owner)
  }

  ghost predicate RunsInv(r: Runs, d: Driver) {
    && FenceInv(r.world) && Truthful(r.world, d)
    && Supported(r, d) && Gated(r, d) && RoundKnown(r, d) && AllOnTrail(r, d)
  }

  // ── calls that were passed ───────────────────────────────────────────────

  /** Every call before this one, from the round at `base` on, is decided by the ledger. */
  ghost predicate Reached(r: Runs, d: Driver, k: nat, i: nat) {
    forall j: nat, a: nat :: r.base <= j + 1 && Before(j, a, k, i) ==> IsDecided(r, d, j, a)
  }

  ghost predicate IsDecided(r: Runs, d: Driver, j: nat, a: nat) {
    j < |r.trail| && a < |CallsOf(d, r.trail[..j + 1])| ==> ToldBy(r.world.ledger, d, r.trail[..j + 1], a).Some?
  }

  lemma {:induction false} RoundDecidesEach(l: BranchLedger<Value>, d: Driver, bodies: seq<Body>, n: nat, i: nat)
    requires i < n <= |CallsOf(d, bodies)| && RoundOf(l, d, bodies, n).Some?
    ensures ToldBy(l, d, bodies, i).Some? && |RoundOf(l, d, bodies, n).value| == n
    ensures RoundOf(l, d, bodies, n).value[i] == ToldBy(l, d, bodies, i).value
  {
    hide ToldBy, CallsOf;
    RoundLength(l, d, bodies, n - 1);
    if i < n - 1 {
      RoundDecidesEach(l, d, bodies, n - 1, i);
    }
  }

  lemma {:induction false} RoundLength(l: BranchLedger<Value>, d: Driver, bodies: seq<Body>, n: nat)
    requires n <= |CallsOf(d, bodies)| && RoundOf(l, d, bodies, n).Some?
    ensures |RoundOf(l, d, bodies, n).value| == n
  {
    hide ToldBy, CallsOf;
    if n > 0 {
      RoundLength(l, d, bodies, n - 1);
    }
  }

  lemma DecidedRound(l: BranchLedger<Value>, d: Driver, bodies: seq<Body>)
    requires ReplayNext(l, d, bodies).Some? && CallsOf(d, bodies) != []
    ensures RoundOf(l, d, bodies, |CallsOf(d, bodies)|).Some?
  {
    hide RoundOf;
    NoCallsAfterAsk(d, bodies);
  }

  lemma NoCallsAfterAsk(d: Driver, bodies: seq<Body>)
    ensures bodies == [] || bodies[|bodies| - 1].Ask? ==> CallsOf(d, bodies) == []
  {
  }

  /** A call is reached when the calls before it in its round are decided: earlier rounds the trail has passed. */
  lemma ReachedAt(r: Runs, d: Driver, n: nat, i: nat)
    requires Supported(r, d) && r.base <= n <= |r.trail| && i <= |CallsOf(d, r.trail[..n])|
    requires forall a :: 0 <= a < i ==> ToldBy(r.world.ledger, d, r.trail[..n], a).Some?
    ensures Reached(r, d, n - 1, i)
  {
    hide ToldBy, CallsOf, ReplayNext, RoundOf;
    forall j: nat, a: nat | r.base <= j + 1 && Before(j, a, n - 1, i)
      ensures IsDecided(r, d, j, a)
    {
      if j < n - 1 && a < |CallsOf(d, r.trail[..j + 1])| {
        assert ReplayNext(r.world.ledger, d, r.trail[..j + 1]) == Some(r.trail[j + 1]);
        DecidedRound(r.world.ledger, d, r.trail[..j + 1]);
        RoundDecidesEach(r.world.ledger, d, r.trail[..j + 1], |CallsOf(d, r.trail[..j + 1])|, a);
      }
    }
  }

  /** A reached call that the gate denies and whose id was touched is done: an earlier call of that id ran. */
  lemma TouchedIsDone(r: Runs, d: Driver, k: nat, i: nat, id: string)
    requires Gated(r, d) && Reached(r, d, k, i) && r.base <= k + 1
    requires Makes(d, r.trail, k, i, id) && d.gate(r.trail[..k + 1], i).Deny? && Touched(r.world, id)
    ensures IsDone(r.world.ledger, StepKey(id))
  {
    hide Touched, CallsOf;
    var j, a :| Started(d, r.trail, r.base, j, a, id);
    assert !DeniedBefore(d, r.trail, r.base, j, a, id);
    assert Before(j, a, k, i);
    assert IsDecided(r, d, j, a);
  }

  /** What is decided of a reached call stays decided: it is done, or nobody has touched it. */
  lemma DecidedIsSafe(r: Runs, d: Driver, n: nat, i: nat)
    requires Supported(r, d) && Gated(r, d) && r.base <= n <= |r.trail| && i < |CallsOf(d, r.trail[..n])|
    requires forall a :: 0 <= a <= i ==> ToldBy(r.world.ledger, d, r.trail[..n], a).Some?
    ensures var id := CallsOf(d, r.trail[..n])[i];
      IsDone(r.world.ledger, StepKey(id)) || !Touched(r.world, id)
  {
    hide Supported, Gated, CallsOf, Touched;
    var id := CallsOf(d, r.trail[..n])[i];
    BaseIsPositive(r, d);
    ReachedAt(r, d, n, i);
    assert r.trail[..(n - 1) + 1] == r.trail[..n];
    assert Makes(d, r.trail, n - 1, i, id);
    assert ToldBy(r.world.ledger, d, r.trail[..n], i).Some?;
    if !IsDone(r.world.ledger, StepKey(id)) && Touched(r.world, id) {
      TouchedIsDone(r, d, n - 1, i, id);
    }
  }

  // ── a ledger that grew still says the same ───────────────────────────────

  lemma ToldStays(l: BranchLedger<Value>, m: BranchLedger<Value>, d: Driver, bodies: seq<Body>, i: nat)
    requires i < |CallsOf(d, bodies)| && ToldBy(l, d, bodies, i).Some? && Grew(l, m)
    requires IsDone(l, StepKey(CallsOf(d, bodies)[i])) || StepKey(CallsOf(d, bodies)[i]) !in m.steps
    ensures ToldBy(m, d, bodies, i) == ToldBy(l, d, bodies, i)
  {
    var id := CallsOf(d, bodies)[i];
    assert KeyOf(ToolCall(id)) == StepKey(id);
    assert IsDone(l, StepKey(id)) ==> Read(m, StepKey(id)) == Read(l, StepKey(id));
  }

  lemma {:induction false} RoundStays(l: BranchLedger<Value>, m: BranchLedger<Value>, d: Driver, bodies: seq<Body>, n: nat)
    requires n <= |CallsOf(d, bodies)| && RoundOf(l, d, bodies, n).Some? && Grew(l, m)
    requires forall i :: 0 <= i < n ==>
      IsDone(l, StepKey(CallsOf(d, bodies)[i])) || StepKey(CallsOf(d, bodies)[i]) !in m.steps
    ensures RoundOf(m, d, bodies, n) == RoundOf(l, d, bodies, n)
  {
    hide ToldBy, Grew;
    if n > 0 {
      RoundStays(l, m, d, bodies, n - 1);
      ToldStays(l, m, d, bodies, n - 1);
    }
  }

  lemma NextStays(l: BranchLedger<Value>, m: BranchLedger<Value>, d: Driver, bodies: seq<Body>)
    requires ReplayNext(l, d, bodies).Some? && Grew(l, m)
    requires forall i :: 0 <= i < |CallsOf(d, bodies)| ==>
      IsDone(l, StepKey(CallsOf(d, bodies)[i])) || StepKey(CallsOf(d, bodies)[i]) !in m.steps
    ensures ReplayNext(m, d, bodies) == ReplayNext(l, d, bodies)
  {
    hide RoundOf;
    if bodies[|bodies| - 1].Ask? {
      assert Read(m, KeyOf(ModelRequest(d.digest(bodies)))) == Read(l, KeyOf(ModelRequest(d.digest(bodies))));
    } else if CallsOf(d, bodies) != [] {
      RoundStays(l, m, d, bodies, |CallsOf(d, bodies)|);
    }
  }

  /** Calls that are told stay told: none of them is touched anew. */
  lemma UntouchedStays(r: Runs, m: BranchLedger<Value>, d: Driver, n: nat, i: nat)
    requires Supported(r, d) && Gated(r, d) && r.base <= n <= |r.trail| && i < |CallsOf(d, r.trail[..n])|
    requires forall a :: 0 <= a <= i ==> ToldBy(r.world.ledger, d, r.trail[..n], a).Some?
    requires forall id :: StepKey(id) in m.steps ==> Touched(r.world, id)
    ensures var id := CallsOf(d, r.trail[..n])[i];
      IsDone(r.world.ledger, StepKey(id)) || StepKey(id) !in m.steps
  {
    hide Supported, Gated, CallsOf, Touched, ToldBy;
    DecidedIsSafe(r, d, n, i);
  }

  lemma WorldSupports(r: Runs, m: BranchLedger<Value>, d: Driver, k: nat)
    requires Supported(r, d) && Gated(r, d) && Grew(r.world.ledger, m) && r.base <= k < |r.trail|
    requires forall id :: StepKey(id) in m.steps ==> Touched(r.world, id)
    ensures ReplayNext(m, d, r.trail[..k]) == Some(r.trail[k])
  {
    hide Gated, Grew, CallsOf, Touched, ToldBy, ReplayNext, RoundOf;
    var bodies := r.trail[..k];
    var n := |CallsOf(d, bodies)|;
    if n > 0 {
      DecidedRound(r.world.ledger, d, bodies);
      forall i | 0 <= i < n
        ensures ToldBy(r.world.ledger, d, bodies, i).Some?
      {
        RoundDecidesEach(r.world.ledger, d, bodies, n, i);
      }
      forall i | 0 <= i < n
        ensures IsDone(r.world.ledger, StepKey(CallsOf(d, bodies)[i])) || StepKey(CallsOf(d, bodies)[i]) !in m.steps
      {
        UntouchedStays(r, m, d, k, i);
      }
    }
    NextStays(r.world.ledger, m, d, bodies);
  }

  lemma WorldKeepsSession(r: Runs, r': Runs, d: Driver, owner: string)
    requires Supported(r, d) && Gated(r, d) && owner in r.sessions && OnTrail(r, d, owner) && Grew(r.world.ledger, r'.world.ledger)
    requires forall id :: StepKey(id) in r'.world.ledger.steps ==> Touched(r.world, id)
    requires r'.world.frames.Keys == r.world.frames.Keys && r.world.attempts.Keys <= r'.world.attempts.Keys
    requires r'.sessions == r.sessions && r'.trail == r.trail && r'.base == r.base
    ensures OnTrail(r', d, owner)
  {
    hide Supported, Gated, Grew, CallsOf, Touched, ToldBy, Waits;
    var s := r.sessions[owner];
    var bodies := Bodies(s.history);
    forall i | 0 <= i < |s.told|
      ensures ToldBy(r'.world.ledger, d, bodies, i) == Some(s.told[i])
    {
      BaseIsPositive(r, d);
      UntouchedStays(r, r'.world.ledger, d, |bodies|, i);
      ToldStays(r.world.ledger, r'.world.ledger, d, bodies, i);
    }
  }

  lemma BaseIsPositive(r: Runs, d: Driver)
    requires Supported(r, d)
    ensures 1 <= r.base <= |r.trail|
  {
  }

  /** The world moved under the attempts: ledger grown, nothing new touched, the round on record as it was. */
  lemma WorldMoves(r: Runs, r': Runs, d: Driver)
    requires RunsInv(r, d)
    requires FenceInv(r'.world) && Truthful(r'.world, d) && Grew(r.world.ledger, r'.world.ledger)
    requires r'.world.frames.Keys == r.world.frames.Keys && r.world.attempts.Keys <= r'.world.attempts.Keys
    requires forall id :: Touched(r'.world, id) ==> Touched(r.world, id)
    requires r'.sessions == r.sessions && r'.trail == r.trail && r'.base == r.base && RoundKnown(r', d)
    ensures RunsInv(r', d)
  {
    hide FenceInv, Truthful, Grew, ToldBy, ReplayNext, CallsOf, Makes, Waits, RoundKnown, OnTrail, Started;
    forall id | StepKey(id) in r'.world.ledger.steps
      ensures Touched(r.world, id)
    {
      assert Touched(r'.world, id);
    }
    assert Gated(r', d);
    forall k | r.base <= k < |r.trail|
      ensures ReplayNext(r'.world.ledger, d, r.trail[..k]) == Some(r.trail[k])
    {
      WorldSupports(r, r'.world.ledger, d, k);
    }
    forall owner | owner in r.sessions
      ensures OnTrail(r', d, owner)
    {
      WorldKeepsSession(r, r', d, owner);
    }
  }

  // ── the moves of an attempt ──────────────────────────────────────────────

  lemma OthersOnTrail(r: Runs, r': Runs, d: Driver, owner: string)
    requires AllOnTrail(r, d) && r'.base == r.base && r'.world.ledger == r.world.ledger
    requires r.trail <= r'.trail && r.world.frames.Keys <= r'.world.frames.Keys && r.world.attempts.Keys <= r'.world.attempts.Keys
    requires r'.sessions.Keys == r.sessions.Keys + {owner}
    requires forall o :: o in r.sessions && o != owner ==> r'.sessions[o] == r.sessions[o]
    requires OnTrail(r', d, owner)
    ensures AllOnTrail(r', d)
  {
    hide ToldBy, CallsOf, Waits;
    forall o | o in r'.sessions
      ensures OnTrail(r', d, o)
    {
      if o != owner {
        assert OnTrail(r, d, o);
        var n := |r.sessions[o].history|;
        assert r'.trail[..n] == r.trail[..n];
      }
    }
  }

  lemma SessionOnly(r: Runs, d: Driver, owner: string, s: Session)
    requires RunsInv(r, d) && OnTrail(r.(sessions := r.sessions[owner := s]), d, owner)
    ensures RunsInv(r.(sessions := r.sessions[owner := s]), d)
  {
    hide FenceInv, Truthful, OnTrail, AllOnTrail;
    OthersOnTrail(r, r.(sessions := r.sessions[owner := s]), d, owner);
  }

  lemma EnterKeeps(r: Runs, d: Driver, owner: string, history: seq<Message>, recovers: bool)
    requires RunsInv(r, d) && Allowed(r, d, Enter(owner, history, recovers))
    ensures RunsInv(Moved(r, d, Enter(owner, history, recovers)), d)
  {
    hide FenceInv, Truthful, AllOnTrail, Gated, Supported, RoundKnown, Accepts;
    SessionOnly(r, d, owner, Session(history, false, [], Thinking));
  }

  lemma HaltKeeps(r: Runs, d: Driver, owner: string)
    requires RunsInv(r, d) && owner in r.sessions
    ensures RunsInv(Halted(r, owner), d)
  {
    hide FenceInv, Truthful, ToldBy, CallsOf, Gated, Supported, RoundKnown;
    assert OnTrail(r, d, owner);
    SessionOnly(r, d, owner, r.sessions[owner].(stage := Stopped));
  }

  lemma ToldOneKeeps(r: Runs, d: Driver, owner: string, told: Told)
    requires RunsInv(r, d) && owner in r.sessions
    requires var s := r.sessions[owner];
      s.begun && |s.told| < |CallsOf(d, Bodies(s.history))|
      && ToldBy(r.world.ledger, d, Bodies(s.history), |s.told|) == Some(told)
    ensures RunsInv(ToldOne(r, owner, told), d)
  {
    hide FenceInv, Truthful, ToldBy, CallsOf, Gated, Supported, RoundKnown;
    var s := r.sessions[owner];
    assert OnTrail(r, d, owner);
    SessionOnly(r, d, owner, s.(told := s.told + [told], stage := Thinking));
  }

  /** The fenced record of a round: no step and no marker sees it. */
  lemma RecordKeeps(r: Runs, d: Driver, owner: string, turn: nat)
    requires RunsInv(r, d) && owner in r.sessions && owner in r.world.attempts
    requires CallsOf(d, Bodies(r.sessions[owner].history)) != []
    ensures RunsInv(RoundRecorded(r, owner, CallsOf(d, Bodies(r.sessions[owner].history)), turn), d)
  {
    hide RunsInv, Next, CallsOf;
    var calls := CallsOf(d, Bodies(r.sessions[owner].history));
    var token := r.world.attempts[owner].token;
    if Stale(r.world.ledger, token) {
      HaltKeeps(r, d, owner);
    } else {
      var action := Environment(WriteControl(PENDING_ROUND, PendingRound(calls, turn), token));
      RecordIsPlain(r, d, calls, turn, token);
      var mid := r.(world := Next(r.world, action));
      RecordWorld(r, mid, d, action, owner);
      BegunKeeps(mid, d, owner);
      RecordIs(r.world, calls, turn, token);
    }
  }

  lemma RecordIsPlain(r: Runs, d: Driver, calls: seq<string>, turn: nat, token: nat)
    ensures Plain(r.world, Environment(WriteControl(PENDING_ROUND, PendingRound(calls, turn), token)), d)
  {
    PendingIsNoStep(ToolCall(""));
  }

  lemma RecordIs(w: World, calls: seq<string>, turn: nat, token: nat)
    requires calls != [] && !Stale(w.ledger, token)
    requires Enabled(w, Environment(WriteControl(PENDING_ROUND, PendingRound(calls, turn), token)))
    ensures Next(w, Environment(WriteControl(PENDING_ROUND, PendingRound(calls, turn), token)))
      == w.(ledger := RoundBegun(w.ledger, token, calls, turn).0)
    ensures RoundBegun(w.ledger, token, calls, turn).1 == Written
    ensures RecordedRound(RoundBegun(w.ledger, token, calls, turn).0) == Some(calls)
  {
  }

  lemma RecordWorld(r: Runs, r': Runs, d: Driver, action: Action, owner: string)
    requires RunsInv(r, d) && Plain(r.world, action, d) && r' == r.(world := Next(r.world, action))
    requires owner in r.sessions && action.Environment? && action.op.WriteControl?
    requires action.op.key == PENDING_ROUND && action.op.value.PendingRound? && !Stale(r.world.ledger, action.op.token)
    requires action.op.value.calls == CallsOf(d, Bodies(r.sessions[owner].history)) != []
    ensures RunsInv(r', d)
  {
    hide FenceInv, Truthful, Supported, Gated, AllOnTrail, Grew, Touched, CallsOf;
    PlainStep(r.world, action, d);
    ToldSoFar(r, d, owner);
    var n := |r.sessions[owner].history|;
    assert r.trail[..(n - 1) + 1] == r.trail[..n];
    assert IsRound(d, r'.trail, n - 1, action.op.value.calls);
    hide Next, RunsInv;
    WorldMoves(r, r', d);
  }

  lemma BegunKeeps(r: Runs, d: Driver, owner: string)
    requires RunsInv(r, d) && owner in r.sessions
    ensures RunsInv(r.(sessions := r.sessions[owner := r.sessions[owner].(begun := true)]), d)
  {
    hide FenceInv, Truthful, ToldBy, CallsOf, Gated, Supported, RoundKnown;
    assert OnTrail(r, d, owner);
    SessionOnly(r, d, owner, r.sessions[owner].(begun := true));
  }

  /** Beginning a step: on the record, or on the word of a gate that denied its id to no earlier call. */
  lemma BeginKeeps(r: Runs, d: Driver, owner: string, task: Task)
    requires RunsInv(r, d) && owner in r.sessions && Waits(d, r.sessions[owner], task)
    requires task.ModelRequest? || Touched(r.world, task.id) || StartsWell(r, d, owner)
    requires task.ToolCall? ==> r.sessions[owner].begun
    ensures RunsInv(Begun(r, owner, task), d)
  {
    hide OnTrail, AllOnTrail, Waits, Bodies, Gated, Supported, RoundKnown, FenceInv, Truthful, StartsWell;
    BeginOnTrail(r, d, owner, task);
    BeginFrame(r, d, owner, task);
    BeginGated(r, d, owner, task);
    SameTrailSupports(r, Begun(r, owner, task), d);
  }

  lemma BeginOnTrail(r: Runs, d: Driver, owner: string, task: Task)
    requires AllOnTrail(r, d) && owner in r.sessions && Waits(d, r.sessions[owner], task)
    requires task.ToolCall? ==> r.sessions[owner].begun
    ensures AllOnTrail(Begun(r, owner, task), d)
  {
    hide ToldBy, CallsOf;
    NoCallsAfterAsk(d, Bodies(r.sessions[owner].history));
    assert OnTrail(r, d, owner);
    assert OnTrail(Begun(r, owner, task), d, owner);
    OthersOnTrail(r, Begun(r, owner, task), d, owner);
  }

  lemma SameTrailSupports(r: Runs, r': Runs, d: Driver)
    requires Supported(r, d) && RoundKnown(r, d)
    requires r'.world.ledger == r.world.ledger && r'.trail == r.trail && r'.base == r.base
    ensures Supported(r', d) && RoundKnown(r', d)
  {
    hide ReplayNext, CallsOf;
  }

  ghost predicate StartsWell(r: Runs, d: Driver, owner: string)
    requires owner in r.sessions
  {
    var s := r.sessions[owner];
    var bodies := Bodies(s.history);
    && bodies != [] && |s.told| < |CallsOf(d, bodies)|
    && d.gate(bodies, |s.told|) == Continue
    && !DeniedBefore(d, bodies, r.base, |bodies| - 1, |s.told|, CallsOf(d, bodies)[|s.told|])
  }

  lemma BeginFrame(r: Runs, d: Driver, owner: string, task: Task)
    requires RunsInv(r, d) && owner in r.sessions
    ensures var w' := Begun(r, owner, task).world;
      FenceInv(w') && Truthful(w', d)
  {
    hide Gated, Supported, RoundKnown, ToldBy, CallsOf;
    assert OnTrail(r, d, owner);
    ResetKeepsFence(r.world, Begun(r, owner, task).world, (owner, task), Reading);
  }

  lemma DeniedOnPrefix(d: Driver, trail: seq<Body>, n: nat, base: nat, i: nat, id: string)
    requires 1 <= n <= |trail|
    ensures DeniedBefore(d, trail, base, n - 1, i, id) ==> DeniedBefore(d, trail[..n], base, n - 1, i, id)
  {
    if j: nat, a: nat :| base <= j + 1 && Before(j, a, n - 1, i) && Makes(d, trail, j, a, id) && d.gate(trail[..j + 1], a).Deny? {
      assert trail[..n][..j + 1] == trail[..j + 1];
      assert Makes(d, trail[..n], j, a, id);
    }
  }

  lemma BeginGated(r: Runs, d: Driver, owner: string, task: Task)
    requires Gated(r, d) && owner in r.sessions && Supported(r, d)
    requires AllOnTrail(r, d) && Waits(d, r.sessions[owner], task)
    requires task.ModelRequest? || Touched(r.world, task.id) || StartsWell(r, d, owner)
    ensures Gated(Begun(r, owner, task), d)
  {
    hide ToldBy, CallsOf, DeniedBefore, ReplayNext;
    var r' := Begun(r, owner, task);
    var s := r.sessions[owner];
    var n := |s.history|;
    assert OnTrail(r, d, owner);
    assert r.trail[..(n - 1) + 1] == Bodies(s.history);
    forall id
      ensures Touched(r'.world, id) ==> Touched(r.world, id) || task == ToolCall(id)
    {
      if StepKey(id) !in r.world.ledger.steps && Touched(r'.world, id) {
        var o :| (o, ToolCall(id)) in r'.world.frames;
        assert (o, ToolCall(id)) in r.world.frames || (o, ToolCall(id)) == (owner, task);
      }
    }
    NoCallsAfterAsk(d, Bodies(s.history));
    if task.ToolCall? && !Touched(r.world, task.id) {
      DeniedOnPrefix(d, r.trail, n, r.base, |s.told|, task.id);
      assert Makes(d, r.trail, n - 1, |s.told|, task.id);
      assert Started(d, r.trail, r.base, n - 1, |s.told|, task.id);
    }
  }

  lemma MakesEarlier(d: Driver, trail: seq<Body>, body: Body, k: nat, i: nat, id: string)
    requires k < |trail|
    ensures Makes(d, trail + [body], k, i, id) <==> Makes(d, trail, k, i, id)
    ensures (trail + [body])[..k + 1] == trail[..k + 1]
  {
    assert (trail + [body])[..k + 1] == trail[..k + 1];
  }

  lemma DeniedOnLonger(d: Driver, trail: seq<Body>, body: Body, base: nat, k: nat, i: nat, id: string)
    requires k < |trail|
    ensures DeniedBefore(d, trail + [body], base, k, i, id) ==> DeniedBefore(d, trail, base, k, i, id)
  {
    hide CallsOf;
    if j: nat, a: nat :| base <= j + 1 && Before(j, a, k, i) && Makes(d, trail + [body], j, a, id) && d.gate((trail + [body])[..j + 1], a).Deny? {
      MakesEarlier(d, trail, body, j, a, id);
    }
  }

  lemma StartedEarlier(d: Driver, trail: seq<Body>, body: Body, base: nat, k: nat, i: nat, id: string)
    requires Started(d, trail, base, k, i, id)
    ensures Started(d, trail + [body], base, k, i, id)
  {
    hide CallsOf, DeniedBefore;
    MakesEarlier(d, trail, body, k, i, id);
    DeniedOnLonger(d, trail, body, base, k, i, id);
  }

  lemma TrailGrows(r: Runs, d: Driver, body: Body)
    requires Supported(r, d) && Gated(r, d) && RoundKnown(r, d)
    requires ReplayNext(r.world.ledger, d, r.trail) == Some(body)
    ensures var r' := r.(trail := r.trail + [body]);
      Supported(r', d) && Gated(r', d) && RoundKnown(r', d)
  {
    hide ReplayNext, CallsOf, Touched, Started;
    var longer := r.trail + [body];
    forall k | r.base <= k < |longer|
      ensures ReplayNext(r.world.ledger, d, longer[..k]) == Some(longer[k])
    {
      assert longer[..k] == r.trail[..k];
      assert r.trail[..|r.trail|] == r.trail;
    }
    forall id | Touched(r.world, id)
      ensures exists k, i :: Started(d, longer, r.base, k, i, id)
    {
      var k, i :| Started(d, r.trail, r.base, k, i, id);
      StartedEarlier(d, r.trail, body, r.base, k, i, id);
    }
    if RecordedRound(r.world.ledger).Some? {
      var k :| IsRound(d, r.trail, k, RecordedRound(r.world.ledger).value);
      assert longer[..k + 1] == r.trail[..k + 1];
      assert IsRound(d, longer, k, RecordedRound(r.world.ledger).value);
    }
  }

  /** A message the ledger decides is appended: it was on the trail already, or the trail grows by it. */
  lemma AppendKeeps(r: Runs, d: Driver, owner: string, body: Body, stamp: nat)
    requires RunsInv(r, d) && owner in r.sessions
    requires ReplayNext(r.world.ledger, d, Bodies(r.sessions[owner].history)) == Some(body)
    ensures RunsInv(Appended(r, owner, body, stamp), d)
  {
    hide FenceInv, Truthful, Gated, RoundKnown, ReplayNext, ToldBy, CallsOf, Waits;
    var r' := Appended(r, owner, body, stamp);
    var s := r.sessions[owner];
    var n := |s.history|;
    assert OnTrail(r, d, owner);
    assert Bodies(s.history) == r.trail[..n];
    if n == |r.trail| {
      assert r.trail[..n] == r.trail;
      TrailGrows(r, d, body);
      SameTrail(r.(trail := r.trail + [body]), r', d);
    } else {
      assert r.trail[n] == body;
      SameTrail(r, r', d);
    }
    assert Bodies(s.history + [Message(body, stamp)]) == Bodies(s.history) + [body];
    assert Bodies(r'.sessions[owner].history) == r'.trail[..n + 1];
    OthersOnTrail(r, r', d, owner);
  }

  lemma SameTrail(r: Runs, r': Runs, d: Driver)
    requires Supported(r, d) && Gated(r, d) && RoundKnown(r, d)
    requires r'.world == r.world && r'.trail == r.trail && r'.base == r.base
    ensures Supported(r', d) && Gated(r', d) && RoundKnown(r', d)
  {
    hide ReplayNext, Started, CallsOf;
  }

  lemma {:induction false} RoundFromTold(l: BranchLedger<Value>, d: Driver, bodies: seq<Body>, told: seq<Told>, n: nat)
    requires n <= |told| <= |CallsOf(d, bodies)|
    requires forall i :: 0 <= i < |told| ==> ToldBy(l, d, bodies, i) == Some(told[i])
    ensures RoundOf(l, d, bodies, n) == Some(told[..n])
  {
    hide ToldBy, CallsOf;
    if n > 0 {
      RoundFromTold(l, d, bodies, told, n - 1);
      assert told[..n] == told[..n - 1] + [told[n - 1]];
    }
  }

  lemma ToldSoFar(r: Runs, d: Driver, owner: string)
    requires RunsInv(r, d) && owner in r.sessions
    ensures var s := r.sessions[owner];
      var bodies := Bodies(s.history);
      && bodies != [] && |bodies| == |s.history| && owner in r.world.attempts && |s.told| <= |CallsOf(d, bodies)|
      && (forall i :: 0 <= i < |s.told| ==> ToldBy(r.world.ledger, d, bodies, i) == Some(s.told[i]))
      && 1 <= r.base <= |bodies| <= |r.trail| && bodies == r.trail[..|bodies|]
      && (|bodies| < |r.trail| ==> ReplayNext(r.world.ledger, d, bodies) == Some(r.trail[|bodies|]))
      && (!s.begun && CallsOf(d, bodies) != [] ==> s.told == [] && !s.stage.Awaiting?)
      && (s.stage.Awaiting? ==> (owner, s.stage.task) in r.world.frames && Waits(d, s, s.stage.task))
  {
    hide ToldBy, CallsOf, ReplayNext, Waits, Gated, RoundKnown;
    assert OnTrail(r, d, owner);
  }

  lemma ThoughtKeeps(r: Runs, d: Driver, owner: string, stamp: nat, choice: Choice)
    requires RunsInv(r, d) && owner in r.sessions && r.sessions[owner].history != [] && owner in r.world.attempts
    requires r.sessions[owner].stage.Thinking? && Consistent(r, d, Own(owner, stamp, choice))
    ensures RunsInv(Thought(r, d, owner, stamp), d)
  {
    hide FenceInv, Truthful, Gated, RunsInv, RoundOf, RoundRecorded, DeniedBefore;
    var s := r.sessions[owner];
    var bodies := Bodies(s.history);
    ToldSoFar(r, d, owner);
    NoCallsAfterAsk(d, bodies);
    if bodies[|bodies| - 1].Ask? {
      BeginKeeps(r, d, owner, ModelRequest(d.digest(bodies)));
    } else if CallsOf(d, bodies) != [] && !s.begun {
      RecordKeeps(r, d, owner, stamp);
    } else if |s.told| < |CallsOf(d, bodies)| {
      ThoughtOfCall(r, d, owner, stamp);
    } else if CallsOf(d, bodies) != [] {
      RoundFromTold(r.world.ledger, d, bodies, s.told, |s.told|);
      assert s.told[..|s.told|] == s.told;
      AppendKeeps(r, d, owner, Ask(d.compose(bodies, s.told)), stamp);
    } else if d.finish(bodies).Some? {
      AppendKeeps(r, d, owner, Ask(d.finish(bodies).value), stamp);
    } else {
      HaltKeeps(r, d, owner);
    }
  }

  lemma ThoughtOfCall(r: Runs, d: Driver, owner: string, stamp: nat)
    requires RunsInv(r, d) && owner in r.sessions && owner in r.world.attempts
    requires var s := r.sessions[owner];
      var bodies := Bodies(s.history);
      && bodies != [] && bodies[|bodies| - 1].Say? && s.begun && |s.told| < |CallsOf(d, bodies)|
      && (!IsDone(r.world.ledger, StepKey(CallsOf(d, bodies)[|s.told|])) && d.gate(bodies, |s.told|) == Continue ==>
        StartsWell(r, d, owner))
    ensures RunsInv(Thought(r, d, owner, stamp), d)
  {
    hide FenceInv, Truthful, Gated, RunsInv, StartsWell, RoundRecorded;
    var s := r.sessions[owner];
    var bodies := Bodies(s.history);
    var id := CallsOf(d, bodies)[|s.told|];
    if IsDone(r.world.ledger, StepKey(id)) {
      BeginKeeps(r, d, owner, ToolCall(id));
    } else {
      match d.gate(bodies, |s.told|)
      case Continue => BeginKeeps(r, d, owner, ToolCall(id));
      case Deny(result) => ToldOneKeeps(r, d, owner, Denied(result));
      case Suspend(_) => HaltKeeps(r, d, owner);
    }
  }

  lemma TookKeeps(r: Runs, d: Driver, owner: string, stamp: nat)
    requires RunsInv(r, d) && owner in r.sessions && r.sessions[owner].stage.Awaiting?
    requires (owner, r.sessions[owner].stage.task) in r.world.frames
    requires r.world.frames[(owner, r.sessions[owner].stage.task)].Ended?
    ensures RunsInv(Took(r, owner, r.world.frames[(owner, r.sessions[owner].stage.task)].result, stamp), d)
  {
    hide RunsInv, RoundOf;
    var s := r.sessions[owner];
    var task := s.stage.task;
    ToldSoFar(r, d, owner);
    EndedIsTold(r, d, owner);
    match r.world.frames[(owner, task)].result
    case Answered(response) => AppendKeeps(r, d, owner, Say(response), stamp);
    case Returned(record) => ToldOneKeeps(r, d, owner, Recorded(record));
    case _ => HaltKeeps(r, d, owner);
  }

  /** What a frame ended with is what the ledger says. */
  lemma EndedIsTold(r: Runs, d: Driver, owner: string)
    requires RunsInv(r, d) && owner in r.sessions && r.sessions[owner].stage.Awaiting?
    requires (owner, r.sessions[owner].stage.task) in r.world.frames
    requires r.world.frames[(owner, r.sessions[owner].stage.task)].Ended?
    ensures var s := r.sessions[owner];
      var bodies := Bodies(s.history);
      match r.world.frames[(owner, s.stage.task)].result
      case Answered(response) => ReplayNext(r.world.ledger, d, bodies) == Some(Say(response))
      case Returned(record) =>
        |s.told| < |CallsOf(d, bodies)| && ToldBy(r.world.ledger, d, bodies, |s.told|) == Some(Recorded(record))
      case _ => true
  {
    hide Supported, Gated, RoundKnown, AllOnTrail, RoundOf;
    var s := r.sessions[owner];
    ToldSoFar(r, d, owner);
    var f := (owner, s.stage.task);
    assert TruthfulPc(r.world.ledger, d.hooked, f.1, r.world.frames[f]);
    if f.1.ToolCall? {
      assert KeyOf(f.1) == StepKey(f.1.id) && MarkerOf(f.1) == AfterKey(f.1.id);
    }
  }

  lemma MoveKeeps(r: Runs, d: Driver, move: Move)
    requires RunsInv(r, d) && Allowed(r, d, move) && Consistent(r, d, move)
    ensures RunsInv(Moved(r, d, move), d)
  {
    hide RunsInv, Thought, Took, Halted, Next, Consistent;
    match move
    case Enter(owner, history, recovers) => EnterKeeps(r, d, owner, history, recovers);
    case Die(owner) => HaltKeeps(r, d, owner);
    case Beside(action) => PlainKeeps(r, Moved(r, d, move), d, action);
    case Own(owner, stamp, choice) =>
      var s := r.sessions[owner];
      if s.stage.Thinking? {
        ThoughtKeeps(r, d, owner, stamp, choice);
      } else if r.world.frames[(owner, s.stage.task)].Ended? {
        TookKeeps(r, d, owner, stamp);
      } else {
        PlainKeeps(r, Moved(r, d, move), d, Advance(owner, s.stage.task, choice));
      }
  }

  lemma PlainKeeps(r: Runs, r': Runs, d: Driver, action: Action)
    requires RunsInv(r, d) && Plain(r.world, action, d) && (action.Environment? ==> LeavesRound(action.op))
    requires r' == r.(world := Next(r.world, action))
    ensures RunsInv(r', d)
  {
    hide FenceInv, Truthful, Supported, Gated, AllOnTrail, Grew, Touched, Next, CallsOf;
    PlainStep(r.world, action, d);
    RoundStands(r.world, action, d);
    WorldMoves(r, r', d);
  }

  // ── whole runs ───────────────────────────────────────────────────────────

  lemma {:induction false} RunKeepsInv(r: Runs, d: Driver, moves: seq<Move>)
    requires RunsInv(r, d) && IsRunOf(r, d, moves) && ConsistentRun(r, d, moves)
    ensures RunsInv(AfterAll(r, d, moves), d)
    decreases |moves|
  {
    hide Moved, RunsInv, Consistent;
    if moves != [] {
      MoveKeeps(r, d, moves[0]);
      RunKeepsInv(Moved(r, d, moves[0]), d, moves[1..]);
    }
  }

  lemma OpeningInv(d: Driver, start: seq<Body>)
    requires start != []
    ensures RunsInv(Opening(start), d)
  {
  }

  /**
  One trail: whatever the interleaving of attempts, crashes and takeovers, of any two attempts at the
  run one has reached a history the other has passed through, up to volatile fields.
  */
  lemma OneTrail(d: Driver, start: seq<Body>, moves: seq<Move>, a: string, b: string)
    requires start != [] && IsRunOf(Opening(start), d, moves) && ConsistentRun(Opening(start), d, moves)
    requires var r := AfterAll(Opening(start), d, moves);
      a in r.sessions && b in r.sessions && |r.sessions[a].history| <= |r.sessions[b].history|
    ensures var r := AfterAll(Opening(start), d, moves);
      var ours, theirs := Bodies(r.sessions[a].history), Bodies(r.sessions[b].history);
      ours == theirs[..|ours|]
  {
    hide Moved, FenceInv, Truthful, Supported, Gated, RoundKnown;
    OpeningInv(d, start);
    RunKeepsInv(Opening(start), d, moves);
    var r := AfterAll(Opening(start), d, moves);
    assert OnTrail(r, d, a) && OnTrail(r, d, b);
  }

  // ── replay ───────────────────────────────────────────────────────────────

  predicate ReadsOnly(pc: Pc) {
    pc == Reading || pc.JournalReading? || (pc.Ended? && (pc.result.Returned? || pc.result.Answered?))
  }

  /** The attempt has a way to go to message `goal` of the trail, and has started nothing. */
  predicate Replaying(r: Runs, owner: string, goal: nat) {
    && owner in r.sessions && 0 < |r.sessions[owner].history| < goal <= |r.trail|
    && (match r.sessions[owner].stage
        case Thinking => true
        case Awaiting(task) => (owner, task) in r.world.frames && ReadsOnly(r.world.frames[(owner, task)])
        case Stopped => false)
  }

  predicate Arrived(r: Runs, owner: string, goal: nat) {
    owner in r.sessions && r.sessions[owner].stage.Thinking? && |r.sessions[owner].history| == goal
  }

  /** The token the attempt presents was overtaken. */
  predicate IsFenced(r: Runs, owner: string) {
    owner in r.world.attempts && Stale(r.world.ledger, r.world.attempts[owner].token)
  }

  /** How many moves of its own are left in the step at hand. */
  function StepRank(r: Runs, d: Driver, owner: string): nat
    requires owner in r.sessions
  {
    var s := r.sessions[owner];
    if s.stage.Thinking? then (if IsOpening(d, s) then 5 else 4)
    else if s.stage.Stopped? || (owner, s.stage.task) !in r.world.frames then 0
    else
      var pc := r.world.frames[(owner, s.stage.task)];
      if pc == Reading then 3 else if pc.JournalReading? then 2 else 1
  }

  /** Closer to the goal: a message further, or a call further, or a move further. */
  predicate Closer(r: Runs, r': Runs, d: Driver, owner: string)
    requires owner in r.sessions
  {
    && owner in r'.sessions
    && var s, t := r.sessions[owner], r'.sessions[owner];
      || (|t.history| == |s.history| + 1 && t.told == [] && !t.begun && (s.begun || CallsOf(d, Bodies(s.history)) == []))
      || (t.history == s.history && |t.told| == |s.told| + 1 && t.begun == s.begun && !IsOpening(d, s))
      || (t.history == s.history && t.told == s.told && StepRank(r', d, owner) < StepRank(r, d, owner)
        && t.begun == (s.begun || IsOpening(d, s)))
  }

  /** The ledgers differ at most in the round on record. */
  ghost predicate SameSteps(l: BranchLedger<Value>, m: BranchLedger<Value>) {
    && m.lease == l.lease && m.issued == l.issued && m.queue == l.queue
    && (forall key :: key != PENDING_ROUND ==> Read(m, key) == Read(l, key))
  }

  /** What a replaying move leaves as it was, and where it leaves the attempt. */
  ghost predicate Replayed(r: Runs, r': Runs, d: Driver, owner: string, goal: nat)
    requires owner in r.sessions
  {
    && SameSteps(r.world.ledger, r'.world.ledger) && r'.world.invocations == r.world.invocations
    && r'.world.attempts == r.world.attempts && r'.trail == r.trail && r'.base == r.base
    && (Replaying(r', owner, goal) || Arrived(r', owner, goal)) && Closer(r, r', d, owner)
    && RecordedRound(r'.world.ledger)
      == if IsOpening(d, r.sessions[owner]) then Some(CallsOf(d, Bodies(r.sessions[owner].history)))
         else RecordedRound(r.world.ledger)
  }

  /** On the way the next call is on the record, or denied by the gate. */
  lemma NextCallIsDecided(r: Runs, d: Driver, owner: string, goal: nat)
    requires RunsInv(r, d) && Replaying(r, owner, goal)
    requires var s := r.sessions[owner];
      |s.told| < |CallsOf(d, Bodies(s.history))|
    ensures var s := r.sessions[owner];
      ToldBy(r.world.ledger, d, Bodies(s.history), |s.told|).Some?
  {
    hide ToldBy, RoundOf, RunsInv;
    var s := r.sessions[owner];
    ToldSoFar(r, d, owner);
    DecidedRound(r.world.ledger, d, Bodies(s.history));
    RoundDecidesEach(r.world.ledger, d, Bodies(s.history), |CallsOf(d, Bodies(s.history))|, |s.told|);
  }

  /** The step a replaying attempt reads is done. */
  lemma AwaitedIsDone(r: Runs, d: Driver, owner: string, goal: nat)
    requires RunsInv(r, d) && Replaying(r, owner, goal) && r.sessions[owner].stage.Awaiting?
    ensures var task := r.sessions[owner].stage.task;
      && IsDone(r.world.ledger, KeyOf(task))
      && (task.ModelRequest? ==> r.world.ledger.steps[KeyOf(task)].value.Response?)
      && (task.ToolCall? ==> r.world.ledger.steps[KeyOf(task)].value.Envelope?)
      && (task.ToolCall? && d.hooked ==>
        IsDone(r.world.ledger, MarkerOf(task)) && r.world.ledger.steps[MarkerOf(task)].value.Journaled?)
  {
    hide RunsInv, RoundOf;
    var s := r.sessions[owner];
    ToldSoFar(r, d, owner);
    if s.stage.task.ToolCall? {
      NextCallIsDecided(r, d, owner, goal);
      assert KeyOf(s.stage.task) == StepKey(s.stage.task.id) && MarkerOf(s.stage.task) == AfterKey(s.stage.task.id);
      WaitedIsSafe(r, d, owner);
    }
  }

  lemma WaitedIsSafe(r: Runs, d: Driver, owner: string)
    requires RunsInv(r, d) && owner in r.sessions && r.sessions[owner].stage.Awaiting?
    requires r.sessions[owner].stage.task.ToolCall?
    requires var s := r.sessions[owner];
      |s.told| < |CallsOf(d, Bodies(s.history))| ==> ToldBy(r.world.ledger, d, Bodies(s.history), |s.told|).Some?
    ensures IsDone(r.world.ledger, StepKey(r.sessions[owner].stage.task.id))
  {
    hide FenceInv, Truthful, ToldBy, CallsOf, Supported, Gated;
    var s := r.sessions[owner];
    ToldSoFar(r, d, owner);
    NoCallsAfterAsk(d, Bodies(s.history));
    assert Touched(r.world, s.stage.task.id);
    DecidedIsSafe(r, d, |s.history|, |s.told|);
  }

  lemma UndoneIsDenied(l: BranchLedger<Value>, d: Driver, bodies: seq<Body>, i: nat)
    requires i < |CallsOf(d, bodies)| && ToldBy(l, d, bodies, i).Some?
    ensures IsDone(l, StepKey(CallsOf(d, bodies)[i])) || d.gate(bodies, i).Deny?
  {
  }

  lemma SameStepsSelf(l: BranchLedger<Value>)
    ensures SameSteps(l, l)
  {
  }

  lemma ReplayRecords(r: Runs, d: Driver, owner: string, goal: nat, stamp: nat)
    requires RunsInv(r, d) && Replaying(r, owner, goal) && IsOpening(d, r.sessions[owner]) && !IsFenced(r, owner)
    requires owner in r.world.attempts
    ensures Replayed(r, RoundRecorded(r, owner, CallsOf(d, Bodies(r.sessions[owner].history)), stamp), d, owner, goal)
  {
    hide RunsInv, CallsOf, Bodies;
  }

  lemma ReplayThought(r: Runs, d: Driver, owner: string, goal: nat, stamp: nat)
    requires RunsInv(r, d) && Replaying(r, owner, goal) && r.sessions[owner].stage.Thinking? && owner in r.world.attempts
    requires !(IsOpening(d, r.sessions[owner]) && IsFenced(r, owner))
    ensures Replayed(r, Thought(r, d, owner, stamp), d, owner, goal)
  {
    hide RunsInv, RoundOf, ToldBy, RoundRecorded, SameSteps;
    var s := r.sessions[owner];
    ToldSoFar(r, d, owner);
    var bodies := Bodies(s.history);
    NoCallsAfterAsk(d, bodies);
    SameStepsSelf(r.world.ledger);
    if IsOpening(d, s) {
      ReplayRecords(r, d, owner, goal, stamp);
    } else if |s.told| < |CallsOf(d, bodies)| {
      NextCallIsDecided(r, d, owner, goal);
      UndoneIsDenied(r.world.ledger, d, bodies, |s.told|);
    }
  }

  /** With no hook installed there is no projection to find. */
  lemma ReadsFromRecord(r: Runs, d: Driver, owner: string)
    requires RunsInv(r, d) && owner in r.sessions && r.sessions[owner].stage.Awaiting?
    ensures var task := r.sessions[owner].stage.task;
      && owner in r.world.attempts && r.world.attempts[owner].hooked == d.hooked
      && (!d.hooked ==> MarkerOf(task) !in r.world.ledger.steps)
      && (owner, task) in r.world.frames
      && (r.world.frames[(owner, task)].JournalReading? ==> task.ToolCall?)
      && (r.world.frames[(owner, task)].Ended? && r.world.frames[(owner, task)].result.Answered? ==>
        CallsOf(d, Bodies(r.sessions[owner].history)) == [])
  {
    hide FenceInv, Supported, Gated, RoundKnown, ToldBy, CallsOf;
    assert OnTrail(r, d, owner);
    NoCallsAfterAsk(d, Bodies(r.sessions[owner].history));
    MarkerIsAfter(r.sessions[owner].stage.task);
  }

  lemma ReplayAdvance(r: Runs, d: Driver, owner: string, goal: nat, stamp: nat, choice: Choice)
    requires RunsInv(r, d) && Replaying(r, owner, goal) && Allowed(r, d, Own(owner, stamp, choice))
    requires r.sessions[owner].stage.Awaiting?
    ensures Replayed(r, Moved(r, d, Own(owner, stamp, choice)), d, owner, goal)
  {
    hide RunsInv, KeyOf, MarkerOf, Bodies, CallsOf, SameSteps;
    AwaitedIsDone(r, d, owner, goal);
    ReadsFromRecord(r, d, owner);
    SameStepsSelf(r.world.ledger);
  }

  /**
  Replay reads, and records the rounds it passes: a move of an attempt on the way changes no step and no
  marker, calls no model and no handler, and brings it closer, unless it is to record a round under a
  token that was overtaken. Then it is fenced off.
  */
  lemma ReplayReads(r: Runs, d: Driver, owner: string, goal: nat, stamp: nat, choice: Choice)
    requires RunsInv(r, d) && Replaying(r, owner, goal)
    ensures Allowed(r, d, Own(owner, stamp, choice)) && Consistent(r, d, Own(owner, stamp, choice))
    ensures var r' := Moved(r, d, Own(owner, stamp, choice));
      if IsOpening(d, r.sessions[owner]) && IsFenced(r, owner) then r' == Halted(r, owner)
      else Replayed(r, r', d, owner, goal)
  {
    hide RunsInv, Took, Next, Replayed, Bodies, CallsOf, DeniedBefore;
    ToldSoFar(r, d, owner);
    StartsNothing(r, d, owner, goal);
    if r.sessions[owner].stage.Thinking? {
      if IsOpening(d, r.sessions[owner]) && IsFenced(r, owner) {
        NoCallsAfterAsk(d, Bodies(r.sessions[owner].history));
      } else {
        hide Thought;
        ReplayThought(r, d, owner, goal, stamp);
      }
    } else {
      hide Thought;
      ReplayAdvance(r, d, owner, goal, stamp, choice);
    }
  }

  lemma StartsNothing(r: Runs, d: Driver, owner: string, goal: nat)
    requires RunsInv(r, d) && Replaying(r, owner, goal)
    ensures !IsStarting(r, d, owner)
  {
    hide RunsInv, ToldBy;
    var s := r.sessions[owner];
    if |s.told| < |CallsOf(d, Bodies(s.history))| {
      NextCallIsDecided(r, d, owner, goal);
      UndoneIsDenied(r.world.ledger, d, Bodies(s.history), |s.told|);
    }
  }

  /**
  Nobody else moves it: any move that is not its own leaves an attempt on the way where it is, still only
  reading. What a takeover does to it shows at its next round.
  */
  lemma ReplayUndisturbed(r: Runs, d: Driver, owner: string, goal: nat, move: Move)
    requires Replaying(r, owner, goal) && Allowed(r, d, move)
    requires !(move.Own? && move.owner == owner) && !(move.Die? && move.owner == owner)
    ensures var r' := Moved(r, d, move);
      && Replaying(r', owner, goal) && r'.sessions[owner] == r.sessions[owner]
      && StepRank(r', d, owner) == StepRank(r, d, owner)
  {
    hide Apply, Advanced, CallsOf, RoundBegun, ToldBy;
  }

  // ── how far a replay gets ────────────────────────────────────────────────

  ghost predicate OwnMoves(moves: seq<Move>, owner: string) {
    forall i :: 0 <= i < |moves| ==> moves[i].Own? && moves[i].owner == owner
  }

  /** A round has to be recorded on the way from a history of `from` messages to one of `goal`. */
  ghost predicate HasRound(d: Driver, trail: seq<Body>, from: nat, goal: nat) {
    exists m :: from <= m < goal && OpensAt(d, trail, m)
  }

  /** The calls of the round a history of `m` messages ends with. */
  function CallsAt(d: Driver, trail: seq<Body>, m: nat): seq<string> {
    if m <= |trail| then CallsOf(d, trail[..m]) else []
  }

  predicate OpensAt(d: Driver, trail: seq<Body>, m: nat) {
    CallsAt(d, trail, m) != []
  }

  /** The last round on that way. */
  function LastRound(d: Driver, trail: seq<Body>, from: nat, goal: nat): Option<seq<string>> {
    if goal <= from then None
    else if CallsAt(d, trail, goal - 1) != [] then Some(CallsAt(d, trail, goal - 1))
    else LastRound(d, trail, from, goal - 1)
  }

  lemma {:induction false} LastRoundFirst(d: Driver, trail: seq<Body>, from: nat, goal: nat)
    requires from < goal
    ensures var later := LastRound(d, trail, from + 1, goal);
      LastRound(d, trail, from, goal) == if later.Some? then later
        else if CallsAt(d, trail, from) != [] then Some(CallsAt(d, trail, from)) else None
    decreases goal
  {
    hide CallsAt;
    if from + 1 < goal {
      LastRoundFirst(d, trail, from, goal - 1);
    }
  }

  /** Where the rounds still to be recorded begin. */
  function NextRound(s: Session): nat {
    |s.history| + (if s.begun then 1 else 0)
  }

  lemma RoundsLeft(r: Runs, r': Runs, d: Driver, owner: string, goal: nat)
    requires RunsInv(r, d) && Replaying(r, owner, goal) && Replayed(r, r', d, owner, goal)
    ensures var from, next := NextRound(r.sessions[owner]), NextRound(r'.sessions[owner]);
      && from <= next
      && (var later := LastRound(d, r.trail, next, goal);
        (if later.Some? then later else RecordedRound(r'.world.ledger))
          == (var all := LastRound(d, r.trail, from, goal); if all.Some? then all else RecordedRound(r.world.ledger)))
  {
    hide RunsInv, SameSteps, Bodies;
    ToldSoFar(r, d, owner);
    var s := r.sessions[owner];
    if !s.begun {
      LastRoundFirst(d, r.trail, |s.history|, goal);
    }
  }

  /** Left alone, an attempt that is not fenced off gets to the goal, and leaves the last round on record. */
  lemma {:induction false} ReplayReaches(r: Runs, d: Driver, owner: string, goal: nat) returns (moves: seq<Move>)
    requires RunsInv(r, d) && (Replaying(r, owner, goal) || Arrived(r, owner, goal)) && goal <= |r.trail|
    requires IsFenced(r, owner) ==> !HasRound(d, r.trail, NextRound(r.sessions[owner]), goal)
    ensures IsRunOf(r, d, moves) && ConsistentRun(r, d, moves) && OwnMoves(moves, owner)
    ensures var end := AfterAll(r, d, moves);
      && RunsInv(end, d) && Arrived(end, owner, goal) && end.trail == r.trail
      && SameSteps(r.world.ledger, end.world.ledger) && end.world.invocations == r.world.invocations
      && RecordedRound(end.world.ledger)
        == (var last := LastRound(d, r.trail, NextRound(r.sessions[owner]), goal); if last.Some? then last else RecordedRound(r.world.ledger))
    decreases goal - |r.sessions[owner].history|,
      |CallsOf(d, Bodies(r.sessions[owner].history))| - |r.sessions[owner].told|,
      if Replaying(r, owner, goal) then StepRank(r, d, owner) else 0
  {
    hide RunsInv, Moved, Allowed, Bodies, CallsOf, Consistent, SameSteps;
    ToldSoFar(r, d, owner);
    if Arrived(r, owner, goal) {
      moves := [];
      SameStepsSelf(r.world.ledger);
    } else {
      var move := Own(owner, 0, Choice(Cancelled, None));
      OpensHere(r, d, owner, goal);
      ReplayReads(r, d, owner, goal, 0, Choice(Cancelled, None));
      var r' := Moved(r, d, move);
      MoveKeeps(r, d, move);
      RoundsLeft(r, r', d, owner, goal);
      FewerRounds(d, r.trail, NextRound(r.sessions[owner]), NextRound(r'.sessions[owner]), goal);
      ToldSoFar(r', d, owner);
      StillFenced(r, r', owner);
      var rest := ReplayReaches(r', d, owner, goal);
      moves := [move] + rest;
      assert moves[1..] == rest;
      SameStepsTwice(r.world.ledger, r'.world.ledger, AfterAll(r', d, rest).world.ledger);
    }
  }

  lemma OpensHere(r: Runs, d: Driver, owner: string, goal: nat)
    requires RunsInv(r, d) && Replaying(r, owner, goal)
    ensures IsOpening(d, r.sessions[owner]) ==> HasRound(d, r.trail, NextRound(r.sessions[owner]), goal)
  {
    hide RunsInv, CallsOf;
    ToldSoFar(r, d, owner);
    if IsOpening(d, r.sessions[owner]) {
      assert OpensAt(d, r.trail, |r.sessions[owner].history|);
    }
  }

  lemma FewerRounds(d: Driver, trail: seq<Body>, from: nat, later: nat, goal: nat)
    requires from <= later
    ensures HasRound(d, trail, later, goal) ==> HasRound(d, trail, from, goal)
  {
  }

  lemma StillFenced(r: Runs, r': Runs, owner: string)
    requires r'.world.attempts == r.world.attempts && SameSteps(r.world.ledger, r'.world.ledger)
    ensures IsFenced(r', owner) <==> IsFenced(r, owner)
  {
  }

  lemma SameStepsTwice(l: BranchLedger<Value>, m: BranchLedger<Value>, n: BranchLedger<Value>)
    requires SameSteps(l, m) && SameSteps(m, n)
    ensures SameSteps(l, n)
  {
  }

  // ── fenced off ───────────────────────────────────────────────────────────

  /** Overtaken, and with a round to record at message `m`, the attempt has not come past it. */
  ghost predicate IsStuck(r: Runs, d: Driver, owner: string, m: nat) {
    && owner in r.sessions && IsFenced(r, owner) && OpensAt(d, r.trail, m)
    && |r.sessions[owner].history| <= m && (|r.sessions[owner].history| == m ==> !r.sessions[owner].begun)
  }

  lemma MoveFences(r: Runs, d: Driver, move: Move, owner: string)
    requires Allowed(r, d, move) && IsFenced(r, owner)
    ensures IsFenced(Moved(r, d, move), owner)
    ensures r.trail <= Moved(r, d, move).trail
  {
    hide Next, ToldBy, CallsOf;
    match move
    case Beside(action) => IssuedRises(r.world, action);
    case Own(o, stamp, choice) =>
      var s := r.sessions[o];
      if s.stage.Awaiting? && !r.world.frames[(o, s.stage.task)].Ended? {
        IssuedRises(r.world, Advance(o, s.stage.task, choice));
      }
    case _ =>
  }

  /** A move of another attempt leaves this one's session; its own cannot record a round. */
  lemma StuckSession(r: Runs, d: Driver, move: Move, owner: string, m: nat)
    requires RunsInv(r, d) && Allowed(r, d, move) && IsStuck(r, d, owner, m)
    ensures var s := Moved(r, d, move).sessions;
      owner in s && |s[owner].history| <= m && (|s[owner].history| == m ==> !s[owner].begun)
  {
    hide RunsInv, Next, CallsOf, ToldBy;
    ToldSoFar(r, d, owner);
    var s := r.sessions[owner];
    assert |s.history| == m ==> Bodies(s.history) == r.trail[..m];
    NoCallsAfterAsk(d, Bodies(s.history));
  }

  lemma StuckStays(r: Runs, d: Driver, move: Move, owner: string, m: nat)
    requires RunsInv(r, d) && Allowed(r, d, move) && IsStuck(r, d, owner, m)
    ensures IsStuck(Moved(r, d, move), d, owner, m)
  {
    hide RunsInv, Moved, CallsOf, Allowed;
    StuckSession(r, d, move, owner, m);
    MoveFences(r, d, move, owner);
    assert Moved(r, d, move).trail[..m] == r.trail[..m];
  }

  /**
  The fence is exact: an attempt that was overtaken never comes past the first round it has to record,
  whatever it and all others do.
  */
  lemma {:induction false} FencedOff(r: Runs, d: Driver, moves: seq<Move>, owner: string, m: nat)
    requires RunsInv(r, d) && IsRunOf(r, d, moves) && ConsistentRun(r, d, moves) && IsStuck(r, d, owner, m)
    ensures owner in AfterAll(r, d, moves).sessions && |AfterAll(r, d, moves).sessions[owner].history| <= m
    decreases |moves|
  {
    hide Moved, RunsInv, Consistent;
    if moves != [] {
      MoveKeeps(r, d, moves[0]);
      StuckStays(r, d, moves[0], owner, m);
      FencedOff(Moved(r, d, moves[0]), d, moves[1..], owner, m);
    }
  }

  // ── the theorem ──────────────────────────────────────────────────────────

  /** Every call the history of `n` messages owes is one of `calls`. */
  predicate OwesOnly(d: Driver, trail: seq<Body>, n: nat, calls: seq<string>) {
    forall i :: 0 <= i < |CallsAt(d, trail, n)| ==> CallsAt(d, trail, n)[i] in calls
  }

  /**
  A replay that goes as far as `goal`, which may be anywhere on the trail. From then on `recover` judges every
  history of the trail, the longer ones too, by the last round that this replay passed, and by what was on
  record before if it passed none: an owed call outside that round is refused.
  */
  lemma ReplayStopsAnywhere(
      d: Driver, start: seq<Body>, moves: seq<Move>, owner: string, prefix: seq<Message>, recovers: bool, goal: nat)
      returns (replay: seq<Move>)
    requires start != [] && IsRunOf(Opening(start), d, moves) && ConsistentRun(Opening(start), d, moves)
    requires var r := AfterAll(Opening(start), d, moves);
      && Allowed(r, d, Enter(owner, prefix, recovers)) && |prefix| < goal <= |r.trail|
      && (IsFenced(r, owner) ==> !HasRound(d, r.trail, |prefix|, goal))
    ensures var r := AfterAll(Opening(start), d, moves);
      var restarted := Moved(r, d, Enter(owner, prefix, recovers));
      && OwnMoves(replay, owner) && IsRunOf(restarted, d, replay)
      && var end := AfterAll(restarted, d, replay);
        var last := LastRound(d, r.trail, |prefix|, goal);
        && owner in end.sessions && Bodies(end.sessions[owner].history) == r.trail[..goal] && end.trail == r.trail
        && SameSteps(r.world.ledger, end.world.ledger) && end.world.invocations == r.world.invocations
        && RecordedRound(end.world.ledger) == (if last.Some? then last else RecordedRound(r.world.ledger))
        && (forall n :: 0 <= n <= |r.trail| ==>
          (Accepts(end.world.ledger, CallsAt(d, r.trail, n)) <==>
            if last.Some? then OwesOnly(d, r.trail, n, last.value) else Accepts(r.world.ledger, CallsAt(d, r.trail, n))))
  {
    hide Moved, Allowed, RunsInv, Bodies, Consistent, CallsAt;
    OpeningInv(d, start);
    RunKeepsInv(Opening(start), d, moves);
    var r := AfterAll(Opening(start), d, moves);
    var restarted := Moved(r, d, Enter(owner, prefix, recovers));
    Restarts(r, d, goal, owner, prefix, recovers);
    EntersConsistently(r, d, Enter(owner, prefix, recovers));
    MoveKeeps(r, d, Enter(owner, prefix, recovers));
    replay := ReplayReaches(restarted, d, owner, goal);
    var end := AfterAll(restarted, d, replay);
    ToldSoFar(end, d, owner);
  }

  /**
  Crash replay: after any run of attempts on the branch, an attempt restarted from any prefix of what a
  dead one reached gets, on the record alone, through every history the dead one reached, up to volatile
  fields: no step and no marker is written, no model and no handler is called, and the rounds it passes are
  recorded again. It needs a token nobody has overtaken, or no round on its way.
  */
  lemma CrashReplays(
      d: Driver, start: seq<Body>, moves: seq<Move>, dead: string, owner: string, prefix: seq<Message>, recovers: bool)
      returns (replay: seq<Move>)
    requires start != [] && IsRunOf(Opening(start), d, moves) && ConsistentRun(Opening(start), d, moves)
    requires var r := AfterAll(Opening(start), d, moves);
      && dead in r.sessions && Allowed(r, d, Enter(owner, prefix, recovers)) && |prefix| < |r.sessions[dead].history|
      && (IsFenced(r, owner) ==> !HasRound(d, r.trail, |prefix|, |r.sessions[dead].history|))
    ensures var r := AfterAll(Opening(start), d, moves);
      var restarted := Moved(r, d, Enter(owner, prefix, recovers));
      && OwnMoves(replay, owner) && IsRunOf(restarted, d, replay)
      && var end := AfterAll(restarted, d, replay);
        && owner in end.sessions
        && Bodies(end.sessions[owner].history) == Bodies(r.sessions[dead].history)
        && SameSteps(r.world.ledger, end.world.ledger) && end.world.invocations == r.world.invocations
        && RecordedRound(end.world.ledger)
          == (var last := LastRound(d, r.trail, |prefix|, |r.sessions[dead].history|);
              if last.Some? then last else RecordedRound(r.world.ledger))
  {
    hide Moved, Allowed, RunsInv, Bodies, Consistent, SameSteps, Accepts, CallsAt;
    OpeningInv(d, start);
    RunKeepsInv(Opening(start), d, moves);
    var r := AfterAll(Opening(start), d, moves);
    ToldSoFar(r, d, dead);
    replay := ReplayStopsAnywhere(d, start, moves, owner, prefix, recovers, |r.sessions[dead].history|);
  }

  lemma EntersConsistently(r: Runs, d: Driver, move: Move)
    requires !move.Own?
    ensures Consistent(r, d, move)
  {
  }

  lemma Restarts(r: Runs, d: Driver, goal: nat, owner: string, prefix: seq<Message>, recovers: bool)
    requires RunsInv(r, d) && Allowed(r, d, Enter(owner, prefix, recovers)) && |prefix| < goal <= |r.trail|
    ensures var restarted := Moved(r, d, Enter(owner, prefix, recovers));
      && Replaying(restarted, owner, goal) && restarted.world == r.world && restarted.trail == r.trail
      && NextRound(restarted.sessions[owner]) == |prefix|
      && !restarted.sessions[owner].begun && restarted.sessions[owner].history == prefix
  {
    hide FenceInv, Truthful, Gated, RoundKnown, Accepts;
  }

  /** Overtaken and with a round on its way, it does not: not by its own moves, nor by anybody's. */
  lemma OvertakenReplayStops(
      d: Driver, start: seq<Body>, moves: seq<Move>, owner: string, prefix: seq<Message>, recovers: bool, goal: nat, later: seq<Move>)
    requires start != [] && IsRunOf(Opening(start), d, moves) && ConsistentRun(Opening(start), d, moves)
    requires var r := AfterAll(Opening(start), d, moves);
      && Allowed(r, d, Enter(owner, prefix, recovers)) && |prefix| < goal <= |r.trail|
      && IsFenced(r, owner) && HasRound(d, r.trail, |prefix|, goal)
    requires var restarted := Moved(AfterAll(Opening(start), d, moves), d, Enter(owner, prefix, recovers));
      IsRunOf(restarted, d, later) && ConsistentRun(restarted, d, later)
    ensures var end := AfterAll(Moved(AfterAll(Opening(start), d, moves), d, Enter(owner, prefix, recovers)), d, later);
      owner in end.sessions && |end.sessions[owner].history| < goal
  {
    hide Moved, Allowed, RunsInv, Bodies, Consistent, CallsOf;
    OpeningInv(d, start);
    RunKeepsInv(Opening(start), d, moves);
    var r := AfterAll(Opening(start), d, moves);
    var restarted := Moved(r, d, Enter(owner, prefix, recovers));
    Restarts(r, d, goal, owner, prefix, recovers);
    EntersConsistently(r, d, Enter(owner, prefix, recovers));
    MoveKeeps(r, d, Enter(owner, prefix, recovers));
    var m :| |prefix| <= m < goal && OpensAt(d, r.trail, m);
    StartsStuck(restarted, d, owner, m, goal);
    FencedOff(restarted, d, later, owner, m);
  }

  lemma StartsStuck(r: Runs, d: Driver, owner: string, m: nat, goal: nat)
    requires Replaying(r, owner, goal) && IsFenced(r, owner) && OpensAt(d, r.trail, m)
    requires !r.sessions[owner].begun && |r.sessions[owner].history| <= m
    ensures IsStuck(r, d, owner, m)
  {
  }

  /** `recover` takes exactly the histories of the trail that owe calls of the round message `k` opens. */
  ghost predicate JudgedBy(l: BranchLedger<Value>, d: Driver, trail: seq<Body>, k: nat) {
    && k < |trail| && trail[k].Say? && Accepts(l, CallsAt(d, trail, k + 1))
    && forall n :: 0 <= n <= |trail| ==> (Accepts(l, CallsAt(d, trail, n)) <==> OwesOnly(d, trail, n, CallsAt(d, trail, k + 1)))
  }

  /**
  Which histories `recover` takes, after any run: every one that ends in a request; and as soon as a round was
  recorded, exactly those that owe calls of one round of the trail, that round's own history among them. It
  need not be the newest: a response whose round was not recorded yet is judged by an older one.
  */
  lemma RecoverAccepts(d: Driver, start: seq<Body>, moves: seq<Move>)
    requires start != [] && IsRunOf(Opening(start), d, moves) && ConsistentRun(Opening(start), d, moves)
    ensures var r := AfterAll(Opening(start), d, moves);
      && (forall n :: 0 < n <= |r.trail| && r.trail[n - 1].Ask? ==> Accepts(r.world.ledger, CallsAt(d, r.trail, n)))
      && if RecordedRound(r.world.ledger).None?
        then forall n :: 0 <= n <= |r.trail| ==> Accepts(r.world.ledger, CallsAt(d, r.trail, n))
        else exists k :: JudgedBy(r.world.ledger, d, r.trail, k)
  {
    hide Moved, FenceInv, Truthful, Supported, Gated, AllOnTrail;
    OpeningInv(d, start);
    RunKeepsInv(Opening(start), d, moves);
    var r := AfterAll(Opening(start), d, moves);
    forall n | 0 < n <= |r.trail| && r.trail[n - 1].Ask?
      ensures CallsAt(d, r.trail, n) == []
    {
      assert r.trail[..n][|r.trail[..n]| - 1] == r.trail[n - 1];
    }
    if RecordedRound(r.world.ledger).Some? {
      var calls := RecordedRound(r.world.ledger).value;
      var k: nat :| IsRound(d, r.trail, k, calls);
      assert CallsAt(d, r.trail, k + 1) == calls;
      assert r.trail[..k + 1][k] == r.trail[k];
      assert JudgedBy(r.world.ledger, d, r.trail, k);
    }
  }
}
