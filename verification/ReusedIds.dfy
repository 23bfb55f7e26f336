/**
Why crash replay asks that no call is started whose id was denied before: a denied call leaves no record,
and when its id comes back and runs, the record bypasses the gate, for the earlier call as well.
*/
module ReusedIds {
  import opened Ledger
  import opened Attempts
  import opened FencedRetry
  import opened Replay
  import opened CrashReplay

  // ── the condition is exact ───────────────────────────────────────────────

  /** A round the ledger had decided reads differently once a call it denied is on record. */
  lemma RoundReadsDifferently(l: BranchLedger<Value>, m: BranchLedger<Value>, d: Driver, bodies: seq<Body>, a: nat)
    requires a < |CallsOf(d, bodies)| && d.gate(bodies, a).Deny?
    requires !IsDone(l, StepKey(CallsOf(d, bodies)[a])) && IsDone(m, StepKey(CallsOf(d, bodies)[a]))
    requires RoundOf(l, d, bodies, |CallsOf(d, bodies)|).Some?
    ensures RoundOf(m, d, bodies, |CallsOf(d, bodies)|) != RoundOf(l, d, bodies, |CallsOf(d, bodies)|)
  {
    hide CallsOf;
    var n := |CallsOf(d, bodies)|;
    RoundDecidesEach(l, d, bodies, n, a);
    if RoundOf(m, d, bodies, n).Some? {
      RoundDecidesEach(m, d, bodies, n, a);
    }
  }

  /** Message `j` makes a denied call that reads otherwise in every ledger where its id is done. */
  ghost predicate Diverges(r: Runs, d: Driver, j: nat, a: nat, id: string) {
    && Makes(d, r.trail, j, a, id) && d.gate(r.trail[..j + 1], a).Deny? && !IsDone(r.world.ledger, StepKey(id))
    && (forall m: BranchLedger<Value> :: IsDone(m, StepKey(id)) ==>
      ToldBy(m, d, r.trail[..j + 1], a) != ToldBy(r.world.ledger, d, r.trail[..j + 1], a))
  }

  /**
  The other half of crash replay: a call started against the condition makes an earlier call of the history
  read otherwise, as soon as it is done. If that call's round was closed, the round reads otherwise.
  */
  lemma InconsistentStartDiverges(r: Runs, d: Driver, move: Move)
    requires RunsInv(r, d) && Allowed(r, d, move) && !Consistent(r, d, move)
    ensures exists j: nat, a: nat, id ::
      && Diverges(r, d, j, a, id) && id == StartedId(r, d, move.owner)
      && (j + 1 < |r.sessions[move.owner].history| ==> ClosedRoundDiverges(r, d, j, id))
  {
    hide RunsInv, CallsOf, RoundOf;
    var owner := move.owner;
    var s := r.sessions[owner];
    var bodies := Bodies(s.history);
    ToldSoFar(r, d, owner);
    var id := CallsOf(d, bodies)[|s.told|];
    var j: nat, a: nat :| r.base <= j + 1 && Before(j, a, |bodies| - 1, |s.told|) && Makes(d, bodies, j, a, id)
      && d.gate(bodies[..j + 1], a).Deny?;
    assert bodies[..j + 1] == r.trail[..j + 1];
    assert Diverges(r, d, j, a, id);
    if j + 1 < |s.history| {
      ClosedIsDecided(r, d, j);
      forall m: BranchLedger<Value> | IsDone(m, StepKey(id))
        ensures RoundOf(m, d, r.trail[..j + 1], |CallsOf(d, r.trail[..j + 1])|)
          != RoundOf(r.world.ledger, d, r.trail[..j + 1], |CallsOf(d, r.trail[..j + 1])|)
      {
        RoundReadsDifferently(r.world.ledger, m, d, r.trail[..j + 1], a);
      }
    }
  }

  /** The call an attempt is about to start. */
  function StartedId(r: Runs, d: Driver, owner: string): string {
    if IsStarting(r, d, owner) then CallsOf(d, Bodies(r.sessions[owner].history))[|r.sessions[owner].told|] else ""
  }

  ghost predicate ClosedRoundDiverges(r: Runs, d: Driver, j: nat, id: string) {
    && j < |r.trail|
    && (forall m: BranchLedger<Value> :: IsDone(m, StepKey(id)) ==>
      RoundOf(m, d, r.trail[..j + 1], |CallsOf(d, r.trail[..j + 1])|)
        != RoundOf(r.world.ledger, d, r.trail[..j + 1], |CallsOf(d, r.trail[..j + 1])|))
  }

  lemma ClosedIsDecided(r: Runs, d: Driver, j: nat)
    requires RunsInv(r, d) && r.base <= j + 1 < |r.trail| && CallsOf(d, r.trail[..j + 1]) != []
    ensures RoundOf(r.world.ledger, d, r.trail[..j + 1], |CallsOf(d, r.trail[..j + 1])|).Some?
  {
    hide FenceInv, Truthful, Gated, RoundKnown, AllOnTrail, RoundOf, CallsOf, ReplayNext;
    assert ReplayNext(r.world.ledger, d, r.trail[..j + 1]) == Some(r.trail[j + 1]);
    DecidedRound(r.world.ledger, d, r.trail[..j + 1]);
  }

  // ── runs of one move, repeated ───────────────────────────────────────────

  function Repeated(move: Move, n: nat): seq<Move> {
    if n == 0 then [] else [move] + Repeated(move, n - 1)
  }

  ghost predicate Steps(r: Runs, d: Driver, move: Move, n: nat, end: Runs)
    decreases n
  {
    if n == 0 then end == r else Allowed(r, d, move) && Steps(Moved(r, d, move), d, move, n - 1, end)
  }

  lemma {:induction false} StepsAreRun(r: Runs, d: Driver, move: Move, n: nat, end: Runs)
    requires Steps(r, d, move, n, end)
    ensures IsRunOf(r, d, Repeated(move, n)) && AfterAll(r, d, Repeated(move, n)) == end
    decreases n
  {
    hide Allowed, Moved;
    if n > 0 {
      StepsAreRun(Moved(r, d, move), d, move, n - 1, end);
      assert Repeated(move, n)[1..] == Repeated(move, n - 1);
    }
  }

  lemma {:induction false} StepsJoin(r: Runs, d: Driver, move: Move, m: nat, mid: Runs, n: nat, end: Runs)
    requires Steps(r, d, move, m, mid) && Steps(mid, d, move, n, end)
    ensures Steps(r, d, move, m + n, end)
    decreases m
  {
    hide Allowed, Moved;
    if m > 0 {
      StepsJoin(Moved(r, d, move), d, move, m - 1, mid, n, end);
    }
  }

  // ── one attempt alone ────────────────────────────────────────────────────

  /** The attempt waits for a step nobody has begun, presenting a token nobody has overtaken. */
  predicate IsAlone(r: Runs, owner: string, task: Task) {
    && owner in r.sessions && r.sessions[owner].history != [] && r.sessions[owner].stage == Awaiting(task)
    && owner in r.world.attempts && !Stale(r.world.ledger, r.world.attempts[owner].token)
    && KeyOf(task) !in r.world.ledger.steps
    && (owner, task) in r.world.frames && r.world.frames[(owner, task)] == Reading
  }

  function Ran(task: Task, p: Payload): Value {
    if task.ToolCall? then Envelope(Succeeded(p)) else Response(p)
  }

  lemma OneAdvance(r: Runs, d: Driver, owner: string, task: Task, choice: Choice)
    requires owner in r.sessions && r.sessions[owner].history != [] && r.sessions[owner].stage == Awaiting(task)
    requires owner in r.world.attempts && (owner, task) in r.world.frames && !r.world.frames[(owner, task)].Ended?
    ensures Allowed(r, d, Own(owner, 0, choice))
    ensures var r' := Moved(r, d, Own(owner, 0, choice));
      var (l, pc) := Advanced(r.world.ledger, r.world.attempts[owner], task, r.world.frames[(owner, task)], choice, |r.world.invocations|);
      && r' == r.(world := r'.world) && r'.world.attempts == r.world.attempts && r'.world.ledger == l
      && (owner, task) in r'.world.frames && r'.world.frames[(owner, task)] == pc
  {
    hide Advanced;
  }

  /** Read, start, run, commit: five moves, and the step is done. */
  lemma StepRuns(r: Runs, d: Driver, owner: string, task: Task, p: Payload) returns (end: Runs)
    requires IsAlone(r, owner, task)
    ensures Steps(r, d, Own(owner, 0, Choice(Yields(p), None)), 5, end)
    ensures end == r.(world := end.world) && end.world.attempts == r.world.attempts
    ensures end.world.ledger == r.world.ledger.(steps := r.world.ledger.steps[KeyOf(task) := Done(Ran(task, p))])
    ensures (owner, task) in end.world.frames
    ensures end.world.frames[(owner, task)] == if task.ToolCall? then JournalReading(Succeeded(p)) else Ended(Answered(p))
  {
    hide KeyOf, Moved, Allowed, MarkerOf;
    var choice := Choice(Yields(p), None);
    var move := Own(owner, 0, choice);
    OneAdvance(r, d, owner, task, choice);
    var r1 := Moved(r, d, move);
    OneAdvance(r1, d, owner, task, choice);
    var r2 := Moved(r1, d, move);
    OneAdvance(r2, d, owner, task, choice);
    var r3 := Moved(r2, d, move);
    OneAdvance(r3, d, owner, task, choice);
    var r4 := Moved(r3, d, move);
    OneAdvance(r4, d, owner, task, choice);
    end := Moved(r4, d, move);
    var l := r.world.ledger;
    assert l.steps[KeyOf(task) := Running][KeyOf(task) := Done(Ran(task, p))] == l.steps[KeyOf(task) := Done(Ran(task, p))];
    assert Steps(end, d, move, 0, end);
    assert Steps(r4, d, move, 1, end);
    assert Steps(r3, d, move, 2, end);
    assert Steps(r2, d, move, 3, end);
    assert Steps(r1, d, move, 4, end);
  }

  // ── a run that shows it ──────────────────────────────────────────────────

  const ME := "a"

  function Again(p: Payload): Move {
    Own(ME, 0, Choice(Yields(p), None))
  }

  /** One attempt, alone on its branch, at the end of the trail and between two steps. */
  predicate StandsAt(r: Runs, history: seq<Message>, begun: bool, told: seq<Told>, steps: map<string, Step<Value>>) {
    && ME in r.sessions && r.sessions[ME] == Session(history, begun, told, Thinking) && history != []
    && ME in r.world.attempts && r.world.attempts[ME] == Attempt(1, true, false)
    && r.world.ledger.issued == 1 && r.world.ledger.steps == steps
    && r.trail == Bodies(history) && r.base == 1
  }

  lemma BodiesSnoc(history: seq<Message>, message: Message)
    ensures Bodies(history + [message]) == Bodies(history) + [message.body]
  {
  }

  /** The model is asked and answers: seven moves. */
  lemma ModelTurn(r: Runs, d: Driver, history: seq<Message>, steps: map<string, Step<Value>>, p: Payload) returns (end: Runs)
    requires StandsAt(r, history, false, [], steps) && history[|history| - 1].body.Ask?
    requires KeyOf(ModelRequest(d.digest(Bodies(history)))) !in steps
    ensures Steps(r, d, Again(p), 7, end)
    ensures StandsAt(end, history + [Message(Say(p), 0)], false, [],
      steps[KeyOf(ModelRequest(d.digest(Bodies(history)))) := Done(Response(p))])
  {
    hide KeyOf;
    var task := ModelRequest(d.digest(Bodies(history)));
    var begun := Moved(r, d, Again(p));
    assert begun == Begun(r, ME, task);
    var done := StepRuns(begun, d, ME, task, p);
    end := Moved(done, d, Again(p));
    BodiesSnoc(history, Message(Say(p), 0));
    assert Steps(end, d, Again(p), 0, end);
    assert Steps(done, d, Again(p), 1, end);
    StepsJoin(begun, d, Again(p), 5, done, 1, end);
    assert Steps(r, d, Again(p), 7, end);
  }

  /** The round is recorded: one move. */
  lemma RoundOpens(r: Runs, d: Driver, history: seq<Message>, steps: map<string, Step<Value>>, p: Payload) returns (end: Runs)
    requires StandsAt(r, history, false, [], steps) && history[|history| - 1].body.Say? && CallsOf(d, Bodies(history)) != []
    ensures Steps(r, d, Again(p), 1, end)
    ensures StandsAt(end, history, true, [],
      steps[PENDING_ROUND := Done(PendingRound(CallsOf(d, Bodies(history)), 0))])
  {
    hide CallsOf;
    end := Moved(r, d, Again(p));
    assert Steps(end, d, Again(p), 0, end);
  }

  /** Its one call is denied, and the round closes: two moves. */
  lemma RoundDenied(r: Runs, d: Driver, history: seq<Message>, steps: map<string, Step<Value>>, p: Payload, no: Payload) returns (end: Runs)
    requires StandsAt(r, history, true, [], steps) && history[|history| - 1].body.Say?
    requires |CallsOf(d, Bodies(history))| == 1 && d.gate(Bodies(history), 0) == Deny(no)
    requires !IsDone(r.world.ledger, StepKey(CallsOf(d, Bodies(history))[0]))
    ensures Steps(r, d, Again(p), 2, end)
    ensures StandsAt(end, history + [Message(Ask(d.compose(Bodies(history), [Denied(no)])), 0)], false, [], steps)
  {
    hide CallsOf, StepKey;
    NoCallsAfterAsk(d, Bodies(history));
    var told := Moved(r, d, Again(p));
    assert told.sessions[ME].told == [Denied(no)];
    end := Moved(told, d, Again(p));
    BodiesSnoc(history, Message(Ask(d.compose(Bodies(history), [Denied(no)])), 0));
    assert Steps(end, d, Again(p), 0, end) && Steps(told, d, Again(p), 1, end);
  }

  /** Its one call is let through and runs: six moves, and it is on record. */
  lemma RoundRuns(r: Runs, d: Driver, history: seq<Message>, steps: map<string, Step<Value>>, p: Payload) returns (end: Runs)
    requires StandsAt(r, history, true, [], steps) && history[|history| - 1].body.Say?
    requires |CallsOf(d, Bodies(history))| == 1 && d.gate(Bodies(history), 0) == Continue
    requires StepKey(CallsOf(d, Bodies(history))[0]) !in steps
    ensures Steps(r, d, Again(p), 6, end)
    ensures end.trail == r.trail && end.base == 1
    ensures end.world.ledger.steps == steps[StepKey(CallsOf(d, Bodies(history))[0]) := Done(Envelope(Succeeded(p)))]
  {
    hide CallsOf;
    var task := ToolCall(CallsOf(d, Bodies(history))[0]);
    assert KeyOf(task) == StepKey(task.id);
    hide StepKey, KeyOf;
    var begun := Moved(r, d, Again(p));
    assert begun == Begun(r, ME, task);
    end := StepRuns(begun, d, ME, task, p);
    assert Steps(r, d, Again(p), 6, end);
  }

  function Tally(n: nat): string {
    if n == 0 then "" else Tally(n - 1) + "|"
  }

  lemma {:induction false} TallyCounts(n: nat)
    ensures |Tally(n)| == n
  {
    if n > 0 { TallyCounts(n - 1); }
  }

  /** Every response calls `x`; the gate denies it in the first round only; the model is told whether it ran. */
  function Fickle(ran: Payload, denied: Payload): Driver {
    Driver(false,
      (bodies: seq<Body>) => Tally(|bodies|),
      (response: Payload) => ["x"],
      (bodies: seq<Body>, i: nat) => if |bodies| == 2 then Deny(denied) else Continue,
      (bodies: seq<Body>, told: seq<Told>) => if told == [Denied(denied)] then denied else ran,
      (bodies: seq<Body>) => None)
  }

  lemma Begins(d: Driver, p: Payload) returns (start: Runs)
    requires !d.hooked
    ensures var moves := [Beside(Join(ME, 0.0, 1.0, true, false)), Enter(ME, [Message(Ask(p), 0)], false)];
      IsRunOf(Opening([Ask(p)]), d, moves) && AfterAll(Opening([Ask(p)]), d, moves) == start
    ensures StandsAt(start, [Message(Ask(p), 0)], false, [], map[])
  {
    hide CallsOf;
    var join, enter := Beside(Join(ME, 0.0, 1.0, true, false)), Enter(ME, [Message(Ask(p), 0)], false);
    var joined := Moved(Opening([Ask(p)]), d, join);
    assert Bodies([Message(Ask(p), 0)]) == [Ask(p)];
    assert joined.trail[..1] == [Ask(p)];
    start := Moved(joined, d, enter);
    assert [join, enter][1..] == [enter] && [enter][1..] == [];
    assert IsRunOf(start, d, []) && AfterAll(start, d, []) == start;
    assert IsRunOf(joined, d, [enter]) && AfterAll(joined, d, [enter]) == start;
  }

  lemma {:induction false} RunsJoin(r: Runs, d: Driver, first: seq<Move>, second: seq<Move>)
    requires IsRunOf(r, d, first) && IsRunOf(AfterAll(r, d, first), d, second)
    ensures IsRunOf(r, d, first + second) && AfterAll(r, d, first + second) == AfterAll(AfterAll(r, d, first), d, second)
    decreases |first|
  {
    hide Allowed, Moved;
    if first == [] {
      assert first + second == second;
    } else {
      RunsJoin(Moved(r, d, first[0]), d, first[1..], second);
      assert (first + second)[1..] == first[1..] + second;
    }
  }

  /** The witness up to its last move: the first round was denied, the second one ran. */
  lemma FickleRuns(ran: Payload, denied: Payload) returns (moves: seq<Move>)
    ensures IsRunOf(Opening([Ask(ran)]), Fickle(ran, denied), moves)
    ensures var r := AfterAll(Opening([Ask(ran)]), Fickle(ran, denied), moves);
      && r.trail == [Ask(ran), Say(ran), Ask(denied), Say(ran)]
      && Read(r.world.ledger, StepKey("x")) == Some(Done(Envelope(Succeeded(ran))))
  {
    hide KeyOf, StepKey, StandsAt, Steps, IsRunOf, AfterAll, Repeated, Bodies;
    var d := Fickle(ran, denied);
    var h1 := [Message(Ask(ran), 0)];
    var start := Begins(d, ran);
    HistoryOf(ran, denied);
    KeysOfFickle();
    var h2 := [Message(Ask(ran), 0), Message(Say(ran), 0)];
    var h3 := [Message(Ask(ran), 0), Message(Say(ran), 0), Message(Ask(denied), 0)];
    var h4 := [Message(Ask(ran), 0), Message(Say(ran), 0), Message(Ask(denied), 0), Message(Say(ran), 0)];
    assert h1 + [Message(Say(ran), 0)] == h2 && h2 + [Message(Ask(denied), 0)] == h3 && h3 + [Message(Say(ran), 0)] == h4;
    FickleCalls(ran, denied, Bodies(h2));
    FickleCalls(ran, denied, Bodies(h4));
    var steps: map<string, Step<Value>> := map[];
    var a := ModelTurn(start, d, h1, steps, ran);
    var k1 := KeyOf(ModelRequest(Tally(1)));
    steps := steps[k1 := Done(Response(ran))];
    var b := RoundOpens(a, d, h2, steps, ran);
    steps := steps[PENDING_ROUND := Done(PendingRound(["x"], 0))];
    StandsSteps(b, h2, true, [], steps);
    var c := RoundDenied(b, d, h2, steps, ran, denied);
    var e := ModelTurn(c, d, h3, steps, ran);
    steps := steps[KeyOf(ModelRequest(Tally(3))) := Done(Response(ran))];
    var f := RoundOpens(e, d, h4, steps, ran);
    steps := steps[PENDING_ROUND := Done(PendingRound(["x"], 0))];
    StandsSteps(f, h4, true, [], steps);
    var end := RoundRuns(f, d, h4, steps, ran);
    StepsJoin(start, d, Again(ran), 7, a, 1, b);
    StepsJoin(start, d, Again(ran), 8, b, 2, c);
    StepsJoin(start, d, Again(ran), 10, c, 7, e);
    StepsJoin(start, d, Again(ran), 17, e, 1, f);
    StepsJoin(start, d, Again(ran), 18, f, 6, end);
    StepsAreRun(start, d, Again(ran), 24, end);
    var opening := [Beside(Join(ME, 0.0, 1.0, true, false)), Enter(ME, h1, false)];
    RunsJoin(Opening([Ask(ran)]), d, opening, Repeated(Again(ran), 24));
    moves := opening + Repeated(Again(ran), 24);
  }

  lemma StandsSteps(r: Runs, history: seq<Message>, begun: bool, told: seq<Told>, steps: map<string, Step<Value>>)
    requires StandsAt(r, history, begun, told, steps)
    ensures r.world.ledger.steps == steps && r.trail == Bodies(history)
  {
  }

  lemma HistoryOf(ran: Payload, denied: Payload)
    ensures var h := [Message(Ask(ran), 0), Message(Say(ran), 0), Message(Ask(denied), 0), Message(Say(ran), 0)];
      Bodies(h) == [Ask(ran), Say(ran), Ask(denied), Say(ran)]
    ensures Bodies([Message(Ask(ran), 0)]) == [Ask(ran)]
    ensures Bodies([Message(Ask(ran), 0), Message(Say(ran), 0)]) == [Ask(ran), Say(ran)]
    ensures Bodies([Message(Ask(ran), 0), Message(Say(ran), 0), Message(Ask(denied), 0)]) == [Ask(ran), Say(ran), Ask(denied)]
  {
  }

  lemma FickleCalls(ran: Payload, denied: Payload, bodies: seq<Body>)
    requires bodies != [] && bodies[|bodies| - 1].Say?
    ensures CallsOf(Fickle(ran, denied), bodies) == ["x"]
  {
  }

  lemma KeysOfFickle()
    ensures KeyOf(ModelRequest(Tally(1))) != KeyOf(ModelRequest(Tally(3)))
    ensures StepKey("x") != KeyOf(ModelRequest(Tally(1))) && StepKey("x") != KeyOf(ModelRequest(Tally(3)))
    ensures PENDING_ROUND != StepKey("x") && PENDING_ROUND != KeyOf(ModelRequest(Tally(3)))
  {
    TallyCounts(1);
    TallyCounts(3);
    KeysApart(ModelRequest(Tally(1)), ModelRequest(Tally(3)), "", "");
    KeysApart(ModelRequest(Tally(1)), ToolCall("x"), "", "");
    KeysApart(ModelRequest(Tally(3)), ToolCall("x"), "", "");
    PendingIsNoStep(ModelRequest(Tally(3)));
    PendingIsNoStep(ToolCall("x"));
    assert KeyOf(ToolCall("x")) == StepKey("x");
  }

  /**
  A run that shows it: the attempt went from the denied round to the message that says so, and any attempt
  restarted in that round now reads the record and is told the call ran.
  */
  lemma ReusedIdTellsOtherwise(ran: Payload, denied: Payload) returns (moves: seq<Move>)
    requires ran != denied
    ensures IsRunOf(Opening([Ask(ran)]), Fickle(ran, denied), moves)
    ensures var r := AfterAll(Opening([Ask(ran)]), Fickle(ran, denied), moves);
      && |r.trail| == 4 && r.trail[2] == Ask(denied)
      && ReplayNext(r.world.ledger, Fickle(ran, denied), r.trail[..2]) == Some(Ask(ran))
  {
    hide IsRunOf, AfterAll;
    moves := FickleRuns(ran, denied);
    var d, r := Fickle(ran, denied), AfterAll(Opening([Ask(ran)]), Fickle(ran, denied), moves);
    var bodies := r.trail[..2];
    assert CallsOf(d, bodies) == ["x"];
    assert ToldBy(r.world.ledger, d, bodies, 0) == Some(Recorded(Succeeded(ran)));
    assert RoundOf(r.world.ledger, d, bodies, 0) == Some([]);
    var told: seq<Told> := [Recorded(Succeeded(ran))];
    assert [] + told == told;
    assert RoundOf(r.world.ledger, d, bodies, 1) == Some(told);
    assert told[0] != Denied(denied);
    assert d.compose(bodies, told) == ran;
  }
}
