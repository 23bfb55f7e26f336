/**
The model and tool loop as a deterministic driver over the execution boundary.

A history alternates requests and responses; everything volatile about a message (timestamps, run ids)
is its stamp. What the loop does next depends on the stripped history alone: which calls a response
makes, what the gate says to them, how their results are told to the model. What the model and the
tools answer is the world's choice.
*/
module Replay {
  import opened Ledger
  import opened Attempts

  datatype Body = Ask(request: Payload) | Say(response: Payload)

  datatype Message = Message(body: Body, stamp: nat)

  /** The history with its volatile fields stripped. */
  function Bodies(history: seq<Message>): seq<Body> {
    seq(|history|, i requires 0 <= i < |history| => history[i].body)
  }

  /** What the model is told of one call: its record, or what the gate put in its place. */
  datatype Told = Recorded(record: Record) | Denied(result: Payload)

  datatype Driver = Driver(
    hooked: bool,
    digest: seq<Body> -> string,
    calls: Payload -> seq<string>,
    gate: (seq<Body>, nat) -> Decision,
    compose: (seq<Body>, seq<Told>) -> Payload,
    finish: seq<Body> -> Option<Payload>)

  datatype Stage = Thinking | Awaiting(task: Task) | Stopped

  /**
  One attempt: its history, and how far it is in the round the history ends with. `begun` says that it
  recorded the calls of that round.
  */
  datatype Session = Session(history: seq<Message>, begun: bool, told: seq<Told>, stage: Stage)

  /** `trail` is the longest history any attempt has reached so far; the first one began at `base`. */
  datatype Runs = Runs(world: World, sessions: map<string, Session>, trail: seq<Body>, base: nat)

  /** `stamp` is what the world says of times and turns. `recovers` marks the entry point that checks the round. */
  datatype Move =
    | Enter(owner: string, history: seq<Message>, recovers: bool)
    | Own(owner: string, stamp: nat, choice: Choice)
    | Die(owner: string)
    | Beside(action: Action)

  /** The calls of the round the history ends with. */
  function CallsOf(d: Driver, bodies: seq<Body>): seq<string> {
    if bodies == [] || bodies[|bodies| - 1].Ask? then [] else d.calls(bodies[|bodies| - 1].response)
  }

  function Appended(r: Runs, owner: string, body: Body, stamp: nat): Runs
    requires owner in r.sessions
  {
    var s := r.sessions[owner];
    r.(sessions := r.sessions[owner := Session(s.history + [Message(body, stamp)], false, [], Thinking)],
       trail := if |s.history| == |r.trail| then r.trail + [body] else r.trail)
  }

  function Begun(r: Runs, owner: string, task: Task): Runs
    requires owner in r.sessions
  {
    r.(world := r.world.(frames := r.world.frames[(owner, task) := Reading]),
       sessions := r.sessions[owner := r.sessions[owner].(stage := Awaiting(task))])
  }

  function Halted(r: Runs, owner: string): Runs
    requires owner in r.sessions
  {
    r.(sessions := r.sessions[owner := r.sessions[owner].(stage := Stopped)])
  }

  function ToldOne(r: Runs, owner: string, told: Told): Runs
    requires owner in r.sessions
  {
    var s := r.sessions[owner];
    r.(sessions := r.sessions[owner := s.(told := s.told + [told], stage := Thinking)])
  }

  /** The first thing in a round: its calls are recorded under the token. */
  function RoundRecorded(r: Runs, owner: string, calls: seq<string>, turn: nat): Runs
    requires owner in r.sessions && owner in r.world.attempts
  {
    var (l, reply) := RoundBegun(r.world.ledger, r.world.attempts[owner].token, calls, turn);
    if reply.Refused? then Halted(r, owner)
    else r.(world := r.world.(ledger := l), sessions := r.sessions[owner := r.sessions[owner].(begun := true)])
  }

  /** The attempt is about to record a round. */
  predicate IsOpening(d: Driver, s: Session) {
    s.stage.Thinking? && !s.begun && CallsOf(d, Bodies(s.history)) != []
  }

  /** Between two steps: ask the model, record the round, gate the next call, or close the round. */
  function Thought(r: Runs, d: Driver, owner: string, stamp: nat): Runs
    requires owner in r.sessions && r.sessions[owner].history != [] && owner in r.world.attempts
  {
    var s := r.sessions[owner];
    var bodies := Bodies(s.history);
    var calls := CallsOf(d, bodies);
    if bodies[|bodies| - 1].Ask? then Begun(r, owner, ModelRequest(d.digest(bodies)))
    else if calls != [] && !s.begun then RoundRecorded(r, owner, calls, stamp)
    else if |s.told| < |calls| then
      var id := calls[|s.told|];
      if IsDone(r.world.ledger, StepKey(id)) then Begun(r, owner, ToolCall(id))
      else
        match d.gate(bodies, |s.told|)
        case Continue => Begun(r, owner, ToolCall(id))
        case Deny(result) => ToldOne(r, owner, Denied(result))
        case Suspend(_) => Halted(r, owner)
    else if calls != [] then Appended(r, owner, Ask(d.compose(bodies, s.told)), stamp)
    else
      match d.finish(bodies)
      case None => Halted(r, owner)
      case Some(request) => Appended(r, owner, Ask(request), stamp)
  }

  /** The step the attempt waited for has ended: go on with its answer, or stop with its signal. */
  function Took(r: Runs, owner: string, result: Result, stamp: nat): Runs
    requires owner in r.sessions
  {
    match result
    case Answered(response) => Appended(r, owner, Say(response), stamp)
    case Returned(record) => ToldOne(r, owner, Recorded(record))
    case _ => Halted(r, owner)
  }

  /** The calls of the round recorded last, if one was recorded. */
  function RecordedRound(l: BranchLedger<Value>): Option<seq<string>> {
    var record := Read(l, PENDING_ROUND);
    if record.Some? && record.value.Done? && record.value.value.PendingRound? then Some(record.value.value.calls) else None
  }

  /** What `recover` demands of a history: the calls it owes are of the round recorded last. */
  predicate Accepts(l: BranchLedger<Value>, calls: seq<string>) {
    RecordedRound(l).Some? ==> forall i :: 0 <= i < |calls| ==> calls[i] in RecordedRound(l).value
  }

  predicate Allowed(r: Runs, d: Driver, move: Move) {
    match move
    case Enter(owner, history, recovers) =>
      && owner in r.world.attempts && owner !in r.sessions
      && r.base <= |history| <= |r.trail| && Bodies(history) == r.trail[..|history|]
      && (recovers ==> Accepts(r.world.ledger, CallsOf(d, Bodies(history))))
    case Own(owner, _, _) =>
      && owner in r.sessions && r.sessions[owner].history != [] && !r.sessions[owner].stage.Stopped?
      && owner in r.world.attempts
      && (r.sessions[owner].stage.Awaiting? ==> (owner, r.sessions[owner].stage.task) in r.world.frames)
    case Die(owner) => owner in r.sessions
    case Beside(action) =>
      && Enabled(r.world, action)
      && ((action.Environment? && LeavesRound(action.op)) || (action.Join? && action.hooked == d.hooked))
  }

  /** Only attempts record rounds. */
  predicate LeavesRound(op: Op<Value>) {
    match op
    case Start(key, _) => key != PENDING_ROUND
    case FinishEffect(key, _, _) => key != PENDING_ROUND
    case WriteControl(key, _, _) => key != PENDING_ROUND
    case Forget(key, _) => key != PENDING_ROUND
    case Commit(t, _) => PENDING_ROUND !in t.controls && PENDING_ROUND !in EffectKeys(t.effects)
    case _ => true
  }

  function Moved(r: Runs, d: Driver, move: Move): Runs
    requires Allowed(r, d, move)
  {
    match move
    case Enter(owner, history, _) => r.(sessions := r.sessions[owner := Session(history, false, [], Thinking)])
    case Own(owner, stamp, choice) =>
      var s := r.sessions[owner];
      if s.stage.Thinking? then Thought(r, d, owner, stamp)
      else
        var pc := r.world.frames[(owner, s.stage.task)];
        if pc.Ended? then Took(r, owner, pc.result, stamp)
        else r.(world := Next(r.world, Advance(owner, s.stage.task, choice)))
    case Die(owner) => Halted(r, owner)
    case Beside(action) => r.(world := Next(r.world, action))
  }

  /** The run begins at `history`, on an empty ledger. */
  function Opening(history: seq<Body>): Runs {
    Runs(Fresh(), map[], history, |history|)
  }

  ghost predicate IsRunOf(r: Runs, d: Driver, moves: seq<Move>)
    decreases |moves|
  {
    moves != [] ==> Allowed(r, d, moves[0]) && IsRunOf(Moved(r, d, moves[0]), d, moves[1..])
  }

  function AfterAll(r: Runs, d: Driver, moves: seq<Move>): Runs
    requires IsRunOf(r, d, moves)
    decreases |moves|
  {
    if moves == [] then r else AfterAll(Moved(r, d, moves[0]), d, moves[1..])
  }

  // ── what the ledger says comes next ──────────────────────────────────────

  /** What the model would be told of the `i`-th call without anything being run or asked. */
  function ToldBy(l: BranchLedger<Value>, d: Driver, bodies: seq<Body>, i: nat): Option<Told>
    requires i < |CallsOf(d, bodies)|
  {
    var id := CallsOf(d, bodies)[i];
    if IsDone(l, StepKey(id)) then
      var value := l.steps[StepKey(id)].value;
      if !value.Envelope? then None
      else if d.hooked then
        var marker := Read(l, AfterKey(id));
        if marker.Some? && marker.value.Done? && marker.value.value.Journaled?
        then Some(Recorded(marker.value.value.record)) else None
      else Some(Recorded(value.record))
    else
      match d.gate(bodies, i)
      case Deny(result) => Some(Denied(result))
      case _ => None
  }

  /** The first `n` calls of the round. */
  function RoundOf(l: BranchLedger<Value>, d: Driver, bodies: seq<Body>, n: nat): Option<seq<Told>>
    requires n <= |CallsOf(d, bodies)|
  {
    if n == 0 then Some([])
    else
      var before, last := RoundOf(l, d, bodies, n - 1), ToldBy(l, d, bodies, n - 1);
      if before.Some? && last.Some? then Some(before.value + [last.value]) else None
  }

  /** The next message of the history, if the ledger already decides it. */
  function ReplayNext(l: BranchLedger<Value>, d: Driver, bodies: seq<Body>): Option<Body> {
    if bodies == [] then None
    else if bodies[|bodies| - 1].Ask? then
      var step := Read(l, KeyOf(ModelRequest(d.digest(bodies))));
      if step.Some? && step.value.Done? && step.value.value.Response? then Some(Say(step.value.value.body)) else None
    else if CallsOf(d, bodies) != [] then
      var told := RoundOf(l, d, bodies, |CallsOf(d, bodies)|);
      if told.Some? then Some(Ask(d.compose(bodies, told.value))) else None
    else
      var request := d.finish(bodies);
      if request.Some? then Some(Ask(request.value)) else None
  }

  /** Message `k` of the trail makes the call `id`, as the `i`-th of its round. */
  predicate Makes(d: Driver, trail: seq<Body>, k: nat, i: nat, id: string) {
    k < |trail| && i < |CallsOf(d, trail[..k + 1])| && CallsOf(d, trail[..k + 1])[i] == id
  }

  /** Call `a` of message `j` comes before call `i` of message `k`. */
  predicate Before(j: nat, a: nat, k: nat, i: nat) {
    j < k || (j == k && a < i)
  }

  /** An earlier call of the trail, from the round at `base` on, has the same id, and the gate denies it. */
  ghost predicate DeniedBefore(d: Driver, trail: seq<Body>, base: nat, k: nat, i: nat, id: string) {
    exists j: nat, a: nat :: base <= j + 1 && Before(j, a, k, i) && Makes(d, trail, j, a, id) && d.gate(trail[..j + 1], a).Deny?
  }

  /** The attempt is about to start a call on the word of the gate, not on the record. */
  predicate IsStarting(r: Runs, d: Driver, owner: string) {
    && owner in r.sessions && r.sessions[owner].stage.Thinking? && r.sessions[owner].begun
    && var s := r.sessions[owner];
      var calls := CallsOf(d, Bodies(s.history));
      && |s.told| < |calls|
      && !IsDone(r.world.ledger, StepKey(calls[|s.told|]))
      && d.gate(Bodies(s.history), |s.told|) == Continue
  }

  /** No call is started whose id the gate denied earlier in the same history. */
  ghost predicate Consistent(r: Runs, d: Driver, move: Move) {
    move.Own? && IsStarting(r, d, move.owner) ==>
      var s := r.sessions[move.owner];
      var bodies := Bodies(s.history);
      !DeniedBefore(d, bodies, r.base, |bodies| - 1, |s.told|, CallsOf(d, bodies)[|s.told|])
  }

  ghost predicate ConsistentRun(r: Runs, d: Driver, moves: seq<Move>)
    requires IsRunOf(r, d, moves)
    decreases |moves|
  {
    moves != [] ==> Consistent(r, d, moves[0]) && ConsistentRun(Moved(r, d, moves[0]), d, moves[1..])
  }
}
