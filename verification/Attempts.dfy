/**
The execution boundary as a transition system: any number of attempts at one branch, each running any
number of durable steps, interleaved at every store call, crashing anywhere, under a clock that may
expire a lease at any moment.

One frame is one pass of one attempt through `wrap_tool_execute` (or `wrap_model_request`, or one
round of fork's copy loop). A frame's program counter sits between two store calls.
*/
module Attempts {
  import opened Ledger
  import LedgerHistory

  /** Tool values, model responses and control bodies: never looked into here. */
  type Payload(==, !new)

  /** The envelope recorded for a tool call: what it returned, or what it raised. */
  datatype Record = Succeeded(value: Payload) | Failed(error: Payload)

  datatype Value =
    | Envelope(record: Record)
    | Journaled(record: Record)
    | Response(body: Payload)
    | PendingRound(calls: seq<string>, turn: nat)
    | Control(body: Payload)

  /** What a gate says to one tool call; a suspension names the request a person answers. */
  datatype Decision = Continue | Deny(result: Payload) | Suspend(pending: string)

  // ── key names ────────────────────────────────────────────────────────────

  datatype Task = ToolCall(id: string) | ModelRequest(digest: string)

  function StepKey(id: string): string { "tool:" + id }

  function AfterKey(id: string): string { "after:" + id }

  function KeyOf(task: Task): string {
    match task
    case ToolCall(id) => StepKey(id)
    case ModelRequest(digest) => "agent:model:" + digest
  }

  /** Where the journal's projection of a call is kept. Only tool calls are journaled. */
  function MarkerOf(task: Task): string {
    AfterKey(if task.ToolCall? then task.id else "")
  }

  /** Where the calls of the round at hand are kept, before any gate is asked: no step and no marker. */
  const PENDING_ROUND := "agent:pending-round"

  predicate IsProtocolKey(key: string) {
    "tool:" <= key || "after:" <= key || "agent:model:" <= key
  }

  /** Distinct steps and markers have distinct names, so no write of one can hit another. */
  lemma KeysApart(s: Task, t: Task, id: string, other: string)
    ensures KeyOf(s) == KeyOf(t) ==> s == t
    ensures AfterKey(id) != KeyOf(t)
    ensures AfterKey(id) == AfterKey(other) ==> id == other
    ensures IsProtocolKey(KeyOf(t)) && IsProtocolKey(AfterKey(id))
  {
    assert AfterKey(id)[6..] == id && AfterKey(other)[6..] == other;
    assert AfterKey(id)[1] == 'f';
    match s {
      case ToolCall(a) => assert KeyOf(s)[0] == 't' && KeyOf(s)[5..] == a;
      case ModelRequest(a) => assert KeyOf(s)[0] == 'a' && KeyOf(s)[12..] == a;
    }
    match t {
      case ToolCall(b) => assert KeyOf(t)[0] == 't' && KeyOf(t)[5..] == b;
      case ModelRequest(b) => assert KeyOf(t)[1] == 'g' && KeyOf(t)[12..] == b;
    }
  }

  /** The calls of a round are recorded before any gate is asked; a round without calls records nothing. */
  function RoundBegun(l: BranchLedger<Value>, token: nat, ids: seq<string>, turn: nat): Outcome<Value> {
    if ids == [] then (l, Written) else ControlWritten(l, PENDING_ROUND, PendingRound(ids, turn), token)
  }

  lemma BeginningTouches(l: BranchLedger<Value>, token: nat, ids: seq<string>, turn: nat, key: string)
    requires IsProtocolKey(key)
    ensures Read(RoundBegun(l, token, ids, turn).0, key) == Read(l, key)
  {
    assert PENDING_ROUND[0] == 'a' && PENDING_ROUND[1] == 'g' && PENDING_ROUND[6] == 'p';
    assert "agent:model:"[6] == 'm';
    assert "agent:model:" <= key ==> key[6] == 'm';
  }

  // ── one frame ────────────────────────────────────────────────────────────

  datatype Signal = Indeterminate | FencedOut | Conflicted | Cleared | Interrupted | HookRaised | Malformed | Crashed

  datatype Result =
    | Returned(record: Record)
    | Answered(body: Payload)
    | Copied
    | Raised(signal: Signal)

  datatype Pc =
    | Reading
    | Clearing
    | Starting
    | Entitled
    | Handling(invocation: nat)
    | Abandoning
    | Finishing(value: Value)
    | JournalReading(record: Record)
    | Hooking(record: Record)
    | JournalWriting(projection: Record)
    | CopyStarting(source: Step<Value>)
    | CopyFinishing(copy: Value)
    | Ended(result: Result)

  /** What the handler did. Only `NothingHappened` and a failed model request clear the intent. */
  datatype HandlerOutcome = Yields(value: Payload) | Raises(error: Payload) | NothingHappened(signal: Nothing) | Cancelled

  /** How a tool says that it did nothing. Only the wish for approval names a request, and it may fail to. */
  datatype Nothing = Retries | Defers | WantsApproval(pending: Option<string>)

  /** The world's choices: what the handler does, and what the journal makes of the result. */
  datatype Choice = Choice(outcome: HandlerOutcome, hook: Option<Payload>)

  datatype Attempt = Attempt(token: nat, retry: bool, hooked: bool)

  function Answer(task: Task, value: Value): Pc {
    if task.ToolCall? && value.Envelope? then JournalReading(value.record)
    else if task.ModelRequest? && value.Response? then Ended(Answered(value.body))
    else Ended(Raised(Malformed))
  }

  function AfterHandler(task: Task, outcome: HandlerOutcome): Pc {
    match outcome
    case Yields(value) => Finishing(if task.ToolCall? then Envelope(Succeeded(value)) else Response(value))
    case Raises(error) => if task.ToolCall? then Finishing(Envelope(Failed(error))) else Abandoning
    case NothingHappened(_) => Abandoning
    case Cancelled => Ended(Raised(Interrupted))
  }

  /** The journal may rewrite the copy of a returned value in place; it cannot touch an error. */
  function Projected(record: Record, rewritten: Payload): Record {
    if record.Succeeded? then Succeeded(rewritten) else record
  }

  function OrFenced(reply: Reply, next: Pc): Pc {
    if !reply.Refused? then next
    else Ended(Raised(if reply.error.Fenced? then FencedOut else Conflicted))
  }

  /** One store call, or one call out, of a frame: the ledger after it and where the frame stands. */
  function Advanced(l: BranchLedger<Value>, a: Attempt, task: Task, pc: Pc, choice: Choice, next: nat)
    : (BranchLedger<Value>, Pc)
  {
    var key := KeyOf(task);
    match pc
    case Reading =>
      (l, match Read(l, key)
          case Some(Done(value)) => Answer(task, value)
          case Some(Running) => if a.retry then Clearing else Ended(Raised(Indeterminate))
          case None => Starting)
    case Clearing =>
      var (m, reply) := Forgotten(l, key, a.token);
      (m, OrFenced(reply, Starting))
    case Starting =>
      var (m, reply) := Started(l, key, a.token);
      (m, OrFenced(reply, if reply == Inserted(true) then Entitled else Ended(Raised(Indeterminate))))
    case Entitled => (l, Handling(next))
    case Handling(_) => (l, AfterHandler(task, choice.outcome))
    case Abandoning =>
      var (m, reply) := Forgotten(l, key, a.token);
      (m, OrFenced(reply, Ended(Raised(Cleared))))
    case Finishing(value) =>
      var (m, reply) := Finished(l, key, value, a.token);
      (m, OrFenced(reply, Answer(task, value)))
    case JournalReading(record) =>
      var journal := Read(l, MarkerOf(task));
      (l, if journal.Some? && journal.value.Done? then
            if journal.value.value.Journaled? then Ended(Returned(journal.value.value.record))
            else Ended(Raised(Malformed))
          else if a.hooked then Hooking(record)
          else Ended(Returned(record)))
    case Hooking(record) =>
      (l, match choice.hook
          case Some(rewritten) => JournalWriting(Projected(record, rewritten))
          case None => Ended(Raised(HookRaised)))
    case JournalWriting(projection) =>
      var (m, reply) := ControlWritten(l, MarkerOf(task), Journaled(projection), a.token);
      (m, OrFenced(reply, Ended(Returned(projection))))
    case CopyStarting(source) =>
      var (m, reply) := Started(l, key, a.token);
      (m, OrFenced(reply, if reply == Inserted(true) && source.Done? then CopyFinishing(source.value) else Ended(Copied)))
    case CopyFinishing(copy) =>
      var (m, reply) := Finished(l, key, copy, a.token);
      (m, OrFenced(reply, Ended(Copied)))
    case Ended(_) => (l, pc)
  }

  // ── the world ────────────────────────────────────────────────────────────

  datatype Fate = InFlight | Nothing | Happened | InDoubt

  datatype Invocation = Invocation(owner: string, task: Task, fate: Fate)

  datatype World = World(
    ledger: BranchLedger<Value>,
    attempts: map<string, Attempt>,
    frames: map<(string, Task), Pc>,
    invocations: seq<Invocation>)

  datatype Action =
    | Join(owner: string, now: real, until: real, retry: bool, hooked: bool)
    | JoinUnleased(owner: string, retry: bool, hooked: bool)
    | Begin(owner: string, task: Task)
    | BeginCopy(owner: string, task: Task, source: Step<Value>)
    | Advance(owner: string, task: Task, choice: Choice)
    | Crash(owner: string, task: Task)
    | Environment(op: Op<Value>)

  predicate Live(w: World, owner: string, task: Task) {
    (owner, task) in w.frames && !w.frames[(owner, task)].Ended?
  }

  /** Everything else that shares the branch: lease traffic, inputs, and control keys of other kinds. */
  predicate Foreign(op: Op<Value>, owners: set<string>) {
    match op
    case Start(key, _) => !IsProtocolKey(key)
    case FinishEffect(key, _, _) => !IsProtocolKey(key)
    case WriteControl(key, _, _) => !IsProtocolKey(key)
    case Forget(key, _) => !IsProtocolKey(key)
    case Acquire(owner, _, _) => owner in owners
    case Commit(t, _) =>
      && (forall key :: key in t.controls ==> !IsProtocolKey(key))
      && (forall key :: key in EffectKeys(t.effects) ==> !IsProtocolKey(key))
    case _ => true
  }

  predicate Enabled(w: World, action: Action) {
    match action
    case Join(owner, _, _, _, _) => owner != "" && owner !in w.attempts
    case JoinUnleased(owner, _, _) => owner != "" && owner !in w.attempts
    case Begin(owner, task) => owner in w.attempts && !Live(w, owner, task)
    case BeginCopy(owner, task, _) => owner in w.attempts && !Live(w, owner, task) && task.ToolCall?
    case Advance(owner, task, _) => owner in w.attempts && Live(w, owner, task)
    case Crash(owner, task) => Live(w, owner, task)
    case Environment(op) => Foreign(op, w.attempts.Keys)
  }

  /**
  What became of the world outside: nothing if the tool says so, or if asking the model failed; a tool that
  raised did something; and nobody knows what a cancelled handler did.
  */
  function FateOf(task: Task, outcome: HandlerOutcome): Fate {
    match outcome
    case Yields(_) => Happened
    case Raises(_) => if task.ToolCall? then Happened else Nothing
    case NothingHappened(_) => Nothing
    case Cancelled => InDoubt
  }

  function Settled(invocations: seq<Invocation>, pc: Pc, fate: Fate): seq<Invocation> {
    if pc.Handling? && pc.invocation < |invocations|
    then invocations[pc.invocation := invocations[pc.invocation].(fate := fate)]
    else invocations
  }

  function Next(w: World, action: Action): World
    requires Enabled(w, action)
  {
    match action
    case Join(owner, now, until, retry, hooked) =>
      var (l, reply) := Acquired(w.ledger, owner, now, until);
      if reply == Granted(0) then w
      else w.(ledger := l, attempts := w.attempts[owner := Attempt(l.issued, retry, hooked)])
    case JoinUnleased(owner, retry, hooked) =>
      w.(attempts := w.attempts[owner := Attempt(0, retry, hooked)])
    case Begin(owner, task) =>
      w.(frames := w.frames[(owner, task) := Reading])
    case BeginCopy(owner, task, source) =>
      w.(frames := w.frames[(owner, task) := CopyStarting(source)])
    case Advance(owner, task, choice) =>
      var pc := w.frames[(owner, task)];
      var (l, next) := Advanced(w.ledger, w.attempts[owner], task, pc, choice, |w.invocations|);
      World(l, w.attempts, w.frames[(owner, task) := next],
        if pc.Entitled? then w.invocations + [Invocation(owner, task, InFlight)]
        else Settled(w.invocations, pc, FateOf(task, choice.outcome)))
    case Crash(owner, task) =>
      w.(frames := w.frames[(owner, task) := Ended(Raised(Crashed))],
         invocations := Settled(w.invocations, w.frames[(owner, task)], InDoubt))
    case Environment(op) =>
      w.(ledger := Apply(w.ledger, op).0)
  }

  function Fresh(): World {
    World(Empty(), map[], map[], [])
  }

  /** A run of the system: every action enabled where it is taken. */
  ghost predicate IsRun(w: World, actions: seq<Action>)
    decreases |actions|
  {
    actions != [] ==> Enabled(w, actions[0]) && IsRun(Next(w, actions[0]), actions[1..])
  }

  function After(w: World, actions: seq<Action>): World
    requires IsRun(w, actions)
    decreases |actions|
  {
    if actions == [] then w else After(Next(w, actions[0]), actions[1..])
  }

  ghost predicate Reachable(w: World) {
    exists actions :: IsRun(Fresh(), actions) && After(Fresh(), actions) == w
  }

  /** The steps of the branch under protocol keys do not see foreign operations. */
  lemma ForeignKeeps(l: BranchLedger<Value>, op: Op<Value>, owners: set<string>, key: string)
    requires Foreign(op, owners) && IsProtocolKey(key)
    ensures Read(Apply(l, op).0, key) == Read(l, key)
  {
    if op.Commit? {
      LedgerHistory.CompletedStep(l.steps, op.transition.effects, key);
    }
  }
}
