/**
Without `retry_running`, a handler is invoked again only after it reported that nothing happened.

The argument is ownership of intent: a running step is cleared or completed only by the frame whose
`start` inserted it, so a second frame can pass `start` only after the first one gave the intent back.
Fencing tokens play no part in it: it holds for leased and unleased attempts alike.
*/
module AtMostOnce {
  import opened Ledger
  import opened Attempts

  ghost predicate NeverRetries(w: World) {
    forall owner :: owner in w.attempts ==> !w.attempts[owner].retry
  }

  /** The frame holds the running intent its own `start` inserted. */
  predicate Owns(pc: Pc) {
    pc.Entitled? || pc.Handling? || pc.Abandoning? || pc.Finishing? || pc.CopyFinishing?
  }

  predicate IsRunning(l: BranchLedger<Value>, key: string) {
    key in l.steps && l.steps[key].Running?
  }

  /** An owned intent is running, and has one owner. */
  ghost predicate Ownership(w: World) {
    && (forall f :: f in w.frames && Owns(w.frames[f]) ==> IsRunning(w.ledger, KeyOf(f.1)))
    && (forall f, g :: f in w.frames && g in w.frames && f.1 == g.1 ==>
      (Owns(w.frames[f]) && Owns(w.frames[g]) ==> f == g))
    && (forall f :: f in w.frames ==> !w.frames[f].Clearing? && f.0 in w.attempts)
  }

  /** Every invocation of the step so far, other than `except`, ended with nothing having happened. */
  ghost predicate Quiet(w: World, task: Task, except: int) {
    forall j :: 0 <= j < |w.invocations| && j != except && w.invocations[j].task == task
      ==> w.invocations[j].fate == Nothing
  }

  ghost predicate Bookkeeping(w: World) {
    && (forall f :: f in w.frames && w.frames[f].Handling? ==>
      var i := w.frames[f].invocation;
      i < |w.invocations| && w.invocations[i] == Invocation(f.0, f.1, InFlight))
    && (forall i :: 0 <= i < |w.invocations| && w.invocations[i].fate == InFlight ==>
      var f := (w.invocations[i].owner, w.invocations[i].task);
      f in w.frames && w.frames[f] == Handling(i))
  }

  /** The step may yet be handed out or given back: nothing has happened so far. */
  predicate Idle(pc: Pc) {
    pc.Entitled? || pc.Abandoning? || pc.CopyFinishing?
  }

  /** Where a step could still be started, nothing has happened yet. */
  ghost predicate Silence(w: World) {
    && (forall task :: KeyOf(task) !in w.ledger.steps ==> Quiet(w, task, -1))
    && (forall f :: f in w.frames && Idle(w.frames[f]) ==> Quiet(w, f.1, -1))
    && (forall f :: f in w.frames && w.frames[f].Handling? ==> Quiet(w, f.1, w.frames[f].invocation))
  }

  ghost predicate OnceEach(w: World) {
    forall i, j :: 0 <= i < j < |w.invocations| && w.invocations[i].task == w.invocations[j].task
      ==> w.invocations[i].fate == Nothing
  }

  ghost predicate Inv(w: World) {
    Ownership(w) && Bookkeeping(w) && Silence(w) && OnceEach(w)
  }

  // ── one frame moves ──────────────────────────────────────────────────────

  /**
  One frame goes from `pc` to `next`, and nothing else moves: what beginning, advancing and crashing
  have in common. `fate` is how an invocation in flight ends when the frame leaves its handler.
  */
  ghost predicate Moves(w: World, w': World, f: (string, Task), pc: Pc, next: Pc, fate: Fate) {
    var key := KeyOf(f.1);
    && f.0 in w.attempts && w'.attempts == w.attempts
    && pc == (if f in w.frames then w.frames[f] else Ended(Copied))
    && w'.frames == w.frames[f := next] && !next.Clearing?
    && w'.invocations == (
      if next.Handling? then w.invocations + [Invocation(f.0, f.1, InFlight)] else Settled(w.invocations, pc, fate))
    && (next.Handling? ==> pc.Entitled? && next.invocation == |w.invocations|)
    && (forall t :: t != f.1 ==> Read(w'.ledger, KeyOf(t)) == Read(w.ledger, KeyOf(t)))
    && (Owns(next) ==> IsRunning(w'.ledger, key))
    && (Owns(next) && !Owns(pc) ==> Idle(next) && key !in w.ledger.steps)
    && (Idle(next) ==> (next.Abandoning? && pc.Handling? && fate == Nothing) || key !in w.ledger.steps)
    && (!Owns(pc) && key in w.ledger.steps ==> Read(w'.ledger, key) == Read(w.ledger, key))
    && (key !in w'.ledger.steps ==> key !in w.ledger.steps || pc.Abandoning?)
    && fate != InFlight
  }

  lemma OthersUntouched(l: BranchLedger<Value>, a: Attempt, task: Task, pc: Pc, choice: Choice, n: nat, other: Task)
    requires other != task
    ensures Read(Advanced(l, a, task, pc, choice, n).0, KeyOf(other)) == Read(l, KeyOf(other))
  {
    hide KeyOf;
    assert KeyOf(other) != KeyOf(task) && KeyOf(other) != MarkerOf(task) by {
      KeysApart(task, other, if task.ToolCall? then task.id else "", "");
    }
  }

  /** What one step of a frame that never retries does to its own step key. */
  lemma OwnKey(l: BranchLedger<Value>, a: Attempt, task: Task, pc: Pc, choice: Choice, n: nat)
    requires !a.retry && !pc.Clearing?
    requires Owns(pc) ==> IsRunning(l, KeyOf(task))
    ensures var (m, next) := Advanced(l, a, task, pc, choice, n);
      var key := KeyOf(task);
      && !next.Clearing?
      && (next.Handling? <==> pc.Entitled?) && (next.Handling? ==> next.invocation == n)
      && (Owns(next) ==> IsRunning(m, key))
      && (Owns(next) && !Owns(pc) ==> Idle(next) && key !in l.steps)
      && (Idle(next) ==> (next.Abandoning? && pc.Handling? && FateOf(task, choice.outcome) == Nothing) || key !in l.steps)
      && (!Owns(pc) && key in l.steps ==> Read(m, key) == Read(l, key))
      && (key !in m.steps ==> key !in l.steps || pc.Abandoning?)
  {
  }

  lemma AdvanceMoves(w: World, owner: string, task: Task, choice: Choice)
    requires Ownership(w) && NeverRetries(w)
    requires Enabled(w, Advance(owner, task, choice))
    ensures var w' := Next(w, Advance(owner, task, choice));
      Moves(w, w', (owner, task), w.frames[(owner, task)], w'.frames[(owner, task)], FateOf(task, choice.outcome))
  {
    hide Advanced, KeyOf;
    var a, pc, n := w.attempts[owner], w.frames[(owner, task)], |w.invocations|;
    OwnKey(w.ledger, a, task, pc, choice, n);
    forall t | t != task
      ensures Read(Advanced(w.ledger, a, task, pc, choice, n).0, KeyOf(t)) == Read(w.ledger, KeyOf(t))
    {
      OthersUntouched(w.ledger, a, task, pc, choice, n, t);
    }
  }

  lemma MoveKeepsOwnership(w: World, w': World, f: (string, Task), pc: Pc, next: Pc, fate: Fate)
    requires Ownership(w) && Moves(w, w', f, pc, next, fate)
    ensures Ownership(w')
  {
  }

  lemma MoveKeepsQuiet(w: World, w': World, f: (string, Task), pc: Pc, next: Pc, fate: Fate, t: Task, except: int)
    requires Bookkeeping(w) && Moves(w, w', f, pc, next, fate)
    requires Quiet(w, t, except)
    requires t == f.1 ==> !next.Handling? && (pc.Handling? ==> fate == Nothing || except == pc.invocation)
    ensures Quiet(w', t, except)
  {
  }

  lemma MoveKeepsSilence(w: World, w': World, f: (string, Task), pc: Pc, next: Pc, fate: Fate)
    requires Inv(w) && Moves(w, w', f, pc, next, fate)
    ensures Silence(w')
  {
    hide Quiet, Bookkeeping, OnceEach;
    forall t | KeyOf(t) !in w'.ledger.steps
      ensures Quiet(w', t, -1)
    {
      assert t != f.1 ==> Read(w'.ledger, KeyOf(t)) == Read(w.ledger, KeyOf(t));
      assert Quiet(w, t, -1);
      assert t == f.1 ==> !next.Handling? && !pc.Handling?;
      MoveKeepsQuiet(w, w', f, pc, next, fate, t, -1);
    }
    forall g | g in w'.frames && Idle(w'.frames[g])
      ensures Quiet(w', g.1, -1)
    {
      if g == f {
        if pc.Handling? && next.Abandoning? {
          assert Quiet(w, f.1, pc.invocation);
          AbandonedIsQuiet(w, w', f, pc, next);
        } else {
          assert Quiet(w, f.1, -1);
          MoveKeepsQuiet(w, w', f, pc, next, fate, f.1, -1);
        }
      } else {
        assert Quiet(w, g.1, -1);
        assert g.1 == f.1 ==> !Owns(next) && !Owns(pc);
        MoveKeepsQuiet(w, w', f, pc, next, fate, g.1, -1);
      }
    }
    forall g | g in w'.frames && w'.frames[g].Handling?
      ensures Quiet(w', g.1, w'.frames[g].invocation)
    {
      if g == f {
        assert Quiet(w, f.1, -1);
        InvokedIsQuiet(w, w', f, pc, next, fate);
      } else {
        assert Quiet(w, g.1, w.frames[g].invocation);
        assert g.1 == f.1 ==> !Owns(next) && !Owns(pc);
        MoveKeepsQuiet(w, w', f, pc, next, fate, g.1, w.frames[g].invocation);
      }
    }
  }

  lemma AbandonedIsQuiet(w: World, w': World, f: (string, Task), pc: Pc, next: Pc)
    requires Bookkeeping(w) && Moves(w, w', f, pc, next, Nothing)
    requires pc.Handling? && next.Abandoning? && Quiet(w, f.1, pc.invocation)
    ensures Quiet(w', f.1, -1)
  {
  }

  lemma InvokedIsQuiet(w: World, w': World, f: (string, Task), pc: Pc, next: Pc, fate: Fate)
    requires Moves(w, w', f, pc, next, fate) && next.Handling? && Quiet(w, f.1, -1)
    ensures Quiet(w', f.1, next.invocation)
  {
  }

  lemma MoveKeepsBookkeeping(w: World, w': World, f: (string, Task), pc: Pc, next: Pc, fate: Fate)
    requires Bookkeeping(w) && Moves(w, w', f, pc, next, fate)
    ensures Bookkeeping(w')
  {
  }

  lemma MoveKeepsOnceEach(w: World, w': World, f: (string, Task), pc: Pc, next: Pc, fate: Fate)
    requires Inv(w) && Moves(w, w', f, pc, next, fate)
    ensures OnceEach(w')
  {
  }

  lemma MoveKeeps(w: World, w': World, f: (string, Task), pc: Pc, next: Pc, fate: Fate)
    requires Inv(w) && Moves(w, w', f, pc, next, fate)
    ensures Inv(w')
  {
    hide Moves, Ownership, Bookkeeping, Silence, OnceEach;
    MoveKeepsOwnership(w, w', f, pc, next, fate);
    MoveKeepsBookkeeping(w, w', f, pc, next, fate);
    MoveKeepsSilence(w, w', f, pc, next, fate);
    MoveKeepsOnceEach(w, w', f, pc, next, fate);
  }

  // ── every action ─────────────────────────────────────────────────────────

  /** An action that moves no frame keeps everything, once it keeps every step key. */
  lemma LedgerOnlyKeeps(w: World, w': World)
    requires Inv(w)
    requires w'.frames == w.frames && w'.invocations == w.invocations && w.attempts.Keys <= w'.attempts.Keys
    requires forall t :: Read(w'.ledger, KeyOf(t)) == Read(w.ledger, KeyOf(t))
    ensures Inv(w')
  {
  }

  lemma NextKeeps(w: World, action: Action)
    requires Inv(w) && Enabled(w, action) && NeverRetries(w)
    ensures Inv(Next(w, action))
  {
    hide Moves, Ownership, Bookkeeping, Silence, OnceEach, Advanced;
    var w' := Next(w, action);
    match action
    case Advance(owner, task, choice) =>
      AdvanceMoves(w, owner, task, choice);
      MoveKeeps(w, w', (owner, task), w.frames[(owner, task)], w'.frames[(owner, task)], FateOf(task, choice.outcome));
    case Crash(owner, task) =>
      CrashMoves(w, owner, task);
      MoveKeeps(w, w', (owner, task), w.frames[(owner, task)], Ended(Raised(Crashed)), InDoubt);
    case Begin(owner, task) =>
      BeginMoves(w, action, owner, task);
    case BeginCopy(owner, task, _) =>
      BeginMoves(w, action, owner, task);
    case Environment(op) =>
      forall t
        ensures Read(w'.ledger, KeyOf(t)) == Read(w.ledger, KeyOf(t))
      {
        KeysApart(t, t, "", "");
        ForeignKeeps(w.ledger, op, w.attempts.Keys, KeyOf(t));
      }
      LedgerOnlyKeeps(w, w');
    case _ => LedgerOnlyKeeps(w, w');
  }

  lemma CrashMoves(w: World, owner: string, task: Task)
    requires Inv(w) && Enabled(w, Crash(owner, task))
    ensures Moves(w, Next(w, Crash(owner, task)), (owner, task), w.frames[(owner, task)], Ended(Raised(Crashed)), InDoubt)
  {
  }

  lemma BeginMoves(w: World, action: Action, owner: string, task: Task)
    requires Inv(w) && Enabled(w, action)
    requires action == Begin(owner, task) || (action.BeginCopy? && action.owner == owner && action.task == task)
    ensures Inv(Next(w, action))
  {
    var w' := Next(w, action);
    var pc := if (owner, task) in w.frames then w.frames[(owner, task)] else Ended(Copied);
    assert Moves(w, w', (owner, task), pc, w'.frames[(owner, task)], InDoubt);
    MoveKeeps(w, w', (owner, task), pc, w'.frames[(owner, task)], InDoubt);
  }

  // ── whole runs ───────────────────────────────────────────────────────────

  lemma AttemptsPersist(w: World, action: Action)
    requires Enabled(w, action)
    ensures forall owner :: owner in w.attempts ==>
      owner in Next(w, action).attempts && Next(w, action).attempts[owner] == w.attempts[owner]
  {
  }

  lemma {:induction false} RunKeeps(w: World, actions: seq<Action>)
    requires Inv(w) && IsRun(w, actions) && NeverRetries(After(w, actions))
    ensures Inv(After(w, actions))
    decreases |actions|
  {
    if actions != [] {
      RunNeverRetried(w, actions);
      NextKeeps(w, actions[0]);
      RunKeeps(Next(w, actions[0]), actions[1..]);
    }
  }

  lemma {:induction false} RunNeverRetried(w: World, actions: seq<Action>)
    requires IsRun(w, actions) && NeverRetries(After(w, actions))
    ensures NeverRetries(w)
    decreases |actions|
  {
    hide Next;
    if actions != [] {
      RunNeverRetried(Next(w, actions[0]), actions[1..]);
      AttemptsPersist(w, actions[0]);
    }
  }

  /**
  At most once, over every run of any number of attempts that never retry, leased or not: whenever a
  handler is invoked a second time for one call, the earlier invocation had ended, and ended with
  nothing having happened. So no two are ever in flight together and at most one has an effect.
  */
  lemma AtMostOnce(w: World, i: nat, j: nat)
    requires Reachable(w) && NeverRetries(w)
    requires i < j < |w.invocations| && w.invocations[i].task == w.invocations[j].task
    ensures w.invocations[i].fate == Nothing
  {
    ReachableInv(w);
  }

  // ── steps nobody can reopen ──────────────────────────────────────────────

  /** Recorded, and no frame holds its intent: a committed result, or a start that will never report. */
  ghost predicate Closed(w: World, task: Task) {
    && KeyOf(task) in w.ledger.steps
    && (forall f :: f in w.frames && f.1 == task ==> !Owns(w.frames[f]))
  }

  /** The step reads as before, is still closed, and was not invoked on the way. */
  ghost predicate StaysClosed(w: World, w': World, task: Task) {
    && Closed(w', task)
    && Read(w'.ledger, KeyOf(task)) == Read(w.ledger, KeyOf(task))
    && (forall i :: 0 <= i < |w'.invocations| && w'.invocations[i].task == task ==>
      i < |w.invocations| && w'.invocations[i] == w.invocations[i])
  }

  lemma MoveStaysClosed(w: World, w': World, f: (string, Task), pc: Pc, next: Pc, fate: Fate, task: Task)
    requires Inv(w) && Moves(w, w', f, pc, next, fate) && Closed(w, task)
    ensures StaysClosed(w, w', task)
  {
  }

  lemma NextStaysClosed(w: World, action: Action, task: Task)
    requires Inv(w) && NeverRetries(w) && Enabled(w, action) && Closed(w, task)
    ensures StaysClosed(w, Next(w, action), task)
  {
    hide Moves, Ownership, Bookkeeping, Silence, OnceEach, Advanced;
    var w' := Next(w, action);
    match action
    case Advance(owner, t, choice) =>
      AdvanceMoves(w, owner, t, choice);
      MoveStaysClosed(w, w', (owner, t), w.frames[(owner, t)], w'.frames[(owner, t)], FateOf(t, choice.outcome), task);
    case Crash(owner, t) =>
      CrashMoves(w, owner, t);
      MoveStaysClosed(w, w', (owner, t), w.frames[(owner, t)], Ended(Raised(Crashed)), InDoubt, task);
    case Environment(op) =>
      KeysApart(task, task, "", "");
      ForeignKeeps(w.ledger, op, w.attempts.Keys, KeyOf(task));
      assert Read(w'.ledger, KeyOf(task)).Some?;
    case _ =>
  }

  /**
  A closed step stays closed for the rest of every run: its record never changes and its handler is
  never invoked. For a running record this is the price of refusing to guess; for a committed result
  it is replay.
  */
  lemma {:induction false} ClosedForGood(w: World, actions: seq<Action>, task: Task)
    requires Inv(w) && IsRun(w, actions) && NeverRetries(After(w, actions)) && Closed(w, task)
    ensures StaysClosed(w, After(w, actions), task)
    decreases |actions|
  {
    hide Next, Inv;
    if actions != [] {
      RunNeverRetried(w, actions);
      NextKeeps(w, actions[0]);
      NextStaysClosed(w, actions[0], task);
      ClosedForGood(Next(w, actions[0]), actions[1..], task);
    }
  }

  /**
  A fork that copied a call the source had started and not reported leaves the target in the same
  doubt: the record stays running and the target never invokes the handler.
  */
  lemma ForkInheritsDoubt(w: World, owner: string, task: Task, choice: Choice, actions: seq<Action>)
    requires Reachable(w) && Enabled(w, Advance(owner, task, choice))
    requires w.frames[(owner, task)] == CopyStarting(Running)
    requires KeyOf(task) !in w.ledger.steps && !Stale(w.ledger, w.attempts[owner].token)
    requires IsRun(Next(w, Advance(owner, task, choice)), actions)
    requires NeverRetries(After(Next(w, Advance(owner, task, choice)), actions))
    ensures var end := After(Next(w, Advance(owner, task, choice)), actions);
      Read(end.ledger, KeyOf(task)) == Some(Running)
      && forall i :: 0 <= i < |end.invocations| && end.invocations[i].task == task ==>
        i < |w.invocations| && end.invocations[i] == w.invocations[i] && w.invocations[i].fate == Nothing
  {
    hide Inv, IsRun, After, Closed, Advanced;
    var action := Advance(owner, task, choice);
    var w' := Next(w, action);
    RunNeverRetried(w', actions);
    AttemptsPersist(w, action);
    ReachableInv(w);
    NextKeeps(w, action);
    CopiedDoubt(w, owner, task, choice);
    CopyInvokesNothing(w, owner, task, choice);
    ClosedForGood(w', actions, task);
  }

  lemma ReachableInv(w: World)
    requires Reachable(w) && NeverRetries(w)
    ensures Inv(w)
  {
    var actions :| IsRun(Fresh(), actions) && After(Fresh(), actions) == w;
    RunKeeps(Fresh(), actions);
  }

  lemma CopyInvokesNothing(w: World, owner: string, task: Task, choice: Choice)
    requires Enabled(w, Advance(owner, task, choice))
    requires w.frames[(owner, task)].CopyStarting? || w.frames[(owner, task)].CopyFinishing?
    ensures Next(w, Advance(owner, task, choice)).invocations == w.invocations
  {
  }

  lemma CopiedDoubt(w: World, owner: string, task: Task, choice: Choice)
    requires Inv(w) && NeverRetries(w) && Enabled(w, Advance(owner, task, choice))
    requires w.frames[(owner, task)] == CopyStarting(Running)
    requires KeyOf(task) !in w.ledger.steps && !Stale(w.ledger, w.attempts[owner].token)
    ensures var w' := Next(w, Advance(owner, task, choice));
      Closed(w', task) && Read(w'.ledger, KeyOf(task)) == Some(Running) && Quiet(w', task, -1)
  {
    hide Bookkeeping, OnceEach;
    assert Quiet(w, task, -1);
  }

  /** And one that copied a finished call replays it: the result stays, and its handler is never invoked. */
  lemma ForkReplays(w: World, owner: string, task: Task, choice: Choice, actions: seq<Action>)
    requires Reachable(w) && Enabled(w, Advance(owner, task, choice))
    requires w.frames[(owner, task)].CopyFinishing? && !Stale(w.ledger, w.attempts[owner].token)
    requires IsRun(Next(w, Advance(owner, task, choice)), actions)
    requires NeverRetries(After(Next(w, Advance(owner, task, choice)), actions))
    ensures var end := After(Next(w, Advance(owner, task, choice)), actions);
      Read(end.ledger, KeyOf(task)) == Some(Done(w.frames[(owner, task)].copy))
      && forall i :: 0 <= i < |end.invocations| && end.invocations[i].task == task ==>
        i < |w.invocations| && end.invocations[i] == w.invocations[i] && w.invocations[i].fate == Nothing
  {
    hide Inv, IsRun, After, Closed, Advanced;
    var action := Advance(owner, task, choice);
    var w' := Next(w, action);
    RunNeverRetried(w', actions);
    AttemptsPersist(w, action);
    ReachableInv(w);
    NextKeeps(w, action);
    CopiedResult(w, owner, task, choice);
    CopyInvokesNothing(w, owner, task, choice);
    ClosedForGood(w', actions, task);
  }

  lemma CopiedResult(w: World, owner: string, task: Task, choice: Choice)
    requires Inv(w) && NeverRetries(w) && Enabled(w, Advance(owner, task, choice))
    requires w.frames[(owner, task)].CopyFinishing? && !Stale(w.ledger, w.attempts[owner].token)
    ensures var w' := Next(w, Advance(owner, task, choice));
      Closed(w', task) && Read(w'.ledger, KeyOf(task)) == Some(Done(w.frames[(owner, task)].copy)) && Quiet(w', task, -1)
  {
  }
}
