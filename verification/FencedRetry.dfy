/**
With `retry_running`, a stalled attempt may still be inside a handler while its successor runs the same
call. What is left is fencing: with every attempt leased, the attempt presenting the newest token has
the ledger to itself, results never change, and the journal's projection is written once although it
is stored with an upsert.
*/
module FencedRetry {
  import opened Ledger
  import opened Attempts
  import opened AtMostOnce
  import LedgerHistory

  ghost predicate Leased(w: World) {
    forall owner :: owner in w.attempts ==> w.attempts[owner].token != 0
  }

  /** The attempt presents the newest token of the branch. */
  predicate Newest(w: World, owner: string) {
    owner in w.attempts && w.attempts[owner].token == w.ledger.issued
  }

  /** Each attempt holds a token of its own; nobody outside the attempts holds the lease. */
  ghost predicate Tokens(w: World) {
    && (forall owner :: owner in w.attempts ==> 0 < w.attempts[owner].token <= w.ledger.issued)
    && (forall a, b :: a in w.attempts && b in w.attempts && w.attempts[a].token == w.attempts[b].token ==> a == b)
    && (w.ledger.lease.Some? ==> w.ledger.lease.value.owner == "" || w.ledger.lease.value.owner in w.attempts)
  }

  predicate Journaling(pc: Pc) {
    pc.JournalReading? || pc.Hooking? || pc.JournalWriting? || (pc.Ended? && pc.result.Returned?)
  }

  /** The frame found no projection and is about to make one. */
  predicate Unjournaled(pc: Pc) {
    pc.Hooking? || pc.JournalWriting?
  }

  ghost predicate Shapes(w: World) {
    && (forall f :: f in w.frames ==> f.0 in w.attempts)
    && (forall f :: f in w.frames && Journaling(w.frames[f]) ==> f.1.ToolCall?)
  }

  /** An intent owned under the newest token is running. */
  ghost predicate Intents(w: World) {
    forall f :: f in w.frames && Owns(w.frames[f]) && Newest(w, f.0) ==> IsRunning(w.ledger, KeyOf(f.1))
  }

  /** A projection about to be written under the newest token is the first; markers hold projections only. */
  ghost predicate Markers(w: World) {
    && (forall f :: f in w.frames && Unjournaled(w.frames[f]) && Newest(w, f.0) ==>
      MarkerOf(f.1) !in w.ledger.steps)
    && (forall id :: AfterKey(id) in w.ledger.steps ==>
      w.ledger.steps[AfterKey(id)].Done? && w.ledger.steps[AfterKey(id)].value.Journaled?)
  }

  /** What a journaled attempt returned is the committed projection. */
  ghost predicate Answers(w: World) {
    forall f :: f in w.frames && w.frames[f].Ended? && w.frames[f].result.Returned?
      && f.0 in w.attempts && w.attempts[f.0].hooked
      ==> Read(w.ledger, MarkerOf(f.1)) == Some(Done(Journaled(w.frames[f].result.record)))
  }

  ghost predicate FenceInv(w: World) {
    Tokens(w) && Shapes(w) && Intents(w) && Markers(w) && Answers(w)
  }

  // ── one step of a frame ──────────────────────────────────────────────────

  lemma StaleStep(l: BranchLedger<Value>, a: Attempt, task: Task, pc: Pc, choice: Choice, n: nat)
    requires Stale(l, a.token)
    ensures var (m, next) := Advanced(l, a, task, pc, choice, n);
      m == l && (Owns(next) ==> Owns(pc)) && (next.Ended? && next.result.Returned? ==> pc.JournalReading? || pc.Ended?)
  {
  }

  /** Which entries a step of a frame may touch, and how. */
  lemma TouchedKeys(l: BranchLedger<Value>, a: Attempt, task: Task, pc: Pc, choice: Choice, n: nat, key: string)
    ensures var (m, next) := Advanced(l, a, task, pc, choice, n);
      && m.issued == l.issued && m.lease == l.lease
      && (key != KeyOf(task) && key != MarkerOf(task) ==> Read(m, key) == Read(l, key))
      && (Read(m, MarkerOf(task)) == Read(l, MarkerOf(task))
        || (pc.JournalWriting? && Read(m, MarkerOf(task)) == Some(Done(Journaled(pc.projection)))))
      && (next.Ended? && next.result.Returned? && pc.JournalWriting? ==>
        Read(m, MarkerOf(task)) == Some(Done(Journaled(next.result.record))))
      && (IsDone(l, KeyOf(task)) ==> Read(m, KeyOf(task)) == Read(l, KeyOf(task)))
  {
    hide KeyOf;
    KeysApart(task, task, if task.ToolCall? then task.id else "", "");
  }

  /** No action takes a token back, and attempts keep the ones they have. */
  lemma IssuedRises(w: World, action: Action)
    requires Enabled(w, action)
    ensures w.ledger.issued <= Next(w, action).ledger.issued
    ensures forall o :: o in w.attempts ==> o in Next(w, action).attempts && Next(w, action).attempts[o] == w.attempts[o]
  {
    hide Apply, Advanced;
    match action
    case Advance(o, task, choice) =>
      TouchedKeys(w.ledger, w.attempts[o], task, w.frames[(o, task)], choice, |w.invocations|, "");
    case Environment(op) => LedgerHistory.IssuedStep(w.ledger, op);
    case _ =>
  }

  lemma ControlFlow(l: BranchLedger<Value>, a: Attempt, task: Task, pc: Pc, choice: Choice, n: nat)
    ensures var (m, next) := Advanced(l, a, task, pc, choice, n);
      && (Journaling(next) ==> Journaling(pc) || task.ToolCall?)
      && (Owns(next) && (Owns(pc) ==> IsRunning(l, KeyOf(task))) ==> IsRunning(m, KeyOf(task)))
      && (next.Hooking? || next.JournalWriting? ==>
        pc.Hooking? || (pc.JournalReading? && !IsDone(l, MarkerOf(task))))
      && (next.Ended? && next.result.Returned? && !pc.Ended? && a.hooked ==>
        pc.JournalWriting? || (pc.JournalReading? && IsDone(l, MarkerOf(task))
          && l.steps[MarkerOf(task)].value == Journaled(next.result.record)))
      && (next.Hooking? || next.JournalWriting? || pc.JournalReading? || (next.Ended? && next.result.Returned?) ==> !Owns(next))
  {
  }

  // ── preservation by one frame's step ─────────────────────────────────────

  lemma AdvanceKeepsIntents(w: World, owner: string, task: Task, choice: Choice)
    requires FenceInv(w) && Enabled(w, Advance(owner, task, choice))
    ensures Intents(Next(w, Advance(owner, task, choice)))
  {
    hide Advanced, KeyOf, Markers, Answers;
    var w' := Next(w, Advance(owner, task, choice));
    var a, pc, n := w.attempts[owner], w.frames[(owner, task)], |w.invocations|;
    ControlFlow(w.ledger, a, task, pc, choice, n);
    TouchedKeys(w.ledger, a, task, pc, choice, n, "");
    forall f | f in w'.frames && Owns(w'.frames[f]) && Newest(w', f.0)
      ensures IsRunning(w'.ledger, KeyOf(f.1))
    {
      if f == (owner, task) {
      } else if Stale(w.ledger, a.token) {
        StaleStep(w.ledger, a, task, pc, choice, n);
      } else {
        assert f.0 == owner && f.1 != task;
        KeysApart(task, f.1, if task.ToolCall? then task.id else "", "");
        TouchedKeys(w.ledger, a, task, pc, choice, n, KeyOf(f.1));
        assert Read(w'.ledger, KeyOf(f.1)) == Read(w.ledger, KeyOf(f.1));
      }
    }
  }

  lemma AdvanceKeepsMarkers(w: World, owner: string, task: Task, choice: Choice)
    requires FenceInv(w) && Enabled(w, Advance(owner, task, choice))
    ensures Markers(Next(w, Advance(owner, task, choice)))
  {
    hide Advanced, KeyOf, Intents, Answers;
    var w' := Next(w, Advance(owner, task, choice));
    var a, pc, n := w.attempts[owner], w.frames[(owner, task)], |w.invocations|;
    ControlFlow(w.ledger, a, task, pc, choice, n);
    TouchedKeys(w.ledger, a, task, pc, choice, n, "");
    forall f | f in w'.frames && Unjournaled(w'.frames[f]) && Newest(w', f.0)
      ensures MarkerOf(f.1) !in w'.ledger.steps
    {
      if f == (owner, task) {
        assert pc.Hooking? || pc.JournalReading?;
        assert Read(w'.ledger, MarkerOf(task)) == Read(w.ledger, MarkerOf(task));
        assert pc.JournalReading? ==> !IsDone(w.ledger, MarkerOf(task));
        assert MarkerOf(task) == AfterKey(task.id);
      } else if Stale(w.ledger, a.token) {
        StaleStep(w.ledger, a, task, pc, choice, n);
      } else {
        assert f.0 == owner && f.1 != task && f.1.ToolCall?;
        assert MarkerOf(f.1) !in w.ledger.steps;
        KeysApart(task, task, f.1.id, if task.ToolCall? then task.id else "");
        TouchedKeys(w.ledger, a, task, pc, choice, n, MarkerOf(f.1));
        if MarkerOf(f.1) == MarkerOf(task) {
          assert task.ModelRequest? && f.1.id == "";
          assert !pc.JournalWriting?;
        }
        assert Read(w'.ledger, MarkerOf(f.1)) == Read(w.ledger, MarkerOf(f.1));
      }
    }
    forall id | AfterKey(id) in w'.ledger.steps
      ensures w'.ledger.steps[AfterKey(id)].Done? && w'.ledger.steps[AfterKey(id)].value.Journaled?
    {
      KeysApart(task, task, id, "");
      TouchedKeys(w.ledger, a, task, pc, choice, n, AfterKey(id));
      assert Read(w'.ledger, AfterKey(id)) == Read(w.ledger, AfterKey(id))
        || (pc.JournalWriting? && Read(w'.ledger, AfterKey(id)) == Some(Done(Journaled(pc.projection))));
    }
  }

  /** A marker that is there keeps its projection through any step of any frame. */
  lemma AdvanceKeepsProjection(w: World, owner: string, task: Task, choice: Choice, id: string)
    requires FenceInv(w) && Enabled(w, Advance(owner, task, choice))
    requires AfterKey(id) in w.ledger.steps
    ensures Read(Next(w, Advance(owner, task, choice)).ledger, AfterKey(id)) == Read(w.ledger, AfterKey(id))
  {
    hide Advanced, KeyOf, Intents, Answers;
    var a, pc, n := w.attempts[owner], w.frames[(owner, task)], |w.invocations|;
    KeysApart(task, task, id, if task.ToolCall? then task.id else "");
    TouchedKeys(w.ledger, a, task, pc, choice, n, AfterKey(id));
    assert Stale(w.ledger, a.token) || Newest(w, owner);
    if Stale(w.ledger, a.token) {
      StaleStep(w.ledger, a, task, pc, choice, n);
    }
  }

  lemma AdvanceKeepsAnswers(w: World, owner: string, task: Task, choice: Choice)
    requires FenceInv(w) && Enabled(w, Advance(owner, task, choice))
    ensures Answers(Next(w, Advance(owner, task, choice)))
  {
    hide Advanced, KeyOf, Intents;
    var w' := Next(w, Advance(owner, task, choice));
    var a, pc, n := w.attempts[owner], w.frames[(owner, task)], |w.invocations|;
    ControlFlow(w.ledger, a, task, pc, choice, n);
    TouchedKeys(w.ledger, a, task, pc, choice, n, "");
    forall f | f in w'.frames && w'.frames[f].Ended? && w'.frames[f].result.Returned?
      && f.0 in w'.attempts && w'.attempts[f.0].hooked
      ensures Read(w'.ledger, MarkerOf(f.1)) == Some(Done(Journaled(w'.frames[f].result.record)))
    {
      if f != (owner, task) {
        AdvanceKeepsProjection(w, owner, task, choice, if f.1.ToolCall? then f.1.id else "");
      }
    }
  }

  // ── every action ─────────────────────────────────────────────────────────

  lemma AdvanceKeepsFence(w: World, owner: string, task: Task, choice: Choice)
    requires FenceInv(w) && Enabled(w, Advance(owner, task, choice))
    ensures FenceInv(Next(w, Advance(owner, task, choice)))
  {
    hide Advanced, KeyOf, Intents, Markers, Answers;
    var a, pc, n := w.attempts[owner], w.frames[(owner, task)], |w.invocations|;
    ControlFlow(w.ledger, a, task, pc, choice, n);
    TouchedKeys(w.ledger, a, task, pc, choice, n, "");
    AdvanceKeepsIntents(w, owner, task, choice);
    AdvanceKeepsMarkers(w, owner, task, choice);
    AdvanceKeepsAnswers(w, owner, task, choice);
  }

  lemma JoinKeepsFence(w: World, action: Action)
    requires FenceInv(w) && Enabled(w, action) && action.Join?
    ensures FenceInv(Next(w, action))
  {
    hide KeyOf, AfterKey, MarkerOf, Owns;
  }

  /** The frame is gone or back at its first store call: it owns nothing and has returned nothing. */
  lemma ResetKeepsFence(w: World, w': World, f: (string, Task), next: Pc)
    requires FenceInv(w) && f.0 in w.attempts
    requires w'.ledger == w.ledger && w'.attempts == w.attempts && w'.frames == w.frames[f := next]
    requires !Owns(next) && !Journaling(next)
    ensures FenceInv(w')
  {
  }

  lemma EnvironmentKeepsTokens(w: World, op: Op<Value>)
    requires Tokens(w) && Enabled(w, Environment(op))
    ensures Tokens(Next(w, Environment(op)))
  {
  }

  lemma EnvironmentKeepsFence(w: World, op: Op<Value>)
    requires FenceInv(w) && Enabled(w, Environment(op))
    ensures FenceInv(Next(w, Environment(op)))
  {
    hide Apply, KeyOf;
    var w' := Next(w, Environment(op));
    EnvironmentKeepsTokens(w, op);
    LedgerHistory.IssuedStep(w.ledger, op);
    forall t: Task
      ensures Read(w'.ledger, KeyOf(t)) == Read(w.ledger, KeyOf(t))
    {
      KeysApart(t, t, "", "");
      ForeignKeeps(w.ledger, op, w.attempts.Keys, KeyOf(t));
    }
    forall id: string
      ensures Read(w'.ledger, AfterKey(id)) == Read(w.ledger, AfterKey(id))
    {
      KeysApart(ToolCall(id), ToolCall(id), id, id);
      ForeignKeeps(w.ledger, op, w.attempts.Keys, AfterKey(id));
    }
    ReadsKeepFence(w, w');
  }

  lemma ReadsKeepFence(w: World, w': World)
    requires FenceInv(w) && Tokens(w')
    requires w'.attempts == w.attempts && w'.frames == w.frames && w.ledger.issued <= w'.ledger.issued
    requires forall t :: Read(w'.ledger, KeyOf(t)) == Read(w.ledger, KeyOf(t))
    requires forall id :: Read(w'.ledger, AfterKey(id)) == Read(w.ledger, AfterKey(id))
    ensures FenceInv(w')
  {
  }

  lemma NextKeepsFence(w: World, action: Action)
    requires FenceInv(w) && Enabled(w, action) && !action.JoinUnleased?
    ensures FenceInv(Next(w, action))
  {
    hide FenceInv, Advanced, Apply;
    match action
    case Join(_, _, _, _, _) => JoinKeepsFence(w, action);
    case Begin(owner, task) => BeginKeepsFence(w, action);
    case BeginCopy(owner, task, source) => BeginKeepsFence(w, action);
    case Advance(owner, task, choice) => AdvanceKeepsFence(w, owner, task, choice);
    case Crash(owner, task) => CrashKeepsFence(w, owner, task);
    case Environment(op) => EnvironmentKeepsFence(w, op);
  }

  lemma BeginKeepsFence(w: World, action: Action)
    requires FenceInv(w) && Enabled(w, action) && (action.Begin? || action.BeginCopy?)
    ensures FenceInv(Next(w, action))
  {
    var f := (action.owner, action.task);
    ResetKeepsFence(w, Next(w, action), f, Next(w, action).frames[f]);
  }

  lemma CrashKeepsFence(w: World, owner: string, task: Task)
    requires FenceInv(w) && Enabled(w, Crash(owner, task))
    ensures FenceInv(Next(w, Crash(owner, task)))
  {
    ResetKeepsFence(w, Next(w, Crash(owner, task)), (owner, task), Ended(Raised(Crashed)));
  }

  lemma {:induction false} LeasedRunKeeps(w: World, actions: seq<Action>)
    requires FenceInv(w) && IsRun(w, actions) && Leased(After(w, actions))
    ensures FenceInv(After(w, actions))
    decreases |actions|
  {
    hide Next, FenceInv;
    if actions != [] {
      var w' := Next(w, actions[0]);
      RunKeepsAttempts(w', actions[1..]);
      if actions[0].JoinUnleased? {
        UnleasedJoins(w, actions[0]);
      }
      NextKeepsFence(w, actions[0]);
      LeasedRunKeeps(w', actions[1..]);
    }
  }

  lemma UnleasedJoins(w: World, action: Action)
    requires Enabled(w, action) && action.JoinUnleased?
    ensures !Leased(Next(w, action))
  {
    assert Next(w, action).attempts[action.owner].token == 0;
  }

  lemma {:induction false} RunKeepsAttempts(w: World, actions: seq<Action>)
    requires IsRun(w, actions) && Leased(After(w, actions))
    ensures Leased(w)
    decreases |actions|
  {
    hide Next;
    if actions != [] {
      RunKeepsAttempts(Next(w, actions[0]), actions[1..]);
      AttemptsPersist(w, actions[0]);
    }
  }

  lemma ReachableFence(w: World)
    requires Reachable(w) && Leased(w)
    ensures FenceInv(w)
  {
    var actions :| IsRun(Fresh(), actions) && After(Fresh(), actions) == w;
    LeasedRunKeeps(Fresh(), actions);
  }

  // ── the results ──────────────────────────────────────────────────────────

  /**
  While the attempt presenting the newest token is inside its handler (or still to commit what it
  did), no action of anybody else clears, restarts or completes its step: the intent stays running and
  no other frame comes to own it. This holds even for the action that moves the token on.
  */
  lemma NewestIsUndisturbed(w: World, owner: string, task: Task, action: Action)
    requires Reachable(w) && Leased(w) && Newest(w, owner)
    requires (owner, task) in w.frames && Owns(w.frames[(owner, task)])
    requires Enabled(w, action) && !action.JoinUnleased?
    requires action != Crash(owner, task) && !(action.Advance? && action.owner == owner && action.task == task)
    ensures var w' := Next(w, action);
      && Read(w'.ledger, KeyOf(task)) == Some(Running)
      && (forall other :: other != owner && (other, task) in w'.frames && Owns(w'.frames[(other, task)]) ==>
        (other, task) in w.frames && Owns(w.frames[(other, task)]))
  {
    hide KeyOf, Advanced, Apply;
    ReachableFence(w);
    var w' := Next(w, action);
    match action
    case Advance(o, t, choice) =>
      var a, pc, n := w.attempts[o], w.frames[(o, t)], |w.invocations|;
      if o == owner {
        KeysApart(t, task, if t.ToolCall? then t.id else "", "");
        TouchedKeys(w.ledger, a, t, pc, choice, n, KeyOf(task));
        assert Read(w.ledger, KeyOf(task)).Some?;
      } else {
        assert a.token != w.attempts[owner].token;
        StaleStep(w.ledger, a, t, pc, choice, n);
      }
    case Environment(op) =>
      KeysApart(task, task, "", "");
      ForeignKeeps(w.ledger, op, w.attempts.Keys, KeyOf(task));
      assert Read(w.ledger, KeyOf(task)).Some?;
    case _ =>
  }

  /**
  A step becomes done only when the attempt with the newest token commits what its own handler (or
  its fork copy) produced.
  */
  lemma CommitsComeFromNewest(w: World, action: Action, task: Task)
    requires Reachable(w) && Leased(w) && Enabled(w, action)
    requires !IsDone(w.ledger, KeyOf(task)) && IsDone(Next(w, action).ledger, KeyOf(task))
    ensures action.Advance? && action.task == task && Newest(w, action.owner)
    ensures var pc := w.frames[(action.owner, task)];
      var value := Next(w, action).ledger.steps[KeyOf(task)].value;
      pc == Finishing(value) || pc == CopyFinishing(value)
  {
    hide KeyOf, Apply, Advanced;
    ReachableFence(w);
    match action
    case Advance(o, t, choice) =>
      var a, pc, n := w.attempts[o], w.frames[(o, t)], |w.invocations|;
      KeysApart(t, task, if t.ToolCall? then t.id else "", "");
      TouchedKeys(w.ledger, a, t, pc, choice, n, KeyOf(task));
      DoneStep(w.ledger, a, t, pc, choice, n);
    case Environment(op) =>
      KeysApart(task, task, "", "");
      ForeignKeeps(w.ledger, op, w.attempts.Keys, KeyOf(task));
    case _ =>
  }

  lemma DoneStep(l: BranchLedger<Value>, a: Attempt, task: Task, pc: Pc, choice: Choice, n: nat)
    ensures var m := Advanced(l, a, task, pc, choice, n).0;
      !IsDone(l, KeyOf(task)) && IsDone(m, KeyOf(task)) ==>
        && !Stale(l, a.token)
        && (pc == Finishing(m.steps[KeyOf(task)].value) || pc == CopyFinishing(m.steps[KeyOf(task)].value))
  {
    hide KeyOf;
    KeysApart(task, task, if task.ToolCall? then task.id else "", "");
  }

  /** A committed result never changes, whoever acts, retries included. */
  lemma ResultsStay(w: World, action: Action, task: Task)
    requires Enabled(w, action) && IsDone(w.ledger, KeyOf(task))
    ensures Read(Next(w, action).ledger, KeyOf(task)) == Read(w.ledger, KeyOf(task))
  {
    hide KeyOf, Advanced, Apply;
    match action
    case Advance(o, t, choice) =>
      KeysApart(t, task, if t.ToolCall? then t.id else "", "");
      TouchedKeys(w.ledger, w.attempts[o], t, w.frames[(o, t)], choice, |w.invocations|, KeyOf(task));
    case Environment(op) =>
      KeysApart(task, task, "", "");
      ForeignKeeps(w.ledger, op, w.attempts.Keys, KeyOf(task));
    case _ =>
  }

  /** `after:<id>` is upserted, and yet written once: no action changes a committed projection. */
  lemma JournalIsWrittenOnce(w: World, action: Action, id: string)
    requires Reachable(w) && Leased(w) && Enabled(w, action)
    requires AfterKey(id) in w.ledger.steps
    ensures Read(Next(w, action).ledger, AfterKey(id)) == Read(w.ledger, AfterKey(id))
  {
    hide FenceInv, Next;
    ReachableFence(w);
    ProjectionStays(w, action, id);
  }

  lemma ProjectionStays(w: World, action: Action, id: string)
    requires FenceInv(w) && Enabled(w, action)
    requires AfterKey(id) in w.ledger.steps
    ensures Read(Next(w, action).ledger, AfterKey(id)) == Read(w.ledger, AfterKey(id))
  {
    hide KeyOf, Advanced, Apply, FenceInv;
    match action
    case Advance(o, t, choice) => AdvanceKeepsProjection(w, o, t, choice, id);
    case Environment(op) =>
      KeysApart(ToolCall(id), ToolCall(id), id, id);
      ForeignKeeps(w.ledger, op, w.attempts.Keys, AfterKey(id));
    case _ =>
  }

  /**
  Every attempt that runs a journal and gets to the end of a call returns the same model-visible
  record, however the attempts overlapped, were replaced, or repeated the hook.
  */
  lemma AttemptsAgree(w: World, first: string, second: string, task: Task)
    requires Reachable(w) && Leased(w)
    requires (first, task) in w.frames && (second, task) in w.frames
    requires w.frames[(first, task)].Ended? && w.frames[(first, task)].result.Returned?
    requires w.frames[(second, task)].Ended? && w.frames[(second, task)].result.Returned?
    requires first in w.attempts && w.attempts[first].hooked && second in w.attempts && w.attempts[second].hooked
    ensures w.frames[(first, task)].result.record == w.frames[(second, task)].result.record
  {
    ReachableFence(w);
  }

  /** Once committed, a result and a projection read the same for the rest of every run. */
  lemma {:induction false} CommittedForGood(w: World, actions: seq<Action>, task: Task, id: string)
    requires FenceInv(w) && IsRun(w, actions) && Leased(After(w, actions))
    ensures IsDone(w.ledger, KeyOf(task)) ==> Read(After(w, actions).ledger, KeyOf(task)) == Read(w.ledger, KeyOf(task))
    ensures AfterKey(id) in w.ledger.steps ==> Read(After(w, actions).ledger, AfterKey(id)) == Read(w.ledger, AfterKey(id))
    decreases |actions|
  {
    hide Next, FenceInv, KeyOf, AfterKey, Enabled;
    if actions != [] {
      var w' := Next(w, actions[0]);
      RunKeepsAttempts(w', actions[1..]);
      if actions[0].JoinUnleased? {
        UnleasedJoins(w, actions[0]);
      }
      NextKeepsFence(w, actions[0]);
      if IsDone(w.ledger, KeyOf(task)) {
        ResultsStay(w, actions[0], task);
      }
      if AfterKey(id) in w.ledger.steps {
        ProjectionStays(w, actions[0], id);
      }
      CommittedForGood(w', actions[1..], task, id);
    }
  }

  /** Whoever looks for the projection after its commit returns it, and runs no hook. */
  lemma ProjectionIsReturned(w: World, owner: string, id: string, choice: Choice)
    requires Reachable(w) && Leased(w) && Enabled(w, Advance(owner, ToolCall(id), choice))
    requires w.frames[(owner, ToolCall(id))].JournalReading? && AfterKey(id) in w.ledger.steps
    ensures var journal := w.ledger.steps[AfterKey(id)];
      && journal.Done? && journal.value.Journaled?
      && Next(w, Advance(owner, ToolCall(id), choice)).frames[(owner, ToolCall(id))] == Ended(Returned(journal.value.record))
  {
    ReachableFence(w);
    hide FenceInv;
    MarkersMean(w, id);
  }

  lemma MarkersMean(w: World, id: string)
    requires FenceInv(w) && AfterKey(id) in w.ledger.steps
    ensures w.ledger.steps[AfterKey(id)].Done? && w.ledger.steps[AfterKey(id)].value.Journaled?
  {
  }
}
