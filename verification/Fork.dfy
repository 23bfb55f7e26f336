/**
Fork: a new branch starts from a point of another one's history, and takes over the steps of the calls
which that history has not answered. The copy leaves the source as it is.
*/
module Fork {
  import opened Ledger
  import opened MemoryLedger
  import opened Attempts
  import opened EffectsBoundary
  import AtMostOnce
  import FencedRetry
  import Selections

  // ── the calls a history still owes ───────────────────────────────────────

  /** A message, by what matters here: the calls a response makes and the calls a later part answers. */
  datatype Message = Message(isResponse: bool, calls: seq<string>, answers: seq<string>)

  function Answered(messages: seq<Message>): set<string> {
    set i, j | 0 <= i < |messages| && 0 <= j < |messages[i].answers| :: messages[i].answers[j]
  }

  function NotIn(calls: seq<string>, answered: set<string>): seq<string> {
    if calls == [] then []
    else
      var n := |calls| - 1;
      NotIn(calls[..n], answered) + (if calls[n] in answered then [] else [calls[n]])
  }

  /** The call ids the messages from `from` on answer. */
  method AnsweredFrom(history: seq<Message>, from: nat) returns (answered: set<string>)
    requires from <= |history|
    ensures answered == Answered(history[from..])
  {
    answered := {};
    var later := from;
    while later < |history|
      invariant from <= later <= |history|
      invariant answered == Answered(history[from..later])
    {
      AnsweredOne(history, from, later);
      answered := answered + set j | 0 <= j < |history[later].answers| :: history[later].answers[j];
      later := later + 1;
    }
    assert history[from..later] == history[from..];
  }

  method Without(calls: seq<string>, answered: set<string>) returns (left: seq<string>)
    ensures left == NotIn(calls, answered)
  {
    left := [];
    var n := 0;
    while n < |calls|
      invariant 0 <= n <= |calls|
      invariant left == NotIn(calls[..n], answered)
    {
      assert calls[..n + 1][..n] == calls[..n];
      if calls[n] !in answered {
        left := left + [calls[n]];
      }
      n := n + 1;
    }
    assert calls[..n] == calls;
  }

  /** A message behind the `k`-th answers the call. */
  predicate AnsweredBehind(history: seq<Message>, k: nat, id: string) {
    exists i :: k < i < |history| && id in history[i].answers
  }

  /** The calls at these positions of the `k`-th message, which are all that nothing behind it answers. */
  ghost predicate Owes(history: seq<Message>, k: nat, calls: seq<string>, at: seq<nat>)
    requires k < |history|
  {
    && Selections.InOrder(calls, history[k].calls, at)
    && (forall i :: 0 <= i < |history[k].calls| ==> (i in at <==> !AnsweredBehind(history, k, history[k].calls[i])))
  }

  lemma {:induction false} NotInIs(calls: seq<string>, answered: set<string>) returns (at: seq<nat>)
    ensures Selections.InOrder(NotIn(calls, answered), calls, at)
    ensures forall i :: 0 <= i < |calls| ==> (i in at <==> calls[i] !in answered)
  {
    at := [];
    if calls != [] {
      var n := |calls| - 1;
      at := NotInIs(calls[..n], answered);
      Selections.OneMore(NotIn(calls[..n], answered), calls, at);
      assert forall i :: 0 <= i < n ==> calls[..n][i] == calls[i];
      assert NotIn(calls[..n], answered) + [] == NotIn(calls[..n], answered);
      if calls[n] !in answered {
        at := at + [n];
      }
    }
  }

  lemma AnsweredIs(history: seq<Message>, k: nat, id: string)
    requires k < |history|
    ensures id in Answered(history[k + 1..]) <==> AnsweredBehind(history, k, id)
  {
    var later := history[k + 1..];
    if i, j :| 0 <= i < |later| && 0 <= j < |later[i].answers| && later[i].answers[j] == id {
      assert history[k + 1 + i] == later[i];
    }
    if i :| k < i < |history| && id in history[i].answers {
      assert later[i - k - 1] == history[i];
      var j :| 0 <= j < |history[i].answers| && history[i].answers[j] == id;
      assert later[i - k - 1].answers[j] == id;
    }
  }

  lemma OwedAre(history: seq<Message>, k: nat) returns (at: seq<nat>)
    requires k < |history|
    ensures Owes(history, k, NotIn(history[k].calls, Answered(history[k + 1..])), at)
  {
    hide NotIn, Answered, AnsweredBehind;
    at := NotInIs(history[k].calls, Answered(history[k + 1..]));
    forall i | 0 <= i < |history[k].calls|
      ensures i in at <==> !AnsweredBehind(history, k, history[k].calls[i])
    {
      AnsweredIs(history, k, history[k].calls[i]);
    }
  }

  /** What the newest response asked for and no later message answers, in its order and as often as it asked. */
  method UnansweredToolCalls(history: seq<Message>) returns (calls: seq<string>)
    ensures (forall i :: 0 <= i < |history| ==> !history[i].isResponse) ==> calls == []
    ensures forall k :: IsLatestResponse(history, k) ==> exists at :: Owes(history, k, calls, at)
  {
    hide NotIn, Answered, Owes;
    var index := |history|;
    while index > 0
      invariant 0 <= index <= |history|
      invariant forall i :: index <= i < |history| ==> !history[i].isResponse
    {
      index := index - 1;
      if history[index].isResponse {
        var answered := AnsweredFrom(history, index + 1);
        calls := Without(history[index].calls, answered);
        ghost var at := OwedAre(history, index);
        return;
      }
    }
    calls := [];
  }

  predicate IsLatestResponse(history: seq<Message>, k: int) {
    0 <= k < |history| && history[k].isResponse && forall i :: k < i < |history| ==> !history[i].isResponse
  }

  lemma AnsweredOne(history: seq<Message>, from: nat, to: nat)
    requires from <= to < |history|
    ensures Answered(history[from..to + 1])
      == Answered(history[from..to]) + set j | 0 <= j < |history[to].answers| :: history[to].answers[j]
  {
    var before, after := history[from..to], history[from..to + 1];
    forall id | id in Answered(after)
      ensures id in Answered(before) + set j | 0 <= j < |history[to].answers| :: history[to].answers[j]
    {
      var i, j :| 0 <= i < |after| && 0 <= j < |after[i].answers| && after[i].answers[j] == id;
      if i < |before| { assert before[i].answers[j] == id; }
    }
    forall id | id in Answered(before) + set j | 0 <= j < |history[to].answers| :: history[to].answers[j]
      ensures id in Answered(after)
    {
      if id in Answered(before) {
        var i, j :| 0 <= i < |before| && 0 <= j < |before[i].answers| && before[i].answers[j] == id;
        assert after[i].answers[j] == id;
      } else {
        var j :| 0 <= j < |history[to].answers| && history[to].answers[j] == id;
        assert after[to - from].answers[j] == id;
      }
    }
  }

  // ── copying one call ─────────────────────────────────────────────────────

  const NO_CHOICE := Choice(Cancelled, None)

  /** One round of the copy loop: the frame of `Attempts` that begins with what was read. */
  function CopyOne(l: BranchLedger<Value>, a: Attempt, id: string, record: Option<Step<Value>>): (BranchLedger<Value>, Result) {
    match record
    case None => (l, Attempts.Copied)
    case Some(step) =>
      var (m, result, _) := Alone(l, a, ToolCall(id), CopyStarting(step), NO_CHOICE);
      (m, result)
  }

  /**
  A copied call has the source's status and value; a call the target has already is left alone; a stale
  fork writes nothing.
  */
  lemma CopyOneIs(l: BranchLedger<Value>, a: Attempt, id: string, record: Option<Step<Value>>)
    ensures var (m, result) := CopyOne(l, a, id, record);
      var key := StepKey(id);
      && (result == Attempts.Copied || result == Raised(FencedOut))
      && (result.Raised? <==> record.Some? && Stale(l, a.token))
      && (result.Raised? ==> m == l)
      && (result == Attempts.Copied ==>
        m == l.(steps := if record.Some? && key !in l.steps then l.steps[key := record.value] else l.steps))
  {
    hide StepKey;
    if record.Some? {
      var task := ToolCall(id);
      assert KeyOf(task) == StepKey(id);
      AloneStep(l, a, task, CopyStarting(record.value), NO_CHOICE);
      if !Stale(l, a.token) && StepKey(id) !in l.steps && record.value.Done? {
        var n := Started(l, StepKey(id), a.token).0;
        AloneStep(n, a, task, CopyFinishing(record.value.value), NO_CHOICE);
        assert l.steps[StepKey(id) := Running][StepKey(id) := record.value] == l.steps[StepKey(id) := record.value];
      }
    }
  }

  // ── a copy cut off anywhere ──────────────────────────────────────────────

  predicate Overtaken(w: World, owner: string) {
    owner in w.attempts && Stale(w.ledger, w.attempts[owner].token)
  }

  /** The copy of one call is under way or over, and nobody else is at that call but overtaken attempts. */
  ghost predicate Copying(w: World, owner: string, id: string, step: Step<Value>) {
    var task := ToolCall(id);
    && (owner, task) in w.frames
    && (forall f :: f in w.frames && f.1 == task && f.0 != owner ==> w.frames[f].Ended? || Overtaken(w, f.0))
    && CopyStands(w.ledger, w.frames[(owner, task)], id, step)
  }

  ghost predicate CopyStands(l: BranchLedger<Value>, pc: Pc, id: string, step: Step<Value>) {
    match pc
    case CopyStarting(source) => source == step && Read(l, StepKey(id)) == None
    case CopyFinishing(copy) => step == Done(copy) && Read(l, StepKey(id)) == Some(Running)
    case Ended(_) => Read(l, StepKey(id)) in {None, Some(Running), Some(step)}
    case _ => false
  }

  lemma CopyAdvances(l: BranchLedger<Value>, a: Attempt, id: string, pc: Pc, choice: Choice, n: nat, step: Step<Value>)
    requires CopyStands(l, pc, id, step)
    ensures var (m, next) := Advanced(l, a, ToolCall(id), pc, choice, n); CopyStands(m, next, id, step)
  {
    assert KeyOf(ToolCall(id)) == StepKey(id);
  }

  /** No pass at the call begins that is not overtaken already: the fork has not gone on to its attempt. */
  predicate LeavesCall(w: World, action: Action, owner: string, id: string) {
    (action.Begin? || action.BeginCopy?) && action.task == ToolCall(id) ==> action.owner != owner && Overtaken(w, action.owner)
  }

  ghost predicate AllLeaveCall(w: World, actions: seq<Action>, owner: string, id: string)
    requires IsRun(w, actions)
    decreases |actions|
  {
    actions != [] ==> LeavesCall(w, actions[0], owner, id) && AllLeaveCall(Next(w, actions[0]), actions[1..], owner, id)
  }

  lemma OvertakenForGood(w: World, action: Action)
    requires Enabled(w, action)
    ensures forall o :: Overtaken(w, o) ==> Overtaken(Next(w, action), o)
  {
    hide Next;
    FencedRetry.IssuedRises(w, action);
  }

  lemma OvertakenWritesNothing(w: World, owner: string, task: Task, choice: Choice)
    requires Enabled(w, Advance(owner, task, choice)) && Overtaken(w, owner)
    ensures Next(w, Advance(owner, task, choice)).ledger == w.ledger
  {
    hide Advanced;
    FencedRetry.StaleStep(w.ledger, w.attempts[owner], task, w.frames[(owner, task)], choice, |w.invocations|);
  }

  lemma CopyingStep(w: World, action: Action, owner: string, id: string, step: Step<Value>)
    requires Copying(w, owner, id, step) && Enabled(w, action) && LeavesCall(w, action, owner, id)
    ensures Copying(Next(w, action), owner, id, step)
  {
    hide Apply, StepKey, Advanced, Overtaken;
    var task := ToolCall(id);
    OvertakenForGood(w, action);
    assert KeyOf(task) == StepKey(id);
    match action
    case Advance(o, t, choice) =>
      if t == task && o == owner {
        CopyAdvances(w.ledger, w.attempts[o], id, w.frames[(o, t)], choice, |w.invocations|, step);
      } else if t == task {
        OvertakenWritesNothing(w, o, t, choice);
      } else {
        AtMostOnce.OthersUntouched(w.ledger, w.attempts[o], t, w.frames[(o, t)], choice, |w.invocations|, task);
        assert Read(Next(w, action).ledger, StepKey(id)) == Read(w.ledger, StepKey(id));
      }
    case Environment(op) =>
      KeysApart(task, task, "", "");
      ForeignKeeps(w.ledger, op, w.attempts.Keys, StepKey(id));
    case _ =>
  }

  /**
  Wherever the copy of a call is cut off, and whatever else goes on at the branch, passes of overtaken attempts
  at that very call included: a key that was absent when it began is absent, running, or done with the source's
  value.
  */
  lemma {:induction false} CutOffCopy(w: World, actions: seq<Action>, owner: string, id: string, step: Step<Value>)
    requires Copying(w, owner, id, step) && IsRun(w, actions) && AllLeaveCall(w, actions, owner, id)
    ensures Copying(After(w, actions), owner, id, step)
    ensures Read(After(w, actions).ledger, StepKey(id)) in {None, Some(Running), Some(step)}
    decreases |actions|
  {
    hide Next, LeavesCall, Overtaken;
    if actions != [] {
      CopyingStep(w, actions[0], owner, id, step);
      CutOffCopy(Next(w, actions[0]), actions[1..], owner, id, step);
    }
  }

  /** So it begins: the call is absent in the target, and no pass at it is under way that can still write. */
  lemma CopyBegins(w: World, owner: string, id: string, step: Step<Value>)
    requires Enabled(w, BeginCopy(owner, ToolCall(id), step)) && StepKey(id) !in w.ledger.steps
    requires forall other :: other != owner && Live(w, other, ToolCall(id)) ==> Overtaken(w, other)
    ensures Copying(Next(w, BeginCopy(owner, ToolCall(id), step)), owner, id, step)
  {
    hide StepKey;
    var w' := Next(w, BeginCopy(owner, ToolCall(id), step));
    forall f | f in w'.frames && f.1 == ToolCall(id) && f.0 != owner
      ensures w'.frames[f].Ended? || Overtaken(w', f.0)
    {
      assert Live(w, f.0, ToolCall(id)) <==> !w.frames[f].Ended?;
    }
  }

  // ── the whole copy ───────────────────────────────────────────────────────

  predicate Has(calls: seq<string>, key: string) {
    exists i :: 0 <= i < |calls| && StepKey(calls[i]) == key
  }

  /** The target's steps after a complete copy: what it had, and what it lacked of the owed calls. */
  ghost predicate IsCopy(source: map<string, Step<Value>>, before: map<string, Step<Value>>, after: map<string, Step<Value>>, calls: seq<string>) {
    && (forall key :: key in before ==> key in after && after[key] == before[key])
    && (forall key :: key !in before && Has(calls, key) && key in source ==> key in after && after[key] == source[key])
    && (forall key :: key in after ==> key in before || (Has(calls, key) && key in source))
  }

  lemma CopyMore(
      source: map<string, Step<Value>>, before: map<string, Step<Value>>, after: map<string, Step<Value>>,
      calls: seq<string>, n: nat)
    requires n < |calls| && IsCopy(source, before, after, calls[..n])
    ensures var key := StepKey(calls[n]);
      IsCopy(source, before, if key in source && key !in after then after[key := source[key]] else after, calls[..n + 1])
  {
  }

  /** The copied call ids: finished calls whose key was not there, in the order of the history. */
  function FinishedCopies(source: map<string, Step<Value>>, before: map<string, Step<Value>>, calls: seq<string>): seq<string> {
    if calls == [] then []
    else
      var n := |calls| - 1;
      var key := StepKey(calls[n]);
      FinishedCopies(source, before, calls[..n])
      + (if key in source && source[key].Done? && key !in before && !Has(calls[..n], key) then [calls[n]] else [])
  }

  /** The call is the first of its name, and the source had finished what the target knows nothing of. */
  predicate IsNewCopy(source: map<string, Step<Value>>, before: map<string, Step<Value>>, calls: seq<string>, i: nat)
    requires i < |calls|
  {
    var key := StepKey(calls[i]);
    && key in source && source[key].Done? && key !in before
    && forall j :: 0 <= j < i ==> calls[j] != calls[i]
  }

  /** So `copied` names each finished call that the target lacked, once, in the order of the history. */
  lemma {:induction false} FinishedCopiesAre(source: map<string, Step<Value>>, before: map<string, Step<Value>>, calls: seq<string>)
      returns (at: seq<nat>)
    ensures Selections.InOrder(FinishedCopies(source, before, calls), calls, at)
    ensures forall i :: 0 <= i < |calls| ==> (i in at <==> IsNewCopy(source, before, calls, i))
  {
    at := [];
    if calls != [] {
      hide Selections.InOrder, StepKey;
      var n := |calls| - 1;
      at := FinishedCopiesAre(source, before, calls[..n]);
      Selections.OneMore(FinishedCopies(source, before, calls[..n]), calls, at);
      forall i | 0 <= i < n
        ensures IsNewCopy(source, before, calls, i) <==> IsNewCopy(source, before, calls[..n], i)
      {
        assert forall j :: 0 <= j <= i ==> calls[..n][j] == calls[j];
      }
      HasByName(calls, n);
      if IsNewCopy(source, before, calls, n) {
        at := at + [n];
      } else {
        assert FinishedCopies(source, before, calls) == FinishedCopies(source, before, calls[..n]);
      }
    }
  }

  lemma HasByName(calls: seq<string>, n: nat)
    requires n < |calls|
    ensures Has(calls[..n], StepKey(calls[n])) <==> exists j :: 0 <= j < n && calls[j] == calls[n]
  {
    if j :| 0 <= j < n && StepKey(calls[..n][j]) == StepKey(calls[n]) {
      KeysApart(ToolCall(calls[j]), ToolCall(calls[n]), "", "");
      assert KeyOf(ToolCall(calls[j])) == KeyOf(ToolCall(calls[n]));
    }
    if j :| 0 <= j < n && calls[j] == calls[n] {
      assert StepKey(calls[..n][j]) == StepKey(calls[n]);
    }
  }

  /**
  Copy the steps of `calls` from one branch of the store to another. Both ends are branches of the one
  store; read and write are separate store calls, and the write is fenced.
  */
  method CopyCalls(store: MemorySteps<Value>, src: string, dst: string, a: Attempt, calls: seq<string>)
      returns (copied: seq<string>, fenced: bool)
    requires store.Valid()
    modifies store
    ensures store.Valid()
    ensures Moved(old(store.Now()), store.Now(), dst, store.View(dst))
    ensures store.View(src) == old(store.View(src))
    ensures fenced <==> Stale(old(store.View(dst)), a.token) && exists i :: 0 <= i < |calls| && StepKey(calls[i]) in old(store.View(src)).steps
    ensures fenced ==> store.View(dst) == old(store.View(dst))
    ensures !fenced ==>
      && store.View(dst) == old(store.View(dst)).(steps := store.View(dst).steps)
      && IsCopy(old(store.View(src)).steps, old(store.View(dst)).steps, store.View(dst).steps, calls)
      && copied == FinishedCopies(old(store.View(src)).steps, old(store.View(dst)).steps, calls)
  {
    hide Moved, GoodBranch, ViewOf, StepKey, IsCopy, Stale;
    ghost var t, source, target := store.Now(), store.View(src), store.View(dst);
    StoodStill(t, dst);
    copied, fenced := [], false;
    NothingCopied(source.steps, target.steps, calls);
    var n := 0;
    while n < |calls|
      invariant 0 <= n <= |calls| && store.Valid() && !fenced
      invariant Moved(t, store.Now(), dst, store.View(dst)) && store.View(src) == source
      invariant store.View(dst) == target.(steps := store.View(dst).steps)
      invariant IsCopy(source.steps, target.steps, store.View(dst).steps, calls[..n])
      invariant copied == FinishedCopies(source.steps, target.steps, calls[..n])
      invariant Stale(target, a.token) ==> store.View(dst) == target
      invariant Stale(target, a.token) ==> forall i :: 0 <= i < n ==> StepKey(calls[i]) !in source.steps
    {
      ghost var steps := store.View(dst).steps;
      var done;
      done, fenced := CopyCall(store, src, dst, a, calls[n], t);
      SameFence(target, steps, a.token);
      if fenced { return; }
      CopyMore(source.steps, target.steps, steps, calls, n);
      FinishedMore(source.steps, target.steps, steps, calls, n);
      copied := copied + (if done then [calls[n]] else []);
      n := n + 1;
    }
    assert calls[..n] == calls;
  }

  lemma NothingCopied(source: map<string, Step<Value>>, before: map<string, Step<Value>>, calls: seq<string>)
    ensures IsCopy(source, before, before, calls[..0]) && FinishedCopies(source, before, calls[..0]) == []
  {
  }

  lemma SameFence(l: BranchLedger<Value>, steps: map<string, Step<Value>>, token: nat)
    ensures Stale(l.(steps := steps), token) <==> Stale(l, token)
  {
  }

  lemma FinishedMore(
      source: map<string, Step<Value>>, before: map<string, Step<Value>>, after: map<string, Step<Value>>, calls: seq<string>, n: nat)
    requires n < |calls| && IsCopy(source, before, after, calls[..n])
    ensures var key := StepKey(calls[n]);
      FinishedCopies(source, before, calls[..n + 1]) == FinishedCopies(source, before, calls[..n])
        + (if key in source && source[key].Done? && key !in after then [calls[n]] else [])
  {
    assert calls[..n + 1][..n] == calls[..n];
  }

  /** One call of the loop, in the target as the earlier ones left it. */
  method CopyCall(store: MemorySteps<Value>, src: string, dst: string, a: Attempt, id: string, ghost t: Tables<Value>)
      returns (done: bool, fenced: bool)
    requires store.Valid() && Moved(t, store.Now(), dst, store.View(dst))
    modifies store
    ensures store.Valid() && Moved(t, store.Now(), dst, store.View(dst)) && store.View(src) == old(store.View(src))
    ensures var key := StepKey(id);
      var source, target := old(store.View(src)).steps, old(store.View(dst));
      && (fenced <==> key in source && Stale(target, a.token))
      && store.View(dst) == target.(steps :=
        if !fenced && key in source && key !in target.steps then target.steps[key := source[key]] else target.steps)
      && (!fenced ==> (done <==> key in source && source[key].Done? && key !in target.steps))
    ensures var record := Read(old(store.View(src)), StepKey(id));
      store.View(dst) == CopyOne(old(store.View(dst)), a, id, record).0
  {
    hide Moved, GoodBranch, ViewOf, StepKey, Stale;
    ghost var u, l := store.Now(), store.View(dst);
    done, fenced := false, false;
    var key := StepKey(id);
    var record := store.ReadStep(src, key);
    CopyOneIs(l, a, id, record);
    if record.None? { return; }
    var reply := store.Start(dst, key, a.token);
    MovedTwice(t, u, store.Now(), dst, l, Started(l, key, a.token).0);
    if src != dst { OthersStand(u, store.Now(), src, dst, Started(l, key, a.token).0); }
    MovedView(u, store.Now(), dst, Started(l, key, a.token).0);
    if reply.Refused? { return false, true; }
    if reply != Inserted(true) { return; }
    if record.value.Done? {
      ghost var v, m := store.Now(), store.View(dst);
      SameFence(l, m.steps, a.token);
      reply := store.FinishEffect(dst, key, record.value.value, a.token);
      MovedTwice(t, v, store.Now(), dst, m, Ledger.Finished(m, key, record.value.value, a.token).0);
      if src != dst { OthersStand(v, store.Now(), src, dst, Ledger.Finished(m, key, record.value.value, a.token).0); }
      MovedView(v, store.Now(), dst, Ledger.Finished(m, key, record.value.value, a.token).0);
      assert l.steps[key := Running][key := record.value] == l.steps[key := record.value];
      done := true;
    }
  }

  lemma OthersStand(t: Tables<Value>, u: Tables<Value>, src: string, dst: string, l: BranchLedger<Value>)
    requires Moved(t, u, dst, l) && src != dst && GoodBranch(t, src)
    ensures GoodBranch(u, src) && ViewOf(u, src) == ViewOf(t, src)
  {
    assert Kept(t, u, src);
  }
}
