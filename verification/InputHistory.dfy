/**
What the queue of a branch says about its past: the status of an input is the highest one that an accepted
operation gave it, and an input is queued by the first operation that names it, with the value it had there.
*/
module InputHistory {
  import opened Ledger
  import opened LedgerHistory

  // ── statuses ─────────────────────────────────────────────────────────────

  /** The status an operation gives the input, if it gets past the fence. */
  function SetTo<V>(op: Op<V>, id: string): Option<InputStatus> {
    match op
    case ClaimInput(claimed, _) => if claimed == id then Some(Claimed) else None
    case AdmitInputs(ids, _) => if id in ids then Some(Admitted) else None
    case DiscardInputs(ids, _) => if id in ids then Some(Discarded) else None
    case _ => None
  }

  predicate Raises<V>(l: BranchLedger<V>, op: Op<V>, id: string, to: InputStatus) {
    SetTo(op, id).Some? && to.Rank() <= SetTo(op, id).value.Rank() && (op.token == 0 || l.issued <= op.token)
  }

  /** Somewhere between the two operations the input was set to this status, or to a higher one. */
  ghost predicate WasSet<V>(l: BranchLedger<V>, ops: seq<Op<V>>, id: string, to: InputStatus, i: nat, j: nat)
    requires j <= |ops|
  {
    exists k :: i <= k < j && Raises(At(l, ops, k), ops[k], id, to)
  }

  lemma StatusStep<V>(l: BranchLedger<V>, op: Op<V>, p: nat, to: InputStatus)
    requires p < |l.queue|
    ensures p < |Apply(l, op).0.queue| && Apply(l, op).0.queue[p].id == l.queue[p].id
    ensures to.Rank() <= Apply(l, op).0.queue[p].status.Rank() <==>
      to.Rank() <= l.queue[p].status.Rank() || Raises(l, op, l.queue[p].id, to)
  {
    hide Completed, Refusal;
    if op.Commit? {
      AppendInputsGrows(l.queue, op.transition.inputs);
    }
  }

  /**
  Over any history: an input is at least claimed, admitted or discarded exactly if it was before, or an
  operation that got past the fence set it to that or to something higher. So a claim never takes back an
  admission, and a discard is final.
  */
  lemma {:induction false} StatusIsHighest<V>(l: BranchLedger<V>, ops: seq<Op<V>>, i: nat, j: nat, p: nat, to: InputStatus)
    requires i <= j <= |ops| && p < |At(l, ops, i).queue|
    ensures p < |At(l, ops, j).queue| && At(l, ops, j).queue[p].id == At(l, ops, i).queue[p].id
    ensures to.Rank() <= At(l, ops, j).queue[p].status.Rank() <==>
      to.Rank() <= At(l, ops, i).queue[p].status.Rank() || WasSet(l, ops, At(l, ops, i).queue[p].id, to, i, j)
    decreases j - i
  {
    hide Apply, Raises;
    if i < j {
      StatusIsHighest(l, ops, i, j - 1, p, to);
      StatusStep(At(l, ops, j - 1), ops[j - 1], p, to);
    }
  }

  // ── new inputs ───────────────────────────────────────────────────────────

  predicate Mentions<V>(inputs: seq<(string, V)>, id: string) {
    exists i :: 0 <= i < |inputs| && inputs[i].0 == id
  }

  /** `inputs[i]` is the first of them with its id, and no input of the queue has that id. */
  predicate IsNew<V>(queue: seq<Input<V>>, inputs: seq<(string, V)>, i: nat) {
    i < |inputs| && !HasInput(queue, inputs[i].0) && forall j :: 0 <= j < i ==> inputs[j].0 != inputs[i].0
  }

  /** Behind `queue` come the new ones among `inputs`, in their order, pending, with their values. */
  ghost predicate QueuedFrom<V>(queue: seq<Input<V>>, after: seq<Input<V>>, inputs: seq<(string, V)>, at: seq<nat>) {
    && queue <= after && |at| == |after| - |queue|
    && (forall k, m :: 0 <= k < m < |at| ==> at[k] < at[m])
    && (forall k :: 0 <= k < |at| ==> IsNew(queue, inputs, at[k]))
    && (forall k :: 0 <= k < |at| ==> after[|queue| + k] == Input(inputs[at[k]].0, Pending, inputs[at[k]].1))
  }

  lemma AppendsOne<V>(queue: seq<Input<V>>, id: string, value: V)
    ensures forall x :: HasInput(AppendInput(queue, id, value), x) <==> HasInput(queue, x) || x == id
  {
    var after := AppendInput(queue, id, value);
    forall x
      ensures HasInput(after, x) <==> HasInput(queue, x) || x == id
    {
      if i :| 0 <= i < |queue| && queue[i].id == x {
        assert after[i].id == x;
      }
      if !HasInput(queue, id) {
        assert after[|queue|].id == id;
      }
    }
  }

  lemma MentionsMore<V>(inputs: seq<(string, V)>, x: string)
    requires inputs != []
    ensures Mentions(inputs, x) <==> inputs[0].0 == x || Mentions(inputs[1..], x)
  {
    if i :| 0 <= i < |inputs| && inputs[i].0 == x {
      assert i > 0 ==> inputs[1..][i - 1].0 == x;
    }
    if i :| 0 <= i < |inputs[1..]| && inputs[1..][i].0 == x {
      assert inputs[i + 1].0 == x;
    }
  }

  lemma {:induction false} AppendsAll<V>(queue: seq<Input<V>>, inputs: seq<(string, V)>)
    ensures forall x :: HasInput(AppendInputs(queue, inputs), x) <==> HasInput(queue, x) || Mentions(inputs, x)
    decreases |inputs|
  {
    hide HasInput, Mentions, AppendInput;
    if inputs == [] {
      NoMentions<V>();
    } else {
      var queued := AppendInput(queue, inputs[0].0, inputs[0].1);
      AppendsOne(queue, inputs[0].0, inputs[0].1);
      AppendsAll(queued, inputs[1..]);
      forall x
        ensures Mentions(inputs, x) <==> inputs[0].0 == x || Mentions(inputs[1..], x)
      {
        MentionsMore(inputs, x);
      }
    }
  }

  lemma NoMentions<V>()
    ensures forall x :: !Mentions<V>([], x)
  {
  }

  lemma NewLater<V>(queue: seq<Input<V>>, queued: seq<Input<V>>, inputs: seq<(string, V)>, i: nat)
    requires inputs != [] && IsNew(queued, inputs[1..], i)
    requires forall x :: HasInput(queued, x) <==> HasInput(queue, x) || x == inputs[0].0
    ensures IsNew(queue, inputs, i + 1)
  {
    hide HasInput;
    forall j | 0 <= j < i + 1
      ensures inputs[j].0 != inputs[i + 1].0
    {
      assert j > 0 ==> inputs[1..][j - 1].0 != inputs[1..][i].0;
    }
  }

  function Shifted(at: seq<nat>): seq<nat> {
    seq(|at|, k requires 0 <= k < |at| => at[k] + 1)
  }

  /** The first input is queued already, and so are the later ones where they were. */
  lemma QueuedBefore<V>(queue: seq<Input<V>>, after: seq<Input<V>>, inputs: seq<(string, V)>, later: seq<nat>)
    requires inputs != [] && QueuedFrom(queue, after, inputs[1..], later)
    requires forall k :: 0 <= k < |later| ==> IsNew(queue, inputs, later[k] + 1)
    ensures QueuedFrom(queue, after, inputs, Shifted(later))
  {
    hide HasInput;
    forall k | 0 <= k < |later|
      ensures inputs[1..][later[k]] == inputs[later[k] + 1]
    {
      assert IsNew(queue, inputs, later[k] + 1);
    }
  }

  /** The first input is new, and comes before the later ones. */
  lemma QueuedFirst<V>(queue: seq<Input<V>>, after: seq<Input<V>>, inputs: seq<(string, V)>, later: seq<nat>)
    requires inputs != [] && QueuedFrom(queue + [Input(inputs[0].0, Pending, inputs[0].1)], after, inputs[1..], later)
    requires IsNew(queue, inputs, 0) && forall k :: 0 <= k < |later| ==> IsNew(queue, inputs, later[k] + 1)
    ensures QueuedFrom(queue, after, inputs, [0] + Shifted(later))
  {
    hide HasInput;
    var queued, at := queue + [Input(inputs[0].0, Pending, inputs[0].1)], [0] + Shifted(later);
    assert after[|queue|] == queued[|queue|];
    forall k | 0 <= k < |at|
      ensures IsNew(queue, inputs, at[k]) && after[|queue| + k] == Input(inputs[at[k]].0, Pending, inputs[at[k]].1)
    {
      if k > 0 {
        assert IsNew(queue, inputs, later[k - 1] + 1);
        assert after[|queued| + (k - 1)] == Input(inputs[1..][later[k - 1]].0, Pending, inputs[1..][later[k - 1]].1);
      }
    }
  }

  lemma NothingQueued<V>(queue: seq<Input<V>>)
    ensures QueuedFrom(queue, queue, [], [])
  {
  }

  lemma AreNew<V>(queue: seq<Input<V>>, after: seq<Input<V>>, inputs: seq<(string, V)>, at: seq<nat>)
    requires QueuedFrom(queue, after, inputs, at)
    ensures forall k :: 0 <= k < |at| ==> IsNew(queue, inputs, at[k])
  {
  }

  lemma FirstIsNew<V>(queue: seq<Input<V>>, inputs: seq<(string, V)>)
    requires inputs != [] && !HasInput(queue, inputs[0].0)
    ensures IsNew(queue, inputs, 0)
  {
  }

  lemma AppendIs<V>(queue: seq<Input<V>>, id: string, value: V)
    ensures AppendInput(queue, id, value) == if HasInput(queue, id) then queue else queue + [Input(id, Pending, value)]
  {
  }

  lemma {:induction false} AppendsInOrder<V>(queue: seq<Input<V>>, inputs: seq<(string, V)>) returns (at: seq<nat>)
    ensures QueuedFrom(queue, AppendInputs(queue, inputs), inputs, at)
    decreases |inputs|
  {
    hide HasInput, AppendInput, IsNew, QueuedFrom;
    if inputs == [] {
      NothingQueued(queue);
      return [];
    }
    var queued := AppendInput(queue, inputs[0].0, inputs[0].1);
    AppendsOne(queue, inputs[0].0, inputs[0].1);
    var later := AppendsInOrder(queued, inputs[1..]);
    forall k | 0 <= k < |later|
      ensures IsNew(queue, inputs, later[k] + 1)
    {
      AreNew(queued, AppendInputs(queue, inputs), inputs[1..], later);
      NewLater(queue, queued, inputs, later[k]);
    }
    if HasInput(queue, inputs[0].0) {
      AppendIs(queue, inputs[0].0, inputs[0].1);
      QueuedBefore(queue, AppendInputs(queue, inputs), inputs, later);
      at := Shifted(later);
    } else {
      AppendIs(queue, inputs[0].0, inputs[0].1);
      FirstIsNew(queue, inputs);
      QueuedFirst(queue, AppendInputs(queue, inputs), inputs, later);
      at := [0] + Shifted(later);
    }
  }

  /**
  An accepted transition queues every input it brings, once, in the order and with the value of its first mention
  and behind what was queued; and it answers with the ids that were not queued before.
  */
  lemma CommitQueues<V>(l: BranchLedger<V>, t: Transition<V>, token: nat)
    requires Apply(l, Commit(t, token)).1.NewInputs?
    ensures var (after, reply) := Apply(l, Commit(t, token));
      && (forall x :: HasInput(after.queue, x) <==> HasInput(l.queue, x) || Mentions(t.inputs, x))
      && (forall x :: x in reply.ids <==> HasInput(after.queue, x) && !HasInput(l.queue, x))
      && exists at :: QueuedFrom(l.queue, after.queue, t.inputs, at)
  {
    hide QueuedFrom, AppendInputs, HasInput, Refusal, Completed;
    AppendsAll(l.queue, t.inputs);
    var at := AppendsInOrder(l.queue, t.inputs);
  }

  /** A single enqueue is such a transition: it answers whether the input was new. */
  lemma EnqueueQueues<V>(l: BranchLedger<V>, id: string, value: V)
    ensures var (after, reply) := Apply(l, Enqueue(id, value));
      if HasInput(l.queue, id) then after == l && reply == Inserted(false)
      else after == l.(queue := l.queue + [Input(id, Pending, value)]) && reply == Inserted(true)
  {
  }
}
