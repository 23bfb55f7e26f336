/**
What any history of operations on one branch keeps: fencing tokens, lease owners, immutable effects
and the input queue.
*/
module LedgerHistory {
  import opened Ledger

  /** The ledger after the first `i` operations. */
  function At<V(==)>(l: BranchLedger<V>, ops: seq<Op<V>>, i: nat): BranchLedger<V>
    requires i <= |ops|
  {
    if i == 0 then l else Apply(At(l, ops, i - 1), ops[i - 1]).0
  }

  function ReplyAt<V(==)>(l: BranchLedger<V>, ops: seq<Op<V>>, i: nat): Reply
    requires i < |ops|
  {
    Apply(At(l, ops, i), ops[i]).1
  }

  /** A refused operation changes nothing, whichever of the checks refused it. */
  lemma RefusalLeavesLedger<V>(l: BranchLedger<V>, op: Op<V>)
    requires Apply(l, op).1.Refused?
    ensures Apply(l, op).0 == l
  {
  }

  // ── fencing ──────────────────────────────────────────────────────────────

  lemma IssuedStep<V>(l: BranchLedger<V>, op: Op<V>)
    ensures l.issued <= Apply(l, op).0.issued <= l.issued + 1
    ensures Apply(l, op).0.issued != l.issued ==> op.Acquire? && Apply(l, op).1 == Granted(l.issued + 1)
    ensures Apply(l, op).1.Granted? && Apply(l, op).1.token != 0 ==> Apply(l, op).1.token == Apply(l, op).0.issued
  {
  }

  /** No operation lowers the issued token: renewal, release and takeover included. */
  lemma {:induction false} TokensRise<V>(l: BranchLedger<V>, ops: seq<Op<V>>, i: nat, j: nat)
    requires i <= j <= |ops|
    ensures At(l, ops, i).issued <= At(l, ops, j).issued
    decreases j - i
  {
    if i < j {
      TokensRise(l, ops, i, j - 1);
      IssuedStep(At(l, ops, j - 1), ops[j - 1]);
    }
  }

  /** A leased write that got past the fence. */
  predicate Accepted<V(==)>(l: BranchLedger<V>, ops: seq<Op<V>>, i: nat)
    requires i < |ops|
  {
    IsFenced(ops[i]) && ops[i].token != 0 && !(ReplyAt(l, ops, i).Refused? && ReplyAt(l, ops, i).error.Fenced?)
  }

  lemma PastTheFence<V>(l: BranchLedger<V>, op: Op<V>)
    requires IsFenced(op)
    ensures Stale(l, op.token) <==> Apply(l, op).1.Refused? && Apply(l, op).1.error.Fenced?
  {
  }

  /** The token was granted by an acquire earlier in the history. */
  ghost predicate WasGranted<V>(l: BranchLedger<V>, ops: seq<Op<V>>, token: nat, before: nat)
    requires before <= |ops|
  {
    exists k :: 0 <= k < before && ReplyAt(l, ops, k) == Granted(token)
  }

  /** Leased writes that get past the fence present a non-decreasing sequence of tokens. */
  lemma AcceptedTokensRise<V>(l: BranchLedger<V>, ops: seq<Op<V>>, i: nat, j: nat)
    requires i < j < |ops|
    requires Accepted(l, ops, i) && Accepted(l, ops, j)
    requires WasGranted(l, ops, ops[i].token, i)
    ensures ops[i].token <= ops[j].token
  {
    hide Apply;
    var k :| 0 <= k < i && ReplyAt(l, ops, k) == Granted(ops[i].token);
    IssuedStep(At(l, ops, k), ops[k]);
    TokensRise(l, ops, k + 1, j);
    PastTheFence(At(l, ops, j), ops[j]);
  }

  predicate NamedOwners<V>(ops: seq<Op<V>>) {
    forall i :: 0 <= i < |ops| && ops[i].Acquire? ==> ops[i].owner != ""
  }

  predicate HeldBy<V>(l: BranchLedger<V>, owner: string) {
    l.lease.Some? && l.lease.value.owner == owner
  }

  /** While the issued token stands still, only the owner it was granted to, or nobody, holds the lease. */
  lemma {:induction false} LeaseStaysWithToken<V>(
      l: BranchLedger<V>, ops: seq<Op<V>>, owner: string, i: nat, j: nat)
    requires i <= j <= |ops| && NamedOwners(ops)
    requires HeldBy(At(l, ops, i), owner) || HeldBy(At(l, ops, i), "")
    requires At(l, ops, i).issued == At(l, ops, j).issued
    ensures HeldBy(At(l, ops, j), owner) || HeldBy(At(l, ops, j), "")
    decreases j - i
  {
    if i < j {
      TokensRise(l, ops, i, j - 1);
      IssuedStep(At(l, ops, j - 1), ops[j - 1]);
      LeaseStaysWithToken(l, ops, owner, i, j - 1);
      LeaseStep(At(l, ops, j - 1), ops[j - 1], owner);
    }
  }

  lemma LeaseStep<V>(l: BranchLedger<V>, op: Op<V>, owner: string)
    requires HeldBy(l, owner) || HeldBy(l, "")
    requires op.Acquire? ==> op.owner != ""
    requires Apply(l, op).0.issued == l.issued
    ensures HeldBy(Apply(l, op).0, owner) || HeldBy(Apply(l, op).0, "")
    ensures HeldBy(l, owner) && !(op.Release? && op.owner == owner) ==> HeldBy(Apply(l, op).0, owner)
  {
  }

  /** A positive token is granted to one owner only. */
  lemma OneOwnerPerToken<V>(l: BranchLedger<V>, ops: seq<Op<V>>, i: nat, j: nat)
    requires i < j < |ops| && NamedOwners(ops)
    requires ops[i].Acquire? && ops[j].Acquire?
    requires ReplyAt(l, ops, i) == ReplyAt(l, ops, j) != Granted(0)
    ensures ops[i].owner == ops[j].owner
  {
    IssuedStep(At(l, ops, i), ops[i]);
    IssuedStep(At(l, ops, j), ops[j]);
    TokensRise(l, ops, i + 1, j);
    assert HeldBy(At(l, ops, i + 1), ops[i].owner);
    LeaseStaysWithToken(l, ops, ops[i].owner, i + 1, j);
  }

  lemma {:induction false} HolderStays<V>(l: BranchLedger<V>, ops: seq<Op<V>>, owner: string, i: nat, j: nat)
    requires i <= j <= |ops| && NamedOwners(ops)
    requires HeldBy(At(l, ops, i), owner)
    requires forall k :: i <= k < j ==> !(ops[k].Release? && ops[k].owner == owner)
    requires At(l, ops, i).issued == At(l, ops, j).issued
    ensures HeldBy(At(l, ops, j), owner)
    decreases j - i
  {
    if i < j {
      TokensRise(l, ops, i, j - 1);
      IssuedStep(At(l, ops, j - 1), ops[j - 1]);
      HolderStays(l, ops, owner, i, j - 1);
      LeaseStep(At(l, ops, j - 1), ops[j - 1], owner);
    }
  }

  /** A holder that has not released and has not been replaced renews under the token it has. */
  lemma RenewalKeepsToken<V>(l: BranchLedger<V>, ops: seq<Op<V>>, i: nat, j: nat)
    requires i < j < |ops| && NamedOwners(ops)
    requires ops[i].Acquire? && ReplyAt(l, ops, i) != Granted(0)
    requires ops[j].Acquire? && ops[j].owner == ops[i].owner
    requires forall k :: i < k < j ==> !(ops[k].Release? && ops[k].owner == ops[i].owner)
    requires At(l, ops, j).issued == At(l, ops, i + 1).issued
    ensures ReplyAt(l, ops, j) == ReplyAt(l, ops, i)
  {
    IssuedStep(At(l, ops, i), ops[i]);
    HolderStays(l, ops, ops[i].owner, i + 1, j);
  }

  // ── effects ──────────────────────────────────────────────────────────────

  /** Whether an operation may write `key` as mutable control state. */
  predicate ControlsKey<V>(op: Op<V>, key: string) {
    match op
    case WriteControl(k, _, _) => k == key
    case Commit(t, _) => key in t.controls
    case _ => false
  }

  lemma {:induction false} CompletedStep<V>(steps: map<string, Step<V>>, effects: seq<Completion<V>>, key: string)
    ensures key in Completed(steps, effects) <==> key in steps || key in EffectKeys(effects)
    ensures key !in EffectKeys(effects) && key in steps ==> Completed(steps, effects)[key] == steps[key]
    ensures key in EffectKeys(effects) ==>
      exists i :: 0 <= i < |effects| && effects[i].key == key && Completed(steps, effects)[key] == Done(effects[i].value)
  {
    if effects != [] {
      var n := |effects| - 1;
      CompletedStep(steps, effects[..n], key);
      assert EffectKeys(effects) == EffectKeys(effects[..n]) + {effects[n].key} by {
        assert forall i :: 0 <= i < n ==> effects[..n][i] == effects[i];
        forall k | k in EffectKeys(effects)
          ensures k in EffectKeys(effects[..n]) + {effects[n].key}
        {
          var i :| 0 <= i < |effects| && effects[i].key == k;
          if i < n { assert effects[..n][i].key == k; }
        }
      }
      if key == effects[n].key {
        assert Completed(steps, effects)[key] == Done(effects[n].value);
      } else if key in EffectKeys(effects[..n]) {
        var i :| 0 <= i < n && effects[..n][i].key == key && Completed(steps, effects[..n])[key] == Done(effects[..n][i].value);
        assert effects[i].key == key;
      }
    }
  }

  lemma EffectStep<V>(l: BranchLedger<V>, op: Op<V>, key: string)
    requires IsDone(l, key) && !ControlsKey(op, key)
    ensures Read(Apply(l, op).0, key) == Read(l, key)
  {
    match op
    case Commit(t, _) =>
      CompletedStep(l.steps, t.effects, key);
      if Acceptable(l, t) && key in EffectKeys(t.effects) {
        var i :| 0 <= i < |t.effects| && t.effects[i].key == key
          && Completed(l.steps, t.effects)[key] == Done(t.effects[i].value);
        assert !Conflicts(l, t.effects[i]);
      }
    case _ =>
  }

  /** A committed effect keeps its value under every operation that is not a control write to its key. */
  lemma {:induction false} EffectIsImmutable<V>(l: BranchLedger<V>, ops: seq<Op<V>>, key: string, i: nat, j: nat)
    requires i <= j <= |ops|
    requires IsDone(At(l, ops, i), key)
    requires forall k :: i <= k < j ==> !ControlsKey(ops[k], key)
    ensures Read(At(l, ops, j), key) == Read(At(l, ops, i), key)
    decreases j - i
  {
    if i < j {
      EffectIsImmutable(l, ops, key, i, j - 1);
      EffectStep(At(l, ops, j - 1), ops[j - 1], key);
    }
  }

  // ── the input queue ──────────────────────────────────────────────────────

  predicate UniqueInputs<V>(queue: seq<Input<V>>) {
    forall i, j :: 0 <= i < j < |queue| ==> queue[i].id != queue[j].id
  }

  /** `late` extends `early`: same inputs at the same numbers, statuses only risen, new ones behind. */
  predicate QueueGrew<V(==)>(early: seq<Input<V>>, late: seq<Input<V>>) {
    && |early| <= |late|
    && (forall i :: 0 <= i < |early| ==>
      && late[i].id == early[i].id
      && late[i].value == early[i].value
      && early[i].status.Rank() <= late[i].status.Rank())
  }

  lemma {:induction false} AppendInputsGrows<V>(queue: seq<Input<V>>, inputs: seq<(string, V)>)
    ensures queue <= AppendInputs(queue, inputs)
    ensures UniqueInputs(queue) ==> UniqueInputs(AppendInputs(queue, inputs))
    ensures forall i :: |queue| <= i < |AppendInputs(queue, inputs)| ==> AppendInputs(queue, inputs)[i].status == Pending
    decreases |inputs|
  {
    if inputs != [] {
      AppendInputsGrows(AppendInput(queue, inputs[0].0, inputs[0].1), inputs[1..]);
    }
  }

  lemma QueueStep<V>(l: BranchLedger<V>, op: Op<V>)
    ensures QueueGrew(l.queue, Apply(l, op).0.queue)
    ensures UniqueInputs(l.queue) ==> UniqueInputs(Apply(l, op).0.queue)
  {
    match op
    case Commit(t, _) => AppendInputsGrows(l.queue, t.inputs);
    case _ =>
  }

  /**
  Input numbers are positions: an input keeps the number of its first enqueue for ever, by whichever
  operation it came, no identifier is queued twice, and statuses only rise.
  */
  lemma {:induction false} QueueOnlyGrows<V>(l: BranchLedger<V>, ops: seq<Op<V>>, i: nat, j: nat)
    requires i <= j <= |ops|
    requires UniqueInputs(At(l, ops, i).queue)
    ensures QueueGrew(At(l, ops, i).queue, At(l, ops, j).queue)
    ensures UniqueInputs(At(l, ops, j).queue)
    decreases j - i
  {
    hide Apply;
    if i < j {
      QueueOnlyGrows(l, ops, i, j - 1);
      QueueStep(At(l, ops, j - 1), ops[j - 1]);
    }
  }
}
