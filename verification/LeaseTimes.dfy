/**
What a grant is good for: over any history of either store, until its owner acts again, a lease keeps everybody
else out up to the time it was granted or renewed for, and nobody out from then on.
*/
module LeaseTimes {
  import opened Ledger
  import opened LedgerHistory
  import opened PostgresLedger
  import opened StoresAgree

  /** From operation `i` on up to `j` the owner does nothing about its lease, and nobody asks late enough to get it. */
  predicate Untouched<V>(ops: seq<Op<V>>, owner: string, until: real, i: nat, j: nat)
    requires j <= |ops|
  {
    forall k :: i <= k < j ==>
      && (ops[k].Acquire? ==> ops[k].owner != owner && ops[k].now < until)
      && (ops[k].Release? ==> ops[k].owner != owner)
  }

  lemma LeaseLasts<V>(l: BranchLedger<V>, op: Op<V>, owner: string, until: real)
    requires l.lease == Some(Lease(owner, until))
    requires op.Acquire? ==> op.owner != owner && op.now < until
    requires op.Release? ==> op.owner != owner
    ensures Apply(l, op).0.lease == l.lease && Apply(l, op).0.issued == l.issued
    ensures PgApply(l, op).0.lease == l.lease && PgApply(l, op).0.issued == l.issued
  {
    hide Marked, AppendInput, AppendInputs, Completed, Refusal, PgRefusal;
  }

  lemma {:induction false} LeaseLastsOver<V>(l: BranchLedger<V>, ops: seq<Op<V>>, owner: string, until: real, i: nat, j: nat)
    requires i <= j <= |ops| && Untouched(ops, owner, until, i, j)
    ensures At(l, ops, i).lease == Some(Lease(owner, until)) ==>
      At(l, ops, j).lease == At(l, ops, i).lease && At(l, ops, j).issued == At(l, ops, i).issued
    ensures PgAt(l, ops, i).lease == Some(Lease(owner, until)) ==>
      PgAt(l, ops, j).lease == PgAt(l, ops, i).lease && PgAt(l, ops, j).issued == PgAt(l, ops, i).issued
    decreases j - i
  {
    hide Apply, PgApply;
    if i < j {
      LeaseLastsOver(l, ops, owner, until, i, j - 1);
      if At(l, ops, j - 1).lease == Some(Lease(owner, until)) {
        LeaseLasts(At(l, ops, j - 1), ops[j - 1], owner, until);
      }
      if PgAt(l, ops, j - 1).lease == Some(Lease(owner, until)) {
        LeaseLasts(PgAt(l, ops, j - 1), ops[j - 1], owner, until);
      }
    }
  }

  /** A grant or a renewal leaves the lease with its owner, up to the time it asked for. */
  lemma GrantIs<V>(l: BranchLedger<V>, op: Op<V>)
    requires op.Acquire?
    ensures Apply(l, op).1 != Granted(0) ==> Apply(l, op).0.lease == Some(Lease(op.owner, op.until))
    ensures PgApply(l, op).1 != Granted(0) ==> PgApply(l, op).0.lease == Some(Lease(op.owner, op.until))
  {
  }

  /** Whether another owner gets the lease depends on the clock alone: the one place where the stores differ. */
  lemma OthersGet<V>(l: BranchLedger<V>, op: Op<V>)
    requires op.Acquire? && l.lease.Some? && op.owner != l.lease.value.owner
    ensures Apply(l, op).1 == Granted(if op.now < l.lease.value.expires then 0 else l.issued + 1)
    ensures PgApply(l, op).1 == Granted(if op.now <= l.lease.value.expires then 0 else l.issued + 1)
  {
  }

  /** A branch nobody ever leased goes to the first who asks, under the first token. */
  lemma FirstGets<V>(l: BranchLedger<V>, op: Op<V>)
    requires op.Acquire? && l.lease.None? && l.issued == 0
    ensures Apply(l, op).1 == PgApply(l, op).1 == Granted(1)
  {
  }

  /**
  A granted or renewed lease is exactly as good as the time it was asked for: while its owner neither renews nor
  releases it, and others asked in vain, the next one to ask is refused before that time and leaves the token as
  it is, and takes over under the next token from then on.
  */
  lemma LeaseIsExact<V>(l: BranchLedger<V>, ops: seq<Op<V>>, i: nat, j: nat)
    requires i < j < |ops| && ops[i].Acquire? && ReplyAt(l, ops, i) != Granted(0)
    requires Untouched(ops, ops[i].owner, ops[i].until, i + 1, j)
    requires ops[j].Acquire? && ops[j].owner != ops[i].owner
    ensures At(l, ops, j).issued == At(l, ops, i + 1).issued
    ensures ReplyAt(l, ops, j) == Granted(if ops[j].now < ops[i].until then 0 else At(l, ops, i + 1).issued + 1)
    ensures At(l, ops, j + 1).issued == At(l, ops, i + 1).issued + (if ops[j].now < ops[i].until then 0 else 1)
  {
    hide Apply;
    GrantIs(At(l, ops, i), ops[i]);
    LeaseLastsOver(l, ops, ops[i].owner, ops[i].until, i + 1, j);
    OthersGet(At(l, ops, j), ops[j]);
    IssuedStep(At(l, ops, j), ops[j]);
  }

  /** On the tables too, where the moment of expiry still belongs to the owner. */
  lemma PgLeaseIsExact<V>(l: BranchLedger<V>, ops: seq<Op<V>>, i: nat, j: nat)
    requires i < j < |ops| && ops[i].Acquire? && PgApply(PgAt(l, ops, i), ops[i]).1 != Granted(0)
    requires Untouched(ops, ops[i].owner, ops[i].until, i + 1, j)
    requires ops[j].Acquire? && ops[j].owner != ops[i].owner
    ensures PgAt(l, ops, j).issued == PgAt(l, ops, i + 1).issued
    ensures var next := PgApply(PgAt(l, ops, j), ops[j]);
      && next.1 == Granted(if ops[j].now <= ops[i].until then 0 else PgAt(l, ops, i + 1).issued + 1)
      && next.0.issued == PgAt(l, ops, i + 1).issued + (if ops[j].now <= ops[i].until then 0 else 1)
  {
    GrantIs(PgAt(l, ops, i), ops[i]);
    LeaseLastsOver(l, ops, ops[i].owner, ops[i].until, i + 1, j);
    OthersGet(PgAt(l, ops, j), ops[j]);
  }

  /** A holder is always renewed, expired or not, and under its token; nobody else is granted that token. */
  lemma HolderRenews<V>(l: BranchLedger<V>, ops: seq<Op<V>>, i: nat, j: nat)
    requires i < j < |ops| && ops[i].Acquire? && ReplyAt(l, ops, i) != Granted(0)
    requires Untouched(ops, ops[i].owner, ops[i].until, i + 1, j)
    requires ops[j].Acquire? && ops[j].owner == ops[i].owner
    ensures ReplyAt(l, ops, j) == ReplyAt(l, ops, i)
    ensures At(l, ops, j + 1).lease == Some(Lease(ops[j].owner, ops[j].until))
  {
    GrantIs(At(l, ops, i), ops[i]);
    IssuedStep(At(l, ops, i), ops[i]);
    LeaseLastsOver(l, ops, ops[i].owner, ops[i].until, i + 1, j);
  }

  /** A release is worth an expiry at its own clock reading: whoever asks next, not before it, takes over. */
  lemma ReleasedIsFree<V>(l: BranchLedger<V>, ops: seq<Op<V>>, i: nat, j: nat)
    requires i < j < |ops| && ops[i].Release? && HeldBy(At(l, ops, i), ops[i].owner)
    requires forall k :: i < k < j ==> !ops[k].Acquire? && !(ops[k].Release? && ops[k].owner == "")
    requires ops[j].Acquire? && ops[j].owner != "" && ops[i].now <= ops[j].now
    ensures ReplyAt(l, ops, j) == Granted(At(l, ops, i).issued + 1)
  {
    hide Apply;
    ReleaseIs(At(l, ops, i), ops[i]);
    LeaseLastsOver(l, ops, "", ops[i].now, i + 1, j);
    OthersGet(At(l, ops, j), ops[j]);
  }

  lemma ReleaseIs<V>(l: BranchLedger<V>, op: Op<V>)
    requires op.Release? && HeldBy(l, op.owner)
    ensures Apply(l, op).0.lease == Some(Lease("", op.now)) && Apply(l, op).0.issued == l.issued
    ensures PgApply(l, op).0.lease == Some(Lease("", 0.0)) && PgApply(l, op).0.issued == l.issued
  {
  }

  /** On the tables a released lease expired at the epoch, and every clock is past that. */
  lemma PgReleasedIsFree<V>(l: BranchLedger<V>, ops: seq<Op<V>>, i: nat, j: nat)
    requires i < j < |ops| && ops[i].Release? && HeldBy(PgAt(l, ops, i), ops[i].owner)
    requires forall k :: i < k < j ==> !ops[k].Acquire? && !(ops[k].Release? && ops[k].owner == "")
    requires ops[j].Acquire? && ops[j].owner != "" && 0.0 < ops[j].now
    ensures PgApply(PgAt(l, ops, j), ops[j]).1 == Granted(PgAt(l, ops, i).issued + 1)
  {
    hide Apply;
    ReleaseIs(PgAt(l, ops, i), ops[i]);
    LeaseLastsOver(l, ops, "", 0.0, i + 1, j);
    OthersGet(PgAt(l, ops, j), ops[j]);
  }
}
