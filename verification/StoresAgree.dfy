/**
The in-memory ledger validates a transition and then applies it; the one on tables writes row by row
and rolls back. Clocks and empty lists apart, no caller can tell them apart.
*/
module StoresAgree {
  import opened Ledger
  import opened PostgresLedger
  import LedgerHistory

  /** A conflict stands before the first repeated effect, or beside keys that are both effect and control. */
  predicate ConflictFirst<V(==)>(l: BranchLedger<V>, t: Transition<V>) {
    var n := FirstFault(l, t.effects, 0);
    && n < |t.effects| && !Repeats(t.effects, n)
    && (FirstRepeat(t.effects, 0) < |t.effects| || EffectKeys(t.effects) * t.controls.Keys != {})
  }

  /** The stores give different answers: another reason for a refusal, or a stale token nobody looks at. */
  predicate AnswersDiffer<V(==)>(l: BranchLedger<V>, op: Op<V>) {
    match op
    case AdmitInputs(ids, token) => ids == [] && Stale(l, token)
    case DiscardInputs(ids, token) => ids == [] && Stale(l, token)
    case Commit(t, token) => !Stale(l, token) && ConflictFirst(l, t)
    case _ => false
  }

  /** Another owner asks for the lease at the very moment it expires. */
  predicate Tie<V>(l: BranchLedger<V>, op: Op<V>) {
    op.Acquire? && l.lease.Some? && l.lease.value.owner != op.owner && l.lease.value.expires == op.now
  }

  /** A tie over a lease that was not released. */
  predicate HeldTie<V>(l: BranchLedger<V>, op: Op<V>) {
    Tie(l, op) && l.lease.value.owner != ""
  }

  /** The two refusals are one, save when a conflict comes before a fault in the transition's shape. */
  lemma RefusalsAgree<V>(l: BranchLedger<V>, t: Transition<V>)
    ensures PgRefusal(l, t) == Refusal(l, t) <==> !ConflictFirst(l, t)
    ensures PgRefusal(l, t).None? <==> Refusal(l, t).None?
  {
  }

  /**
  One operation, one meaning: from the same state both stores go to the same state, and answer the
  same unless `AnswersDiffer`. Leases are compared in `LeasesAgree`.
  */
  lemma OneMeaning<V>(l: BranchLedger<V>, op: Op<V>)
    requires !op.Acquire? && !op.Release?
    ensures PgApply(l, op).0 == Apply(l, op).0
    ensures PgApply(l, op).1 == Apply(l, op).1 <==> !AnswersDiffer(l, op)
  {
  }

  /** The two lease rules agree, state and token, exactly when there is no tie. */
  lemma LeasesAgree<V>(l: BranchLedger<V>, op: Op<V>)
    requires op.Acquire? && (l.lease.None? ==> l.issued == 0)
    ensures PgApply(l, op) == Apply(l, op) <==> !Tie(l, op)
  {
  }

  // ── whole histories ──────────────────────────────────────────────────────

  /** What is left of a released lease differs only in when it expired. */
  predicate SameLease(a: Option<Lease>, b: Option<Lease>, clock: real) {
    || (a == b && (a.Some? ==> a.value.owner != ""))
    || (a.Some? && b.Some? && a.value.owner == "" && b.value.owner == ""
      && a.value.expires <= clock && b.value.expires == 0.0)
  }

  predicate Alike<V(==)>(l: BranchLedger<V>, m: BranchLedger<V>, clock: real) {
    && l.steps == m.steps && l.queue == m.queue && l.issued == m.issued
    && (l.lease.None? ==> l.issued == 0)
    && SameLease(l.lease, m.lease, clock)
  }

  function TimeOf<V>(op: Op<V>, clock: real): real {
    if op.Acquire? || op.Release? then op.now else clock
  }

  function ClockAfter<V>(ops: seq<Op<V>>, i: nat, start: real): real
    requires i <= |ops|
  {
    if i == 0 then start else TimeOf(ops[i - 1], ClockAfter(ops, i - 1, start))
  }

  function PgAt<V(==)>(l: BranchLedger<V>, ops: seq<Op<V>>, i: nat): BranchLedger<V>
    requires i <= |ops|
  {
    if i == 0 then l else PgApply(PgAt(l, ops, i - 1), ops[i - 1]).0
  }

  lemma SeesNoLease<V>(l: BranchLedger<V>, lease: Option<Lease>, op: Op<V>)
    requires !op.Acquire? && !op.Release?
    ensures var m := l.(lease := lease);
      PgApply(m, op) == (PgApply(l, op).0.(lease := lease), PgApply(l, op).1) && PgApply(l, op).0.lease == l.lease
  {
    hide Marked, AppendInput, AppendInputs, Completed;
    if op.Commit? {
      SeesNoLeaseRefusal(l, lease, op.transition);
    }
  }

  lemma SeesNoLeaseRefusal<V>(l: BranchLedger<V>, lease: Option<Lease>, t: Transition<V>)
    ensures PgRefusal(l.(lease := lease), t) == PgRefusal(l, t)
  {
  }

  lemma AlikeStep<V>(l: BranchLedger<V>, m: BranchLedger<V>, op: Op<V>, clock: real)
    requires Alike(l, m, clock) && 0.0 < clock <= TimeOf(op, clock)
    requires (op.Acquire? || op.Release?) ==> op.owner != ""
    requires !HeldTie(l, op)
    ensures Alike(Apply(l, op).0, PgApply(m, op).0, TimeOf(op, clock))
    ensures PgApply(m, op).1 == Apply(l, op).1 <==> !AnswersDiffer(l, op)
  {
    hide Apply, PgApply, AnswersDiffer;
    if op.Acquire? || op.Release? {
      AlikeLease(l, m, op, clock);
    } else {
      assert m == l.(lease := m.lease);
      SeesNoLease(l, m.lease, op);
      OneMeaning(l, op);
      LedgerHistory.IssuedStep(l, op);
      NoTokenIssued(l, op);
    }
  }

  lemma EmptyAlike<V>(clock: real)
    ensures Alike<V>(Empty(), Empty(), clock)
  {
  }

  lemma NoTokenIssued<V>(l: BranchLedger<V>, op: Op<V>)
    requires !op.Acquire?
    ensures Apply(l, op).0.issued == l.issued
  {
    hide Marked, AppendInput, AppendInputs, Completed, Refusal;
  }

  lemma AlikeLease<V>(l: BranchLedger<V>, m: BranchLedger<V>, op: Op<V>, clock: real)
    requires Alike(l, m, clock) && 0.0 < clock <= TimeOf(op, clock)
    requires (op.Acquire? || op.Release?) && op.owner != "" && !HeldTie(l, op)
    ensures Alike(Apply(l, op).0, PgApply(m, op).0, TimeOf(op, clock))
    ensures PgApply(m, op).1 == Apply(l, op).1 && !AnswersDiffer(l, op)
  {
  }

  /**
  Two stores, one history: the same operations under a clock that never runs back, without ties, keep
  the stores alike and get the same answers, whatever the order of starts, takeovers, transitions and
  inputs. The second store's answer differs exactly where `AnswersDiffer` says.
  */
  lemma {:induction false} OneHistory<V>(ops: seq<Op<V>>, start: real, i: nat)
    requires i <= |ops| && 0.0 < start
    requires forall k :: 0 <= k < |ops| ==> ClockAfter(ops, k, start) <= TimeOf(ops[k], ClockAfter(ops, k, start))
    requires forall k :: 0 <= k < |ops| && (ops[k].Acquire? || ops[k].Release?) ==> ops[k].owner != ""
    requires forall k :: 0 <= k < |ops| ==> !HeldTie(LedgerHistory.At(Empty(), ops, k), ops[k])
    ensures Alike(LedgerHistory.At(Empty(), ops, i), PgAt(Empty(), ops, i), ClockAfter(ops, i, start))
    ensures start <= ClockAfter(ops, i, start)
    ensures i < |ops| ==> var l := LedgerHistory.At(Empty(), ops, i);
      PgApply(PgAt(Empty(), ops, i), ops[i]).1 == Apply(l, ops[i]).1 <==> !AnswersDiffer(l, ops[i])
  {
    hide Apply, PgApply, AnswersDiffer, HeldTie, Alike;
    if i == 0 {
      EmptyAlike<V>(start);
    } else {
      OneHistory(ops, start, i - 1);
      AlikeStep(LedgerHistory.At(Empty(), ops, i - 1), PgAt(Empty(), ops, i - 1), ops[i - 1], ClockAfter(ops, i - 1, start));
    }
    if i < |ops| {
      AlikeStep(LedgerHistory.At(Empty(), ops, i), PgAt(Empty(), ops, i), ops[i], ClockAfter(ops, i, start));
    }
  }

  /** At a tie the stores part: one grants the takeover, the other refuses it. */
  lemma TieParts<V>(l: BranchLedger<V>, owner: string, until: real)
    requires l.lease.Some? && l.lease.value.owner != owner
    ensures var op: Op<V> := Acquire(owner, l.lease.value.expires, until);
      Apply(l, op).1 == Granted(l.issued + 1) && PgApply(l, op).1 == Granted(0)
  {
  }
}
