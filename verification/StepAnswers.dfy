/**
What the answers of a branch are worth: each tells what the step was before and what it is now, and a key that no
accepted operation names is as it was.
*/
module StepAnswers {
  import opened Ledger
  import opened LedgerHistory
  import opened PostgresLedger

  /** The operation presents no token, or one that nobody overtook. */
  predicate Passes<V>(l: BranchLedger<V>, op: Op<V>) {
    IsFenced(op) ==> op.token == 0 || l.issued <= op.token
  }

  /** The keys an operation may write. */
  predicate Names<V>(op: Op<V>, key: string) {
    match op
    case Start(k, _) => k == key
    case FinishEffect(k, _, _) => k == key
    case WriteControl(k, _, _) => k == key
    case Forget(k, _) => k == key
    case Commit(t, _) => key in t.controls || exists i :: 0 <= i < |t.effects| && t.effects[i].key == key
    case _ => false
  }

  lemma OtherKeysStay<V>(l: BranchLedger<V>, op: Op<V>, key: string)
    requires !Names(op, key) || Apply(l, op).1.Refused?
    ensures Read(Apply(l, op).0, key) == Read(l, key)
  {
    hide Marked, AppendInputs, AppendInput, Refusal;
    if op.Commit? {
      CompletedStep(l.steps, op.transition.effects, key);
    }
  }

  /** A start is granted to exactly one of those that find the step absent, and leaves it running. */
  lemma StartTells<V>(l: BranchLedger<V>, key: string, token: nat)
    ensures var (m, reply) := Apply(l, Start(key, token));
      && (reply == Inserted(true) <==> Passes(l, Start(key, token)) && Read(l, key).None?)
      && (reply == Inserted(false) <==> Passes(l, Start(key, token)) && Read(l, key).Some?)
      && (reply == Inserted(true) ==> Read(m, key) == Some(Running))
      && (reply != Inserted(true) ==> m == l)
  {
  }

  /** A finish is answered as written exactly if its value stands afterwards and something was begun before. */
  lemma FinishTells<V>(l: BranchLedger<V>, key: string, value: V, token: nat)
    ensures var (m, reply) := Apply(l, FinishEffect(key, value, token));
      && (reply == Written <==> Passes(l, FinishEffect(key, value, token)) && Read(l, key) in {Some(Running), Some(Done(value))})
      && (reply == Written ==> Read(m, key) == Some(Done(value)))
      && (reply != Written ==> m == l && reply.Refused?)
      && (Passes(l, FinishEffect(key, value, token)) && reply.Refused? ==> reply.error == EffectConflict(key))
  {
  }

  /** A control is written whatever was there; intent is given back unless the step is done. */
  lemma WriteTells<V>(l: BranchLedger<V>, key: string, value: V, token: nat)
    ensures var (m, reply) := Apply(l, WriteControl(key, value, token));
      && (reply == Written <==> Passes(l, WriteControl(key, value, token)))
      && (reply == Written ==> Read(m, key) == Some(Done(value)))
    ensures var (m, reply) := Apply(l, Forget(key, token));
      && (reply == Written <==> Passes(l, Forget(key, token)))
      && (reply == Written ==> Read(m, key) == if IsDone(l, key) then Read(l, key) else None)
  {
  }

  /**
  A transition is accepted exactly if each of its effects finds what it expects, or its own value, and no key is
  named twice. Then every effect and every control is done with its value.
  */
  lemma CommitTells<V>(l: BranchLedger<V>, t: Transition<V>, token: nat)
    ensures var (m, reply) := Apply(l, Commit(t, token));
      && (reply.NewInputs? <==>
        && Passes(l, Commit(t, token))
        && (forall i, j :: 0 <= i < j < |t.effects| ==> t.effects[i].key != t.effects[j].key)
        && (forall i :: 0 <= i < |t.effects| ==> t.effects[i].key !in t.controls)
        && (forall i :: 0 <= i < |t.effects| ==> Finds(l, t.effects[i])))
      && (!reply.NewInputs? ==> m == l && reply.Refused?)
      && (reply.NewInputs? ==>
        && (forall i :: 0 <= i < |t.effects| ==> Read(m, t.effects[i].key) == Some(Done(t.effects[i].value)))
        && (forall key :: key in t.controls ==> Read(m, key) == Some(Done(t.controls[key]))))
  {
    hide AppendInputs, Refusal, Completed;
    RefusedExactly(l, t);
    if Apply(l, Commit(t, token)).1.NewInputs? {
      forall i | 0 <= i < |t.effects|
        ensures Read(Apply(l, Commit(t, token)).0, t.effects[i].key) == Some(Done(t.effects[i].value))
      {
        CompletedStep(l.steps, t.effects, t.effects[i].key);
        LandsOnce(l.steps, t.effects, i);
      }
    }
  }

  predicate Finds<V(==)>(l: BranchLedger<V>, e: Completion<V>) {
    Read(l, e.key) == Some(Done(e.value)) || Read(l, e.key) == if e.expected == ExpectAbsent then None else Some(Running)
  }

  lemma RefusedExactly<V>(l: BranchLedger<V>, t: Transition<V>)
    ensures Refusal(l, t).None? <==>
      && (forall i, j :: 0 <= i < j < |t.effects| ==> t.effects[i].key != t.effects[j].key)
      && (forall i :: 0 <= i < |t.effects| ==> t.effects[i].key !in t.controls)
      && (forall i :: 0 <= i < |t.effects| ==> Finds(l, t.effects[i]))
  {
    hide Refusal;
    assert forall i :: 0 <= i < |t.effects| ==> t.effects[i].key in EffectKeys(t.effects);
    if forall i :: 0 <= i < |t.effects| ==> !Repeats(t.effects, i) {
      forall i, j | 0 <= i < j < |t.effects|
        ensures t.effects[i].key != t.effects[j].key
      {
        assert !Repeats(t.effects, j);
      }
    }
    assert forall i :: 0 <= i < |t.effects| ==> (Finds(l, t.effects[i]) <==> !Conflicts(l, t.effects[i]));
  }

  lemma {:induction false} LandsOnce<V>(steps: map<string, Step<V>>, effects: seq<Completion<V>>, i: nat)
    requires i < |effects| && forall a, b :: 0 <= a < b < |effects| ==> effects[a].key != effects[b].key
    ensures var after := Completed(steps, effects); effects[i].key in after && after[effects[i].key] == Done(effects[i].value)
  {
    var n := |effects| - 1;
    if i < n {
      assert effects[..n][i] == effects[i];
      LandsOnce(steps, effects[..n], i);
    }
  }

  /** The error is about something that is wrong: a key named by two effects, one an effect finds taken, or all mixed keys. */
  ghost predicate IsReason<V>(l: BranchLedger<V>, t: Transition<V>, error: Error) {
    match error
    case RepeatedEffect(key) => exists i, j :: 0 <= i < j < |t.effects| && t.effects[i].key == t.effects[j].key == key
    case EffectConflict(key) => exists i :: 0 <= i < |t.effects| && t.effects[i].key == key && !Finds(l, t.effects[i])
    case MixedKeys(keys) =>
      && keys != {}
      && forall key :: key in keys <==> key in t.controls && exists i :: 0 <= i < |t.effects| && t.effects[i].key == key
    case Fenced(_, _) => false
  }

  /** Both stores say what is wrong with a transition they refuse. */
  lemma RefusalTells<V>(l: BranchLedger<V>, t: Transition<V>)
    ensures Refusal(l, t).Some? ==> IsReason(l, t, Refusal(l, t).value)
    ensures PgRefusal(l, t).Some? ==> IsReason(l, t, PgRefusal(l, t).value)
  {
    hide Acceptable;
    assert forall i :: 0 <= i < |t.effects| ==> (Finds(l, t.effects[i]) <==> !Conflicts(l, t.effects[i]));
    forall key
      ensures key in EffectKeys(t.effects) <==> exists i :: 0 <= i < |t.effects| && t.effects[i].key == key
    {
    }
    if !(EffectKeys(t.effects) !! t.controls.Keys) {
      var key :| key in EffectKeys(t.effects) && key in t.controls.Keys;
      assert key in EffectKeys(t.effects) * t.controls.Keys;
    }
  }
}
