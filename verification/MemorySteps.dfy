/**
The in-memory ledger: five dictionaries shared by all branches, updated in place.

Each method is proved to move the `View` of its branch as `Ledger.Apply` says, and no other branch.
*/
module MemoryLedger {
  import opened Ledger

  datatype InputRecord<V> = InputRecord(inputId: string, status: InputStatus, value: V, sequence: nat)

  datatype HeldLease = HeldLease(owner: string, token: nat, expires: real)

  /** The five dictionaries, and in `order` each branch's input ids by sequence number. */
  datatype Tables<V> = Tables(
    entries: map<(string, string), Step<V>>,
    leases: map<string, HeldLease>,
    tokens: map<string, nat>,
    inputs: map<(string, string), InputRecord<V>>,
    sequences: map<string, nat>,
    order: map<string, seq<string>>)

  ghost function StepsOf<V>(entries: map<(string, string), Step<V>>, branch: string): map<string, Step<V>> {
    map p | p in entries && p.0 == branch :: p.1 := entries[p]
  }

  ghost function OrderOf<V>(t: Tables<V>, branch: string): seq<string> {
    if branch in t.order then t.order[branch] else []
  }

  /** Sequence numbers of a branch are dense and unique, and name the inputs in `ids`. */
  ghost predicate Numbered<V>(
      inputs: map<(string, string), InputRecord<V>>, branch: string, ids: seq<string>)
  {
    && (forall i :: 0 <= i < |ids| ==> (branch, ids[i]) in inputs && inputs[(branch, ids[i])].sequence == i)
    && (forall id :: (branch, id) in inputs ==>
      && inputs[(branch, id)].inputId == id
      && inputs[(branch, id)].sequence < |ids|
      && ids[inputs[(branch, id)].sequence] == id)
  }

  /** A lease carries the token issued last; the sequence counter is the length of the queue. */
  ghost predicate GoodBranch<V>(t: Tables<V>, branch: string) {
    && (branch in t.leases ==> branch in t.tokens && t.leases[branch].token == t.tokens[branch])
    && (branch in t.order <==> branch in t.sequences)
    && (branch in t.order ==> |t.order[branch]| == t.sequences[branch])
    && Numbered(t.inputs, branch, OrderOf(t, branch))
  }

  ghost predicate Good<V>(t: Tables<V>) {
    forall branch :: GoodBranch(t, branch)
  }

  ghost function LeaseOf<V>(t: Tables<V>, branch: string): Option<Lease> {
    if branch in t.leases then Some(Lease(t.leases[branch].owner, t.leases[branch].expires)) else None
  }

  ghost function TokenOf<V>(t: Tables<V>, branch: string): nat {
    if branch in t.tokens then t.tokens[branch] else 0
  }

  ghost function QueueOf<V>(inputs: map<(string, string), InputRecord<V>>, branch: string, ids: seq<string>)
    : seq<Input<V>>
    requires Numbered(inputs, branch, ids)
  {
    seq(|ids|, i requires 0 <= i < |ids| =>
      Input(ids[i], inputs[(branch, ids[i])].status, inputs[(branch, ids[i])].value))
  }

  /** One branch of the store, as the ledger value the rest of the model speaks about. */
  ghost function ViewOf<V>(t: Tables<V>, branch: string): BranchLedger<V>
    requires GoodBranch(t, branch)
  {
    BranchLedger(
      StepsOf(t.entries, branch), LeaseOf(t, branch), TokenOf(t, branch),
      QueueOf(t.inputs, branch, OrderOf(t, branch)))
  }

  /** The branch reads the same in both. */
  ghost predicate Kept<V>(t: Tables<V>, u: Tables<V>, branch: string) {
    GoodBranch(t, branch) ==> GoodBranch(u, branch) && ViewOf(u, branch) == ViewOf(t, branch)
  }

  /** The branch became `l`; every other branch stood still. */
  ghost predicate Moved<V>(t: Tables<V>, u: Tables<V>, branch: string, l: BranchLedger<V>) {
    && GoodBranch(u, branch) && ViewOf(u, branch) == l
    && (forall other :: other != branch ==> Kept(t, u, other))
  }

  lemma LeaseView<V>(t: Tables<V>, branch: string)
    requires GoodBranch(t, branch)
    ensures ViewOf(t, branch).lease == LeaseOf(t, branch)
    ensures ViewOf(t, branch).issued == TokenOf(t, branch)
    ensures branch in t.leases ==> t.leases[branch].token == TokenOf(t, branch)
  {
  }

  lemma StoodStill<V>(t: Tables<V>, branch: string)
    requires GoodBranch(t, branch)
    ensures Moved(t, t, branch, ViewOf(t, branch))
  {
  }

  lemma MovedView<V>(t: Tables<V>, u: Tables<V>, branch: string, l: BranchLedger<V>)
    requires Moved(t, u, branch, l)
    ensures GoodBranch(u, branch) && ViewOf(u, branch) == l
  {
  }

  lemma MovedTwice<V>(t: Tables<V>, u: Tables<V>, v: Tables<V>, branch: string, l: BranchLedger<V>, m: BranchLedger<V>)
    requires Moved(t, u, branch, l) && Moved(u, v, branch, m)
    ensures Moved(t, v, branch, m)
  {
    forall other | other != branch
      ensures Kept(t, v, other)
    {
      assert Kept(t, u, other) && Kept(u, v, other);
    }
  }

  lemma MovedGood<V>(t: Tables<V>, u: Tables<V>, branch: string, l: BranchLedger<V>)
    requires Good(t) && Moved(t, u, branch, l)
    ensures Good(u)
  {
    forall other
      ensures GoodBranch(u, other)
    {
      assert GoodBranch(t, other) && (other != branch ==> Kept(t, u, other));
    }
  }

  lemma EntriesKept<V>(t: Tables<V>, f: map<(string, string), Step<V>>, branch: string)
    requires forall key :: (branch, key) in t.entries <==> (branch, key) in f
    requires forall key :: (branch, key) in f ==> t.entries[(branch, key)] == f[(branch, key)]
    ensures Kept(t, t.(entries := f), branch)
  {
    assert StepsOf(t.entries, branch) == StepsOf(f, branch);
  }

  lemma QueueOfSame<V>(
      e: map<(string, string), InputRecord<V>>, f: map<(string, string), InputRecord<V>>,
      branch: string, ids: seq<string>)
    requires forall id :: (branch, id) in e <==> (branch, id) in f
    requires forall id :: (branch, id) in e ==> e[(branch, id)] == f[(branch, id)]
    requires Numbered(e, branch, ids)
    ensures Numbered(f, branch, ids) && QueueOf(e, branch, ids) == QueueOf(f, branch, ids)
  {
  }

  lemma PutStepMoves<V>(t: Tables<V>, branch: string, key: string, step: Step<V>)
    requires GoodBranch(t, branch)
    ensures var l := ViewOf(t, branch);
      Moved(t, t.(entries := t.entries[(branch, key) := step]), branch, l.(steps := l.steps[key := step]))
  {
    var u := t.(entries := t.entries[(branch, key) := step]);
    StepsOfPut(t.entries, branch, key, step);
    assert GoodBranch(u, branch);
    forall other | other != branch
      ensures Kept(t, u, other)
    {
      EntriesKept(t, u.entries, other);
    }
  }

  lemma StepsOfPut<V>(e: map<(string, string), Step<V>>, branch: string, key: string, step: Step<V>)
    ensures StepsOf(e[(branch, key) := step], branch) == StepsOf(e, branch)[key := step]
  {
  }

  lemma StepsOfDrop<V>(e: map<(string, string), Step<V>>, branch: string, key: string)
    ensures StepsOf(e - {(branch, key)}, branch) == StepsOf(e, branch) - {key}
  {
  }

  lemma DropStepMoves<V>(t: Tables<V>, branch: string, key: string)
    requires GoodBranch(t, branch)
    ensures var l := ViewOf(t, branch);
      Moved(t, t.(entries := t.entries - {(branch, key)}), branch, l.(steps := l.steps - {key}))
  {
    var u := t.(entries := t.entries - {(branch, key)});
    StepsOfDrop(t.entries, branch, key);
    assert GoodBranch(u, branch);
    forall other | other != branch
      ensures Kept(t, u, other)
    {
      EntriesKept(t, u.entries, other);
    }
  }

  lemma PutLeaseMoves<V>(t: Tables<V>, branch: string, held: HeldLease)
    requires GoodBranch(t, branch)
    ensures var l := ViewOf(t, branch);
      Moved(t, t.(leases := t.leases[branch := held], tokens := t.tokens[branch := held.token]), branch,
        l.(lease := Some(Lease(held.owner, held.expires)), issued := held.token))
  {
    var u := t.(leases := t.leases[branch := held], tokens := t.tokens[branch := held.token]);
    forall other | other != branch
      ensures Kept(t, u, other)
    {
    }
  }

  lemma AppendMoves<V>(t: Tables<V>, branch: string, id: string, value: V)
    requires GoodBranch(t, branch) && (branch, id) !in t.inputs
    ensures var l := ViewOf(t, branch);
      var n := |OrderOf(t, branch)|;
      Moved(t, t.(inputs := t.inputs[(branch, id) := InputRecord(id, Pending, value, n)],
                  sequences := t.sequences[branch := n + 1],
                  order := t.order[branch := OrderOf(t, branch) + [id]]), branch,
        l.(queue := l.queue + [Input(id, Pending, value)]))
  {
    var ids := OrderOf(t, branch);
    var n := |ids|;
    var u := t.(inputs := t.inputs[(branch, id) := InputRecord(id, Pending, value, n)],
                sequences := t.sequences[branch := n + 1],
                order := t.order[branch := ids + [id]]);
    AppendNumbered(t.inputs, branch, ids, id, value);
    assert GoodBranch(u, branch);
    forall other | other != branch
      ensures Kept(t, u, other)
    {
      if GoodBranch(t, other) {
        QueueOfSame(t.inputs, u.inputs, other, OrderOf(t, other));
      }
    }
  }

  lemma AppendNumbered<V>(
      inputs: map<(string, string), InputRecord<V>>, branch: string, ids: seq<string>, id: string, value: V)
    requires Numbered(inputs, branch, ids) && (branch, id) !in inputs
    ensures var after := inputs[(branch, id) := InputRecord(id, Pending, value, |ids|)];
      && Numbered(after, branch, ids + [id])
      && QueueOf(after, branch, ids + [id]) == QueueOf(inputs, branch, ids) + [Input(id, Pending, value)]
  {
  }

  lemma StatusMoves<V>(t: Tables<V>, branch: string, id: string, to: InputStatus, kept: set<InputStatus>)
    requires GoodBranch(t, branch) && (branch, id) in t.inputs && t.inputs[(branch, id)].status !in kept
    ensures var l := ViewOf(t, branch);
      Moved(t, t.(inputs := t.inputs[(branch, id) := t.inputs[(branch, id)].(status := to)]), branch,
        l.(queue := Marked(l.queue, [id], to, kept)))
  {
    var u := t.(inputs := t.inputs[(branch, id) := t.inputs[(branch, id)].(status := to)]);
    assert OrderOf(u, branch) == OrderOf(t, branch);
    assert Numbered(u.inputs, branch, OrderOf(u, branch));
    assert QueueOf(u.inputs, branch, OrderOf(u, branch))
        == Marked(QueueOf(t.inputs, branch, OrderOf(t, branch)), [id], to, kept);
    forall other | other != branch
      ensures Kept(t, u, other)
    {
      if GoodBranch(t, other) {
        QueueOfSame(t.inputs, u.inputs, other, OrderOf(t, other));
      }
    }
  }

  lemma QueueHas<V>(t: Tables<V>, branch: string, id: string)
    requires GoodBranch(t, branch)
    ensures HasInput(ViewOf(t, branch).queue, id) <==> (branch, id) in t.inputs
  {
    if (branch, id) in t.inputs {
      assert ViewOf(t, branch).queue[t.inputs[(branch, id)].sequence].id == id;
    }
  }

  lemma MarkedAbsent<V>(queue: seq<Input<V>>, id: string, to: InputStatus, kept: set<InputStatus>)
    requires forall i :: 0 <= i < |queue| && queue[i].id == id ==> queue[i].status in kept
    ensures Marked(queue, [id], to, kept) == queue
  {
  }

  lemma MarkedMore<V>(queue: seq<Input<V>>, ids: seq<string>, id: string, to: InputStatus, kept: set<InputStatus>)
    requires to !in kept
    ensures Marked(Marked(queue, ids, to, kept), [id], to, kept) == Marked(queue, ids + [id], to, kept)
  {
  }

  lemma MarkStep<V>(
      t: Tables<V>, u: Tables<V>, v: Tables<V>, branch: string, l: BranchLedger<V>,
      ids: seq<string>, i: nat, to: InputStatus, kept: set<InputStatus>)
    requires i < |ids| && to !in kept
    requires Moved(t, u, branch, l.(queue := Marked(l.queue, ids[..i], to, kept)))
    requires Moved(u, v, branch, l.(queue := Marked(Marked(l.queue, ids[..i], to, kept), [ids[i]], to, kept)))
    ensures Moved(t, v, branch, l.(queue := Marked(l.queue, ids[..i + 1], to, kept)))
  {
    assert ids[..i] + [ids[i]] == ids[..i + 1];
    MarkedMore(l.queue, ids[..i], ids[i], to, kept);
    MovedTwice(t, u, v, branch, l.(queue := Marked(l.queue, ids[..i], to, kept)),
      l.(queue := Marked(l.queue, ids[..i + 1], to, kept)));
  }

  // ── one transition ───────────────────────────────────────────────────────

  /** The step dictionary after assigning each pair in turn. */
  ghost function Assigned<V>(steps: map<string, Step<V>>, pairs: seq<(string, V)>): map<string, Step<V>> {
    if pairs == [] then steps
    else
      var last := pairs[|pairs| - 1];
      Assigned(steps, pairs[..|pairs| - 1])[last.0 := Done(last.1)]
  }

  lemma {:induction false} CompletedElsewhere<V>(steps: map<string, Step<V>>, effects: seq<Completion<V>>, key: string)
    requires forall i :: 0 <= i < |effects| ==> effects[i].key != key
    ensures key in Completed(steps, effects) <==> key in steps
    ensures key in steps ==> Completed(steps, effects)[key] == steps[key]
  {
    if effects != [] {
      CompletedElsewhere(steps, effects[..|effects| - 1], key);
    }
  }

  /** Checking one more effect: an already committed equal result adds nothing to assign. */
  lemma CheckedOne<V>(l: BranchLedger<V>, effects: seq<Completion<V>>, i: nat, pairs: seq<(string, V)>)
    requires i < |effects| && !Repeats(effects, i) && !Conflicts(l, effects[i])
    requires Assigned(l.steps, pairs) == Completed(l.steps, effects[..i])
    ensures var e := effects[i];
      Completed(l.steps, effects[..i + 1])
        == Assigned(l.steps, if IsDone(l, e.key) then pairs else pairs + [(e.key, e.value)])
  {
    var e := effects[i];
    assert effects[..i + 1][..i] == effects[..i];
    if IsDone(l, e.key) {
      CompletedElsewhere(l.steps, effects[..i], e.key);
      assert Completed(l.steps, effects[..i])[e.key] == Done(e.value);
      assert Completed(l.steps, effects[..i + 1]) == Completed(l.steps, effects[..i])[e.key := Done(e.value)];
    } else {
      assert (pairs + [(e.key, e.value)])[..|pairs|] == pairs;
    }
  }

  lemma EffectKeysOne<V>(effects: seq<Completion<V>>, i: nat)
    requires i < |effects|
    ensures EffectKeys(effects[..i + 1]) == EffectKeys(effects[..i]) + {effects[i].key}
    ensures effects[i].key in EffectKeys(effects[..i]) <==> Repeats(effects, i)
  {
  }

  ghost predicate Clean<V>(l: BranchLedger<V>, effects: seq<Completion<V>>, i: nat)
    requires i <= |effects|
  {
    forall j :: 0 <= j < i ==> !Repeats(effects, j) && !Conflicts(l, effects[j])
  }

  lemma FaultAt<V>(l: BranchLedger<V>, effects: seq<Completion<V>>, i: nat)
    requires i <= |effects| && Clean(l, effects, i)
    requires i < |effects| ==> Repeats(effects, i) || Conflicts(l, effects[i])
    ensures FirstFault(l, effects, 0) == i
  {
  }

  lemma RefusedAt<V>(l: BranchLedger<V>, t: Transition<V>, i: nat)
    requires i < |t.effects| && Clean(l, t.effects, i)
    requires Repeats(t.effects, i) || Conflicts(l, t.effects[i])
    ensures Refusal(l, t) == Some(
      if Repeats(t.effects, i) then RepeatedEffect(t.effects[i].key) else EffectConflict(t.effects[i].key))
  {
    FaultAt(l, t.effects, i);
  }

  lemma CleanNone<V>(l: BranchLedger<V>, effects: seq<Completion<V>>)
    ensures Clean(l, effects, 0)
  {
  }

  lemma CleanOne<V>(l: BranchLedger<V>, effects: seq<Completion<V>>, i: nat)
    requires i < |effects| && Clean(l, effects, i) && !Repeats(effects, i) && !Conflicts(l, effects[i])
    ensures Clean(l, effects, i + 1)
  {
  }

  lemma DisjointIsEmpty(a: set<string>, b: set<string>)
    ensures a !! b <==> a * b == {}
  {
    if a * b == {} {
      forall k | k in a
        ensures k !in b
      {
        assert k !in a * b;
      }
    }
  }

  lemma RefusedOverlap<V>(l: BranchLedger<V>, t: Transition<V>)
    requires Clean(l, t.effects, |t.effects|)
    ensures var overlap := EffectKeys(t.effects) * t.controls.Keys;
      Refusal(l, t) == if overlap != {} then Some(MixedKeys(overlap)) else None
  {
    FaultAt(l, t.effects, |t.effects|);
    DisjointIsEmpty(EffectKeys(t.effects), t.controls.Keys);
  }

  lemma ControlStep<V>(
      t: Tables<V>, u: Tables<V>, v: Tables<V>, branch: string, l: BranchLedger<V>,
      written: map<string, V>, key: string, value: V)
    requires Moved(t, u, branch, l.(steps := l.steps + Controlled(written)))
    requires Moved(u, v, branch, l.(steps := (l.steps + Controlled(written))[key := Done(value)]))
    ensures Moved(t, v, branch, l.(steps := l.steps + Controlled(written[key := value])))
  {
    hide Moved;
    assert (l.steps + Controlled(written))[key := Done(value)] == l.steps + Controlled(written[key := value]);
    MovedTwice(t, u, v, branch, l.(steps := l.steps + Controlled(written)),
      l.(steps := l.steps + Controlled(written[key := value])));
  }

  lemma InputStep<V>(
      t: Tables<V>, u: Tables<V>, v: Tables<V>, branch: string, l: BranchLedger<V>,
      items: seq<(string, V)>, i: nat)
    requires i < |items|
    requires Moved(t, u, branch, l.(queue := AppendInputs(l.queue, items[..i])))
    requires Moved(u, v, branch,
      l.(queue := AppendInput(AppendInputs(l.queue, items[..i]), items[i].0, items[i].1)))
    ensures Moved(t, v, branch, l.(queue := AppendInputs(l.queue, items[..i + 1])))
  {
    hide Moved;
    assert items[..i + 1] == items[..i] + [(items[i].0, items[i].1)];
    AppendInputsSnoc(l.queue, items[..i], items[i].0, items[i].1);
    MovedTwice(t, u, v, branch, l.(queue := AppendInputs(l.queue, items[..i])),
      l.(queue := AppendInputs(l.queue, items[..i + 1])));
  }

  lemma AppendInputsSnoc<V>(queue: seq<Input<V>>, inputs: seq<(string, V)>, id: string, value: V)
    ensures AppendInputs(queue, inputs + [(id, value)]) == AppendInput(AppendInputs(queue, inputs), id, value)
    decreases |inputs|
  {
    if inputs == [] {
      assert inputs + [(id, value)] == [(id, value)];
      assert AppendInputs(AppendInput(queue, id, value), []) == AppendInput(queue, id, value);
    } else {
      assert (inputs + [(id, value)])[1..] == inputs[1..] + [(id, value)];
      AppendInputsSnoc(AppendInput(queue, inputs[0].0, inputs[0].1), inputs[1..], id, value);
    }
  }

  lemma FreshSnoc<V>(queue: seq<Input<V>>, items: seq<(string, V)>, id: string, value: V)
    ensures FreshInputs(queue, items + [(id, value)])
      == FreshInputs(queue, items) + (if HasInput(AppendInputs(queue, items), id) then {} else {id})
  {
    var more := items + [(id, value)];
    forall k | k in FreshInputs(queue, more)
      ensures k in FreshInputs(queue, items) + (if HasInput(queue, id) then {} else {id})
    {
      var i :| 0 <= i < |more| && !HasInput(queue, more[i].0) && more[i].0 == k;
      if i < |items| { assert items[i].0 == k; }
    }
    forall k | k in FreshInputs(queue, items) + (if HasInput(queue, id) then {} else {id})
      ensures k in FreshInputs(queue, more)
    {
      if k in FreshInputs(queue, items) {
        var i :| 0 <= i < |items| && !HasInput(queue, items[i].0) && items[i].0 == k;
        assert more[i].0 == k;
      } else {
        assert more[|items|].0 == k;
      }
    }
    AppendedFrom(queue, items, id);
    if HasInput(AppendInputs(queue, items), id) && !HasInput(queue, id) {
      var i :| 0 <= i < |items| && items[i].0 == id;
      assert id in FreshInputs(queue, items);
    }
  }

  /** An identifier is queued after an append exactly when it was queued before or is among the new ones. */
  lemma {:induction false} AppendedFrom<V>(queue: seq<Input<V>>, items: seq<(string, V)>, id: string)
    ensures HasInput(AppendInputs(queue, items), id)
      <==> HasInput(queue, id) || exists i :: 0 <= i < |items| && items[i].0 == id
    decreases |items|
  {
    if items != [] {
      var q := AppendInput(queue, items[0].0, items[0].1);
      AppendedFrom(q, items[1..], id);
      if !HasInput(queue, items[0].0) {
        assert q[|queue|].id == items[0].0;
        forall i | 0 <= i < |queue|
          ensures q[i] == queue[i]
        {
        }
      }
      if exists i :: 0 <= i < |items| && items[i].0 == id {
        var i :| 0 <= i < |items| && items[i].0 == id;
        if i > 0 { assert items[1..][i - 1].0 == id; }
      }
      if exists i :: 0 <= i < |items[1..]| && items[1..][i].0 == id {
        var i :| 0 <= i < |items[1..]| && items[1..][i].0 == id;
        assert items[i + 1].0 == id;
      }
    }
  }

  class MemorySteps<V(==)> {
    var entries: map<(string, string), Step<V>>
    var leases: map<string, HeldLease>
    var tokens: map<string, nat>
    var inputs: map<(string, string), InputRecord<V>>
    var inputSequence: map<string, nat>
    ghost var order: map<string, seq<string>>

    ghost function Now(): Tables<V>
      reads this
    {
      Tables(entries, leases, tokens, inputs, inputSequence, order)
    }

    ghost predicate Valid()
      reads this
    {
      Good(Now())
    }

    ghost function View(branch: string): BranchLedger<V>
      requires Valid()
      reads this
    {
      ViewOf(Now(), branch)
    }

    /** The branch moved to `outcome`, which answers `r`; every other branch stood still. */
    twostate predicate Did(branch: string, outcome: Outcome<V>, r: Reply)
      reads this
    {
      Moved(old(Now()), Now(), branch, outcome.0) && r == outcome.1
    }

    constructor ()
      ensures Valid()
      ensures forall b :: View(b) == Empty()
    {
      entries, leases, tokens, inputs, inputSequence, order := map[], map[], map[], map[], map[], map[];
    }

    method ReadStep(branch: string, key: string) returns (r: Option<Step<V>>)
      requires Valid()
      ensures r == Read(View(branch), key)
    {
      r := if (branch, key) in entries then Some(entries[(branch, key)]) else None;
    }

    method Fence(branch: string, token: nat) returns (r: Option<Error>)
      requires Valid()
      ensures r == if Stale(View(branch), token) then Some(Fenced(token, View(branch).issued)) else None
    {
      var issued := if branch in tokens then tokens[branch] else 0;
      r := if token != 0 && token < issued then Some(Fenced(token, issued)) else None;
    }

    /** Assign one entry of the step dictionary. */
    method PutStep(branch: string, key: string, step: Step<V>)
      requires Valid()
      modifies this`entries
      ensures Valid()
      ensures Moved(old(Now()), Now(), branch, old(View(branch)).(steps := old(View(branch)).steps[key := step]))
    {
      PutStepMoves(Now(), branch, key, step);
      entries := entries[(branch, key) := step];
      MovedGood(old(Now()), Now(), branch, old(View(branch)).(steps := old(View(branch)).steps[key := step]));
    }

    method Start(branch: string, key: string, token: nat) returns (r: Reply)
      requires Valid()
      modifies this`entries
      ensures Valid() && Did(branch, Started(old(View(branch)), key, token), r)
    {
      hide GoodBranch, Moved, ViewOf;
      StoodStill(Now(), branch);
      var stale := Fence(branch, token);
      if stale.Some? { return Refused(stale.value); }
      var record := ReadStep(branch, key);
      if record.Some? { return Inserted(false); }
      PutStep(branch, key, Running);
      r := Inserted(true);
    }

    method FinishEffect(branch: string, key: string, value: V, token: nat) returns (r: Reply)
      requires Valid()
      modifies this`entries
      ensures Valid() && Did(branch, Finished(old(View(branch)), key, value, token), r)
    {
      hide GoodBranch, Moved, ViewOf;
      StoodStill(Now(), branch);
      var stale := Fence(branch, token);
      if stale.Some? { return Refused(stale.value); }
      var record := ReadStep(branch, key);
      if record.Some? && record.value.Done? {
        return if record.value.value == value then Written else Refused(EffectConflict(key));
      }
      if record.None? { return Refused(EffectConflict(key)); }
      PutStep(branch, key, Done(value));
      r := Written;
    }

    method WriteControl(branch: string, key: string, value: V, token: nat) returns (r: Reply)
      requires Valid()
      modifies this`entries
      ensures Valid() && Did(branch, ControlWritten(old(View(branch)), key, value, token), r)
    {
      hide GoodBranch, Moved, ViewOf;
      StoodStill(Now(), branch);
      var stale := Fence(branch, token);
      if stale.Some? { return Refused(stale.value); }
      PutStep(branch, key, Done(value));
      r := Written;
    }

    method Forget(branch: string, key: string, token: nat) returns (r: Reply)
      requires Valid()
      modifies this`entries
      ensures Valid() && Did(branch, Forgotten(old(View(branch)), key, token), r)
    {
      var stale := Fence(branch, token);
      if stale.Some? { return Refused(stale.value); }
      var record := ReadStep(branch, key);
      if record.None? || record.value.Running? {
        DropStepMoves(Now(), branch, key);
        entries := entries - {(branch, key)};
        MovedGood(old(Now()), Now(), branch, old(View(branch)).(steps := old(View(branch)).steps - {key}));
      }
      r := Written;
    }

    /** Assign one lease together with the token it carries. */
    method PutLease(branch: string, held: HeldLease)
      requires Valid()
      modifies this`leases, this`tokens
      ensures Valid()
      ensures Moved(old(Now()), Now(), branch,
        old(View(branch)).(lease := Some(Lease(held.owner, held.expires)), issued := held.token))
    {
      PutLeaseMoves(Now(), branch, held);
      tokens := tokens[branch := held.token];
      leases := leases[branch := held];
      MovedGood(old(Now()), Now(), branch,
        old(View(branch)).(lease := Some(Lease(held.owner, held.expires)), issued := held.token));
    }

    method Acquire(branch: string, owner: string, ttl: real, now: real, later: real) returns (token: nat)
      requires Valid()
      modifies this`leases, this`tokens
      ensures Valid() && Did(branch, Acquired(old(View(branch)), owner, now, later + ttl), Granted(token))
    {
      hide GoodBranch, Moved, ViewOf;
      StoodStill(Now(), branch);
      LeaseView(Now(), branch);
      var until := later + ttl;
      if branch in leases && leases[branch].owner == owner {
        token := leases[branch].token;
        PutLease(branch, HeldLease(owner, token, until));
      } else if branch in leases && !(leases[branch].expires <= now) {
        token := 0;
      } else {
        token := (if branch in tokens then tokens[branch] else 0) + 1;
        PutLease(branch, HeldLease(owner, token, until));
      }
    }

    method Release(branch: string, owner: string, now: real)
      requires Valid()
      modifies this`leases, this`tokens
      ensures Valid() && Did(branch, Released(old(View(branch)), owner, now), Written)
    {
      hide GoodBranch, Moved, ViewOf;
      StoodStill(Now(), branch);
      LeaseView(Now(), branch);
      if branch in leases && leases[branch].owner == owner {
        PutLease(branch, HeldLease("", leases[branch].token, now));
      }
    }

    /** Append one absent input under the branch's next sequence number. */
    method PutInput(branch: string, id: string, value: V)
      requires Valid() && (branch, id) !in inputs
      modifies this`inputs, this`inputSequence, this`order
      ensures Valid()
      ensures Moved(old(Now()), Now(), branch,
        old(View(branch)).(queue := old(View(branch)).queue + [Input(id, Pending, value)]))
    {
      AppendMoves(Now(), branch, id, value);
      var sequence := if branch in inputSequence then inputSequence[branch] else 0;
      inputSequence := inputSequence[branch := sequence + 1];
      inputs := inputs[(branch, id) := InputRecord(id, Pending, value, sequence)];
      order := order[branch := old(OrderOf(Now(), branch)) + [id]];
      MovedGood(old(Now()), Now(), branch,
        old(View(branch)).(queue := old(View(branch)).queue + [Input(id, Pending, value)]));
    }

    method EnqueueInput(branch: string, id: string, value: V) returns (r: Reply)
      requires Valid()
      modifies this`inputs, this`inputSequence, this`order
      ensures Valid() && Did(branch, Enqueued(old(View(branch)), id, value), r)
    {
      QueueHas(Now(), branch, id);
      StoodStill(Now(), branch);
      r := Inserted((branch, id) !in inputs);
      if (branch, id) !in inputs {
        PutInput(branch, id, value);
      }
    }

    /** The records of the branch: the queue, each with its position as its sequence. */
    method ListInputs(branch: string) returns (records: seq<InputRecord<V>>)
      requires Valid()
      ensures |records| == |View(branch).queue|
      ensures forall i :: 0 <= i < |records| ==>
        && records[i].sequence == i
        && Input(records[i].inputId, records[i].status, records[i].value) == View(branch).queue[i]
    {
      records := [];
      var rest := set p | p in inputs && p.0 == branch;
      ghost var ids := OrderOf(Now(), branch);
      assert GoodBranch(Now(), branch);
      while rest != {}
        invariant |records| <= |ids|
        invariant forall p :: p in rest <==> p in inputs && p.0 == branch && |records| <= inputs[p].sequence
        invariant |records| < |ids| ==> (branch, ids[|records|]) in rest
        invariant forall i :: 0 <= i < |records| ==> records[i] == inputs[(branch, ids[i])]
        decreases rest
      {
        var first := Least(branch, rest, |records|);
        records := records + [inputs[first]];
        rest := rest - {first};
      }
    }

    /** The record with the smallest sequence number: the sort key of `ListInputs`. */
    method Least(branch: string, rest: set<(string, string)>, n: nat) returns (first: (string, string))
      requires Valid() && rest != {}
      requires forall p :: p in rest <==> p in inputs && p.0 == branch && n <= inputs[p].sequence
      ensures n < |OrderOf(Now(), branch)|
      ensures first == (branch, OrderOf(Now(), branch)[n]) && first in rest
      ensures forall p :: p in rest && p != first ==> n < inputs[p].sequence
    {
      ghost var ids := OrderOf(Now(), branch);
      assert GoodBranch(Now(), branch);
      ghost var some :| some in rest;
      assert (branch, some.1) in inputs;
      assert (branch, ids[n]) in rest;
      first :| first in rest && forall p :: p in rest ==> inputs[first].sequence <= inputs[p].sequence;
      assert (branch, first.1) in inputs;
      forall p | p in rest && p != first
        ensures n < inputs[p].sequence
      {
        assert (branch, p.1) in inputs;
      }
    }

    /** Assign one status, keeping the record's value and number. */
    method PutStatus(branch: string, id: string, to: InputStatus, kept: set<InputStatus>)
      requires Valid()
      modifies this`inputs
      ensures Valid()
      ensures Moved(old(Now()), Now(), branch,
        old(View(branch)).(queue := Marked(old(View(branch)).queue, [id], to, kept)))
    {
      var key := (branch, id);
      QueueHas(Now(), branch, id);
      if key in inputs && inputs[key].status !in kept {
        StatusMoves(Now(), branch, id, to, kept);
        inputs := inputs[key := InputRecord(id, to, inputs[key].value, inputs[key].sequence)];
        MovedGood(old(Now()), Now(), branch,
          old(View(branch)).(queue := Marked(old(View(branch)).queue, [id], to, kept)));
      } else {
        MarkedAbsent(View(branch).queue, id, to, kept);
      }
    }

    method MarkAll(branch: string, ids: seq<string>, to: InputStatus, kept: set<InputStatus>)
      requires Valid() && to !in kept
      modifies this`inputs
      ensures Valid()
      ensures Moved(old(Now()), Now(), branch,
        old(View(branch)).(queue := Marked(old(View(branch)).queue, ids, to, kept)))
    {
      hide GoodBranch, Moved, ViewOf;
      ghost var l, t := View(branch), Now();
      StoodStill(t, branch);
      var i := 0;
      assert Marked(l.queue, ids[..0], to, kept) == l.queue;
      while i < |ids|
        invariant 0 <= i <= |ids| && Valid()
        invariant Moved(t, Now(), branch, l.(queue := Marked(l.queue, ids[..i], to, kept)))
      {
        ghost var u := Now();
        MovedView(t, u, branch, l.(queue := Marked(l.queue, ids[..i], to, kept)));
        PutStatus(branch, ids[i], to, kept);
        MarkStep(t, u, Now(), branch, l, ids, i, to, kept);
        i := i + 1;
      }
      assert ids[..i] == ids;
    }

    method Claim(branch: string, id: string, token: nat) returns (r: Reply)
      requires Valid()
      modifies this`inputs
      ensures Valid() && Did(branch, ClaimSet(old(View(branch)), id, token), r)
    {
      hide GoodBranch, Moved, ViewOf;
      StoodStill(Now(), branch);
      var stale := Fence(branch, token);
      if stale.Some? { return Refused(stale.value); }
      PutStatus(branch, id, Claimed, {Admitted, Discarded});
      r := Written;
    }

    method Admit(branch: string, ids: seq<string>, token: nat) returns (r: Reply)
      requires Valid()
      modifies this`inputs
      ensures Valid() && Did(branch, AdmitSet(old(View(branch)), ids, token), r)
    {
      hide GoodBranch, Moved, ViewOf;
      StoodStill(Now(), branch);
      var stale := Fence(branch, token);
      if stale.Some? { return Refused(stale.value); }
      MarkAll(branch, ids, Admitted, {Discarded});
      r := Written;
    }

    method Discard(branch: string, ids: seq<string>, token: nat) returns (r: Reply)
      requires Valid()
      modifies this`inputs
      ensures Valid() && Did(branch, DiscardSet(old(View(branch)), ids, token), r)
    {
      hide GoodBranch, Moved, ViewOf;
      StoodStill(Now(), branch);
      var stale := Fence(branch, token);
      if stale.Some? { return Refused(stale.value); }
      MarkAll(branch, ids, Discarded, {});
      r := Written;
    }

    /** The validation half: what refuses the transition, or which effects are still to be assigned. */
    method CheckEffects(branch: string, t: Transition<V>) returns (error: Option<Error>, pairs: seq<(string, V)>)
      requires Valid()
      ensures error == Refusal(View(branch), t)
      ensures error.None? ==> Assigned(View(branch).steps, pairs) == Completed(View(branch).steps, t.effects)
    {
      hide GoodBranch, ViewOf, Refusal, Clean;
      ghost var l := View(branch);
      pairs := [];
      CleanNone(l, t.effects);
      var seen: set<string> := {};
      var i := 0;
      while i < |t.effects|
        invariant 0 <= i <= |t.effects|
        invariant seen == EffectKeys(t.effects[..i])
        invariant Clean(l, t.effects, i)
        invariant Assigned(l.steps, pairs) == Completed(l.steps, t.effects[..i])
      {
        var e := t.effects[i];
        EffectKeysOne(t.effects, i);
        if e.key in seen {
          RefusedAt(l, t, i);
          return Some(RepeatedEffect(e.key)), pairs;
        }
        seen := seen + {e.key};
        var record := ReadStep(branch, e.key);
        if record.Some? && record.value.Done? {
          if record.value.value != e.value {
            RefusedAt(l, t, i);
            return Some(EffectConflict(e.key)), pairs;
          }
          CheckedOne(l, t.effects, i, pairs);
          CleanOne(l, t.effects, i);
        } else {
          if (if record.None? then ExpectAbsent else ExpectRunning) != e.expected {
            RefusedAt(l, t, i);
            return Some(EffectConflict(e.key)), pairs;
          }
          CheckedOne(l, t.effects, i, pairs);
          CleanOne(l, t.effects, i);
          pairs := pairs + [(e.key, e.value)];
        }
        i := i + 1;
      }
      RefusedOverlap(l, t);
      assert t.effects[..i] == t.effects;
      var overlap := seen * t.controls.Keys;
      error := if overlap != {} then Some(MixedKeys(overlap)) else None;
    }

    method AssignEffects(branch: string, pairs: seq<(string, V)>)
      requires Valid()
      modifies this`entries
      ensures Valid()
      ensures Moved(old(Now()), Now(), branch,
        old(View(branch)).(steps := Assigned(old(View(branch)).steps, pairs)))
    {
      hide GoodBranch, Moved, ViewOf;
      ghost var l, t := View(branch), Now();
      StoodStill(t, branch);
      var i := 0;
      while i < |pairs|
        invariant 0 <= i <= |pairs| && Valid()
        invariant Moved(t, Now(), branch, l.(steps := Assigned(l.steps, pairs[..i])))
      {
        ghost var u := Now();
        MovedView(t, u, branch, l.(steps := Assigned(l.steps, pairs[..i])));
        PutStep(branch, pairs[i].0, Done(pairs[i].1));
        assert pairs[..i + 1][..i] == pairs[..i];
        MovedTwice(t, u, Now(), branch, l.(steps := Assigned(l.steps, pairs[..i])),
          l.(steps := Assigned(l.steps, pairs[..i + 1])));
        i := i + 1;
      }
      assert pairs[..i] == pairs;
    }

    method AssignControls(branch: string, controls: map<string, V>)
      requires Valid()
      modifies this`entries
      ensures Valid()
      ensures Moved(old(Now()), Now(), branch,
        old(View(branch)).(steps := old(View(branch)).steps + Controlled(controls)))
    {
      hide GoodBranch, Moved, ViewOf;
      ghost var l, t := View(branch), Now();
      StoodStill(t, branch);
      var rest := controls.Keys;
      ghost var written: map<string, V> := map[];
      assert l.steps + Controlled(written) == l.steps;
      while rest != {}
        invariant Valid() && rest <= controls.Keys
        invariant written.Keys == controls.Keys - rest
        invariant forall key :: key in written ==> written[key] == controls[key]
        invariant Moved(t, Now(), branch, l.(steps := l.steps + Controlled(written)))
        decreases rest
      {
        var key :| key in rest;
        ghost var u := Now();
        MovedView(t, u, branch, l.(steps := l.steps + Controlled(written)));
        PutStep(branch, key, Done(controls[key]));
        ControlStep(t, u, Now(), branch, l, written, key, controls[key]);
        written := written[key := controls[key]];
        rest := rest - {key};
      }
      assert written == controls;
    }

    method AssignInputs(branch: string, items: seq<(string, V)>) returns (inserted: set<string>)
      requires Valid()
      modifies this`inputs, this`inputSequence, this`order
      ensures Valid()
      ensures Moved(old(Now()), Now(), branch,
        old(View(branch)).(queue := AppendInputs(old(View(branch)).queue, items)))
      ensures inserted == FreshInputs(old(View(branch)).queue, items)
    {
      hide GoodBranch, Moved, ViewOf;
      ghost var l, t := View(branch), Now();
      StoodStill(t, branch);
      inserted := {};
      var i := 0;
      while i < |items|
        invariant 0 <= i <= |items| && Valid()
        invariant Moved(t, Now(), branch, l.(queue := AppendInputs(l.queue, items[..i])))
        invariant inserted == FreshInputs(l.queue, items[..i])
      {
        ghost var u := Now();
        MovedView(t, u, branch, l.(queue := AppendInputs(l.queue, items[..i])));
        var (id, value) := items[i];
        QueueHas(u, branch, id);
        StoodStill(u, branch);
        FreshSnoc(l.queue, items[..i], id, value);
        assert items[..i + 1] == items[..i] + [(id, value)];
        if (branch, id) !in inputs {
          PutInput(branch, id, value);
          inserted := inserted + {id};
        }
        InputStep(t, u, Now(), branch, l, items, i);
        i := i + 1;
      }
      assert items[..i] == items;
    }

    /** Validate everything, then apply everything: a refusal leaves every dictionary untouched. */
    method CommitTransition(branch: string, t: Transition<V>, token: nat) returns (r: Reply)
      requires Valid()
      modifies this`entries, this`inputs, this`inputSequence, this`order
      ensures Valid() && Did(branch, Transitioned(old(View(branch)), t, token), r)
      ensures r.Refused? ==> Now() == old(Now())
    {
      hide GoodBranch, Moved, ViewOf;
      ghost var l, t0 := View(branch), Now();
      StoodStill(t0, branch);
      var stale := Fence(branch, token);
      if stale.Some? { return Refused(stale.value); }
      var error, pairs := CheckEffects(branch, t);
      if error.Some? { return Refused(error.value); }
      AssignEffects(branch, pairs);
      ghost var t1, l1 := Now(), l.(steps := Completed(l.steps, t.effects));
      MovedView(t0, t1, branch, l1);
      AssignControls(branch, t.controls);
      ghost var t2, l2 := Now(), l1.(steps := l1.steps + Controlled(t.controls));
      MovedTwice(t0, t1, t2, branch, l1, l2);
      MovedView(t0, t2, branch, l2);
      var inserted := AssignInputs(branch, t.inputs);
      MovedTwice(t0, t2, Now(), branch, l2, Committed(l, t));
      r := NewInputs(inserted);
    }
  }
}
