/**
The same ledger on three tables. Each method is one transaction: it inserts, updates or deletes rows,
and a refusal rolls back everything but the sequence counter, which a database does not give back.
*/
module PostgresLedger {
  import opened Ledger
  import opened MemoryLedger

  datatype LeaseRow = LeaseRow(owner: string, token: nat, expires: real)

  datatype InputRow<V> = InputRow(sequence: nat, branch: string, id: string, status: InputStatus, value: V)

  // ── the tables as branches ───────────────────────────────────────────────

  /** `select ... where branch_id = ... order by sequence`, the rows being kept in sequence order. */
  function QueueIn<V>(rows: seq<InputRow<V>>, branch: string): seq<Input<V>> {
    if rows == [] then []
    else
      var last := rows[|rows| - 1];
      QueueIn(rows[..|rows| - 1], branch)
      + (if last.branch == branch then [Input(last.id, last.status, last.value)] else [])
  }

  datatype Rows<V> = Rows(
    steps: map<(string, string), Step<V>>, leases: map<string, LeaseRow>, inputs: seq<InputRow<V>>)

  ghost function BranchIn<V>(t: Rows<V>, branch: string): BranchLedger<V> {
    BranchLedger(
      StepsOf(t.steps, branch),
      if branch in t.leases then Some(Lease(t.leases[branch].owner, t.leases[branch].expires)) else None,
      if branch in t.leases then t.leases[branch].token else 0,
      QueueIn(t.inputs, branch))
  }

  /** The branch became `l`; every other branch stood still. */
  ghost predicate Became<V>(t: Rows<V>, u: Rows<V>, branch: string, l: BranchLedger<V>) {
    BranchIn(u, branch) == l && forall other :: other != branch ==> BranchIn(u, other) == BranchIn(t, other)
  }

  lemma BecameTwice<V>(t: Rows<V>, u: Rows<V>, v: Rows<V>, branch: string, l: BranchLedger<V>, m: BranchLedger<V>)
    requires Became(t, u, branch, l) && Became(u, v, branch, m)
    ensures Became(t, v, branch, m)
  {
  }

  lemma Unchanged<V>(t: Rows<V>, branch: string)
    ensures Became(t, t, branch, BranchIn(t, branch))
  {
  }

  lemma BecameView<V>(t: Rows<V>, u: Rows<V>, branch: string, l: BranchLedger<V>)
    requires Became(t, u, branch, l)
    ensures BranchIn(u, branch) == l
  {
  }

  lemma OtherSteps<V>(e: map<(string, string), Step<V>>, f: map<(string, string), Step<V>>, branch: string)
    requires forall key :: (branch, key) in e <==> (branch, key) in f
    requires forall key :: (branch, key) in e ==> e[(branch, key)] == f[(branch, key)]
    ensures StepsOf(e, branch) == StepsOf(f, branch)
  {
  }

  lemma UpsertStep<V>(t: Rows<V>, branch: string, key: string, step: Step<V>)
    ensures var l := BranchIn(t, branch);
      Became(t, t.(steps := t.steps[(branch, key) := step]), branch, l.(steps := l.steps[key := step]))
  {
    hide QueueIn, StepsOf;
    var u := t.(steps := t.steps[(branch, key) := step]);
    StepsOfPut(t.steps, branch, key, step);
    forall other | other != branch
      ensures BranchIn(u, other) == BranchIn(t, other)
    {
      OtherSteps(t.steps, u.steps, other);
    }
  }

  lemma DeleteStep<V>(t: Rows<V>, branch: string, key: string)
    ensures var l := BranchIn(t, branch);
      Became(t, t.(steps := t.steps - {(branch, key)}), branch, l.(steps := l.steps - {key}))
  {
    hide QueueIn, StepsOf;
    var u := t.(steps := t.steps - {(branch, key)});
    StepsOfDrop(t.steps, branch, key);
    forall other | other != branch
      ensures BranchIn(u, other) == BranchIn(t, other)
    {
      OtherSteps(t.steps, u.steps, other);
    }
  }

  lemma UpsertLease<V>(t: Rows<V>, branch: string, row: LeaseRow)
    ensures var l := BranchIn(t, branch);
      Became(t, t.(leases := t.leases[branch := row]), branch,
        l.(lease := Some(Lease(row.owner, row.expires)), issued := row.token))
  {
  }

  lemma InsertInput<V>(t: Rows<V>, row: InputRow<V>)
    ensures var l := BranchIn(t, row.branch);
      Became(t, t.(inputs := t.inputs + [row]), row.branch,
        l.(queue := l.queue + [Input(row.id, row.status, row.value)]))
  {
    assert (t.inputs + [row])[..|t.inputs|] == t.inputs;
  }

  /** `on conflict (branch_id, input_id)`: the unique index is asked about the rows. */
  predicate HasRow<V>(rows: seq<InputRow<V>>, branch: string, id: string) {
    exists i :: 0 <= i < |rows| && rows[i].branch == branch && rows[i].id == id
  }

  lemma {:induction false} RowsQueue<V>(rows: seq<InputRow<V>>, branch: string, id: string)
    ensures HasRow(rows, branch, id) <==> HasInput(QueueIn(rows, branch), id)
  {
    if rows != [] {
      var n := |rows| - 1;
      RowsQueue(rows[..n], branch, id);
      var before, after := QueueIn(rows[..n], branch), QueueIn(rows, branch);
      if HasInput(before, id) {
        var i :| 0 <= i < |before| && before[i].id == id;
        assert after[i].id == id;
      }
      if HasRow(rows, branch, id) {
        var i :| 0 <= i < |rows| && rows[i].branch == branch && rows[i].id == id;
        if i < n {
          assert rows[..n][i].id == id;
        } else {
          assert after[|before|].id == id;
        }
      }
      if HasInput(after, id) && !HasInput(before, id) {
        var i :| 0 <= i < |after| && after[i].id == id;
        assert i < |before| ==> before[i].id == id;
        assert rows[n].branch == branch && rows[n].id == id;
      }
    }
  }

  /** `update ... set status where branch_id = ... and input_id = any(...) and status not in (...)`. */
  function Updated<V>(rows: seq<InputRow<V>>, branch: string, ids: seq<string>, to: InputStatus, kept: set<InputStatus>)
    : seq<InputRow<V>>
  {
    seq(|rows|, i requires 0 <= i < |rows| =>
      if rows[i].branch == branch && rows[i].id in ids && rows[i].status !in kept
      then rows[i].(status := to) else rows[i])
  }

  lemma {:induction false} UpdatedQueue<V>(
      rows: seq<InputRow<V>>, branch: string, ids: seq<string>, to: InputStatus, kept: set<InputStatus>, name: string)
    ensures QueueIn(Updated(rows, branch, ids, to, kept), name)
      == if name == branch then Marked(QueueIn(rows, name), ids, to, kept) else QueueIn(rows, name)
  {
    if rows != [] {
      var n := |rows| - 1;
      var after := Updated(rows, branch, ids, to, kept);
      UpdatedQueue(rows[..n], branch, ids, to, kept, name);
      assert after[..n] == Updated(rows[..n], branch, ids, to, kept);
      assert QueueIn(after, name) == QueueIn(after[..n], name)
        + (if after[n].branch == name then [Input(after[n].id, after[n].status, after[n].value)] else []);
    }
  }

  lemma UpdateInputs<V>(t: Rows<V>, branch: string, ids: seq<string>, to: InputStatus, kept: set<InputStatus>)
    ensures var l := BranchIn(t, branch);
      Became(t, t.(inputs := Updated(t.inputs, branch, ids, to, kept)), branch,
        l.(queue := Marked(l.queue, ids, to, kept)))
  {
    var u := t.(inputs := Updated(t.inputs, branch, ids, to, kept));
    UpdatedQueue(t.inputs, branch, ids, to, kept, branch);
    forall other | other != branch
      ensures BranchIn(u, other) == BranchIn(t, other)
    {
      UpdatedQueue(t.inputs, branch, ids, to, kept, other);
    }
  }

  // ── what this store answers, where it is not what the other one does ──────────────────────────────

  /** A lease is taken over only after it expired, not at the moment it does. */
  function PgAcquired<V>(l: BranchLedger<V>, owner: string, now: real, until: real): Outcome<V> {
    if l.lease.None? then (l.(lease := Some(Lease(owner, until)), issued := 1), Granted(1))
    else if l.lease.value.owner == owner || l.lease.value.expires < now then
      var token := if l.lease.value.owner == owner then l.issued else l.issued + 1;
      (l.(lease := Some(Lease(owner, until)), issued := token), Granted(token))
    else (l, Granted(0))
  }

  /** The released row expired at the epoch. */
  function PgReleased<V>(l: BranchLedger<V>, owner: string): Outcome<V> {
    (if l.lease.Some? && l.lease.value.owner == owner then l.(lease := Some(Lease("", 0.0))) else l, Written)
  }

  /** An empty list of inputs returns before the fence is asked. */
  function PgStatusSet<V>(
      l: BranchLedger<V>, ids: seq<string>, to: InputStatus, kept: set<InputStatus>, token: nat): Outcome<V>
  {
    if ids == [] then (l, Written) else StatusSet(l, ids, to, kept, token)
  }

  function FirstRepeat<V>(effects: seq<Completion<V>>, i: nat): (n: nat)
    requires i <= |effects|
    ensures i <= n <= |effects| && (n < |effects| ==> Repeats(effects, n))
    ensures forall j :: i <= j < n ==> !Repeats(effects, j)
    decreases |effects| - i
  {
    if i == |effects| || Repeats(effects, i) then i else FirstRepeat(effects, i + 1)
  }

  function FirstConflict<V(==)>(l: BranchLedger<V>, effects: seq<Completion<V>>, i: nat): (n: nat)
    requires i <= |effects|
    ensures i <= n <= |effects| && (n < |effects| ==> Conflicts(l, effects[n]))
    ensures forall j :: i <= j < n ==> !Conflicts(l, effects[j])
    decreases |effects| - i
  {
    if i == |effects| || Conflicts(l, effects[i]) then i else FirstConflict(l, effects, i + 1)
  }

  /** The shape of the transition is checked first, conflicts as the rows are written. */
  function PgRefusal<V(==)>(l: BranchLedger<V>, t: Transition<V>): (r: Option<Error>)
    ensures r.None? <==> Acceptable(l, t)
  {
    var repeat := FirstRepeat(t.effects, 0);
    var conflict := FirstConflict(l, t.effects, 0);
    var overlap := EffectKeys(t.effects) * t.controls.Keys;
    DisjointIsEmpty(EffectKeys(t.effects), t.controls.Keys);
    if repeat < |t.effects| then Some(RepeatedEffect(t.effects[repeat].key))
    else if overlap != {} then Some(MixedKeys(overlap))
    else if conflict < |t.effects| then Some(EffectConflict(t.effects[conflict].key))
    else None
  }

  function PgTransitioned<V(==)>(l: BranchLedger<V>, t: Transition<V>, token: nat): Outcome<V> {
    if Stale(l, token) then (l, Fence(l, token))
    else
      match PgRefusal(l, t)
      case Some(error) => (l, Refused(error))
      case None => (Committed(l, t), NewInputs(FreshInputs(l.queue, t.inputs)))
  }

  function PgApply<V(==)>(l: BranchLedger<V>, op: Op<V>): Outcome<V> {
    match op
    case Acquire(owner, now, until) => PgAcquired(l, owner, now, until)
    case Release(owner, _) => PgReleased(l, owner)
    case AdmitInputs(ids, token) => PgStatusSet(l, ids, Admitted, {Discarded}, token)
    case DiscardInputs(ids, token) => PgStatusSet(l, ids, Discarded, {}, token)
    case Commit(t, token) => PgTransitioned(l, t, token)
    case _ => Apply(l, op)
  }

  // ── row by row ───────────────────────────────────────────────────────────

  /** A completion does not see the rows of the completions before it, their keys being others. */
  lemma ConflictsLater<V>(l: BranchLedger<V>, m: BranchLedger<V>, effects: seq<Completion<V>>, i: nat)
    requires i < |effects| && !Repeats(effects, i)
    requires m.steps == Completed(l.steps, effects[..i])
    ensures Read(m, effects[i].key) == Read(l, effects[i].key)
    ensures Conflicts(m, effects[i]) <==> Conflicts(l, effects[i])
  {
    CompletedElsewhere(l.steps, effects[..i], effects[i].key);
  }

  lemma ConflictAt<V>(l: BranchLedger<V>, t: Transition<V>, i: nat)
    requires i < |t.effects| && Conflicts(l, t.effects[i])
    requires forall j :: 0 <= j < i ==> !Conflicts(l, t.effects[j])
    requires forall j :: 0 <= j < |t.effects| ==> !Repeats(t.effects, j)
    requires EffectKeys(t.effects) * t.controls.Keys == {}
    ensures PgRefusal(l, t) == Some(EffectConflict(t.effects[i].key))
  {
    var n := FirstConflict(l, t.effects, 0);
    assert n < |t.effects| ==> Conflicts(l, t.effects[n]);
  }

  lemma RepeatAt<V>(l: BranchLedger<V>, t: Transition<V>, i: nat)
    requires i < |t.effects| && Repeats(t.effects, i)
    requires forall j :: 0 <= j < i ==> !Repeats(t.effects, j)
    ensures PgRefusal(l, t) == Some(RepeatedEffect(t.effects[i].key))
  {
    var n := FirstRepeat(t.effects, 0);
    assert n < |t.effects| ==> Repeats(t.effects, n);
  }

  lemma OverlapRefused<V>(l: BranchLedger<V>, t: Transition<V>)
    requires forall j :: 0 <= j < |t.effects| ==> !Repeats(t.effects, j)
    requires EffectKeys(t.effects) * t.controls.Keys != {}
    ensures PgRefusal(l, t) == Some(MixedKeys(EffectKeys(t.effects) * t.controls.Keys))
  {
  }

  lemma AcceptedRows<V>(l: BranchLedger<V>, t: Transition<V>)
    requires forall j :: 0 <= j < |t.effects| ==> !Repeats(t.effects, j) && !Conflicts(l, t.effects[j])
    requires EffectKeys(t.effects) * t.controls.Keys == {}
    ensures PgRefusal(l, t) == None
  {
    DisjointIsEmpty(EffectKeys(t.effects), t.controls.Keys);
  }

  class PostgresSteps<V(==)> {
    var steps: map<(string, string), Step<V>>
    var leases: map<string, LeaseRow>
    var inputs: seq<InputRow<V>>
    var nextSequence: nat

    ghost function Now(): Rows<V>
      reads this
    {
      Rows(steps, leases, inputs)
    }

    /** Sequence numbers rise along the table, with gaps where an insert met a conflict or was undone. */
    ghost predicate Valid()
      reads this
    {
      && (forall i, j :: 0 <= i < j < |inputs| ==> inputs[i].sequence < inputs[j].sequence)
      && (forall i :: 0 <= i < |inputs| ==> inputs[i].sequence < nextSequence)
    }

    ghost function View(branch: string): BranchLedger<V>
      reads this
    {
      BranchIn(Now(), branch)
    }

    /** The branch moved to `outcome`, which answers `r`; every other branch stood still. */
    twostate predicate Did(branch: string, outcome: Outcome<V>, r: Reply)
      reads this
    {
      Became(old(Now()), Now(), branch, outcome.0) && r == outcome.1
    }

    constructor ()
      ensures Valid()
      ensures forall b :: View(b) == Empty()
    {
      steps, leases, inputs, nextSequence := map[], map[], [], 0;
    }

    method Fence(branch: string, token: nat) returns (r: Option<Error>)
      ensures r == if Stale(View(branch), token) then Some(Fenced(token, View(branch).issued)) else None
    {
      if token == 0 { return None; }
      var issued := if branch in leases then leases[branch].token else 0;
      r := if token < issued then Some(Fenced(token, issued)) else None;
    }

    method SelectStep(branch: string, key: string) returns (r: Option<Step<V>>)
      ensures r == Read(View(branch), key)
    {
      r := if (branch, key) in steps then Some(steps[(branch, key)]) else None;
    }

    method Upsert(branch: string, key: string, step: Step<V>)
      requires Valid()
      modifies this`steps
      ensures Valid()
      ensures Became(old(Now()), Now(), branch, old(View(branch)).(steps := old(View(branch)).steps[key := step]))
    {
      UpsertStep(Now(), branch, key, step);
      steps := steps[(branch, key) := step];
    }

    method Start(branch: string, key: string, token: nat) returns (r: Reply)
      requires Valid()
      modifies this`steps
      ensures Valid() && Did(branch, Started(old(View(branch)), key, token), r)
    {
      hide Became, BranchIn;
      Unchanged(Now(), branch);
      var stale := Fence(branch, token);
      if stale.Some? { return Refused(stale.value); }
      var row := SelectStep(branch, key);
      if row.Some? { return Inserted(false); }
      Upsert(branch, key, Running);
      r := Inserted(true);
    }

    /** One conditional completion: the row the expectation asks for is written, or the row there is judged. */
    method CompleteEffect(branch: string, e: Completion<V>) returns (error: Option<Error>)
      requires Valid()
      modifies this`steps
      ensures Valid()
      ensures error == if Conflicts(old(View(branch)), e) then Some(EffectConflict(e.key)) else None
      ensures Became(old(Now()), Now(), branch, if error.Some? then old(View(branch)) else
        old(View(branch)).(steps := old(View(branch)).steps[e.key := Done(e.value)]))
    {
      hide Became, BranchIn;
      ghost var l := View(branch);
      Unchanged(Now(), branch);
      var row := SelectStep(branch, e.key);
      if (if e.expected == ExpectAbsent then row.None? else row == Some(Running)) {
        Upsert(branch, e.key, Done(e.value));
        return None;
      }
      if row.Some? && row.value.Done? && row.value.value == e.value {
        assert l.steps == l.steps[e.key := Done(e.value)];
        return None;
      }
      return Some(EffectConflict(e.key));
    }

    method FinishEffect(branch: string, key: string, value: V, token: nat) returns (r: Reply)
      requires Valid()
      modifies this`steps
      ensures Valid() && Did(branch, Finished(old(View(branch)), key, value, token), r)
    {
      hide Became, BranchIn;
      ghost var l := View(branch);
      Unchanged(Now(), branch);
      var stale := Fence(branch, token);
      if stale.Some? { return Refused(stale.value); }
      var error := CompleteEffect(branch, Completion(key, value, ExpectRunning));
      assert IsDone(l, key) && l.steps[key].value == value ==> l.steps == l.steps[key := Done(value)];
      r := if error.Some? then Refused(error.value) else Written;
    }

    method WriteControl(branch: string, key: string, value: V, token: nat) returns (r: Reply)
      requires Valid()
      modifies this`steps
      ensures Valid() && Did(branch, ControlWritten(old(View(branch)), key, value, token), r)
    {
      hide Became, BranchIn;
      Unchanged(Now(), branch);
      var stale := Fence(branch, token);
      if stale.Some? { return Refused(stale.value); }
      Upsert(branch, key, Done(value));
      r := Written;
    }

    method Forget(branch: string, key: string, token: nat) returns (r: Reply)
      requires Valid()
      modifies this`steps
      ensures Valid() && Did(branch, Forgotten(old(View(branch)), key, token), r)
    {
      hide Became, BranchIn;
      ghost var l := View(branch);
      Unchanged(Now(), branch);
      var stale := Fence(branch, token);
      if stale.Some? { return Refused(stale.value); }
      var row := SelectStep(branch, key);
      if row == Some(Running) {
        DeleteStep(Now(), branch, key);
        steps := steps - {(branch, key)};
      } else {
        assert !IsDone(l, key) ==> l.steps - {key} == l.steps;
      }
      r := Written;
    }

    method Acquire(branch: string, owner: string, ttl: real, now: real) returns (token: nat)
      requires Valid()
      modifies this`leases
      ensures Valid() && Did(branch, PgAcquired(old(View(branch)), owner, now, now + ttl), Granted(token))
    {
      hide Became, StepsOf, QueueIn;
      Unchanged(Now(), branch);
      if branch !in leases {
        token := 1;
        UpsertLease(Now(), branch, LeaseRow(owner, token, now + ttl));
        leases := leases[branch := LeaseRow(owner, token, now + ttl)];
      } else if leases[branch].owner == owner || leases[branch].expires < now {
        token := leases[branch].token + (if leases[branch].owner != owner then 1 else 0);
        UpsertLease(Now(), branch, LeaseRow(owner, token, now + ttl));
        leases := leases[branch := LeaseRow(owner, token, now + ttl)];
      } else {
        token := 0;
      }
    }

    method Release(branch: string, owner: string)
      requires Valid()
      modifies this`leases
      ensures Valid() && Did(branch, PgReleased(old(View(branch)), owner), Written)
    {
      Unchanged(Now(), branch);
      if branch in leases && leases[branch].owner == owner {
        UpsertLease(Now(), branch, LeaseRow("", leases[branch].token, 0.0));
        leases := leases[branch := LeaseRow("", leases[branch].token, 0.0)];
      }
    }

    /** `insert ... on conflict do nothing`: the sequence number is drawn either way. */
    method InsertRow(branch: string, id: string, value: V) returns (isNew: bool)
      requires Valid()
      modifies this`inputs, this`nextSequence
      ensures Valid()
      ensures isNew <==> !HasInput(old(View(branch)).queue, id)
      ensures Became(old(Now()), Now(), branch,
        old(View(branch)).(queue := AppendInput(old(View(branch)).queue, id, value)))
    {
      hide Became, HasInput, HasRow;
      Unchanged(Now(), branch);
      RowsQueue(inputs, branch, id);
      var row := InputRow(nextSequence, branch, id, Pending, value);
      isNew := !HasRow(inputs, branch, id);
      if isNew {
        InsertInput(Now(), row);
        inputs := inputs + [row];
      }
      nextSequence := nextSequence + 1;
    }

    method EnqueueInput(branch: string, id: string, value: V) returns (r: Reply)
      requires Valid()
      modifies this`inputs, this`nextSequence
      ensures Valid() && Did(branch, Enqueued(old(View(branch)), id, value), r)
    {
      hide Became, BranchIn;
      var isNew := InsertRow(branch, id, value);
      r := Inserted(isNew);
    }

    /** The branch's rows by sequence number: submission order, whatever the numbers are. */
    method ListInputs(branch: string) returns (rows: seq<InputRow<V>>)
      requires Valid()
      ensures |rows| == |View(branch).queue|
      ensures forall i :: 0 <= i < |rows| ==>
        Input(rows[i].id, rows[i].status, rows[i].value) == View(branch).queue[i]
      ensures forall i, j :: 0 <= i < j < |rows| ==> rows[i].sequence < rows[j].sequence
    {
      rows := [];
      var n := 0;
      while n < |inputs|
        invariant 0 <= n <= |inputs|
        invariant |rows| == |QueueIn(inputs[..n], branch)|
        invariant forall i :: 0 <= i < |rows| ==>
          Input(rows[i].id, rows[i].status, rows[i].value) == QueueIn(inputs[..n], branch)[i]
        invariant forall i :: 0 <= i < |rows| ==> exists k :: 0 <= k < n && rows[i] == inputs[k]
        invariant forall i, j :: 0 <= i < j < |rows| ==> rows[i].sequence < rows[j].sequence
      {
        assert inputs[..n + 1][..n] == inputs[..n];
        if inputs[n].branch == branch {
          rows := rows + [inputs[n]];
        }
        n := n + 1;
      }
      assert inputs[..n] == inputs;
    }

    method SetStatus(branch: string, ids: seq<string>, to: InputStatus, kept: set<InputStatus>, token: nat)
        returns (r: Reply)
      requires Valid()
      modifies this`inputs
      ensures Valid() && Did(branch, StatusSet(old(View(branch)), ids, to, kept, token), r)
    {
      hide Became, BranchIn;
      Unchanged(Now(), branch);
      var stale := Fence(branch, token);
      if stale.Some? { return Refused(stale.value); }
      UpdateInputs(Now(), branch, ids, to, kept);
      inputs := Updated(inputs, branch, ids, to, kept);
      r := Written;
    }

    method Claim(branch: string, id: string, token: nat) returns (r: Reply)
      requires Valid()
      modifies this`inputs
      ensures Valid() && Did(branch, ClaimSet(old(View(branch)), id, token), r)
    {
      r := SetStatus(branch, [id], Claimed, {Admitted, Discarded}, token);
    }

    method Admit(branch: string, ids: seq<string>, token: nat) returns (r: Reply)
      requires Valid()
      modifies this`inputs
      ensures Valid() && Did(branch, PgStatusSet(old(View(branch)), ids, Admitted, {Discarded}, token), r)
    {
      hide Became, BranchIn;
      Unchanged(Now(), branch);
      if ids == [] { return Written; }
      r := SetStatus(branch, ids, Admitted, {Discarded}, token);
    }

    method Discard(branch: string, ids: seq<string>, token: nat) returns (r: Reply)
      requires Valid()
      modifies this`inputs
      ensures Valid() && Did(branch, PgStatusSet(old(View(branch)), ids, Discarded, {}, token), r)
    {
      hide Became, BranchIn;
      Unchanged(Now(), branch);
      if ids == [] { return Written; }
      r := SetStatus(branch, ids, Discarded, {}, token);
    }

    /** The shape of a transition: no effect twice, no key both effect and control. */
    method CheckShape(branch: string, t: Transition<V>) returns (error: Option<Error>)
      ensures error.Some? ==> PgRefusal(View(branch), t) == error
      ensures error.None? ==>
        && (forall j :: 0 <= j < |t.effects| ==> !Repeats(t.effects, j))
        && EffectKeys(t.effects) * t.controls.Keys == {}
    {
      hide PgRefusal, Repeats;
      var seen: set<string> := {};
      var i := 0;
      while i < |t.effects|
        invariant 0 <= i <= |t.effects|
        invariant seen == EffectKeys(t.effects[..i])
        invariant forall j :: 0 <= j < i ==> !Repeats(t.effects, j)
      {
        EffectKeysOne(t.effects, i);
        if t.effects[i].key in seen {
          RepeatAt(View(branch), t, i);
          return Some(RepeatedEffect(t.effects[i].key));
        }
        seen := seen + {t.effects[i].key};
        i := i + 1;
      }
      assert t.effects[..i] == t.effects;
      var overlap := seen * t.controls.Keys;
      if overlap != {} {
        OverlapRefused(View(branch), t);
        return Some(MixedKeys(overlap));
      }
      error := None;
    }

    /** Complete the effects in turn; the first conflict stops half way, for the caller to roll back. */
    method WriteEffects(branch: string, effects: seq<Completion<V>>) returns (error: Option<Error>, n: nat)
      requires Valid()
      requires forall j :: 0 <= j < |effects| ==> !Repeats(effects, j)
      modifies this`steps
      ensures Valid() && n <= |effects|
      ensures forall j :: 0 <= j < n ==> !Conflicts(old(View(branch)), effects[j])
      ensures error.None? ==> n == |effects|
      ensures error.Some? ==> n < |effects| && Conflicts(old(View(branch)), effects[n]) && error == Some(EffectConflict(effects[n].key))
      ensures Became(old(Now()), Now(), branch,
        old(View(branch)).(steps := Completed(old(View(branch)).steps, effects[..n])))
    {
      hide Became, BranchIn, Conflicts, Repeats;
      ghost var l, t := View(branch), Now();
      Unchanged(t, branch);
      n := 0;
      while n < |effects|
        invariant 0 <= n <= |effects| && Valid()
        invariant Became(t, Now(), branch, l.(steps := Completed(l.steps, effects[..n])))
        invariant forall j :: 0 <= j < n ==> !Conflicts(l, effects[j])
      {
        ghost var u, m := Now(), View(branch);
        BecameView(t, u, branch, l.(steps := Completed(l.steps, effects[..n])));
        ConflictsLater(l, m, effects, n);
        error := CompleteEffect(branch, effects[n]);
        assert effects[..n + 1][..n] == effects[..n];
        BecameTwice(t, u, Now(), branch, m, if error.Some? then m else
          m.(steps := m.steps[effects[n].key := Done(effects[n].value)]));
        if error.Some? { return error, n; }
        n := n + 1;
      }
      error := None;
    }

    method WriteControls(branch: string, controls: map<string, V>)
      requires Valid()
      modifies this`steps
      ensures Valid()
      ensures Became(old(Now()), Now(), branch,
        old(View(branch)).(steps := old(View(branch)).steps + Controlled(controls)))
    {
      hide Became, BranchIn;
      ghost var l, t := View(branch), Now();
      Unchanged(t, branch);
      var rest := controls.Keys;
      ghost var written: map<string, V> := map[];
      assert l.steps + Controlled(written) == l.steps;
      while rest != {}
        invariant Valid() && rest <= controls.Keys
        invariant written.Keys == controls.Keys - rest
        invariant forall key :: key in written ==> written[key] == controls[key]
        invariant Became(t, Now(), branch, l.(steps := l.steps + Controlled(written)))
        decreases rest
      {
        var key :| key in rest;
        ghost var u, m := Now(), l.(steps := l.steps + Controlled(written));
        BecameView(t, u, branch, m);
        Upsert(branch, key, Done(controls[key]));
        assert m.steps[key := Done(controls[key])] == l.steps + Controlled(written[key := controls[key]]);
        BecameTwice(t, u, Now(), branch, m, m.(steps := m.steps[key := Done(controls[key])]));
        written := written[key := controls[key]];
        rest := rest - {key};
      }
      assert written == controls;
    }

    method WriteInputs(branch: string, items: seq<(string, V)>) returns (inserted: set<string>)
      requires Valid()
      modifies this`inputs, this`nextSequence
      ensures Valid()
      ensures Became(old(Now()), Now(), branch,
        old(View(branch)).(queue := AppendInputs(old(View(branch)).queue, items)))
      ensures inserted == FreshInputs(old(View(branch)).queue, items)
    {
      hide Became, BranchIn, HasInput, AppendInput;
      ghost var l, t := View(branch), Now();
      Unchanged(t, branch);
      inserted := {};
      var i := 0;
      while i < |items|
        invariant 0 <= i <= |items| && Valid()
        invariant Became(t, Now(), branch, l.(queue := AppendInputs(l.queue, items[..i])))
        invariant inserted == FreshInputs(l.queue, items[..i])
      {
        ghost var u, m := Now(), l.(queue := AppendInputs(l.queue, items[..i]));
        BecameView(t, u, branch, m);
        var (id, value) := items[i];
        FreshSnoc(l.queue, items[..i], id, value);
        AppendInputsSnoc(l.queue, items[..i], id, value);
        assert items[..i + 1] == items[..i] + [(id, value)];
        var isNew := InsertRow(branch, id, value);
        BecameTwice(t, u, Now(), branch, m, m.(queue := AppendInput(m.queue, id, value)));
        if isNew {
          inserted := inserted + {id};
        }
        i := i + 1;
      }
      assert items[..i] == items;
    }

    /** One transaction: rows are written as they are checked, and a refusal rolls them back. */
    method CommitTransition(branch: string, t: Transition<V>, token: nat) returns (r: Reply)
      requires Valid()
      modifies this`steps, this`inputs, this`nextSequence
      ensures Valid() && Did(branch, PgTransitioned(old(View(branch)), t, token), r)
      ensures r.Refused? ==> Now() == old(Now())
    {
      hide Became, BranchIn, PgRefusal, Conflicts, Repeats;
      ghost var l, t0 := View(branch), Now();
      Unchanged(t0, branch);
      var begun := steps;
      var stale := Fence(branch, token);
      if stale.Some? { return Refused(stale.value); }
      var shape := CheckShape(branch, t);
      if shape.Some? { return Refused(shape.value); }
      var error, n := WriteEffects(branch, t.effects);
      if error.Some? {
        ConflictAt(l, t, n);
        steps := begun;
        return Refused(error.value);
      }
      AcceptedRows(l, t);
      assert t.effects[..n] == t.effects;
      ghost var t1, l1 := Now(), l.(steps := Completed(l.steps, t.effects));
      BecameView(t0, t1, branch, l1);
      WriteControls(branch, t.controls);
      ghost var t2, l2 := Now(), l1.(steps := l1.steps + Controlled(t.controls));
      BecameTwice(t0, t1, t2, branch, l1, l2);
      BecameView(t0, t2, branch, l2);
      var inserted := WriteInputs(branch, t.inputs);
      BecameTwice(t0, t2, Now(), branch, l2, Committed(l, t));
      r := NewInputs(inserted);
    }
  }
}
