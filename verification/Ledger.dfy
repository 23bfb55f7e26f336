/**
The durable step ledger of one branch, as a value.

Every store method is one atomic operation on the branch it names, so a ledger is a function from
branches to `BranchLedger` values and an operation is a pair of a new value and a reply. The two
stores (`MemorySteps`, `PostgresSteps`) are proved against `Apply`; every protocol of the runtime is
stated over it. The value type `V` is opaque to the ledger.
*/
module Ledger {

  datatype Option<+T> = None | Some(value: T)

  /** A recorded step. An absent step is no entry at all. */
  datatype Step<V> = Running | Done(value: V)

  datatype InputStatus = Pending | Claimed | Admitted | Discarded {
    function Rank(): nat {
      match this
      case Pending => 0
      case Claimed => 1
      case Admitted => 2
      case Discarded => 3
    }
  }

  /** One queued input; its sequence number is its position in the queue. */
  datatype Input<V> = Input(id: string, status: InputStatus, value: V)

  datatype Lease = Lease(owner: string, expires: real)

  /** `issued` is the highest fencing token handed out for the branch; zero before the first. */
  datatype BranchLedger<V> = BranchLedger(
    steps: map<string, Step<V>>,
    lease: Option<Lease>,
    issued: nat,
    queue: seq<Input<V>>)

  datatype Expected = ExpectAbsent | ExpectRunning

  datatype Completion<V> = Completion(key: string, value: V, expected: Expected)

  datatype Transition<V> = Transition(
    effects: seq<Completion<V>>,
    controls: map<string, V>,
    inputs: seq<(string, V)>)

  datatype Error =
    | Fenced(presented: nat, issued: nat)
    | EffectConflict(key: string)
    | RepeatedEffect(key: string)
    | MixedKeys(keys: set<string>)

  datatype Reply =
    | Written
    | Inserted(isNew: bool)
    | Granted(token: nat)
    | NewInputs(ids: set<string>)
    | Refused(error: Error)

  /** The state-changing operations. `now` and `until` are clock readings, chosen by the world. */
  datatype Op<V> =
    | Start(key: string, token: nat)
    | FinishEffect(key: string, value: V, token: nat)
    | WriteControl(key: string, value: V, token: nat)
    | Forget(key: string, token: nat)
    | Acquire(owner: string, now: real, until: real)
    | Release(owner: string, now: real)
    | Enqueue(id: string, value: V)
    | ClaimInput(id: string, token: nat)
    | AdmitInputs(ids: seq<string>, token: nat)
    | DiscardInputs(ids: seq<string>, token: nat)
    | Commit(transition: Transition<V>, token: nat)

  function Empty<V>(): BranchLedger<V> {
    BranchLedger(map[], None, 0, [])
  }

  /** `read`: the step under a key, or nothing when it is absent. */
  function Read<V>(l: BranchLedger<V>, key: string): Option<Step<V>> {
    if key in l.steps then Some(l.steps[key]) else None
  }

  predicate IsDone<V>(l: BranchLedger<V>, key: string) {
    key in l.steps && l.steps[key].Done?
  }

  /** Whether a write presenting `token` is refused. Token zero holds no lease and skips the fence. */
  predicate Stale<V>(l: BranchLedger<V>, token: nat) {
    token != 0 && token < l.issued
  }

  predicate HasInput<V>(queue: seq<Input<V>>, id: string) {
    exists i :: 0 <= i < |queue| && queue[i].id == id
  }

  function AppendInput<V>(queue: seq<Input<V>>, id: string, value: V): seq<Input<V>> {
    if HasInput(queue, id) then queue else queue + [Input(id, Pending, value)]
  }

  function AppendInputs<V>(queue: seq<Input<V>>, inputs: seq<(string, V)>): seq<Input<V>>
    decreases |inputs|
  {
    if inputs == [] then queue
    else AppendInputs(AppendInput(queue, inputs[0].0, inputs[0].1), inputs[1..])
  }

  /** Move every queued input selected by `ids` to `to`, unless its status is in `kept`. */
  function Marked<V>(queue: seq<Input<V>>, ids: seq<string>, to: InputStatus, kept: set<InputStatus>)
    : seq<Input<V>>
  {
    seq(|queue|, i requires 0 <= i < |queue| =>
      if queue[i].id in ids && queue[i].status !in kept then queue[i].(status := to) else queue[i])
  }

  predicate Conflicts<V(==)>(l: BranchLedger<V>, e: Completion<V>) {
    match Read(l, e.key)
    case None => e.expected != ExpectAbsent
    case Some(Running) => e.expected != ExpectRunning
    case Some(Done(value)) => value != e.value
  }

  predicate Repeats<V>(effects: seq<Completion<V>>, i: nat)
    requires i < |effects|
  {
    exists j :: 0 <= j < i && effects[j].key == effects[i].key
  }

  function EffectKeys<V>(effects: seq<Completion<V>>): set<string> {
    set i | 0 <= i < |effects| :: effects[i].key
  }

  /** A transition is accepted as a whole or refused as a whole. */
  predicate Acceptable<V(==)>(l: BranchLedger<V>, t: Transition<V>) {
    && (forall i :: 0 <= i < |t.effects| ==> !Repeats(t.effects, i))
    && (forall i :: 0 <= i < |t.effects| ==> !Conflicts(l, t.effects[i]))
    && EffectKeys(t.effects) !! t.controls.Keys
  }

  function Completed<V>(steps: map<string, Step<V>>, effects: seq<Completion<V>>): map<string, Step<V>> {
    if effects == [] then steps
    else
      var last := effects[|effects| - 1];
      Completed(steps, effects[..|effects| - 1])[last.key := Done(last.value)]
  }

  function Controlled<V>(controls: map<string, V>): map<string, Step<V>> {
    map key | key in controls :: Done(controls[key])
  }

  function FreshInputs<V>(queue: seq<Input<V>>, inputs: seq<(string, V)>): set<string> {
    set i | 0 <= i < |inputs| && !HasInput(queue, inputs[i].0) :: inputs[i].0
  }

  function Committed<V(==)>(l: BranchLedger<V>, t: Transition<V>): BranchLedger<V> {
    l.(steps := Completed(l.steps, t.effects) + Controlled(t.controls),
       queue := AppendInputs(l.queue, t.inputs))
  }

  /** The first index from `i` on at which the in-memory check stops: a repeat, then a conflict. */
  function FirstFault<V(==)>(l: BranchLedger<V>, effects: seq<Completion<V>>, i: nat): (n: nat)
    requires i <= |effects|
    ensures i <= n <= |effects|
    ensures n < |effects| ==> Repeats(effects, n) || Conflicts(l, effects[n])
    ensures forall j :: i <= j < n ==> !Repeats(effects, j) && !Conflicts(l, effects[j])
    decreases |effects| - i
  {
    if i == |effects| || Repeats(effects, i) || Conflicts(l, effects[i]) then i
    else FirstFault(l, effects, i + 1)
  }

  /** Why the in-memory store refuses a transition, or nothing when it accepts it. */
  function Refusal<V(==)>(l: BranchLedger<V>, t: Transition<V>): (r: Option<Error>)
    ensures r.None? <==> Acceptable(l, t)
  {
    var n := FirstFault(l, t.effects, 0);
    if n < |t.effects| then
      Some(if Repeats(t.effects, n) then RepeatedEffect(t.effects[n].key) else EffectConflict(t.effects[n].key))
    else if EffectKeys(t.effects) !! t.controls.Keys then None
    else Some(MixedKeys(EffectKeys(t.effects) * t.controls.Keys))
  }

  type Outcome<V> = (BranchLedger<V>, Reply)

  function Fence<V>(l: BranchLedger<V>, token: nat): Reply {
    Refused(Fenced(token, l.issued))
  }

  /** `start`: running where there was no step, and the answer says whether there was none. */
  function Started<V>(l: BranchLedger<V>, key: string, token: nat): Outcome<V> {
    if Stale(l, token) then (l, Fence(l, token))
    else if key in l.steps then (l, Inserted(false))
    else (l.(steps := l.steps[key := Running]), Inserted(true))
  }

  /** `finish_effect`: running becomes done; a done step answers whether it has that very value. */
  function Finished<V(==)>(l: BranchLedger<V>, key: string, value: V, token: nat): Outcome<V> {
    if Stale(l, token) then (l, Fence(l, token))
    else if key in l.steps && l.steps[key].Running? then (l.(steps := l.steps[key := Done(value)]), Written)
    else if key in l.steps && l.steps[key].value == value then (l, Written)
    else (l, Refused(EffectConflict(key)))
  }

  /** `write_control`: upsert. */
  function ControlWritten<V>(l: BranchLedger<V>, key: string, value: V, token: nat): Outcome<V> {
    if Stale(l, token) then (l, Fence(l, token))
    else (l.(steps := l.steps[key := Done(value)]), Written)
  }

  /** `forget`: no step afterwards, unless it is done. */
  function Forgotten<V>(l: BranchLedger<V>, key: string, token: nat): Outcome<V> {
    if Stale(l, token) then (l, Fence(l, token))
    else if IsDone(l, key) then (l, Written)
    else (l.(steps := l.steps - {key}), Written)
  }

  /** `acquire`: a holder renews, another owner waits for expiry, a takeover moves the token. */
  function Acquired<V>(l: BranchLedger<V>, owner: string, now: real, until: real): Outcome<V> {
    if l.lease.Some? && l.lease.value.owner == owner then
      (l.(lease := Some(Lease(owner, until))), Granted(l.issued))
    else if l.lease.Some? && now < l.lease.value.expires then
      (l, Granted(0))
    else
      (l.(lease := Some(Lease(owner, until)), issued := l.issued + 1), Granted(l.issued + 1))
  }

  function Released<V>(l: BranchLedger<V>, owner: string, now: real): Outcome<V> {
    (if l.lease.Some? && l.lease.value.owner == owner then l.(lease := Some(Lease("", now))) else l, Written)
  }

  function Enqueued<V>(l: BranchLedger<V>, id: string, value: V): Outcome<V> {
    (l.(queue := AppendInput(l.queue, id, value)), Inserted(!HasInput(l.queue, id)))
  }

  function StatusSet<V>(
      l: BranchLedger<V>, ids: seq<string>, to: InputStatus, kept: set<InputStatus>, token: nat): Outcome<V>
  {
    if Stale(l, token) then (l, Fence(l, token))
    else (l.(queue := Marked(l.queue, ids, to, kept)), Written)
  }

  function ClaimSet<V>(l: BranchLedger<V>, id: string, token: nat): Outcome<V> {
    StatusSet(l, [id], Claimed, {Admitted, Discarded}, token)
  }

  function AdmitSet<V>(l: BranchLedger<V>, ids: seq<string>, token: nat): Outcome<V> {
    StatusSet(l, ids, Admitted, {Discarded}, token)
  }

  function DiscardSet<V>(l: BranchLedger<V>, ids: seq<string>, token: nat): Outcome<V> {
    StatusSet(l, ids, Discarded, {}, token)
  }

  function Transitioned<V(==)>(l: BranchLedger<V>, t: Transition<V>, token: nat): Outcome<V> {
    if Stale(l, token) then (l, Fence(l, token))
    else
      match Refusal(l, t)
      case Some(error) => (l, Refused(error))
      case None => (Committed(l, t), NewInputs(FreshInputs(l.queue, t.inputs)))
  }

  /** The eight operations that present a fencing token. */
  predicate IsFenced<V>(op: Op<V>) {
    !op.Acquire? && !op.Release? && !op.Enqueue?
  }

  function Apply<V(==)>(l: BranchLedger<V>, op: Op<V>): Outcome<V> {
    match op
    case Start(key, token) => Started(l, key, token)
    case FinishEffect(key, value, token) => Finished(l, key, value, token)
    case WriteControl(key, value, token) => ControlWritten(l, key, value, token)
    case Forget(key, token) => Forgotten(l, key, token)
    case Acquire(owner, now, until) => Acquired(l, owner, now, until)
    case Release(owner, now) => Released(l, owner, now)
    case Enqueue(id, value) => Enqueued(l, id, value)
    case ClaimInput(id, token) => ClaimSet(l, id, token)
    case AdmitInputs(ids, token) => AdmitSet(l, ids, token)
    case DiscardInputs(ids, token) => DiscardSet(l, ids, token)
    case Commit(t, token) => Transitioned(l, t, token)
  }
}
