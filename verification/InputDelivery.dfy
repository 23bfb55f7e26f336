/**
Delivery: over a whole attempt, at every store call of which others may act, each input is claimed at most
once and in submission order, none that is settled is handed out, and an attempt that ends through the
finish check leaves no input of its last listing behind. One kind of input is: dropped by the screening, and
queued under the empty id.
*/
module InputDelivery {
  import opened Ledger
  import opened LedgerHistory
  import opened Inputs

  // ── one attempt, store call by store call ────────────────────────────────

  datatype Boundary = AtModel(node: Node, policy: Policy) | AtFinish(finished: bool, objects: bool)

  /** Where the attempt stands between two calls. `Rested` is between two boundaries, or at the end. */
  datatype Pc =
    | Rested(turn: Turn)
    | Listing(at: Boundary)
    | Claiming(at: Boundary, listed: seq<Input<Item>>, n: nat, got: seq<Item>)
    | Discarding(at: Boundary, dropped: seq<Item>, items: seq<Item>)
    | Recording(request: Request)
    | Admitting(request: Request)

  predicate IsOver(pc: Pc) {
    pc.Rested? && (pc.turn.Halted? || pc.turn.FencedOut? || pc.turn.Stops?)
  }

  /** What the screening leaves goes into the request. */
  function Entering(at: Boundary, items: seq<Item>): Pc {
    if at.AtFinish? then Rested(Unfinished)
    else Recording(Rewritten(at.node.others, items, if at.policy.Controls? then at.policy.steers else []))
  }

  /** With every listed input looked at: what the boundary makes of the ones it claimed. */
  function Gathered(d: Delivery, at: Boundary, got: seq<Item>): (Delivery, Pc) {
    match at
    case AtFinish(_, objects) =>
      if got != [] then (d.(prefetched := got), Rested(GoesOn))
      else (d, Rested(if objects then GoesOn else Stops))
    case AtModel(node, policy) =>
      var pending := d.prefetched + got;
      var inputs := Typed(node.prompts) + pending;
      var taken := d.(prefetched := []);
      if policy.NoControls? then (taken, Entering(at, inputs))
      else if inputs == [] then (taken, if policy.halts then Rested(Halted) else Entering(at, inputs))
      else if policy.screened.HaltInputs? then (taken, Rested(Halted))
      else
        var items := policy.screened.items;
        var dropped := Dropped(pending, SetOf(Origins(items)));
        if dropped != [] then (taken, Discarding(at, dropped, items))
        else (taken, if policy.halts then Rested(Halted) else Entering(at, items))
  }

  /** One store call, or the turn from one to the next. */
  function Advanced(d: Delivery, token: nat, pc: Pc): (Delivery, Pc) {
    match pc
    case Rested(_) => (d, pc)
    case Listing(at) =>
      if at.AtFinish? && !at.finished then (d, Rested(Unfinished))
      else (d, Claiming(at, d.ledger.queue, 0, []))
    case Claiming(at, listed, n, got) =>
      if n >= |listed| then Gathered(d, at, got)
      else if Skips(listed[n], d.represented, d.seen) then (d, pc.(n := n + 1))
      else
        var (l, reply) := ClaimSet(d.ledger, listed[n].id, token);
        if reply.Refused? then (d.(prefetched := if at.AtModel? then [] else d.prefetched), Rested(FencedOut))
        else (d.(ledger := l, seen := d.seen + {listed[n].id}), Claiming(at, listed, n + 1, got + [listed[n].value]))
    case Discarding(at, dropped, items) =>
      var (l, reply) := DiscardSet(d.ledger, Origins(dropped), token);
      if reply.Refused? then (d, Rested(FencedOut))
      else (d.(ledger := l), if at.AtModel? && at.policy.Controls? && at.policy.halts then Rested(Halted) else Entering(at, items))
    case Recording(request) =>
      (Told(d, request), if request.ids == [] then Rested(Requested(request)) else Admitting(request))
    case Admitting(request) =>
      var (l, reply) := AdmitSet(d.ledger, request.ids, token);
      (d.(ledger := l), Rested(if reply.Refused? then FencedOut else Requested(request)))
  }

  // ── left to itself ───────────────────────────────────────────────────────

  function Rank(pc: Pc): nat {
    match pc
    case Rested(_) => 0
    case Listing(_) => 5
    case Claiming(_, _, _, _) => 4
    case Discarding(_, _, _) => 3
    case Recording(_) => 2
    case Admitting(_) => 1
  }

  function Left(pc: Pc): int {
    if pc.Claiming? then |pc.listed| - pc.n else 0
  }

  /** Nobody else acts before the boundary is passed. */
  function Alone(d: Delivery, token: nat, pc: Pc): (Delivery, Turn)
    decreases Rank(pc), if Left(pc) < 0 then 0 else Left(pc)
  {
    if pc.Rested? then (d, pc.turn)
    else
      var (e, next) := Advanced(d, token, pc);
      Alone(e, token, next)
  }

  lemma AloneStep(d: Delivery, token: nat, pc: Pc)
    requires !pc.Rested?
    ensures var (e, next) := Advanced(d, token, pc);
      && Alone(d, token, pc) == Alone(e, token, next)
      && (next.Rested? ==> Alone(d, token, pc) == (e, next.turn))
  {
    hide Advanced;
  }

  lemma EnteringAlone(d: Delivery, token: nat, at: Boundary, items: seq<Item>)
    requires at.AtModel?
    ensures Alone(d, token, Entering(at, items))
      == Entered(d, token, at.node.others, items, if at.policy.Controls? then at.policy.steers else [])
  {
    hide AdmitSet, Alone, Origins, SetOf;
    var pc := Entering(at, items);
    AloneStep(d, token, pc);
    AloneStep(Told(d, pc.request), token, Admitting(pc.request));
  }

  /** What follows the claims is what the boundary says follows them. */
  lemma ClaimedAlone(d: Delivery, token: nat, node: Node, policy: Policy, got: seq<Item>)
    ensures var at := AtModel(node, policy);
      var (e, pc) := Gathered(d, at, got);
      Alone(e, token, pc) == Judged(d.(prefetched := []), token, node, policy, d.prefetched + got)
  {
    hide Entered, Entering, Dropped, Origins, SetOf, Alone;
    var at := AtModel(node, policy);
    var (e, pc) := Gathered(d, at, got);
    EnteringAlone(e, token, at, Typed(node.prompts) + (d.prefetched + got));
    RestedAlone(e, token);
    if policy.Controls? && policy.screened.Passed? {
      var items := policy.screened.items;
      EnteringAlone(e, token, at, items);
      var dropped := Dropped(d.prefetched + got, SetOf(Origins(items)));
      AloneStep(e, token, Discarding(at, dropped, items));
      EnteringAlone(e.(ledger := DiscardSet(e.ledger, Origins(dropped), token).0), token, at, items);
    }
  }

  lemma RestedAlone(d: Delivery, token: nat)
    ensures forall turn :: Alone(d, token, Rested(turn)) == (d, turn)
  {
  }

  /** The claims one by one are the claims of the session. */
  lemma ClaimingAlone(d: Delivery, e: Delivery, token: nat, at: Boundary, n: nat, ids: seq<string>, got: seq<Item>)
    requires n <= |d.ledger.queue| && UniqueInputs(d.ledger.queue)
    requires Chosen(d.ledger.queue, d.represented, d.seen, n, ids, got) && (ids != [] ==> !Stale(d.ledger, token))
    requires e == d.(ledger := d.ledger.(queue := Marked(d.ledger.queue, ids, InputStatus.Claimed, KEPT)), seen := d.seen + SetOf(ids))
    ensures var (after, items) := ClaimOf(d, token);
      Alone(e, token, Claiming(at, d.ledger.queue, n, got)) ==
        if items.Some? then
          var (next, pc) := Gathered(after, at, items.value);
          Alone(next, token, pc)
        else (after.(prefetched := if at.AtModel? then [] else d.prefetched), FencedOut)
    decreases |d.ledger.queue| - n
  {
    hide Alone, Gathered, Chosen, Marked, SetOf, ClaimOf, UniqueInputs;
    var queue := d.ledger.queue;
    var pc := Claiming(at, queue, n, got);
    AloneStep(e, token, pc);
    ClaimKeeps(d, token);
    if n == |queue| {
      ClaimDone(d, token, ids, got);
    } else {
      ChooseOne(queue, d.represented, d.seen, n, ids, got);
      ChosenAreOthers(queue, d.represented, d.seen, n, ids, got);
      if Skips(queue[n], d.represented, d.seen) {
        ClaimingAlone(d, e, token, at, n + 1, ids, got);
      } else if Stale(d.ledger, token) {
        NothingWanted(queue, d.represented, d.seen);
        ClaimRefused(d, token, n);
      } else {
        var id := queue[n].id;
        MemoryLedger.MarkedMore(queue, ids, id, InputStatus.Claimed, KEPT);
        SetOfSnoc(ids, id);
        var (l, reply) := ClaimSet(e.ledger, id, token);
        var f := e.(ledger := l, seen := e.seen + {id});
        ClaimingAlone(d, f, token, at, n + 1, ids + [id], got + [queue[n].value]);
      }
    }
  }

  /**
  Left to itself, an attempt passes a boundary as the methods of `TurnBoundary` do: claim, screening and
  admission call by call are the model boundary, and the finish check likewise.
  */
  lemma BoundaryAlone(d: Delivery, token: nat, at: Boundary)
    requires UniqueInputs(d.ledger.queue)
    ensures Alone(d, token, Listing(at)) == if at.AtModel? then Admission(d, token, at.node, at.policy)
      else FinishCheck(d, token, at.finished, at.objects)
  {
    hide Alone, ClaimOf, Screening, Entered, Marked, SetOf;
    AloneStep(d, token, Listing(at));
    RestedAlone(d, token);
    if at.AtModel? || at.finished {
      var (after, items) := ClaimOf(d, token);
      NothingWanted(d.ledger.queue, d.represented, d.seen);
      ClaimingAlone(d, d, token, at, 0, [], []);
      ClaimKeeps(d, token);
      if items.Some? {
        if at.AtModel? {
          ClaimedAlone(after, token, at.node, at.policy, items.value);
        } else {
          var (next, pc) := Gathered(after, at, items.value);
          RestedAlone(next, token);
        }
      }
    }
  }

  // ── among others ─────────────────────────────────────────────────────────

  /** An attempt with the numbers it has claimed, and how far its last listing reached that it went through. */
  datatype Run = Run(d: Delivery, token: nat, pc: Pc, claims: seq<nat>, horizon: nat)

  datatype Event = Begins(at: Boundary) | Own | Others(op: Op<Item>)

  /** Inputs are queued under the id they carry. */
  predicate Honest(op: Op<Item>) {
    match op
    case Enqueue(id, value) => value.origin == Some(id)
    case Commit(t, _) => forall i :: 0 <= i < |t.inputs| ==> t.inputs[i].1.origin == Some(t.inputs[i].0)
    case _ => true
  }

  predicate SetsStatus(op: Op<Item>) {
    op.ClaimInput? || op.AdmitInputs? || op.DiscardInputs?
  }

  /** Others who settle inputs hold a lease of their own, or held one. */
  predicate Leased(r: Run, op: Op<Item>) {
    SetsStatus(op) ==> 0 < op.token <= r.d.ledger.issued && op.token != r.token
  }

  /** Late inputs go to the model before the run can finish. */
  predicate Enabled(r: Run, e: Event) {
    match e
    case Begins(at) => r.pc.Rested? && !IsOver(r.pc) && (at.AtFinish? && at.finished ==> r.d.prefetched == [])
    case Own => !r.pc.Rested?
    case Others(op) => Honest(op) && Leased(r, op)
  }

  /** The step is a claim that the store accepts. */
  predicate Claims(r: Run) {
    && r.pc.Claiming? && r.pc.n < |r.pc.listed|
    && !Skips(r.pc.listed[r.pc.n], r.d.represented, r.d.seen) && !Stale(r.d.ledger, r.token)
  }

  function Stepped(r: Run, e: Event): Run
    requires Enabled(r, e)
  {
    match e
    case Begins(at) => r.(pc := Listing(at))
    case Own =>
      var (d, pc) := Advanced(r.d, r.token, r.pc);
      Run(d, r.token, pc,
        if Claims(r) then r.claims + [r.pc.n] else r.claims,
        if r.pc.Claiming? && r.pc.n >= |r.pc.listed| then |r.pc.listed| else r.horizon)
    case Others(op) => r.(d := r.d.(ledger := Apply(r.d.ledger, op).0))
  }

  ghost predicate IsRun(r: Run, events: seq<Event>)
    decreases |events|
  {
    events != [] ==> Enabled(r, events[0]) && IsRun(Stepped(r, events[0]), events[1..])
  }

  function After(r: Run, events: seq<Event>): Run
    requires IsRun(r, events)
    decreases |events|
  {
    if events == [] then r else After(Stepped(r, events[0]), events[1..])
  }

  /** A leased attempt as it begins, on whatever queue and history it finds. */
  predicate Fresh(r: Run) {
    && r.d.seen == {} && r.d.prefetched == [] && r.claims == [] && r.horizon == 0 && r.pc == Rested(GoesOn)
    && UniqueInputs(r.d.ledger.queue) && Faithful(r.d.ledger.queue)
    && 0 < r.token <= r.d.ledger.issued
  }

  predicate Faithful(queue: seq<Input<Item>>) {
    forall i :: 0 <= i < |queue| ==> queue[i].value.origin == Some(queue[i].id)
  }

  predicate IsSettled(queue: seq<Input<Item>>, id: string) {
    exists i :: 0 <= i < |queue| && queue[i].id == id && IsFinal(queue[i].status)
  }

  lemma GrownKeepsSettled(early: seq<Input<Item>>, late: seq<Input<Item>>, id: string)
    requires QueueGrew(early, late)
    ensures IsSettled(early, id) ==> IsSettled(late, id)
    ensures HasInput(early, id) ==> HasInput(late, id)
  {
  }

  lemma MarkedGrows(queue: seq<Input<Item>>, ids: seq<string>, to: InputStatus, kept: set<InputStatus>)
    requires forall s: InputStatus :: s !in kept ==> s.Rank() <= to.Rank()
    ensures var after := Marked(queue, ids, to, kept);
      QueueGrew(queue, after) && |after| == |queue| && (UniqueInputs(queue) ==> UniqueInputs(after))
      && (Faithful(queue) ==> Faithful(after))
  {
  }

  lemma MarkedSettles(queue: seq<Input<Item>>, ids: seq<string>, to: InputStatus, kept: set<InputStatus>, id: string)
    requires IsFinal(to) && kept <= {Discarded} && id in ids && HasInput(queue, id)
    ensures IsSettled(Marked(queue, ids, to, kept), id)
  {
    var i :| 0 <= i < |queue| && queue[i].id == id;
    var after := Marked(queue, ids, to, kept);
    assert after[i].id == id && IsFinal(after[i].status);
  }

  lemma {:induction false} OriginsAre(items: seq<Item>)
    ensures forall id :: id in Origins(items) <==> exists i :: 0 <= i < |items| && items[i].origin == Some(id)
  {
    if items != [] {
      var n := |items| - 1;
      OriginsAre(items[..n]);
      forall id
        ensures id in Origins(items) <==> exists i :: 0 <= i < |items| && items[i].origin == Some(id)
      {
        if i :| 0 <= i < n && items[..n][i].origin == Some(id) {
          assert items[i].origin == Some(id);
        }
        if i :| 0 <= i < |items| && items[i].origin == Some(id) {
          assert i < n ==> items[..n][i].origin == Some(id);
        }
      }
    }
  }

  lemma OriginsOfBoth(a: seq<Item>, b: seq<Item>, id: string)
    ensures id in Origins(a + b) <==> id in Origins(a) || id in Origins(b)
  {
    OriginsAre(a);
    OriginsAre(b);
    OriginsAre(a + b);
    if i :| 0 <= i < |a| && a[i].origin == Some(id) {
      assert (a + b)[i].origin == Some(id);
    }
    if i :| 0 <= i < |b| && b[i].origin == Some(id) {
      assert (a + b)[|a| + i].origin == Some(id);
    }
    if i :| 0 <= i < |a + b| && (a + b)[i].origin == Some(id) {
      assert if i < |a| then a[i].origin == Some(id) else b[i - |a|].origin == Some(id);
    }
  }

  lemma {:induction false} DroppedAre(pending: seq<Item>, surviving: set<string>)
    ensures forall id :: id in Origins(Dropped(pending, surviving)) <==>
      id in Origins(pending) && id != "" && id !in surviving
  {
    if pending != [] {
      var n := |pending| - 1;
      DroppedAre(pending[..n], surviving);
      var before := Dropped(pending[..n], surviving);
      assert (before + [pending[n]])[..|before|] == before;
      assert before + [] == before;
    }
  }

  /** The queue as others leave it: grown, by inputs that carry their own ids. */
  lemma {:induction false} AppendKeepsFaith(queue: seq<Input<Item>>, inputs: seq<(string, Item)>)
    requires Faithful(queue) && forall i :: 0 <= i < |inputs| ==> inputs[i].1.origin == Some(inputs[i].0)
    ensures Faithful(AppendInputs(queue, inputs))
    decreases |inputs|
  {
    if inputs != [] {
      AppendKeepsFaith(AppendInput(queue, inputs[0].0, inputs[0].1), inputs[1..]);
    }
  }

  lemma OthersKeepFaith(l: BranchLedger<Item>, op: Op<Item>)
    requires Honest(op) && Faithful(l.queue)
    ensures Faithful(Apply(l, op).0.queue)
  {
    match op
    case Commit(t, _) => AppendKeepsFaith(l.queue, t.inputs);
    case _ =>
  }

  // ── what every step keeps ────────────────────────────────────────────────

  lemma GrewTwice(a: seq<Input<Item>>, b: seq<Input<Item>>, c: seq<Input<Item>>)
    requires QueueGrew(a, b) && QueueGrew(b, c)
    ensures QueueGrew(a, c)
  {
  }

  lemma SelfGrew(queue: seq<Input<Item>>)
    ensures QueueGrew(queue, queue)
  {
  }

  /** The ids claimed and not yet settled, beside the prefetched ones. */
  function InHand(pc: Pc): seq<string> {
    match pc
    case Claiming(_, _, _, got) => Origins(got)
    case Discarding(_, dropped, items) => Origins(dropped) + Origins(items)
    case Recording(request) => request.ids
    case Admitting(request) => request.ids
    case _ => []
  }

  /** The ledger and the attempt fit. */
  ghost predicate Sane(r: Run) {
    && UniqueInputs(r.d.ledger.queue) && Faithful(r.d.ledger.queue)
    && 0 < r.token <= r.d.ledger.issued
    && (forall id :: id in r.d.seen ==> HasInput(r.d.ledger.queue, id))
    && (r.pc.Discarding? ==> r.pc.at.AtModel?)
    && (r.pc.Claiming? || r.pc.Listing? ==> (r.pc.at.AtFinish? && r.pc.at.finished ==> r.d.prefetched == []))
    && (r.pc.Claiming? && r.pc.at.AtFinish? ==> r.pc.at.finished)
  }

  /** Up to the horizon nothing is left to claim. */
  ghost predicate Passed(r: Run) {
    && r.horizon <= |r.d.ledger.queue|
    && (forall p :: 0 <= p < r.horizon ==> Skips(r.d.ledger.queue[p], r.d.represented, r.d.seen))
  }

  /**
  While it goes through a listing: the queue has only grown since, nothing is left to claim before the
  record at hand, and as long as the token is the newest the records behind it are as they were listed.
  */
  ghost predicate Listed(r: Run) {
    r.pc.Claiming? ==>
      && r.horizon <= |r.pc.listed| && r.pc.n <= |r.pc.listed|
      && QueueGrew(r.pc.listed, r.d.ledger.queue)
      && (forall p :: 0 <= p < r.horizon ==> Skips(r.pc.listed[p], r.d.represented, r.d.seen))
      && (forall p :: 0 <= p < r.pc.n ==> Skips(r.d.ledger.queue[p], r.d.represented, r.d.seen))
      && (!Stale(r.d.ledger, r.token) ==>
        forall p :: r.pc.n <= p < |r.pc.listed| ==> r.d.ledger.queue[p].status == r.pc.listed[p].status)
  }

  function Mark(r: Run): nat {
    if r.pc.Claiming? && r.pc.n > r.horizon then r.pc.n else r.horizon
  }

  /** The claims rise. */
  ghost predicate Ordered(r: Run) {
    && (forall i, j :: 0 <= i < j < |r.claims| ==> r.claims[i] < r.claims[j])
    && (!IsOver(r.pc) ==> Within(r.claims, Mark(r)))
  }

  /** What was claimed is in hand or settled, or was dropped without a name; unless the run broke off. */
  ghost predicate Accounted(r: Run) {
    !(IsOver(r.pc) && !r.pc.turn.Stops?) ==> forall id :: id in r.d.seen ==>
      id == "" || id in Origins(r.d.prefetched) || id in InHand(r.pc) || IsSettled(r.d.ledger.queue, id)
  }

  /** A stop leaves nothing in hand. */
  ghost predicate Clean(r: Run) {
    r.pc == Rested(Stops) ==> r.d.prefetched == []
  }

  ghost predicate Inv(r: Run) {
    Sane(r) && Passed(r) && Listed(r) && Ordered(r) && Accounted(r) && Clean(r)
  }

  // ── others act ───────────────────────────────────────────────────────────

  /** While a token is the newest, the holders of other tokens settle nothing. */
  lemma NewestIsAlone(l: BranchLedger<Item>, op: Op<Item>, token: nat)
    requires 0 < token <= l.issued && !Stale(Apply(l, op).0, token)
    requires SetsStatus(op) ==> 0 < op.token <= l.issued && op.token != token
    ensures !Stale(l, token)
    ensures |l.queue| <= |Apply(l, op).0.queue|
    ensures forall p :: 0 <= p < |l.queue| ==> Apply(l, op).0.queue[p].status == l.queue[p].status
  {
    hide Marked, Refusal, Completed;
    IssuedStep(l, op);
    match op
    case Commit(t, _) => AppendInputsGrows(l.queue, t.inputs);
    case _ =>
  }

  lemma GrownKeepsSkips(early: seq<Input<Item>>, late: seq<Input<Item>>, represented: set<string>, seen: set<string>)
    requires QueueGrew(early, late)
    ensures forall p :: 0 <= p < |early| && Skips(early[p], represented, seen) ==> Skips(late[p], represented, seen)
  {
  }

  lemma OthersKeep(r: Run, op: Op<Item>)
    requires Inv(r) && Enabled(r, Others(op))
    ensures Inv(Stepped(r, Others(op)))
  {
    hide Apply, UniqueInputs, Faithful, QueueGrew, Skips, IsSettled, HasInput, InHand, Origins;
    var l, m := r.d.ledger, Apply(r.d.ledger, op).0;
    QueueStep(l, op);
    IssuedStep(l, op);
    OthersKeepFaith(l, op);
    GrewMeans(l.queue, m.queue);
    GrownKeepsSkips(l.queue, m.queue, r.d.represented, r.d.seen);
    if r.pc.Claiming? {
      GrewTwice(r.pc.listed, l.queue, m.queue);
      GrewMeans(r.pc.listed, l.queue);
      if !Stale(m, r.token) {
        NewestIsAlone(l, op, r.token);
      }
    }
    forall id
      ensures IsSettled(l.queue, id) ==> IsSettled(m.queue, id)
      ensures HasInput(l.queue, id) ==> HasInput(m.queue, id)
    {
      GrownKeepsSettled(l.queue, m.queue, id);
    }
  }

  lemma GrewMeans(a: seq<Input<Item>>, b: seq<Input<Item>>)
    requires QueueGrew(a, b)
    ensures |a| <= |b|
  {
  }

  // ── the attempt acts ─────────────────────────────────────────────────────

  /** A status mark keeps the queue sane, and what was settled settled. */
  lemma MarkKeeps(queue: seq<Input<Item>>, ids: seq<string>, to: InputStatus, kept: set<InputStatus>)
    requires (to == Admitted && kept == {Discarded}) || (to == Discarded && kept == {}) || (to == InputStatus.Claimed && kept == KEPT)
    ensures var after := Marked(queue, ids, to, kept);
      && |after| == |queue| && QueueGrew(queue, after)
      && (UniqueInputs(queue) ==> UniqueInputs(after)) && (Faithful(queue) ==> Faithful(after))
      && (forall id :: IsSettled(queue, id) ==> IsSettled(after, id))
      && (forall id :: HasInput(queue, id) ==> HasInput(after, id))
      && (IsFinal(to) ==> forall id :: id in ids && HasInput(queue, id) ==> IsSettled(after, id))
  {
    hide IsSettled, HasInput, UniqueInputs, Faithful, QueueGrew, Marked;
    var after := Marked(queue, ids, to, kept);
    MarkedGrows(queue, ids, to, kept);
    forall id
      ensures IsSettled(queue, id) ==> IsSettled(after, id)
      ensures HasInput(queue, id) ==> HasInput(after, id)
      ensures IsFinal(to) && id in ids && HasInput(queue, id) ==> IsSettled(after, id)
    {
      GrownKeepsSettled(queue, after, id);
      if IsFinal(to) && id in ids && HasInput(queue, id) {
        MarkedSettles(queue, ids, to, kept, id);
      }
    }
  }

  /** The ledger was marked and the attempt went on, claiming nothing: everything but the hand is kept. */
  lemma RestKeeps(r: Run, r': Run)
    requires Sane(r) && Passed(r) && Ordered(r) && Listed(r)
    requires QueueGrew(r.d.ledger.queue, r'.d.ledger.queue) && |r'.d.ledger.queue| == |r.d.ledger.queue|
    requires UniqueInputs(r'.d.ledger.queue) && Faithful(r'.d.ledger.queue)
    requires forall id :: HasInput(r.d.ledger.queue, id) ==> HasInput(r'.d.ledger.queue, id)
    requires r'.d.ledger.issued == r.d.ledger.issued && r'.token == r.token
    requires r'.d.seen == r.d.seen && r.d.represented <= r'.d.represented
    requires !IsOver(r.pc)
    requires r'.claims == r.claims && r'.horizon == r.horizon && !r.pc.Claiming? && !r'.pc.Claiming? && !r'.pc.Listing?
    requires r'.pc.Discarding? ==> r'.pc.at.AtModel?
    ensures Sane(r') && Passed(r') && Ordered(r') && Listed(r')
  {
    hide HasInput, UniqueInputs, Faithful, Skips, QueueGrew;
    GrownKeepsSkips(r.d.ledger.queue, r'.d.ledger.queue, r.d.represented, r.d.seen);
    MoreRepresented(r'.d.ledger.queue, r.d.represented, r'.d.represented, r.d.seen);
  }

  lemma MoreRepresented(queue: seq<Input<Item>>, fewer: set<string>, more: set<string>, seen: set<string>)
    requires fewer <= more
    ensures forall p :: 0 <= p < |queue| && Skips(queue[p], fewer, seen) ==> Skips(queue[p], more, seen)
  {
  }

  lemma ListingKeeps(r: Run)
    requires Inv(r) && r.pc.Listing?
    ensures Inv(Stepped(r, Own))
  {
    hide IsSettled, HasInput, UniqueInputs, Faithful, Skips, Marked;
    SelfGrew(r.d.ledger.queue);
    assert Origins([]) == [];
  }

  lemma SkipKeeps(r: Run)
    requires Inv(r) && r.pc.Claiming? && r.pc.n < |r.pc.listed|
    requires Skips(r.pc.listed[r.pc.n], r.d.represented, r.d.seen)
    ensures Inv(Stepped(r, Own))
  {
    hide IsSettled, HasInput, UniqueInputs, Faithful, Marked, Origins;
    GrownKeepsSkips(r.pc.listed, r.d.ledger.queue, r.d.represented, r.d.seen);
    GrewMeans(r.pc.listed, r.d.ledger.queue);
  }

  /** One accepted claim: the record at hand is marked, and nothing else moves. */
  lemma ClaimMarks(queue: seq<Input<Item>>, n: nat)
    requires n < |queue| && UniqueInputs(queue)
    ensures var after := Marked(queue, [queue[n].id], InputStatus.Claimed, KEPT);
      && |after| == |queue| && (forall p :: 0 <= p < |queue| ==> after[p].id == queue[p].id)
      && (forall p :: n < p < |queue| ==> after[p] == queue[p])
  {
    forall p | n < p < |queue|
      ensures queue[p].id != queue[n].id
    {
    }
  }

  lemma OriginsSnoc(items: seq<Item>, item: Item)
    ensures Origins(items + [item]) == Origins(items) + (if item.origin.Some? then [item.origin.value] else [])
  {
    assert (items + [item])[..|items|] == items;
  }

  lemma ClaimKeepsRun(r: Run)
    requires Inv(r) && Claims(r)
    ensures Inv(Stepped(r, Own))
  {
    hide IsSettled, HasInput, UniqueInputs, Faithful, QueueGrew, Marked, Origins, Skips;
    var queue, n := r.d.ledger.queue, r.pc.n;
    var id := r.pc.listed[n].id;
    SameRecord(r.pc.listed, queue, n);
    var after := Marked(queue, [id], InputStatus.Claimed, KEPT);
    ClaimMarks(queue, n);
    MarkKeeps(queue, [id], InputStatus.Claimed, KEPT);
    GrewTwice(r.pc.listed, queue, after);
    GrownKeepsSkips(queue, after, r.d.represented, r.d.seen);
    MoreSeen(after, r.d.represented, r.d.seen, id);
    MoreSeen(r.pc.listed, r.d.represented, r.d.seen, id);
    NowSeen(after[n], r.d.represented, r.d.seen + {id});
    QueuedHere(queue, n);
    OriginsSnoc(r.pc.got, r.pc.listed[n].value);
    ClaimedIsBeyond(r);
  }

  lemma SameRecord(listed: seq<Input<Item>>, queue: seq<Input<Item>>, n: nat)
    requires QueueGrew(listed, queue) && n < |listed| && Faithful(queue)
    ensures n < |queue| && queue[n].id == listed[n].id && listed[n].value.origin == Some(listed[n].id)
  {
  }

  lemma MoreSeen(queue: seq<Input<Item>>, represented: set<string>, seen: set<string>, id: string)
    ensures forall p :: 0 <= p < |queue| && Skips(queue[p], represented, seen) ==> Skips(queue[p], represented, seen + {id})
  {
  }

  lemma NowSeen(input: Input<Item>, represented: set<string>, seen: set<string>)
    requires input.id in seen
    ensures Skips(input, represented, seen)
  {
  }

  lemma QueuedHere(queue: seq<Input<Item>>, n: nat)
    requires n < |queue|
    ensures HasInput(queue, queue[n].id)
  {
  }

  /** Nothing before the horizon is claimed again. */
  lemma ClaimedIsBeyond(r: Run)
    requires Listed(r) && Claims(r)
    ensures r.horizon <= r.pc.n
  {
  }

  lemma RefusedKeeps(r: Run)
    requires Inv(r) && r.pc.Claiming? && r.pc.n < |r.pc.listed|
    requires !Skips(r.pc.listed[r.pc.n], r.d.represented, r.d.seen) && Stale(r.d.ledger, r.token)
    ensures Inv(Stepped(r, Own))
  {
    hide IsSettled, HasInput, UniqueInputs, Faithful, QueueGrew, Marked, Origins;
    ClaimedIsOpen(r);
  }

  lemma ClaimedIsOpen(r: Run)
    requires Listed(r) && r.pc.Claiming? && r.pc.n < |r.pc.listed| && !Skips(r.pc.listed[r.pc.n], r.d.represented, r.d.seen)
    ensures r.horizon <= r.pc.n
  {
  }

  /** The listing is gone through: what is in hand goes on, to the controls or to the next boundary. */
  lemma ClaimedKeeps(r: Run)
    requires Inv(r) && r.pc.Claiming? && r.pc.n >= |r.pc.listed|
    ensures Inv(Stepped(r, Own))
  {
    hide IsSettled, HasInput, UniqueInputs, Faithful, QueueGrew, Skips, Origins, Dropped, Rewritten, Gathered, SetOf;
    GrewMeans(r.pc.listed, r.d.ledger.queue);
    HandKept(r.d, r.pc.at, r.pc.got);
    ClaimedIs(r.d, r.pc.at, r.pc.got);
  }

  lemma ClaimedIs(d: Delivery, at: Boundary, got: seq<Item>)
    requires at.AtFinish? ==> at.finished && d.prefetched == []
    ensures var (e, pc) := Gathered(d, at, got);
      && e == d.(prefetched := e.prefetched)
      && !pc.Claiming? && !pc.Listing? && (pc.Discarding? ==> pc.at.AtModel?)
      && (pc == Rested(Stops) ==> e.prefetched == [])
  {
    hide Origins, Dropped, SetOf, Rewritten;
  }

  /** Of what was in hand, only a nameless item gets out of it here. */
  lemma HandKept(d: Delivery, at: Boundary, got: seq<Item>)
    requires at.AtFinish? ==> at.finished && d.prefetched == []
    ensures var (e, pc) := Gathered(d, at, got);
      (IsOver(pc) && !pc.turn.Stops?) || (forall id :: id in Origins(d.prefetched) || id in Origins(got) ==>
        id == "" || id in Origins(e.prefetched) || id in InHand(pc))
  {
    hide Origins, Dropped, SetOf;
    forall id
      ensures id in Origins(d.prefetched) || id in Origins(got) <==> id in Origins(d.prefetched + got)
    {
      OriginsOfBoth(d.prefetched, got, id);
    }
    if at.AtModel? {
      var pending := d.prefetched + got;
      forall id
        ensures id in Origins(pending) ==> id in Origins(Typed(at.node.prompts) + pending)
      {
        OriginsOfBoth(Typed(at.node.prompts), pending, id);
      }
      if at.policy.Controls? && at.policy.screened.Passed? {
        DroppedAre(pending, SetOf(Origins(at.policy.screened.items)));
        InSet(Origins(at.policy.screened.items));
        NothingDropped(pending, SetOf(Origins(at.policy.screened.items)));
      }
      NoInputs(Typed(at.node.prompts), pending);
    } else {
      NoOrigins();
    }
  }

  lemma InSet(ids: seq<string>)
    ensures forall id :: id in SetOf(ids) <==> id in ids
  {
  }

  lemma NothingDropped(pending: seq<Item>, surviving: set<string>)
    ensures Dropped(pending, surviving) == [] ==> forall id :: id !in Origins(Dropped(pending, surviving))
  {
  }

  lemma NoInputs(prompts: seq<Item>, pending: seq<Item>)
    ensures prompts + pending == [] ==> forall id :: id !in Origins(pending)
  {
  }

  lemma NoOrigins()
    ensures Origins([]) == []
  {
  }

  lemma DiscardingKeeps(r: Run)
    requires Inv(r) && r.pc.Discarding?
    ensures Inv(Stepped(r, Own))
  {
    hide IsSettled, HasInput, UniqueInputs, Faithful, QueueGrew, Marked, Origins, Rewritten, Skips, Stale;
    var ids := Origins(r.pc.dropped);
    SelfGrew(r.d.ledger.queue);
    MarkKeeps(r.d.ledger.queue, ids, Discarded, {});
    RewrittenIds(r.pc.at, r.pc.items);
    RestKeeps(r, Stepped(r, Own));
  }

  lemma RewrittenIds(at: Boundary, items: seq<Item>)
    ensures at.AtModel? ==> Entering(at, items).Recording? && InHand(Entering(at, items)) == Origins(items)
  {
  }

  lemma RecordingKeeps(r: Run)
    requires Inv(r) && r.pc.Recording?
    ensures Inv(Stepped(r, Own))
  {
    hide IsSettled, HasInput, UniqueInputs, Faithful, QueueGrew, Skips, Origins, SetOf;
    SelfGrew(r.d.ledger.queue);
    RestKeeps(r, Stepped(r, Own));
  }

  lemma AdmittingKeeps(r: Run)
    requires Inv(r) && r.pc.Admitting?
    ensures Inv(Stepped(r, Own))
  {
    hide IsSettled, HasInput, UniqueInputs, Faithful, QueueGrew, Marked, Skips, Stale, Origins;
    SelfGrew(r.d.ledger.queue);
    MarkKeeps(r.d.ledger.queue, r.pc.request.ids, Admitted, {Discarded});
    RestKeeps(r, Stepped(r, Own));
  }

  lemma BeginningKeeps(r: Run, at: Boundary)
    requires Inv(r) && Enabled(r, Begins(at))
    ensures Inv(Stepped(r, Begins(at)))
  {
    hide IsSettled, HasInput, UniqueInputs, Faithful, Skips, Origins;
  }

  lemma StepKeeps(r: Run, e: Event)
    requires Inv(r) && Enabled(r, e)
    ensures Inv(Stepped(r, e))
  {
    hide Inv, Stepped, Skips, Stale;
    match e
    case Begins(at) => BeginningKeeps(r, at);
    case Others(op) => OthersKeep(r, op);
    case Own =>
      match r.pc
      case Listing(_) => ListingKeeps(r);
      case Claiming(_, listed, n, _) =>
        if n >= |listed| {
          ClaimedKeeps(r);
        } else if Skips(listed[n], r.d.represented, r.d.seen) {
          SkipKeeps(r);
        } else if Stale(r.d.ledger, r.token) {
          RefusedKeeps(r);
        } else {
          ClaimKeepsRun(r);
        }
      case Discarding(_, _, _) => DiscardingKeeps(r);
      case Recording(_) => RecordingKeeps(r);
      case Admitting(_) => AdmittingKeeps(r);
  }

  lemma {:induction false} RunKeeps(r: Run, events: seq<Event>)
    requires Inv(r) && IsRun(r, events)
    ensures Inv(After(r, events))
    decreases |events|
  {
    hide Inv, Stepped, Enabled;
    if events != [] {
      StepKeeps(r, events[0]);
      RunKeeps(Stepped(r, events[0]), events[1..]);
    }
  }

  lemma FreshInv(r: Run)
    requires Fresh(r)
    ensures Inv(r)
  {
  }

  // ── the results ──────────────────────────────────────────────────────────

  /**
  Over the whole attempt, whatever others do between any two of its store calls, the numbers it claims
  rise: each input is claimed at most once, in submission order, across all its boundaries.
  */
  lemma ClaimedOnceInOrder(r: Run, events: seq<Event>, i: nat, j: nat)
    requires Fresh(r) && IsRun(r, events) && i < j < |After(r, events).claims|
    ensures After(r, events).claims[i] < After(r, events).claims[j]
  {
    hide Inv, IsRun, After, Fresh;
    FreshInv(r);
    RunKeeps(r, events);
    InvOrders(After(r, events));
  }

  lemma InvOrders(r: Run)
    requires Inv(r)
    ensures Ordered(r) && Sane(r) && Passed(r) && Listed(r) && Accounted(r) && Clean(r)
  {
  }

  /**
  At the moment a claim is accepted the input is not admitted, not discarded, not represented and not
  claimed before: the listing it was seen in still tells the truth about it.
  */
  lemma ClaimsOnlyOpen(r: Run, events: seq<Event>)
    requires Fresh(r) && IsRun(r, events) && Claims(After(r, events))
    ensures var now := After(r, events);
      && now.pc.n < |now.d.ledger.queue|
      && now.d.ledger.queue[now.pc.n].id == now.pc.listed[now.pc.n].id
      && !Skips(now.d.ledger.queue[now.pc.n], now.d.represented, now.d.seen)
  {
    hide Inv, IsRun, After, Fresh;
    FreshInv(r);
    RunKeeps(r, events);
    InvOrders(After(r, events));
  }

  /**
  Leased writers are needed: at every claim that any attempt makes, a writer that skips the fence can settle the
  input after it was listed, and the attempt hands it out all the same.
  */
  lemma UnleasedWriterSlipsIn(r: Run, events: seq<Event>)
    requires Fresh(r) && IsRun(r, events) && Claims(After(r, events))
    ensures var now := After(r, events);
      var n := now.pc.n;
      && n < |now.d.ledger.queue| && !IsFinal(now.d.ledger.queue[n].status)
      && var slipped := now.(d := now.d.(ledger := Apply(now.d.ledger, AdmitInputs([now.pc.listed[n].id], 0)).0));
        && slipped.d.ledger.queue[n] == now.d.ledger.queue[n].(status := Admitted)
        && Stepped(slipped, Own).pc == Claiming(now.pc.at, now.pc.listed, n + 1, now.pc.got + [now.pc.listed[n].value])
        && Stepped(slipped, Own).d.ledger == slipped.d.ledger
  {
    hide IsRun, After, Fresh;
    ClaimsOnlyOpen(r, events);
    var now := After(r, events);
    AdmittedStays(now.d.ledger, now.pc.listed[now.pc.n].id, now.token);
  }

  /** A claim leaves an admitted input as it is. */
  lemma AdmittedStays(l: BranchLedger<Item>, id: string, token: nat)
    ensures var admitted := AdmitSet(l, [id], 0).0;
      ClaimSet(admitted, id, token).0 == admitted
  {
    var admitted := AdmitSet(l, [id], 0).0;
    assert Marked(admitted.queue, [id], InputStatus.Claimed, KEPT) == admitted.queue;
  }

  /**
  An attempt that stopped through the finish check left nothing behind, and nothing anybody does later
  brings it back: every input of its last listing is admitted, discarded or represented in the history, save
  one queued under the empty id.
  */
  lemma FinishDelivers(r: Run, events: seq<Event>, p: nat)
    requires Fresh(r) && IsRun(r, events)
    requires After(r, events).pc == Rested(Stops) && p < After(r, events).horizon
    ensures var end := After(r, events);
      && p < |end.d.ledger.queue|
      && var input := end.d.ledger.queue[p];
        IsFinal(input.status) || input.id in end.d.represented || (input.id == "" && "" in end.d.seen)
  {
    hide Inv, IsRun, After, Fresh, Origins;
    FreshInv(r);
    RunKeeps(r, events);
    var end := After(r, events);
    InvOrders(end);
    NoOrigins();
    if IsSettled(end.d.ledger.queue, end.d.ledger.queue[p].id) {
      UniqueSettled(end.d.ledger.queue, p);
    }
  }

  /** The boundary begun last, or `before` if none was. */
  function LastBegun(events: seq<Event>, before: Option<Boundary>): Option<Boundary>
    decreases |events|
  {
    if events == [] then before
    else LastBegun(events[1..], if events[0].Begins? then Some(events[0].at) else before)
  }

  /** The attempt is at this boundary; and it stopped only if the verifier of a finished round had no objection. */
  predicate IsUnder(r: Run, begun: Option<Boundary>) {
    && (r.pc.Listing? || r.pc.Claiming? ==> begun == Some(r.pc.at))
    && (r.pc == Rested(Stops) ==> begun == Some(AtFinish(true, false)))
  }

  lemma {:induction false} StaysUnder(r: Run, events: seq<Event>, begun: Option<Boundary>)
    requires Inv(r) && IsUnder(r, begun) && IsRun(r, events)
    ensures IsUnder(After(r, events), LastBegun(events, begun))
    decreases |events|
  {
    hide Inv, Enabled, Stepped, IsUnder;
    if events != [] {
      StepUnder(r, events[0], begun);
      StepKeeps(r, events[0]);
      StaysUnder(Stepped(r, events[0]), events[1..], if events[0].Begins? then Some(events[0].at) else begun);
    }
  }

  lemma StepUnder(r: Run, e: Event, begun: Option<Boundary>)
    requires Inv(r) && IsUnder(r, begun) && Enabled(r, e)
    ensures IsUnder(Stepped(r, e), if e.Begins? then Some(e.at) else begun)
  {
    hide Passed, Listed, Ordered, Accounted, UniqueInputs, Faithful, HasInput, Skips, Apply, ClaimSet, DiscardSet, AdmitSet, Dropped, SetOf, Rewritten;
  }

  /** A run stops at a finish check only, of a round that finished, and when the verifier did not object. */
  lemma StopsUnopposed(r: Run, events: seq<Event>)
    requires Fresh(r) && IsRun(r, events) && After(r, events).pc == Rested(Stops)
    ensures LastBegun(events, None) == Some(AtFinish(true, false))
  {
    hide Inv, IsRun, After;
    FreshInv(r);
    StaysUnder(r, events, None);
  }

  lemma UniqueSettled(queue: seq<Input<Item>>, p: nat)
    requires UniqueInputs(queue) && p < |queue| && IsSettled(queue, queue[p].id)
    ensures IsFinal(queue[p].status)
  {
    var i :| 0 <= i < |queue| && queue[i].id == queue[p].id && IsFinal(queue[i].status);
    assert i == p;
  }

  /**
  Why the empty id is special, for every screening: an input it takes out is discarded exactly if its
  id is not empty.
  */
  lemma DroppedIsDiscarded(
      d: Delivery, token: nat, others: seq<Payload>, pending: seq<Item>, screened: seq<Item>, steers: seq<Payload>, p: nat)
    requires p < |d.ledger.queue| && !IsFinal(d.ledger.queue[p].status)
    requires d.ledger.queue[p].id in Origins(pending) && d.ledger.queue[p].id !in Origins(screened)
    requires Screening(d, token, others, pending, screened, false, steers).1.Requested?
    ensures var after := Screening(d, token, others, pending, screened, false, steers).0;
      after.ledger.queue[p].status == if d.ledger.queue[p].id != "" then Discarded else d.ledger.queue[p].status
  {
    hide Origins, Parts;
    DroppedAre(pending, SetOf(Origins(screened)));
    DroppedNone(pending, SetOf(Origins(screened)));
  }

  lemma {:induction false} OneStepMore(r: Run, events: seq<Event>, e: Event)
    requires IsRun(r, events) && Enabled(After(r, events), e)
    ensures IsRun(r, events + [e]) && After(r, events + [e]) == Stepped(After(r, events), e)
    decreases |events|
  {
    hide Enabled, Stepped;
    if events != [] {
      assert (events + [e])[1..] == events[1..] + [e];
      OneStepMore(Stepped(r, events[0]), events[1..], e);
    } else {
      assert (events + [e])[1..] == [];
    }
  }

  const DROPPING := AtModel(Node([], []), Controls(Screened.Passed([]), false, []))
  const FINISHING := AtFinish(true, false)

  /** The screening takes out the only input, and the run finishes at once. */
  const DROPS_ALL: seq<Event> := [Begins(DROPPING), Own, Own, Own, Own, Begins(FINISHING), Own, Own, Own]

  /** A turn at the model whose screening drops an input without a name: claimed, and then in no request. */
  lemma DropsNameless(r: Run, item: Item)
    requires Fresh(r) && r.token == r.d.ledger.issued && r.d.represented == {} && item.origin == Some("")
    requires r.d.ledger.queue == [Input("", Pending, item)]
    ensures IsRun(r, DROPS_ALL[..5])
    ensures var end := After(r, DROPS_ALL[..5]);
      && end.pc == Rested(Requested(Request([], []))) && end.d.seen == {""} && end.horizon == 1 && end.token == r.token
      && end.d.ledger == r.d.ledger.(queue := [Input("", InputStatus.Claimed, item)])
      && end.d.represented == {} && end.d.prefetched == []
  {
    hide IsRun, After, Stepped, Marked, UniqueInputs, Faithful;
    var r2 := r.(pc := Claiming(DROPPING, r.d.ledger.queue, 0, []));
    ListsAll(r);
    ClaimsNameless(r2, item);
    LeavesNameless(Stepped(r2, Own), item);
    FirstStep(r, DROPS_ALL[0]);
    assert DROPS_ALL[..1] == [DROPS_ALL[0]];
    DropsOn(r, 1);
    DropsOn(r, 2);
    DropsOn(r, 3);
    DropsOn(r, 4);
  }

  lemma DropsOn(r: Run, i: nat)
    requires i < |DROPS_ALL| && IsRun(r, DROPS_ALL[..i]) && Enabled(After(r, DROPS_ALL[..i]), DROPS_ALL[i])
    ensures IsRun(r, DROPS_ALL[..i + 1])
    ensures After(r, DROPS_ALL[..i + 1]) == Stepped(After(r, DROPS_ALL[..i]), DROPS_ALL[i])
  {
    hide IsRun, After, Stepped, Enabled;
    assert DROPS_ALL[..i] + [DROPS_ALL[i]] == DROPS_ALL[..i + 1];
    OneStepMore(r, DROPS_ALL[..i], DROPS_ALL[i]);
  }

  lemma ListsAll(r: Run)
    requires Enabled(r, Begins(DROPPING))
    ensures Stepped(r, Begins(DROPPING)) == r.(pc := Listing(DROPPING))
    ensures Stepped(r.(pc := Listing(DROPPING)), Own) == r.(pc := Claiming(DROPPING, r.d.ledger.queue, 0, []))
  {
  }

  lemma LeavesNameless(r: Run, item: Item)
    requires r.d.prefetched == [] && item.origin == Some("")
    requires r.pc.Claiming? && r.pc.at == DROPPING && r.pc.n == |r.pc.listed| == 1 && r.pc.got == [item]
    ensures Stepped(r, Own) == r.(pc := Recording(Request([], [])), horizon := 1)
    ensures var asked := Stepped(Stepped(r, Own), Own);
      && asked.pc == Rested(Requested(Request([], []))) && asked.horizon == 1 && asked.token == r.token
      && asked.d.ledger == r.d.ledger && asked.d.seen == r.d.seen && asked.d.represented == r.d.represented
      && asked.d.prefetched == []
  {
    hide Gathered;
    NamelessStays(r.d, item);
    assert SetOf([]) == {};
  }

  lemma ClaimsNameless(r: Run, item: Item)
    requires r.pc == Claiming(DROPPING, r.d.ledger.queue, 0, []) && r.d.ledger.queue == [Input("", Pending, item)]
    requires r.d.represented == {} && r.d.seen == {} && r.token == r.d.ledger.issued
    ensures Stepped(r, Own) == Run(
      r.d.(ledger := r.d.ledger.(queue := [Input("", InputStatus.Claimed, item)]), seen := {""}), r.token,
      Claiming(DROPPING, r.d.ledger.queue, 1, [item]), r.claims + [0], r.horizon)
  {
    assert Marked(r.d.ledger.queue, [""], InputStatus.Claimed, KEPT) == [Input("", InputStatus.Claimed, item)];
    assert [] + [item] == [item];
  }

  lemma NamelessStays(d: Delivery, item: Item)
    requires d.prefetched == [] && item.origin == Some("")
    ensures Gathered(d, DROPPING, [item]) == (d, Recording(Request([], [])))
  {
    assert d.prefetched + [item] == [item] && Typed([]) == [];
    assert Dropped([item][..0], SetOf(Origins([]))) == [];
    assert Dropped([item], SetOf(Origins([]))) == [];
    assert Parts([]) == [];
  }

  lemma FirstStep(r: Run, e: Event)
    requires Enabled(r, e)
    ensures IsRun(r, [e]) && After(r, [e]) == Stepped(r, e)
  {
    hide Enabled, Stepped;
    assert [e][1..] == [];
  }

  /** And the exception is real: such an input is left claimed, and in no request, when the run stops. */
  lemma EmptyIdIsLeft(r: Run, part: Payload)
    requires Fresh(r) && r.token == r.d.ledger.issued && r.d.represented == {}
    requires r.d.ledger.queue == [Input("", Pending, Item(Some(""), part))]
    ensures IsRun(r, DROPS_ALL)
    ensures var end := After(r, DROPS_ALL);
      && end.pc == Rested(Stops) && end.horizon == 1
      && end.d.ledger.queue == [Input("", InputStatus.Claimed, Item(Some(""), part))] && end.d.represented == {}
  {
    hide IsRun, After, Fresh;
    DropsNameless(r, Item(Some(""), part));
    var r5 := After(r, DROPS_ALL[..5]);
    var queue := r5.d.ledger.queue;
    var r6, r7, r8 := r5.(pc := Listing(FINISHING)), r5.(pc := Claiming(FINISHING, queue, 0, [])), r5.(pc := Claiming(FINISHING, queue, 1, []));
    assert Stepped(r5, DROPS_ALL[5]) == r6;
    assert Stepped(r6, Own) == r7;
    assert Stepped(r7, Own) == r8;
    assert Stepped(r8, Own).pc == Rested(Stops);
    DropsOn(r, 5);
    DropsOn(r, 6);
    DropsOn(r, 7);
    DropsOn(r, 8);
    assert DROPS_ALL[..9] == DROPS_ALL;
  }
}
