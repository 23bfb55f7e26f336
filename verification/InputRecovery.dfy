/**
Delivery across attempts: a chain of attempts at one run, when each of them may end, by a crash, a halt or the
fence, after any store call, repeats no input. What it loses is the subject of `InputLoss`.

An attempt may bring a prompt of its own. It is queued and admitted before any request carries it. Attempts
follow one another: the transcript has no fence.
*/
module InputRecovery {
  import opened Ledger
  import opened LedgerHistory
  import opened Inputs
  import opened InputDelivery

  /** What an attempt does with its own prompt before the first turn. */
  datatype Opening = Enqueueing(id: string, part: Payload) | AdmittingPrompt(id: string) | Opened

  /**
  `carried` is what has entered the transcript, in order, and `named` the part of it a later attempt finds
  by id. `typed` is a prompt admitted and in no request yet; `keeps` says whether the screening at hand
  leaves it in.
  */
  datatype World = World(
    run: Run, opening: Opening, typed: Option<string>, keeps: bool, carried: seq<string>, named: set<string>)

  datatype Act =
    | Restart(token: nat, prompt: Option<(string, Payload)>)
    | Open
    | Turn(at: Boundary, keeps: bool)
    | Go
    | Beside(op: Op<Item>)

  predicate Distinct(ids: seq<string>) {
    forall i, j :: 0 <= i < j < |ids| ==> ids[i] != ids[j]
  }

  /** A screening hands back inputs it was given, each once, rewritten or not. */
  predicate Fair(r: Run) {
    (r.pc.Claiming? && r.pc.n >= |r.pc.listed| && r.pc.at.AtModel? && r.pc.at.policy.Controls? && r.pc.at.policy.screened.Passed?) ==>
      var items := r.pc.at.policy.screened.items;
      && Distinct(Origins(items))
      && (forall id :: id in Origins(items) ==> id in Origins(r.d.prefetched) || id in Origins(r.pc.got))
  }

  /** The clients of the queue besides the attempt only add to it. */
  predicate Possible(w: World, act: Act) {
    match act
    case Restart(token, _) => 0 < token <= w.run.d.ledger.issued
    case Open => !w.opening.Opened?
    case Turn(at, keeps) =>
      w.opening.Opened? && Enabled(w.run, Begins(at)) && (at.AtModel? && at.policy.NoControls? ==> keeps)
    case Go => w.opening.Opened? && Enabled(w.run, Own) && Fair(w.run)
    case Beside(op) => Honest(op) && !SetsStatus(op)
  }

  function TypedIn(w: World): seq<string> {
    if w.typed.Some? && w.keeps then [w.typed.value] else []
  }

  function Next(w: World, act: Act): World
    requires Possible(w, act)
  {
    match act
    case Restart(token, prompt) =>
      World(Run(Delivery(w.run.d.ledger, {}, [], w.named, None), token, Rested(GoesOn), [], 0),
        if prompt.Some? then Enqueueing(prompt.value.0, prompt.value.1) else Opened, None, true,
        w.carried, w.named)
    case Open =>
      (match w.opening
       case Enqueueing(id, part) =>
         var (l, reply) := Enqueued(w.run.d.ledger, id, Item(Some(id), part));
         w.(run := w.run.(d := w.run.d.(ledger := l)), opening := if reply == Inserted(true) then AdmittingPrompt(id) else Opened)
       case AdmittingPrompt(id) =>
         var (l, reply) := AdmitSet(w.run.d.ledger, [id], w.run.token);
         if reply.Refused? then w.(run := w.run.(pc := Rested(FencedOut)), opening := Opened)
         else w.(run := w.run.(d := w.run.d.(ledger := l)), opening := Opened, typed := Some(id))
       case Opened => w)
    case Turn(at, keeps) => w.(run := Stepped(w.run, Begins(at)), keeps := keeps)
    case Go =>
      var run := Stepped(w.run, Own);
      if w.run.pc.Recording? then
        World(run, w.opening, None, true,
          w.carried + w.run.pc.request.ids + TypedIn(w), w.named + SetOf(w.run.pc.request.ids))
      else w.(run := run)
    case Beside(op) => w.(run := w.run.(d := w.run.d.(ledger := Apply(w.run.d.ledger, op).0)))
  }

  ghost predicate IsChain(w: World, acts: seq<Act>)
    decreases |acts|
  {
    acts != [] ==> Possible(w, acts[0]) && IsChain(Next(w, acts[0]), acts[1..])
  }

  function AfterAll(w: World, acts: seq<Act>): World
    requires IsChain(w, acts)
    decreases |acts|
  {
    if acts == [] then w else AfterAll(Next(w, acts[0]), acts[1..])
  }

  /** No attempt yet, and nothing queued. */
  predicate Empty(w: World) {
    && Fresh(w.run) && w.run.d.ledger.queue == [] && w.run.d.represented == {}
    && w.opening == Opened && w.typed == None
    && w.carried == [] && w.named == {}
  }

  // ── what every step keeps ────────────────────────────────────────────────

  /** The claimed ids no request carries yet. */
  function Hand(r: Run): seq<string> {
    Origins(r.d.prefetched) + match r.pc
      case Claiming(_, _, _, got) => Origins(got)
      case Discarding(_, _, items) => Origins(items)
      case Recording(request) => request.ids
      case _ => []
  }

  /** What was carried is found again, by its name or by its status. */
  ghost predicate Remembered(w: World) {
    && w.named <= w.run.d.represented
    && (forall id :: id in w.carried ==> HasInput(w.run.d.ledger.queue, id))
    && (forall id :: id in w.carried ==> id in w.named || IsSettled(w.run.d.ledger.queue, id))
    && (forall id :: id in w.named ==> id in w.carried)
    && (w.run.pc.Admitting? ==> forall id :: id in w.run.pc.request.ids ==> id in w.carried)
  }

  /** What is about to be carried was not. */
  ghost predicate OnceEach(w: World) {
    && Distinct(w.carried)
    && Distinct(Hand(w.run))
    && (forall id :: id in Hand(w.run) ==> id in w.run.d.seen && id !in w.carried)
  }

  /** What the attempt holds is open, and what it is about to discard it no longer holds. */
  ghost predicate HandOpen(r: Run) {
    && (forall id :: id in Hand(r) ==> !IsSettled(r.d.ledger.queue, id))
    && (r.pc.Discarding? ==> forall id :: id in Origins(r.pc.dropped) ==> id !in Hand(r))
  }

  /** A prompt is in no hand: open until it is admitted, and settled from then on. */
  ghost predicate Prompts(w: World) {
    && (!w.opening.Opened? ==> w.typed == None && w.run.d.seen == {} && w.run.pc == Rested(GoesOn) && Hand(w.run) == [])
    && (w.opening.AdmittingPrompt? ==>
      && HasInput(w.run.d.ledger.queue, w.opening.id) && !IsSettled(w.run.d.ledger.queue, w.opening.id)
      && w.opening.id !in w.carried)
    && (w.typed.Some? ==> w.typed.value !in w.carried && IsSettled(w.run.d.ledger.queue, w.typed.value))
  }

  ghost predicate ChainInv(w: World) {
    Inv(w.run) && Remembered(w) && OnceEach(w) && HandOpen(w.run) && Prompts(w)
  }

  lemma DistinctParts(a: seq<string>, b: seq<string>)
    ensures Distinct(a + b) <==> Distinct(a) && Distinct(b) && forall x :: x in a ==> x !in b
  {
    var c := a + b;
    if Distinct(c) {
      assert forall i :: 0 <= i < |a| ==> c[i] == a[i];
      assert forall j :: 0 <= j < |b| ==> c[|a| + j] == b[j];
      forall i, j | 0 <= i < |a| && 0 <= j < |b|
        ensures a[i] != b[j]
      {
        assert c[i] != c[|a| + j];
      }
    }
    if Distinct(a) && Distinct(b) && forall x :: x in a ==> x !in b {
      forall i, j | 0 <= i < j < |c|
        ensures c[i] != c[j]
      {
        if i < |a| <= j {
          assert a[i] in a && b[j - |a|] in b;
        }
      }
    }
  }

  lemma {:induction false} OriginsJoin(a: seq<Item>, b: seq<Item>)
    ensures Origins(a + b) == Origins(a) + Origins(b)
  {
    if b == [] {
      assert a + b == a;
    } else {
      var n := |b| - 1;
      assert (a + b)[..|a + b| - 1] == a + b[..n];
      OriginsJoin(a, b[..n]);
    }
  }

  lemma {:induction false} TypedHaveNone(items: seq<Item>)
    requires forall i :: 0 <= i < |items| ==> items[i].origin.None?
    ensures Origins(items) == []
  {
    if items != [] {
      TypedHaveNone(items[..|items| - 1]);
    }
  }

  /** The queue only grew, nothing entered the transcript, and the hand is as it should be. */
  lemma AroundKeeps(w: World, w': World)
    requires ChainInv(w) && Inv(w'.run) && w'.opening.Opened?
    requires w'.typed == w.typed && w'.carried == w.carried && w'.named == w.named
    requires w.run.d.represented <= w'.run.d.represented
    requires forall id :: IsSettled(w.run.d.ledger.queue, id) ==> IsSettled(w'.run.d.ledger.queue, id)
    requires forall id :: HasInput(w.run.d.ledger.queue, id) ==> HasInput(w'.run.d.ledger.queue, id)
    requires Distinct(Hand(w'.run)) && HandOpen(w'.run)
    requires forall id :: id in Hand(w'.run) ==> id in w'.run.d.seen && id !in w.carried
    requires w'.run.pc.Admitting? ==> forall id :: id in w'.run.pc.request.ids ==> id in w.carried
    ensures ChainInv(w')
  {
    hide Inv, IsSettled, HasInput, Distinct, Hand, HandOpen;
  }

  /** A mark settles what it names, at most. */
  lemma MarkSettlesOnly(queue: seq<Input<Item>>, ids: seq<string>, to: InputStatus, kept: set<InputStatus>)
    ensures forall id :: IsSettled(Marked(queue, ids, to, kept), id) ==> IsSettled(queue, id) || (IsFinal(to) && id in ids)
  {
    var after := Marked(queue, ids, to, kept);
    forall id | IsSettled(after, id)
      ensures IsSettled(queue, id) || (IsFinal(to) && id in ids)
    {
      var i :| 0 <= i < |after| && after[i].id == id && IsFinal(after[i].status);
      assert queue[i].id == id;
    }
  }

  // ── an attempt starts ────────────────────────────────────────────────────

  lemma RestartKeeps(w: World, token: nat, prompt: Option<(string, Payload)>)
    requires ChainInv(w) && Possible(w, Restart(token, prompt))
    ensures ChainInv(Next(w, Restart(token, prompt)))
  {
    hide IsSettled, HasInput, UniqueInputs, Faithful;
    assert Origins([]) == [];
  }

  /** The queue grew under an attempt that has not begun. */
  lemma OpeningQueue(r: Run, queue: seq<Input<Item>>)
    requires Inv(r) && r.pc == Rested(GoesOn) && QueueGrew(r.d.ledger.queue, queue)
    requires UniqueInputs(queue) && Faithful(queue)
    ensures Inv(r.(d := r.d.(ledger := r.d.ledger.(queue := queue))))
  {
    hide UniqueInputs, Faithful, QueueGrew, IsSettled, HasInput, Skips;
    GrewMeans(r.d.ledger.queue, queue);
    GrownKeepsSkips(r.d.ledger.queue, queue, r.d.represented, r.d.seen);
    forall id
      ensures IsSettled(r.d.ledger.queue, id) ==> IsSettled(queue, id)
      ensures HasInput(r.d.ledger.queue, id) ==> HasInput(queue, id)
    {
      GrownKeepsSettled(r.d.ledger.queue, queue, id);
    }
  }

  lemma EnqueueingKeeps(w: World)
    requires ChainInv(w) && w.opening.Enqueueing?
    ensures ChainInv(Next(w, Open))
  {
    hide Inv, UniqueInputs, Faithful, QueueGrew, IsSettled, HasInput, Skips, Hand, Distinct;
    var id, value := w.opening.id, Item(Some(w.opening.id), w.opening.part);
    var l := w.run.d.ledger;
    var op := Enqueue(id, value);
    OthersKeep(w.run, op);
    InputAppended(l.queue, id, value);
    var w' := Next(w, Open);
    assert w'.run == Stepped(w.run, Others(op));
    SameHand(w.run, w'.run.d.ledger);
  }

  lemma SameHand(r: Run, l: BranchLedger<Item>)
    ensures Hand(r.(d := r.d.(ledger := l))) == Hand(r)
  {
  }

  /** A new input is pending, at the end; what there was stays. */
  lemma InputAppended(queue: seq<Input<Item>>, id: string, value: Item)
    ensures var after := AppendInput(queue, id, value);
      && HasInput(after, id)
      && (forall x :: IsSettled(queue, x) ==> IsSettled(after, x))
      && (forall x :: HasInput(queue, x) ==> HasInput(after, x))
      && (forall x :: IsSettled(queue, x) ==> HasInput(queue, x))
      && (forall x :: IsSettled(after, x) ==> IsSettled(queue, x))
  {
    var after := AppendInput(queue, id, value);
    if !HasInput(queue, id) {
      assert after[|queue|].id == id;
    }
    forall x
      ensures IsSettled(queue, x) ==> IsSettled(after, x)
      ensures HasInput(queue, x) ==> HasInput(after, x)
      ensures IsSettled(queue, x) ==> HasInput(queue, x)
      ensures IsSettled(after, x) ==> IsSettled(queue, x)
    {
      if i :| 0 <= i < |queue| && queue[i].id == x && IsFinal(queue[i].status) {
        assert after[i] == queue[i];
      }
      if i :| 0 <= i < |after| && after[i].id == x && IsFinal(after[i].status) {
        assert after[i] == queue[i];
      }
      if i :| 0 <= i < |queue| && queue[i].id == x {
        assert after[i] == queue[i];
      }
    }
  }

  lemma AdmittingPromptKeeps(w: World)
    requires ChainInv(w) && w.opening.AdmittingPrompt?
    ensures ChainInv(Next(w, Open))
  {
    hide Inv, UniqueInputs, Faithful, QueueGrew, IsSettled, HasInput, Skips, Distinct, Marked;
    var id, queue := w.opening.id, w.run.d.ledger.queue;
    var w' := Next(w, Open);
    if Stale(w.run.d.ledger, w.run.token) {
      OverKeeps(w.run);
    } else {
      MarkKeeps(queue, [id], Admitted, {Discarded});
      InvOrders(w.run);
      OpeningQueue(w.run, Marked(queue, [id], Admitted, {Discarded}));
    }
  }

  lemma OverKeeps(r: Run)
    requires Inv(r) && r.pc == Rested(GoesOn)
    ensures Inv(r.(pc := Rested(FencedOut)))
  {
    hide UniqueInputs, Faithful, QueueGrew, IsSettled, HasInput, Skips;
  }

  // ── others, and the turns ────────────────────────────────────────────────

  lemma BesideKeeps(w: World, op: Op<Item>)
    requires ChainInv(w) && Possible(w, Beside(op))
    ensures ChainInv(Next(w, Beside(op)))
  {
    hide Inv, Apply, UniqueInputs, Faithful, QueueGrew, IsSettled, HasInput, Skips, Hand, Distinct;
    OthersKeep(w.run, op);
    QueueAdded(w.run.d.ledger, op);
    assert Next(w, Beside(op)).run == Stepped(w.run, Others(op));
    SameHand(w.run, Next(w, Beside(op)).run.d.ledger);
  }

  /** An operation that sets no status adds pending inputs at the end, and that is all. */
  lemma QueueAdded(l: BranchLedger<Item>, op: Op<Item>)
    requires !SetsStatus(op)
    ensures var m := Apply(l, op).0;
      && (forall x :: IsSettled(l.queue, x) <==> IsSettled(m.queue, x))
      && (forall x :: HasInput(l.queue, x) ==> HasInput(m.queue, x))
  {
    hide Marked, IsSettled, HasInput, QueueGrew;
    var m := Apply(l, op).0;
    QueueStep(l, op);
    if op.Commit? {
      AppendInputsGrows(l.queue, op.transition.inputs);
    }
    if op.Enqueue? {
      InputAppended(l.queue, op.id, op.value);
    }
    forall x
      ensures IsSettled(l.queue, x) <==> IsSettled(m.queue, x)
      ensures HasInput(l.queue, x) ==> HasInput(m.queue, x)
    {
      GrownKeepsSettled(l.queue, m.queue, x);
      if IsSettled(m.queue, x) {
        SettledBefore(l, op, x);
      }
    }
  }

  lemma SettledBefore(l: BranchLedger<Item>, op: Op<Item>, x: string)
    requires !SetsStatus(op) && IsSettled(Apply(l, op).0.queue, x)
    ensures IsSettled(l.queue, x)
  {
    hide Marked, Refusal, Completed;
    var queue := Apply(l, op).0.queue;
    if op.Commit? {
      AppendInputsGrows(l.queue, op.transition.inputs);
    }
    var i :| 0 <= i < |queue| && queue[i].id == x && IsFinal(queue[i].status);
    assert i < |l.queue| && l.queue[i] == queue[i];
  }

  lemma TurnKeeps(w: World, at: Boundary, keeps: bool)
    requires ChainInv(w) && Possible(w, Turn(at, keeps))
    ensures ChainInv(Next(w, Turn(at, keeps)))
  {
    hide Inv, IsSettled, HasInput, Distinct;
    BeginningKeeps(w.run, at);
    assert Hand(Next(w, Turn(at, keeps)).run) == Hand(w.run);
  }

  // ── the attempt goes on ──────────────────────────────────────────────────

  lemma GoListing(w: World)
    requires ChainInv(w) && Possible(w, Go) && w.run.pc.Listing?
    ensures ChainInv(Next(w, Go))
  {
    hide Inv, IsSettled, HasInput, Distinct, Gathered;
    StepKeeps(w.run, Own);
    assert Origins([]) == [];
    assert Hand(Next(w, Go).run) == Hand(w.run);
    AroundKeeps(w, Next(w, Go));
  }

  lemma GoSkipping(w: World)
    requires ChainInv(w) && Possible(w, Go) && w.run.pc.Claiming? && w.run.pc.n < |w.run.pc.listed|
    requires !Claims(w.run)
    ensures ChainInv(Next(w, Go))
  {
    hide Inv, IsSettled, HasInput, Skips, Stale, Marked, Origins;
    StepKeeps(w.run, Own);
    NoOrigins();
    DistinctParts(Origins(w.run.d.prefetched), Origins(w.run.pc.got));
    AroundKeeps(w, Next(w, Go));
  }

  /** A claimed input is open: so it was not carried, and is not in hand. */
  lemma OpenIsNew(w: World)
    requires ChainInv(w) && Claims(w.run)
    ensures var id := w.run.pc.listed[w.run.pc.n].id;
      id !in w.run.d.seen && id !in w.carried && !IsSettled(w.run.d.ledger.queue, id)
  {
    InvOrders(w.run);
    var n, queue := w.run.pc.n, w.run.d.ledger.queue;
    SameRecord(w.run.pc.listed, queue, n);
    if IsSettled(queue, queue[n].id) {
      UniqueSettled(queue, n);
    }
  }

  lemma GoClaiming(w: World)
    requires ChainInv(w) && Possible(w, Go) && Claims(w.run)
    ensures ChainInv(Next(w, Go))
  {
    hide Inv, IsSettled, HasInput, Skips, Marked, Origins, Distinct, QueueGrew, UniqueInputs, Faithful;
    StepKeeps(w.run, Own);
    InvOrders(w.run);
    OpenIsNew(w);
    var n, queue := w.run.pc.n, w.run.d.ledger.queue;
    var id := w.run.pc.listed[n].id;
    SameRecord(w.run.pc.listed, queue, n);
    MarkKeeps(queue, [id], InputStatus.Claimed, KEPT);
    MarkSettlesOnly(queue, [id], InputStatus.Claimed, KEPT);
    OriginsSnoc(w.run.pc.got, w.run.pc.listed[n].value);
    var before, got := Origins(w.run.d.prefetched), Origins(w.run.pc.got);
    assert before + (got + [id]) == (before + got) + [id];
    OneMore(before + got, id);
    AroundKeeps(w, Next(w, Go));
  }

  lemma OneMore(ids: seq<string>, id: string)
    requires Distinct(ids) && id !in ids
    ensures Distinct(ids + [id])
  {
  }

  lemma GoClaimed(w: World)
    requires ChainInv(w) && Possible(w, Go) && w.run.pc.Claiming? && w.run.pc.n >= |w.run.pc.listed|
    ensures ChainInv(Next(w, Go))
  {
    hide Inv, IsSettled, HasInput, Skips, Marked, Origins, Distinct, QueueGrew, UniqueInputs, Faithful, Gathered;
    StepKeeps(w.run, Own);
    InvOrders(w.run);
    ClaimedIs(w.run.d, w.run.pc.at, w.run.pc.got);
    ClaimedHand(w.run);
    ClaimedDrops(w.run);
    NoAdmitting(w.run);
    AroundKeeps(w, Next(w, Go));
  }

  /** What the screening took out is not what it left. */
  lemma ClaimedDrops(r: Run)
    requires Enabled(r, Own) && r.pc.Claiming? && r.pc.n >= |r.pc.listed|
    ensures var r' := Stepped(r, Own);
      r'.pc.Discarding? ==> forall id :: id in Origins(r'.pc.dropped) ==> id !in Hand(r')
  {
    hide Origins, Dropped, SetOf, Rewritten;
    NoOrigins();
    if r.pc.at.AtModel? && r.pc.at.policy.Controls? && r.pc.at.policy.screened.Passed? {
      var items := r.pc.at.policy.screened.items;
      assert [] + Origins(items) == Origins(items);
      DroppedAre(r.d.prefetched + r.pc.got, SetOf(Origins(items)));
      InSet(Origins(items));
    }
  }

  lemma NoAdmitting(r: Run)
    requires Enabled(r, Own) && r.pc.Claiming? && r.pc.n >= |r.pc.listed|
    ensures !Stepped(r, Own).pc.Admitting?
  {
    hide Origins, Dropped, SetOf, Rewritten;
  }

  /** What the boundary makes of the hand is part of it, and names each input once. */
  lemma ClaimedHand(r: Run)
    requires Sane(r) && Fair(r) && r.pc.Claiming? && r.pc.n >= |r.pc.listed| && Distinct(Hand(r))
    ensures Distinct(Hand(Stepped(r, Own))) && forall id :: id in Hand(Stepped(r, Own)) ==> id in Hand(r)
  {
    hide Origins, Distinct, Stepped;
    DistinctParts(Origins(r.d.prefetched), Origins(r.pc.got));
    EmptyIsDistinct();
    OriginsJoin(r.d.prefetched, r.pc.got);
    GatheredHand(r);
  }

  /** The hand is empty, what was claimed, all there was, or what the screening left. */
  lemma GatheredHand(r: Run)
    requires Sane(r) && r.pc.Claiming? && r.pc.n >= |r.pc.listed|
    ensures var hand := Hand(Stepped(r, Own));
      || hand == [] || hand == Origins(r.pc.got) || hand == Origins(r.d.prefetched + r.pc.got)
      || (r.pc.at.AtModel? && r.pc.at.policy.Controls? && r.pc.at.policy.screened.Passed?
        && hand == Origins(r.pc.at.policy.screened.items))
  {
    hide Origins, Dropped, SetOf;
    NoOrigins();
    var at, got := r.pc.at, r.pc.got;
    assert Origins(got) + [] == Origins(got);
    if at.AtModel? {
      var pending := r.d.prefetched + got;
      OriginsJoin(Typed(at.node.prompts), pending);
      TypedHaveNone(Typed(at.node.prompts));
      assert [] + ([] + Origins(pending)) == Origins(pending);
      assert [] + Origins([]) == [];
      if at.policy.Controls? && at.policy.screened.Passed? {
        assert [] + Origins(at.policy.screened.items) == Origins(at.policy.screened.items);
      }
    }
  }

  lemma EmptyIsDistinct()
    ensures Distinct([])
  {
  }

  lemma GoDiscarding(w: World)
    requires ChainInv(w) && Possible(w, Go) && w.run.pc.Discarding?
    ensures ChainInv(Next(w, Go))
  {
    hide Inv, IsSettled, HasInput, Skips, Marked, Origins, Distinct, QueueGrew, UniqueInputs, Faithful, Stale;
    StepKeeps(w.run, Own);
    InvOrders(w.run);
    var ids := Origins(w.run.pc.dropped);
    MarkKeeps(w.run.d.ledger.queue, ids, Discarded, {});
    MarkSettlesOnly(w.run.d.ledger.queue, ids, Discarded, {});
    RewrittenIds(w.run.pc.at, w.run.pc.items);
    DistinctParts(Origins(w.run.d.prefetched), Origins(w.run.pc.items));
    var w' := Next(w, Go);
    assert Origins(w.run.d.prefetched) + [] == Origins(w.run.d.prefetched);
    AroundKeeps(w, w');
  }

  lemma GoAdmitting(w: World)
    requires ChainInv(w) && Possible(w, Go) && w.run.pc.Admitting?
    ensures ChainInv(Next(w, Go))
  {
    hide Inv, IsSettled, HasInput, Skips, Marked, Origins, Distinct, QueueGrew, UniqueInputs, Faithful, Stale;
    StepKeeps(w.run, Own);
    InvOrders(w.run);
    var ids := w.run.pc.request.ids;
    MarkKeeps(w.run.d.ledger.queue, ids, Admitted, {Discarded});
    MarkSettlesOnly(w.run.d.ledger.queue, ids, Admitted, {Discarded});
    var w' := Next(w, Go);
    assert Hand(w'.run) == Hand(w.run);
    AroundKeeps(w, w');
  }

  /** The request enters the transcript: what it carries was not there, and now is. */
  lemma GoRecording(w: World)
    requires ChainInv(w) && Possible(w, Go) && w.run.pc.Recording?
    ensures ChainInv(Next(w, Go))
  {
    hide Next, Possible, Inv, Remembered, OnceEach, Prompts, HandOpen;
    RecordingRun(w);
    RecordedWorld(w);
    RecordingRemembers(w, Next(w, Go));
    RecordingOnce(w, Next(w, Go));
  }

  lemma RecordingRun(w: World)
    requires ChainInv(w) && Possible(w, Go) && w.run.pc.Recording?
    ensures Inv(Next(w, Go).run)
  {
    hide Inv;
    StepKeeps(w.run, Own);
  }

  /** `w'` is `w` with its request in the transcript. */
  ghost predicate IsRecorded(w: World, w': World) {
    && w.opening.Opened? && w.run.pc.Recording?
    && var ids := w.run.pc.request.ids;
      && w'.run.d.ledger == w.run.d.ledger && w'.run.d.seen == w.run.d.seen && w'.run.d.prefetched == w.run.d.prefetched
      && w'.run.d.represented == w.run.d.represented + SetOf(ids)
      && Hand(w.run) == Origins(w.run.d.prefetched) + ids && Hand(w'.run) == Origins(w.run.d.prefetched) + []
      && (w'.run.pc.Rested? || w'.run.pc.Admitting?)
      && (w'.run.pc.Admitting? ==> w'.run.pc.request.ids == ids)
      && w'.carried == w.carried + ids + TypedIn(w) && w'.named == w.named + SetOf(ids)
      && w'.opening.Opened? && w'.typed == None
  }

  lemma RecordingRemembers(w: World, w': World)
    requires Inv(w.run) && Remembered(w) && OnceEach(w) && Prompts(w) && IsRecorded(w, w')
    ensures Remembered(w')
  {
    hide Inv, IsSettled, HasInput, Origins, Distinct, SetOf;
    InvOrders(w.run);
    InSet(w.run.pc.request.ids);
    SettledIsQueued(w);
  }

  lemma RecordingOnce(w: World, w': World)
    requires OnceEach(w) && HandOpen(w.run) && Prompts(w) && IsRecorded(w, w')
    ensures OnceEach(w') && HandOpen(w'.run) && Prompts(w')
  {
    hide IsSettled, HasInput, Origins, Distinct, SetOf;
    var ids := w.run.pc.request.ids;
    DistinctParts(Origins(w.run.d.prefetched), ids);
    assert Origins(w.run.d.prefetched) + [] == Origins(w.run.d.prefetched);
    CarriedOnce(w, ids);
  }

  lemma RecordedWorld(w: World)
    requires Possible(w, Go) && w.run.pc.Recording?
    ensures IsRecorded(w, Next(w, Go))
  {
    hide Origins, SetOf;
  }

  lemma SettledIsQueued(w: World)
    ensures forall id :: IsSettled(w.run.d.ledger.queue, id) ==> HasInput(w.run.d.ledger.queue, id)
  {
    forall id | IsSettled(w.run.d.ledger.queue, id)
      ensures HasInput(w.run.d.ledger.queue, id)
    {
    }
  }

  lemma CarriedOnce(w: World, ids: seq<string>)
    requires Distinct(w.carried) && Distinct(ids) && forall id :: id in ids ==> id !in w.carried
    requires w.typed.Some? ==> w.typed.value !in w.carried && w.typed.value !in ids
    ensures Distinct(w.carried + ids + TypedIn(w))
  {
    DistinctParts(w.carried, ids);
    DistinctParts(w.carried + ids, TypedIn(w));
  }

  lemma GoKeeps(w: World)
    requires ChainInv(w) && Possible(w, Go)
    ensures ChainInv(Next(w, Go))
  {
    hide ChainInv, Next, Skips, Stale, Fair;
    match w.run.pc
    case Listing(_) => GoListing(w);
    case Claiming(_, listed, n, _) =>
      if n >= |listed| {
        GoClaimed(w);
      } else if Claims(w.run) {
        GoClaiming(w);
      } else {
        GoSkipping(w);
      }
    case Discarding(_, _, _) => GoDiscarding(w);
    case Recording(_) => GoRecording(w);
    case Admitting(_) => GoAdmitting(w);
  }

  lemma NextKeeps(w: World, act: Act)
    requires ChainInv(w) && Possible(w, act)
    ensures ChainInv(Next(w, act))
  {
    hide ChainInv, Next;
    match act
    case Restart(token, prompt) => RestartKeeps(w, token, prompt);
    case Open =>
      if w.opening.Enqueueing? {
        EnqueueingKeeps(w);
      } else {
        AdmittingPromptKeeps(w);
      }
    case Turn(at, keeps) => TurnKeeps(w, at, keeps);
    case Go => GoKeeps(w);
    case Beside(op) => BesideKeeps(w, op);
  }

  lemma {:induction false} ChainKeeps(w: World, acts: seq<Act>)
    requires ChainInv(w) && IsChain(w, acts)
    ensures ChainInv(AfterAll(w, acts))
    decreases |acts|
  {
    hide ChainInv, Next, Possible;
    if acts != [] {
      NextKeeps(w, acts[0]);
      ChainKeeps(Next(w, acts[0]), acts[1..]);
    }
  }

  lemma EmptyInv(w: World)
    requires Empty(w)
    ensures ChainInv(w)
  {
    FreshInv(w.run);
    assert Origins([]) == [];
  }

  // ── the results ──────────────────────────────────────────────────────────

  /** No input is repeated: whatever ends the attempts and when, none enters the transcript twice. */
  lemma CarriedAtMostOnce(w: World, acts: seq<Act>, i: nat, j: nat)
    requires Empty(w) && IsChain(w, acts) && i < j < |AfterAll(w, acts).carried|
    ensures AfterAll(w, acts).carried[i] != AfterAll(w, acts).carried[j]
  {
    hide ChainInv, IsChain, AfterAll, Empty;
    EmptyInv(w);
    ChainKeeps(w, acts);
    ChainMeans(AfterAll(w, acts));
  }

  lemma ChainMeans(w: World)
    requires ChainInv(w)
    ensures Inv(w.run) && Remembered(w) && OnceEach(w) && HandOpen(w.run) && Prompts(w)
  {
  }

  /**
  The next attempt's first listing claims exactly the inputs that are neither settled
  nor in the transcript, a crash between the record of a request and its admission included.
  */
  lemma OpenInputsComeAgain(w: World, acts: seq<Act>, token: nat, prompt: Option<(string, Payload)>, p: nat)
    requires Empty(w) && IsChain(w, acts) && Possible(AfterAll(w, acts), Restart(token, prompt))
    requires p < |AfterAll(w, acts).run.d.ledger.queue|
    ensures var d := Next(AfterAll(w, acts), Restart(token, prompt)).run.d;
      var input := d.ledger.queue[p];
      p in Wanted(d.ledger.queue, d.represented, d.seen) <==> !IsFinal(input.status) && input.id !in AfterAll(w, acts).carried
  {
    hide ChainInv, IsChain, AfterAll, Empty, IsSettled;
    EmptyInv(w);
    ChainKeeps(w, acts);
    var end := AfterAll(w, acts);
    ChainMeans(end);
    InvOrders(end.run);
    var d := Next(end, Restart(token, prompt)).run.d;
    WantedIs(d.ledger.queue, d.represented, d.seen);
    if IsSettled(end.run.d.ledger.queue, end.run.d.ledger.queue[p].id) {
      UniqueSettled(end.run.d.ledger.queue, p);
    }
  }
}
