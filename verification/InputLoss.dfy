/**
Loss across attempts: which inputs can still enter the transcript, whatever attempts follow. Every open one
can. A settled one cannot, unless it is the prompt of the attempt at hand: that is the one input which the
end of an attempt may lose.
*/
module InputLoss {
  import opened Ledger
  import opened LedgerHistory
  import opened Inputs
  import opened InputDelivery
  import opened InputRecovery

  /** Some continuation has the input in its transcript. */
  ghost predicate CanArrive(w: World, id: string) {
    exists more :: IsChain(w, more) && id in AfterAll(w, more).carried
  }

  // ── what can no longer arrive ────────────────────────────────────────────

  /** Settled, outside the transcript, and in nobody's hands. */
  ghost predicate Buried(w: World, id: string) {
    && id !in w.carried && IsSettled(w.run.d.ledger.queue, id)
    && id !in Hand(w.run) && w.typed != Some(id) && w.opening != AdmittingPrompt(id)
  }

  lemma BuriedInOpening(w: World, id: string)
    requires ChainInv(w) && Possible(w, Open) && Buried(w, id)
    ensures Buried(Next(w, Open), id)
  {
    hide Inv, IsSettled, HasInput, Hand, Distinct, Marked, Stale, OnceEach, HandOpen, Remembered;
    var queue := w.run.d.ledger.queue;
    SameHand(w.run, Next(w, Open).run.d.ledger);
    if w.opening.Enqueueing? {
      InputAppended(queue, w.opening.id, Item(Some(w.opening.id), w.opening.part));
    } else {
      MarkKeeps(queue, [w.opening.id], Admitted, {Discarded});
      SameHandOver(w.run);
    }
  }

  lemma SameHandOver(r: Run)
    requires r.pc.Rested?
    ensures Hand(r.(pc := Rested(FencedOut))) == Hand(r)
  {
  }

  lemma BuriedInClaims(w: World, id: string)
    requires ChainInv(w) && Possible(w, Go) && w.run.pc.Claiming? && w.run.pc.n < |w.run.pc.listed| && Buried(w, id)
    ensures Buried(Next(w, Go), id)
  {
    hide Inv, IsSettled, HasInput, Skips, Stale, Marked, Origins, Distinct, OnceEach, HandOpen, Remembered, Prompts;
    NoOrigins();
    var n := w.run.pc.n;
    if Claims(w.run) {
      OpenIsNew(w);
      InvOrders(w.run);
      SameRecord(w.run.pc.listed, w.run.d.ledger.queue, n);
      MarkKeeps(w.run.d.ledger.queue, [w.run.pc.listed[n].id], InputStatus.Claimed, KEPT);
      OriginsSnoc(w.run.pc.got, w.run.pc.listed[n].value);
    }
  }

  lemma BuriedInBoundary(w: World, id: string)
    requires ChainInv(w) && Possible(w, Go) && Buried(w, id)
    requires !(w.run.pc.Claiming? && w.run.pc.n < |w.run.pc.listed|)
    ensures Buried(Next(w, Go), id)
  {
    hide Inv, IsSettled, HasInput, Skips, Stale, Marked, Origins, Distinct, HandOpen, Remembered, Prompts, Gathered;
    var queue := w.run.d.ledger.queue;
    InvOrders(w.run);
    NoOrigins();
    match w.run.pc
    case Listing(_) =>
    case Claiming(_, _, _, _) =>
      ClaimedIs(w.run.d, w.run.pc.at, w.run.pc.got);
      ClaimedHand(w.run);
    case Discarding(at, dropped, items) =>
      MarkKeeps(queue, Origins(dropped), Discarded, {});
      RewrittenIds(at, items);
    case Recording(_) =>
      RecordedWorld(w);
    case Admitting(request) =>
      MarkKeeps(queue, request.ids, Admitted, {Discarded});
  }

  lemma BuriedStays(w: World, act: Act, id: string)
    requires ChainInv(w) && Possible(w, act) && Buried(w, id)
    ensures Buried(Next(w, act), id)
  {
    hide ChainInv, IsSettled, HasInput, Distinct, Fair, Origins, Apply;
    match act
    case Restart(_, _) => NoOrigins();
    case Open => BuriedInOpening(w, id);
    case Turn(_, _) =>
    case Go =>
      if w.run.pc.Claiming? && w.run.pc.n < |w.run.pc.listed| {
        BuriedInClaims(w, id);
      } else {
        BuriedInBoundary(w, id);
      }
    case Beside(op) =>
      QueueAdded(w.run.d.ledger, op);
      SameHand(w.run, Next(w, act).run.d.ledger);
  }

  lemma {:induction false} BuriedForGood(w: World, acts: seq<Act>, id: string)
    requires ChainInv(w) && IsChain(w, acts) && Buried(w, id)
    ensures id !in AfterAll(w, acts).carried
    decreases |acts|
  {
    hide ChainInv, Next, Possible;
    if acts != [] {
      NextKeeps(w, acts[0]);
      BuriedStays(w, acts[0], id);
      BuriedForGood(Next(w, acts[0]), acts[1..], id);
    }
  }

  lemma BuriedNeverArrives(w: World, id: string)
    requires ChainInv(w) && Buried(w, id)
    ensures !CanArrive(w, id)
  {
    hide ChainInv, Buried, IsChain, AfterAll;
    forall more | IsChain(w, more)
      ensures id !in AfterAll(w, more).carried
    {
      BuriedForGood(w, more, id);
    }
  }

  // ── what can ─────────────────────────────────────────────────────────────

  lemma Prepended(w: World, act: Act, id: string)
    requires Possible(w, act) && CanArrive(Next(w, act), id)
    ensures CanArrive(w, id)
  {
    hide Possible, Next;
    var more :| IsChain(Next(w, act), more) && id in AfterAll(Next(w, act), more).carried;
    assert ([act] + more)[1..] == more;
    assert IsChain(w, [act] + more);
  }

  lemma AlreadyThere(w: World, id: string)
    requires id in w.carried
    ensures CanArrive(w, id)
  {
    assert IsChain(w, []);
    assert AfterAll(w, []) == w;
  }

  ghost predicate Offered(records: seq<Input<Item>>, d: Delivery, n: nat, id: string) {
    exists p :: n <= p < |records| && records[p].id == id && !Skips(records[p], d.represented, d.seen)
  }

  /** A boundary without controls is under way, under the newest token, and the request will carry the input. */
  ghost predicate OnItsWay(w: World, id: string) {
    && w.opening.Opened? && w.keeps && !Stale(w.run.d.ledger, w.run.token)
    && (w.run.pc.Recording? || ((w.run.pc.Listing? || w.run.pc.Claiming?) && w.run.pc.at.AtModel? && w.run.pc.at.policy.NoControls?))
    && (w.typed == Some(id) || (if w.run.pc.Recording? then id in w.run.pc.request.ids else id in Hand(w.run))
      || (w.run.pc.Listing? && Offered(w.run.d.ledger.queue, w.run.d, 0, id))
      || (w.run.pc.Claiming? && Offered(w.run.pc.listed, w.run.d, w.run.pc.n, id)))
  }

  lemma ListingGoesOn(w: World, id: string)
    requires ChainInv(w) && OnItsWay(w, id) && w.run.pc.Listing?
    ensures Possible(w, Go) && OnItsWay(Next(w, Go), id)
  {
    hide ChainInv, Origins, Offered;
    NoOrigins();
  }

  /** The record at hand is passed over or claimed; another one is offered still. */
  lemma OfferedNext(records: seq<Input<Item>>, d: Delivery, e: Delivery, n: nat, id: string)
    requires n < |records| && UniqueInputs(records) && Offered(records, d, n, id) && e.represented == d.represented
    ensures Skips(records[n], d.represented, d.seen) && e.seen == d.seen ==> Offered(records, e, n + 1, id)
    ensures e.seen == d.seen + {records[n].id} && id != records[n].id ==> Offered(records, e, n + 1, id)
  {
    var p :| n <= p < |records| && records[p].id == id && !Skips(records[p], d.represented, d.seen);
    if p != n {
      assert records[p].id != records[n].id;
      assert e.seen == d.seen || e.seen == d.seen + {records[n].id} ==> !Skips(records[p], e.represented, e.seen);
    }
  }

  lemma ClaimingGoesOn(w: World, id: string)
    requires ChainInv(w) && OnItsWay(w, id) && w.run.pc.Claiming? && w.run.pc.n < |w.run.pc.listed|
    ensures Possible(w, Go) && OnItsWay(Next(w, Go), id)
  {
    hide Inv, Remembered, OnceEach, HandOpen, Prompts, Origins, Marked, UniqueInputs, Faithful, QueueGrew, Skips, Offered;
    InvOrders(w.run);
    var r, next := w.run, Next(w, Go).run;
    SameRecord(r.pc.listed, r.d.ledger.queue, r.pc.n);
    OriginsSnoc(r.pc.got, r.pc.listed[r.pc.n].value);
    ListedUnique(r.pc.listed, r.d.ledger.queue);
    if Offered(r.pc.listed, r.d, r.pc.n, id) {
      OfferedNext(r.pc.listed, r.d, next.d, r.pc.n, id);
    }
  }

  lemma ListedUnique(listed: seq<Input<Item>>, queue: seq<Input<Item>>)
    requires QueueGrew(listed, queue) && UniqueInputs(queue)
    ensures UniqueInputs(listed)
  {
  }

  lemma GatheringGoesOn(w: World, id: string)
    requires ChainInv(w) && OnItsWay(w, id) && w.run.pc.Claiming? && w.run.pc.n >= |w.run.pc.listed|
    ensures Possible(w, Go) && OnItsWay(Next(w, Go), id) && Next(w, Go).run.pc.Recording?
  {
    hide ChainInv, Origins, Stale, Skips;
    NoOrigins();
    var at, pending := w.run.pc.at, w.run.d.prefetched + w.run.pc.got;
    OriginsJoin(Typed(at.node.prompts), pending);
    TypedHaveNone(Typed(at.node.prompts));
    OriginsJoin(w.run.d.prefetched, w.run.pc.got);
  }

  lemma RecordingArrives(w: World, id: string)
    requires ChainInv(w) && OnItsWay(w, id) && w.run.pc.Recording?
    ensures Possible(w, Go) && id in Next(w, Go).carried
  {
    hide ChainInv, Origins, SetOf;
  }

  lemma {:induction false} Carries(w: World, id: string)
    requires ChainInv(w) && OnItsWay(w, id)
    ensures CanArrive(w, id)
    decreases Rank(w.run.pc), if Left(w.run.pc) < 0 then 0 else Left(w.run.pc)
  {
    hide ChainInv, OnItsWay, CanArrive, Possible, Next;
    if w.run.pc.Recording? {
      RecordingArrives(w, id);
      AlreadyThere(Next(w, Go), id);
    } else {
      GoesOn(w, id);
      NextKeeps(w, Go);
      Carries(Next(w, Go), id);
    }
    Prepended(w, Go, id);
  }

  lemma GoesOn(w: World, id: string)
    requires ChainInv(w) && OnItsWay(w, id) && !w.run.pc.Recording?
    ensures Possible(w, Go) && OnItsWay(Next(w, Go), id)
    ensures var pc, next := w.run.pc, Next(w, Go).run.pc;
      Rank(next) < Rank(pc) || (Rank(next) == Rank(pc) && 0 <= Left(next) < Left(pc))
  {
    hide ChainInv, Stale, Skips, Origins, Offered, Hand, Gathered;
    if w.run.pc.Listing? {
      ListingGoesOn(w, id);
    } else if w.run.pc.n < |w.run.pc.listed| {
      ClaimingGoesOn(w, id);
    } else {
      GatheringGoesOn(w, id);
    }
  }

  // ── the results ──────────────────────────────────────────────────────────

  /** Between two boundaries of an attempt that goes on and is not overtaken. */
  predicate BetweenTurns(w: World) {
    w.opening.Opened? && w.run.pc.Rested? && !IsOver(w.run.pc) && !Stale(w.run.d.ledger, w.run.token)
  }

  /** A boundary with no controls, and no parts in the request but the inputs. */
  const PLAIN := AtModel(Node([], []), NoControls)

  lemma PromptArrives(w: World, id: string)
    requires ChainInv(w) && BetweenTurns(w) && w.typed == Some(id)
    ensures CanArrive(w, id)
  {
    hide ChainInv, CanArrive;
    var turn := Turn(PLAIN, true);
    NextKeeps(w, turn);
    Carries(Next(w, turn), id);
    Prepended(w, turn, id);
  }

  /** The next attempt claims what is open, and its first request carries it. */
  lemma OpenArrives(w: World, p: nat)
    requires ChainInv(w) && p < |w.run.d.ledger.queue|
    requires !IsFinal(w.run.d.ledger.queue[p].status) && w.run.d.ledger.queue[p].id !in w.carried
    ensures CanArrive(w, w.run.d.ledger.queue[p].id)
  {
    hide ChainInv, CanArrive, IsSettled;
    var id := w.run.d.ledger.queue[p].id;
    ChainMeans(w);
    InvOrders(w.run);
    var restart, turn := Restart(w.run.d.ledger.issued, None), Turn(PLAIN, true);
    var w1 := Next(w, restart);
    NextKeeps(w, restart);
    NextKeeps(w1, turn);
    Carries(Next(w1, turn), id);
    Prepended(w1, turn, id);
    Prepended(w, restart, id);
  }

  lemma SettledIsBuried(w: World, id: string)
    requires ChainInv(w) && IsSettled(w.run.d.ledger.queue, id) && id !in w.carried && w.typed != Some(id)
    ensures Buried(w, id)
  {
    hide Inv, IsSettled, Hand, Distinct;
  }

  lemma ArrivesIfOpen(w: World, p: nat)
    requires ChainInv(w) && p < |w.run.d.ledger.queue|
    requires w.run.d.ledger.queue[p].id !in w.carried && w.typed != Some(w.run.d.ledger.queue[p].id)
    ensures CanArrive(w, w.run.d.ledger.queue[p].id) <==> !IsFinal(w.run.d.ledger.queue[p].status)
  {
    hide ChainInv, CanArrive, Buried;
    var input := w.run.d.ledger.queue[p];
    if IsFinal(input.status) {
      SettledIsBuried(w, input.id);
      BuriedNeverArrives(w, input.id);
    } else {
      OpenArrives(w, p);
    }
  }

  /**
  Where every input is, at any point of any chain of attempts: in the transcript, or the prompt of the attempt
  at hand, or open, and then some continuation carries it, or settled, and then none ever does.
  */
  lemma WhereInputsAre(w: World, acts: seq<Act>, p: nat)
    requires InputRecovery.Empty(w) && IsChain(w, acts) && p < |AfterAll(w, acts).run.d.ledger.queue|
    ensures var end := AfterAll(w, acts);
      var input := end.run.d.ledger.queue[p];
      input.id in end.carried || end.typed == Some(input.id) || (CanArrive(end, input.id) <==> !IsFinal(input.status))
  {
    hide ChainInv, IsChain, AfterAll, InputRecovery.Empty, CanArrive;
    EmptyInv(w);
    ChainKeeps(w, acts);
    var end := AfterAll(w, acts);
    var input := end.run.d.ledger.queue[p];
    if input.id !in end.carried && end.typed != Some(input.id) {
      ArrivesIfOpen(end, p);
    }
  }

  /**
  The end of an attempt, wherever it comes: behind it an input outside the transcript can arrive exactly if it
  is open. So the end takes that chance from no input but the prompt that was admitted and is in no request
  yet; and that prompt never arrives, although between two turns of a live attempt it still could.
  */
  lemma LostExactly(w: World, acts: seq<Act>, token: nat, prompt: Option<(string, Payload)>, p: nat)
    requires InputRecovery.Empty(w) && IsChain(w, acts) && Possible(AfterAll(w, acts), Restart(token, prompt))
    requires p < |AfterAll(w, acts).run.d.ledger.queue|
    requires AfterAll(w, acts).run.d.ledger.queue[p].id !in AfterAll(w, acts).carried
    ensures var end := AfterAll(w, acts);
      var after := Next(end, Restart(token, prompt));
      var input := end.run.d.ledger.queue[p];
      && (CanArrive(after, input.id) <==> !IsFinal(input.status))
      && (CanArrive(end, input.id) && !CanArrive(after, input.id) ==> end.typed == Some(input.id))
      && (end.typed == Some(input.id) ==> !CanArrive(after, input.id))
      && (end.typed == Some(input.id) && BetweenTurns(end) ==> CanArrive(end, input.id))
  {
    hide ChainInv, IsChain, AfterAll, InputRecovery.Empty, CanArrive, IsSettled;
    EmptyInv(w);
    ChainKeeps(w, acts);
    var end := AfterAll(w, acts);
    var after := Next(end, Restart(token, prompt));
    var input := end.run.d.ledger.queue[p];
    NextKeeps(end, Restart(token, prompt));
    ArrivesIfOpen(after, p);
    ChainMeans(end);
    InvOrders(end.run);
    if end.typed == Some(input.id) {
      UniqueSettled(end.run.d.ledger.queue, p);
      if BetweenTurns(end) {
        PromptArrives(end, input.id);
      }
    } else {
      ArrivesIfOpen(end, p);
    }
  }

  /** It happens: a prompt is queued, admitted, its attempt ends, and no attempt ever carries the prompt. */
  lemma PromptIsLost(w: World, part: Payload)
    requires InputRecovery.Empty(w)
    ensures var issued := w.run.d.ledger.issued;
      var acts := [Restart(issued, Some(("a", part))), Open, Open, Restart(issued, None)];
      && IsChain(w, acts)
      && var end := AfterAll(w, acts);
        && end.run.d.ledger.queue == [Input("a", Admitted, Item(Some("a"), part))]
        && end.carried == [] && !CanArrive(end, "a")
  {
    hide ChainInv, CanArrive, IsChain, AfterAll, Marked, UniqueInputs, Faithful;
    var issued := w.run.d.ledger.issued;
    var first, last := Restart(issued, Some(("a", part))), Restart(issued, None);
    var acts := [first, Open, Open, last];
    var w1 := Next(w, first);
    assert !HasInput(w1.run.d.ledger.queue, "a");
    var w2 := Next(w1, Open);
    assert w2.run.d.ledger.queue == [Input("a", Pending, Item(Some("a"), part))] && w2.opening == AdmittingPrompt("a");
    var w3 := Next(w2, Open);
    assert w3.run.d.ledger.queue == [Input("a", Admitted, Item(Some("a"), part))] by {
      AdmitsOnly(Input("a", Pending, Item(Some("a"), part)));
    }
    var w4 := Next(w3, last);
    FollowFour(w, acts, w1, w2, w3, w4);
    EmptyInv(w);
    ChainKeeps(w, acts);
    ArrivesIfOpen(w4, 0);
  }

  lemma AdmitsOnly(input: Input<Item>)
    requires input.status == Pending
    ensures Marked([input], [input.id], Admitted, {Discarded}) == [input.(status := Admitted)]
  {
  }

  lemma FollowFour(w: World, acts: seq<Act>, w1: World, w2: World, w3: World, w4: World)
    requires |acts| == 4 && Possible(w, acts[0]) && w1 == Next(w, acts[0])
    requires Possible(w1, acts[1]) && w2 == Next(w1, acts[1])
    requires Possible(w2, acts[2]) && w3 == Next(w2, acts[2])
    requires Possible(w3, acts[3]) && w4 == Next(w3, acts[3])
    ensures IsChain(w, acts) && AfterAll(w, acts) == w4
  {
    hide Possible, Next;
    var rest := acts[1..];
    assert rest[1..][1..][1..] == [];
    assert IsChain(w3, rest[1..][1..]) && AfterAll(w3, rest[1..][1..]) == w4;
    assert IsChain(w2, rest[1..]) && AfterAll(w2, rest[1..]) == w4;
    assert IsChain(w1, rest) && AfterAll(w1, rest) == w4;
  }
}
