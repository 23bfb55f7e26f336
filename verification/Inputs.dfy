/**
Inputs that reach a run while it is under way: claimed from the durable queue at every model boundary,
screened, and admitted or discarded; and once more claimed before the run may finish.
*/
module Inputs {
  import opened Ledger
  import opened LedgerHistory
  import opened MemoryLedger
  import Attempts

  type Payload = Attempts.Payload

  /** An input, by the id it was queued under. A prompt typed into the request has none. */
  datatype Item = Item(origin: Option<string>, part: Payload)

  /** What the model is asked: the parts, and in the metadata the queued inputs among them. */
  datatype Request = Request(parts: seq<Payload>, ids: seq<string>)

  /** The request as the graph made it: its prompts, and the parts that are no prompts. */
  datatype Node = Node(others: seq<Payload>, prompts: seq<Payload>)

  // ── the specification ────────────────────────────────────────────────────

  /** Delivered or dropped for good. */
  predicate IsFinal(status: InputStatus) {
    status == Admitted || status == Discarded
  }

  predicate Skips(input: Input<Item>, represented: set<string>, seen: set<string>) {
    IsFinal(input.status) || input.id in represented || input.id in seen
  }

  /** The numbers of the inputs to claim, in submission order. */
  function Wanted(queue: seq<Input<Item>>, represented: set<string>, seen: set<string>): seq<nat> {
    if queue == [] then []
    else
      var n := |queue| - 1;
      Wanted(queue[..n], represented, seen) + (if Skips(queue[n], represented, seen) then [] else [n])
  }

  predicate Within(numbers: seq<nat>, n: nat) {
    forall k :: 0 <= k < |numbers| ==> numbers[k] < n
  }

  function IdsAt(queue: seq<Input<Item>>, numbers: seq<nat>): seq<string>
    requires Within(numbers, |queue|)
  {
    seq(|numbers|, k requires 0 <= k < |numbers| => queue[numbers[k]].id)
  }

  function ItemsAt(queue: seq<Input<Item>>, numbers: seq<nat>): seq<Item>
    requires Within(numbers, |queue|)
  {
    seq(|numbers|, k requires 0 <= k < |numbers| => queue[numbers[k]].value)
  }

  function SetOf(ids: seq<string>): set<string> {
    set i | 0 <= i < |ids| :: ids[i]
  }

  /** The ids the items were queued under. */
  function Origins(items: seq<Item>): seq<string> {
    if items == [] then []
    else
      var last := items[|items| - 1];
      Origins(items[..|items| - 1]) + (if last.origin.Some? then [last.origin.value] else [])
  }

  lemma {:induction false} WantedIs(queue: seq<Input<Item>>, represented: set<string>, seen: set<string>)
    ensures var numbers := Wanted(queue, represented, seen);
      && Within(numbers, |queue|)
      && (forall i, j :: 0 <= i < j < |numbers| ==> numbers[i] < numbers[j])
      && (forall p :: 0 <= p < |queue| ==> (p in numbers <==> !Skips(queue[p], represented, seen)))
  {
    hide Skips;
    if queue != [] {
      var n := |queue| - 1;
      var before, numbers := Wanted(queue[..n], represented, seen), Wanted(queue, represented, seen);
      WantedIs(queue[..n], represented, seen);
      assert numbers == before + (if Skips(queue[n], represented, seen) then [] else [n]);
      forall p: nat | p < |queue|
        ensures p in numbers <==> !Skips(queue[p], represented, seen)
      {
        assert p in numbers <==> p in before || (p == n && !Skips(queue[n], represented, seen));
        assert p in before ==> p < n;
        assert p < n ==> queue[..n][p] == queue[p];
      }
    }
  }

  /** `recorded` is what went into the transcript, if there is one. */
  datatype Delivery = Delivery(
    ledger: BranchLedger<Item>, seen: set<string>, prefetched: seq<Item>, represented: set<string>,
    recorded: Option<seq<Request>>)

  const KEPT := {Admitted, Discarded}

  /** `claim`: mark what is wanted, in order, and hand it out; nothing when the token is stale. */
  function ClaimOf(d: Delivery, token: nat): (Delivery, Option<seq<Item>>) {
    WantedIs(d.ledger.queue, d.represented, d.seen);
    var numbers := Wanted(d.ledger.queue, d.represented, d.seen);
    var ids := IdsAt(d.ledger.queue, numbers);
    if numbers == [] then (d, Some([]))
    else if Stale(d.ledger, token) then (d, None)
    else
      (d.(ledger := d.ledger.(queue := Marked(d.ledger.queue, ids, InputStatus.Claimed, KEPT)), seen := d.seen + SetOf(ids)),
       Some(ItemsAt(d.ledger.queue, numbers)))
  }

  datatype Screened = HaltInputs | Passed(items: seq<Item>)

  /** What the controls say at a model boundary: of the inputs, and before the model is asked. */
  datatype Policy = NoControls | Controls(screened: Screened, halts: bool, steers: seq<Payload>)

  datatype Turn = Requested(request: Request) | Halted | FencedOut | GoesOn | Stops | Unfinished

  predicate IsDropped(item: Item, surviving: set<string>) {
    item.origin.Some? && item.origin.value != "" && item.origin.value !in surviving
  }

  /** The queued inputs the screening took out: those it can name. An empty id names none. */
  function Dropped(pending: seq<Item>, surviving: set<string>): seq<Item> {
    if pending == [] then []
    else
      var last := pending[|pending| - 1];
      Dropped(pending[..|pending| - 1], surviving) + (if IsDropped(last, surviving) then [last] else [])
  }

  function Typed(prompts: seq<Payload>): seq<Item> {
    seq(|prompts|, i requires 0 <= i < |prompts| => Item(None, prompts[i]))
  }

  function Parts(items: seq<Item>): seq<Payload> {
    seq(|items|, i requires 0 <= i < |items| => items[i].part)
  }

  /** The request is rewritten in place: the parts that are no prompts, the inputs, and the steers behind them. */
  function Rewritten(others: seq<Payload>, inputs: seq<Item>, steers: seq<Payload>): Request {
    Request(others + Parts(inputs) + steers, Origins(inputs))
  }

  /** The request enters the history and the transcript. */
  function Told(d: Delivery, request: Request): Delivery {
    d.(represented := d.represented + SetOf(request.ids),
       recorded := if d.recorded.Some? then Some(d.recorded.value + [request]) else None)
  }

  /** The inputs become part of the request, and so of the history, and then are admitted. */
  function Entered(d: Delivery, token: nat, others: seq<Payload>, inputs: seq<Item>, steers: seq<Payload>): (Delivery, Turn) {
    var request := Rewritten(others, inputs, steers);
    var told := Told(d, request);
    if request.ids == [] then (told, Requested(request))
    else
      var (l, reply) := AdmitSet(d.ledger, request.ids, token);
      (told.(ledger := l), if reply.Refused? then FencedOut else Requested(request))
  }

  function Screening(
      d: Delivery, token: nat, others: seq<Payload>, pending: seq<Item>, screened: seq<Item>, halts: bool, steers: seq<Payload>)
    : (Delivery, Turn)
  {
    var dropped := Dropped(pending, SetOf(Origins(screened)));
    var (l, reply) := if dropped == [] then (d.ledger, Written) else DiscardSet(d.ledger, Origins(dropped), token);
    if reply.Refused? then (d, FencedOut)
    else if halts then (d.(ledger := l), Halted)
    else Entered(d.(ledger := l), token, others, screened, steers)
  }

  /** What the controls make of the inputs in hand, and of the model's turn. */
  function Judged(d: Delivery, token: nat, node: Node, policy: Policy, pending: seq<Item>): (Delivery, Turn) {
    var inputs := Typed(node.prompts) + pending;
    match policy
    case NoControls => Entered(d, token, node.others, inputs, [])
    case Controls(screened, halts, steers) =>
      if inputs == [] then (if halts then (d, Halted) else Entered(d, token, node.others, inputs, steers))
      else
        match screened
        case HaltInputs => (d, Halted)
        case Passed(items) => Screening(d, token, node.others, pending, items, halts, steers)
  }

  /** The model boundary: claim, screen, admit. */
  function Admission(d: Delivery, token: nat, node: Node, policy: Policy): (Delivery, Turn) {
    var (claimed, more) := ClaimOf(d.(prefetched := []), token);
    if more.None? then (claimed, FencedOut)
    else
      Judged(claimed, token, node, policy, d.prefetched + more.value)
  }

  /**
  The finish check. Only a round that finished, and did not park, is asked; a late input, or a verifier
  that objects, sends the run back to the model.
  */
  function FinishCheck(d: Delivery, token: nat, finished: bool, objects: bool): (Delivery, Turn) {
    if !finished then (d, Unfinished)
    else
      var (claimed, late) := ClaimOf(d, token);
      if late.None? then (claimed, FencedOut)
      else if late.value != [] then (claimed.(prefetched := late.value), GoesOn)
      else (claimed, if objects then GoesOn else Stops)
  }

  // ── what a claim and the finish check come to ────────────────────────────

  /** Neither delivered nor dropped, in no request of the history, and not claimed by this attempt before. */
  predicate IsLate(d: Delivery, p: nat)
    requires p < |d.ledger.queue|
  {
    var input := d.ledger.queue[p];
    input.status in {Pending, InputStatus.Claimed} && input.id !in d.represented && input.id !in d.seen
  }

  predicate HasLate(d: Delivery) {
    exists p :: 0 <= p < |d.ledger.queue| && IsLate(d, p)
  }

  lemma LateAre(d: Delivery)
    ensures var at := Wanted(d.ledger.queue, d.represented, d.seen);
      && Within(at, |d.ledger.queue|) && (at == [] <==> !HasLate(d))
      && (forall k, m :: 0 <= k < m < |at| ==> at[k] < at[m])
      && (forall p :: 0 <= p < |d.ledger.queue| ==> (p in at <==> IsLate(d, p)))
  {
    hide Wanted;
    var at := Wanted(d.ledger.queue, d.represented, d.seen);
    WantedIs(d.ledger.queue, d.represented, d.seen);
    if at != [] {
      assert at[0] in at;
      assert IsLate(d, at[0]);
    }
  }

  /**
  A claim hands out the late inputs, all of them and in submission order, and leaves what the attempt had in hand.
  It is refused as a whole exactly if there is one and the token is stale.
  */
  lemma ClaimIs(d: Delivery, token: nat) returns (at: seq<nat>)
    ensures var (after, items) := ClaimOf(d, token);
      && (items.None? <==> HasLate(d) && Stale(d.ledger, token))
      && (items.None? || !HasLate(d) ==> after == d)
      && after == d.(ledger := d.ledger.(queue := after.ledger.queue), seen := after.seen)
      && (items.Some? ==> |items.value| == |at| && (items.value == [] <==> !HasLate(d)))
      && (items.Some? ==> forall k :: 0 <= k < |at| ==> at[k] < |d.ledger.queue| && items.value[k] == d.ledger.queue[at[k]].value)
    ensures forall k, m :: 0 <= k < m < |at| ==> at[k] < at[m]
    ensures forall p :: 0 <= p < |d.ledger.queue| ==> (p in at <==> IsLate(d, p))
  {
    hide Wanted, IsLate, HasLate, SetOf, Marked, IdsAt;
    at := Wanted(d.ledger.queue, d.represented, d.seen);
    LateAre(d);
  }

  /** The claimed inputs, where no two have one id, are the ones that were late: they are claimed, and seen. */
  lemma ClaimTakes(d: Delivery, token: nat, p: nat)
    requires UniqueInputs(d.ledger.queue) && p < |d.ledger.queue| && ClaimOf(d, token).1.Some?
    ensures var after := ClaimOf(d, token).0;
      && |after.ledger.queue| == |d.ledger.queue|
      && (IsLate(d, p) ==> after.ledger.queue[p] == d.ledger.queue[p].(status := InputStatus.Claimed))
      && (!IsLate(d, p) ==> after.ledger.queue[p] == d.ledger.queue[p])
      && (d.ledger.queue[p].id in after.seen <==> IsLate(d, p) || d.ledger.queue[p].id in d.seen)
  {
    hide Wanted, HasLate, UniqueInputs;
    LateAre(d);
    var at := Wanted(d.ledger.queue, d.represented, d.seen);
    TakenByNumber(d.ledger.queue, at, p);
  }

  lemma TakenByNumber(queue: seq<Input<Item>>, at: seq<nat>, p: nat)
    requires UniqueInputs(queue) && Within(at, |queue|) && p < |queue|
    ensures queue[p].id in IdsAt(queue, at) <==> p in at
    ensures queue[p].id in SetOf(IdsAt(queue, at)) <==> p in at
  {
    var ids := IdsAt(queue, at);
    if k :| 0 <= k < |at| && at[k] == p {
      assert ids[k] == queue[p].id;
    }
    if k :| 0 <= k < |ids| && ids[k] == queue[p].id {
      assert at[k] == p;
    }
  }

  /**
  The finish check asks one question after the other. A run stops exactly if its round finished, nothing came in
  late and the verifier has no objection; what came in late keeps it going before the verifier is asked.
  */
  lemma FinishIs(d: Delivery, token: nat, finished: bool, objects: bool)
    ensures var (after, outcome) := FinishCheck(d, token, finished, objects);
      && (outcome == Unfinished <==> !finished)
      && (outcome == Stops <==> finished && !HasLate(d) && !objects)
      && (outcome == GoesOn <==> finished && if HasLate(d) then !Stale(d.ledger, token) else objects)
      && (outcome == FencedOut <==> finished && HasLate(d) && Stale(d.ledger, token))
      && (!(finished && HasLate(d) && !Stale(d.ledger, token)) ==> after.prefetched == d.prefetched)
      && (finished && HasLate(d) && !Stale(d.ledger, token) ==> Some(after.prefetched) == ClaimOf(d, token).1)
  {
    hide HasLate, ClaimOf, IsLate;
    var at := ClaimIs(d, token);
    var late := ClaimOf(d, token).1;
    assert late.None? <==> HasLate(d) && Stale(d.ledger, token);
    assert late.Some? ==> (late.value == [] <==> !HasLate(d));
    assert !HasLate(d) ==> ClaimOf(d, token).0 == d;
  }

  // ── the program ──────────────────────────────────────────────────────────

  /** `ids` and `items` are what is wanted of the first `n` inputs. */
  ghost predicate Chosen(
      queue: seq<Input<Item>>, represented: set<string>, seen: set<string>, n: nat, ids: seq<string>, items: seq<Item>)
    requires n <= |queue|
  {
    var numbers := Wanted(queue[..n], represented, seen);
    Within(numbers, n) && ids == IdsAt(queue, numbers) && items == ItemsAt(queue, numbers)
  }

  lemma NothingWanted(queue: seq<Input<Item>>, represented: set<string>, seen: set<string>)
    ensures Chosen(queue, represented, seen, 0, [], [])
    ensures seen + SetOf([]) == seen && Marked(queue, [], InputStatus.Claimed, KEPT) == queue
  {
  }

  lemma ChooseOne(
      queue: seq<Input<Item>>, represented: set<string>, seen: set<string>, n: nat, ids: seq<string>, items: seq<Item>)
    requires n < |queue| && Chosen(queue, represented, seen, n, ids, items)
    ensures if Skips(queue[n], represented, seen) then Chosen(queue, represented, seen, n + 1, ids, items)
      else Chosen(queue, represented, seen, n + 1, ids + [queue[n].id], items + [queue[n].value])
  {
    assert queue[..n + 1][..n] == queue[..n];
    var numbers := Wanted(queue[..n], represented, seen);
    if !Skips(queue[n], represented, seen) {
      assert Wanted(queue[..n + 1], represented, seen) == numbers + [n];
      assert Within(numbers + [n], n + 1);
      assert IdsAt(queue, numbers + [n]) == ids + [queue[n].id];
      assert ItemsAt(queue, numbers + [n]) == items + [queue[n].value];
    }
  }

  /** The inputs claimed before this one have other ids. */
  lemma ChosenAreOthers(
      queue: seq<Input<Item>>, represented: set<string>, seen: set<string>, n: nat, ids: seq<string>, items: seq<Item>)
    requires n < |queue| && UniqueInputs(queue) && Chosen(queue, represented, seen, n, ids, items)
    ensures queue[n].id !in SetOf(ids)
  {
  }

  lemma SetOfSnoc(ids: seq<string>, id: string)
    ensures SetOf(ids + [id]) == SetOf(ids) + {id}
  {
    forall x | x in SetOf(ids) + {id}
      ensures x in SetOf(ids + [id])
    {
      if x in SetOf(ids) {
        var i :| 0 <= i < |ids| && ids[i] == x;
        assert (ids + [id])[i] == x;
      } else {
        assert (ids + [id])[|ids|] == x;
      }
    }
  }

  lemma ClaimRefused(d: Delivery, token: nat, n: nat)
    requires n < |d.ledger.queue| && !Skips(d.ledger.queue[n], d.represented, d.seen) && Stale(d.ledger, token)
    ensures ClaimOf(d, token) == (d, None)
  {
    WantedIs(d.ledger.queue, d.represented, d.seen);
    assert n in Wanted(d.ledger.queue, d.represented, d.seen);
  }

  lemma ClaimDone(d: Delivery, token: nat, ids: seq<string>, items: seq<Item>)
    requires Chosen(d.ledger.queue, d.represented, d.seen, |d.ledger.queue|, ids, items)
    requires ids != [] ==> !Stale(d.ledger, token)
    ensures var (after, claimed) := ClaimOf(d, token);
      && after.ledger == d.ledger.(queue := Marked(d.ledger.queue, ids, InputStatus.Claimed, KEPT))
      && after.seen == d.seen + SetOf(ids) && claimed == Some(items)
  {
    var queue := d.ledger.queue;
    assert queue[..|queue|] == queue;
    NothingWanted(queue, d.represented, d.seen);
  }

  lemma QueueIsUnique(t: Tables<Item>, branch: string)
    requires GoodBranch(t, branch)
    ensures UniqueInputs(ViewOf(t, branch).queue)
  {
  }

  class InputSession {
    const store: MemorySteps<Item>
    const branch: string
    const token: nat
    var seen: set<string>

    constructor (store: MemorySteps<Item>, branch: string, token: nat)
      ensures this.store == store && this.branch == branch && this.token == token && seen == {}
    {
      this.store, this.branch, this.token, seen := store, branch, token, {};
    }

    ghost function Ledger(): BranchLedger<Item>
      requires store.Valid()
      reads store
    {
      store.View(branch)
    }

    /** Claim, in submission order, what is neither settled nor represented nor claimed before. */
    method Claim(represented: set<string>) returns (claimed: Option<seq<Item>>)
      requires store.Valid()
      modifies this, store
      ensures store.Valid()
      ensures var d := Delivery(old(Ledger()), old(seen), [], represented, None);
        var (after, items) := ClaimOf(d, token);
        && Moved(old(store.Now()), store.Now(), branch, after.ledger)
        && seen == after.seen && claimed == items
    {
      hide Moved, GoodBranch, ViewOf, Wanted, Marked, Chosen, SetOf, ClaimOf, UniqueInputs;
      ghost var t, l, before := store.Now(), Ledger(), seen;
      ghost var d := Delivery(l, before, [], represented, None);
      StoodStill(t, branch);
      QueueIsUnique(t, branch);
      NothingWanted(l.queue, represented, before);
      var items: seq<Item> := [];
      ghost var ids: seq<string> := [];
      var records := store.ListInputs(branch);
      var n := 0;
      while n < |records|
        invariant 0 <= n <= |records| == |l.queue| && store.Valid()
        invariant Chosen(l.queue, represented, before, n, ids, items)
        invariant seen == before + SetOf(ids)
        invariant ids != [] ==> !Stale(l, token)
        invariant Moved(t, store.Now(), branch, l.(queue := Marked(l.queue, ids, InputStatus.Claimed, KEPT)))
      {
        var record := records[n];
        ChooseOne(l.queue, represented, before, n, ids, items);
        ChosenAreOthers(l.queue, represented, before, n, ids, items);
        if !(IsFinal(record.status) || record.inputId in represented || record.inputId in seen) {
          ghost var u, m := store.Now(), l.(queue := Marked(l.queue, ids, InputStatus.Claimed, KEPT));
          MovedView(t, u, branch, m);
          var reply := store.Claim(branch, record.inputId, token);
          MovedTwice(t, u, store.Now(), branch, m, ClaimSet(m, record.inputId, token).0);
          if reply.Refused? {
            ClaimRefused(d, token, n);
            NothingWanted(l.queue, represented, before);
            return None;
          }
          MarkedMore(l.queue, ids, record.inputId, InputStatus.Claimed, KEPT);
          SetOfSnoc(ids, record.inputId);
          ids := ids + [record.inputId];
          seen := seen + {record.inputId};
          items := items + [record.value];
        }
        n := n + 1;
      }
      claimed := Some(items);
      ClaimDone(d, token, ids, items);
    }

    /** Admit or discard a group; an empty group asks nothing of the store. */
    method Settle(items: seq<Item>, to: InputStatus) returns (reply: Reply)
      requires store.Valid() && IsFinal(to)
      modifies store
      ensures store.Valid()
      ensures var ids := Origins(items);
        var (l, r) := if ids == [] then (old(Ledger()), Written)
          else if to == Admitted then AdmitSet(old(Ledger()), ids, token) else DiscardSet(old(Ledger()), ids, token);
        Moved(old(store.Now()), store.Now(), branch, l) && reply == r
    {
      hide Moved, GoodBranch, ViewOf, Marked;
      StoodStill(store.Now(), branch);
      var ids: seq<string> := [];
      var n := 0;
      while n < |items|
        invariant 0 <= n <= |items|
        invariant ids == Origins(items[..n])
      {
        assert items[..n + 1][..n] == items[..n];
        if items[n].origin.Some? {
          ids := ids + [items[n].origin.value];
        }
        n := n + 1;
      }
      assert items[..n] == items;
      if ids == [] { return Written; }
      if to == Admitted {
        reply := store.Admit(branch, ids, token);
      } else {
        reply := store.Discard(branch, ids, token);
      }
    }
  }

  /** What is dropped has names. */
  lemma {:induction false} DroppedNone(pending: seq<Item>, surviving: set<string>)
    ensures Dropped(pending, surviving) != [] <==> Origins(Dropped(pending, surviving)) != []
  {
    if pending != [] {
      var before, last := Dropped(pending[..|pending| - 1], surviving), pending[|pending| - 1];
      DroppedNone(pending[..|pending| - 1], surviving);
      if IsDropped(last, surviving) {
        assert (before + [last])[..|before|] == before;
        assert Origins(before + [last]) == Origins(before) + [last.origin.value];
      } else {
        assert before + [] == before;
      }
    }
  }

  /** The two places where an attempt takes inputs: before it asks the model, and before it finishes. */
  class TurnBoundary {
    const session: InputSession
    var prefetched: seq<Item>
    var represented: set<string>
    var recorded: Option<seq<Request>>

    constructor (session: InputSession, represented: set<string>, records: bool)
      ensures this.session == session && prefetched == [] && this.represented == represented
      ensures recorded == if records then Some([]) else None
    {
      this.session, prefetched, this.represented := session, [], represented;
      recorded := if records then Some([]) else None;
    }

    ghost function State(): Delivery
      requires session.store.Valid()
      reads this, session, session.store
    {
      Delivery(session.Ledger(), session.seen, prefetched, represented, recorded)
    }

    /** The branch moved as the ledger of `after` says, and this attempt with it. */
    ghost predicate Became(t: Tables<Item>, after: Delivery)
      requires session.store.Valid()
      reads this, session, session.store
    {
      Moved(t, session.store.Now(), session.branch, after.ledger) && State() == after
    }

    /** Put the inputs into the request, and so into history and transcript, then admit them. */
    method Enter(others: seq<Payload>, inputs: seq<Item>, steers: seq<Payload>) returns (outcome: Turn)
      requires session.store.Valid()
      modifies this, session.store
      ensures session.store.Valid()
      ensures var (after, o) := Entered(old(State()), session.token, others, inputs, steers);
        Became(old(session.store.Now()), after) && outcome == o
    {
      hide Moved, GoodBranch, ViewOf, Marked;
      ghost var t, d := session.store.Now(), State();
      StoodStill(t, session.branch);
      var ids: seq<string> := [];
      var parts: seq<Payload> := others;
      var n := 0;
      while n < |inputs|
        invariant 0 <= n <= |inputs|
        invariant ids == Origins(inputs[..n]) && parts == others + Parts(inputs[..n])
      {
        assert inputs[..n + 1][..n] == inputs[..n];
        assert Parts(inputs[..n + 1]) == Parts(inputs[..n]) + [inputs[n].part];
        if inputs[n].origin.Some? {
          ids := ids + [inputs[n].origin.value];
        }
        parts := parts + [inputs[n].part];
        n := n + 1;
      }
      assert inputs[..n] == inputs;
      var request := Request(parts + steers, ids);
      represented := represented + SetOf(ids);
      if recorded.Some? {
        recorded := Some(recorded.value + [request]);
      }
      var reply := session.Settle(inputs, Admitted);
      MovedView(t, session.store.Now(), session.branch,
        if ids == [] then d.ledger else AdmitSet(d.ledger, ids, session.token).0);
      outcome := if reply.Refused? then FencedOut else Requested(request);
    }

    /** Discard what the screening took out, then let the controls halt the run or the rest in. */
    method Screen(others: seq<Payload>, pending: seq<Item>, screened: seq<Item>, halts: bool, steers: seq<Payload>)
        returns (outcome: Turn)
      requires session.store.Valid()
      modifies this, session.store
      ensures session.store.Valid()
      ensures var (after, o) := Screening(old(State()), session.token, others, pending, screened, halts, steers);
        Became(old(session.store.Now()), after) && outcome == o
    {
      hide Moved, GoodBranch, ViewOf, Marked, Dropped, Entered;
      ghost var t, d := session.store.Now(), State();
      StoodStill(t, session.branch);
      var surviving := SetOf(Origins(screened));
      var dropped := Dropped(pending, surviving);
      DroppedNone(pending, surviving);
      var reply := Written;
      if dropped != [] {
        reply := session.Settle(dropped, Discarded);
      }
      ghost var u, l := session.store.Now(), if dropped == [] then d.ledger else DiscardSet(d.ledger, Origins(dropped), session.token).0;
      MovedView(t, u, session.branch, l);
      if reply.Refused? { return FencedOut; }
      if halts { return Halted; }
      outcome := Enter(others, screened, steers);
      MovedTwice(t, u, session.store.Now(), session.branch, l,
        Entered(d.(ledger := l), session.token, others, screened, steers).0.ledger);
    }

    /** The model boundary. */
    method Admit(node: Node, policy: Policy) returns (outcome: Turn)
      requires session.store.Valid()
      modifies this, session, session.store
      ensures session.store.Valid()
      ensures var (after, o) := Admission(old(State()), session.token, node, policy);
        Became(old(session.store.Now()), after) && outcome == o
    {
      hide Moved, GoodBranch, ViewOf, ClaimOf, Entered, Screening;
      ghost var t, d := session.store.Now(), State();
      var pending := prefetched;
      prefetched := [];
      var more := session.Claim(represented);
      ClaimKeeps(d, session.token);
      ghost var u, claimed := session.store.Now(), ClaimOf(d.(prefetched := []), session.token).0;
      MovedView(t, u, session.branch, claimed.ledger);
      if more.None? { return FencedOut; }
      pending := pending + more.value;
      var inputs := Typed(node.prompts) + pending;
      var steers := if policy.Controls? then policy.steers else [];
      if policy.NoControls? || (inputs == [] && !policy.halts) {
        outcome := Enter(node.others, inputs, steers);
        MovedTwice(t, u, session.store.Now(), session.branch, claimed.ledger,
          Entered(claimed, session.token, node.others, inputs, steers).0.ledger);
      } else if inputs == [] || policy.screened.HaltInputs? {
        outcome := Halted;
      } else {
        outcome := Screen(node.others, pending, policy.screened.items, policy.halts, steers);
        MovedTwice(t, u, session.store.Now(), session.branch, claimed.ledger,
          Screening(claimed, session.token, node.others, pending, policy.screened.items, policy.halts, steers).0.ledger);
      }
    }

    /** The finish check. `finished`: the round ended the run and did not park; `objects`: the verifier wants another turn. */
    method DecideFinish(finished: bool, objects: bool) returns (outcome: Turn)
      requires session.store.Valid()
      modifies this, session, session.store
      ensures session.store.Valid()
      ensures var (after, o) := FinishCheck(old(State()), session.token, finished, objects);
        Became(old(session.store.Now()), after) && outcome == o
      ensures outcome == Unfinished <==> !finished
      ensures outcome == Stops <==> finished && !HasLate(old(State())) && !objects
      ensures outcome == GoesOn <==> finished && if HasLate(old(State())) then !Stale(old(State()).ledger, session.token) else objects
    {
      hide Moved, GoodBranch, ViewOf, ClaimOf, HasLate;
      ghost var t, d := session.store.Now(), State();
      FinishIs(d, session.token, finished, objects);
      StoodStill(t, session.branch);
      if !finished { return Unfinished; }
      var late := session.Claim(represented);
      ClaimKeeps(d, session.token);
      ghost var claimed := ClaimOf(d, session.token).0;
      MovedView(t, session.store.Now(), session.branch, claimed.ledger);
      if late.None? { return FencedOut; }
      if late.value != [] {
        prefetched := late.value;
        return GoesOn;
      }
      outcome := if objects then GoesOn else Stops;
    }
  }

  /** Claiming leaves what is prefetched, represented and recorded, and looks at none but the second. */
  lemma ClaimKeeps(d: Delivery, token: nat)
    ensures var (after, items) := ClaimOf(d, token);
      && after.prefetched == d.prefetched && after.represented == d.represented && after.recorded == d.recorded
      && (forall held, told ::
        ClaimOf(d.(prefetched := held, recorded := told), token) == (after.(prefetched := held, recorded := told), items))
  {
  }
}
