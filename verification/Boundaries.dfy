/**
What a model boundary comes to, told by what the attempt holds, what comes in late and what the controls say: what
the model is asked, in which order, and what becomes of each queued input.
*/
module Boundaries {
  import opened Ledger
  import opened LedgerHistory
  import opened Inputs
  import InputDelivery

  predicate Comes(items: seq<Item>, id: string) {
    exists i :: 0 <= i < |items| && items[i].origin == Some(id)
  }

  /** `ids` are those of the items that have one, taken from the positions `at`, in order. */
  ghost predicate Named(ids: seq<string>, items: seq<Item>, at: seq<nat>) {
    && |ids| == |at|
    && (forall k, m :: 0 <= k < m < |at| ==> at[k] < at[m])
    && (forall k :: 0 <= k < |at| ==> at[k] < |items| && items[at[k]].origin == Some(ids[k]))
    && (forall i :: 0 <= i < |items| ==> (i in at <==> items[i].origin.Some?))
  }

  lemma NamedMore(ids: seq<string>, items: seq<Item>, at: seq<nat>)
    requires items != [] && Named(ids, items[..|items| - 1], at)
    ensures var last := |items| - 1;
      && (items[last].origin.None? ==> Named(ids, items, at))
      && (items[last].origin.Some? ==> Named(ids + [items[last].origin.value], items, at + [last]))
  {
    var before := items[..|items| - 1];
    assert forall i :: 0 <= i < |before| ==> before[i] == items[i];
    assert forall i :: 0 <= i < |before| ==> (i in at + [|items| - 1] <==> i in at);
    assert |items| - 1 !in at;
  }

  lemma {:induction false} OriginsInOrder(items: seq<Item>) returns (at: seq<nat>)
    ensures Named(Origins(items), items, at)
  {
    at := [];
    if items != [] {
      hide Named;
      at := OriginsInOrder(items[..|items| - 1]);
      NamedMore(Origins(items[..|items| - 1]), items, at);
      if items[|items| - 1].origin.Some? {
        at := at + [|items| - 1];
      } else {
        assert Origins(items) == Origins(items[..|items| - 1]);
      }
    }
  }

  /** The other parts first, then the inputs, then the steers; and the ids of the inputs that have one, in order. */
  ghost predicate Asks(request: Request, others: seq<Payload>, inputs: seq<Item>, steers: seq<Payload>) {
    && |request.parts| == |others| + |inputs| + |steers|
    && (forall i :: 0 <= i < |others| ==> request.parts[i] == others[i])
    && (forall i :: 0 <= i < |inputs| ==> request.parts[|others| + i] == inputs[i].part)
    && (forall i :: 0 <= i < |steers| ==> request.parts[|others| + |inputs| + i] == steers[i])
    && exists at :: Named(request.ids, inputs, at)
  }

  lemma RewrittenIs(others: seq<Payload>, inputs: seq<Item>, steers: seq<Payload>)
    ensures Asks(Rewritten(others, inputs, steers), others, inputs, steers)
  {
    hide Origins, Named;
    var at := OriginsInOrder(inputs);
  }

  /** Each queued input the items name is set to this status, unless it is discarded for good; nothing else moves. */
  ghost predicate Settles(l: BranchLedger<Item>, m: BranchLedger<Item>, items: seq<Item>, to: InputStatus) {
    && m == l.(queue := m.queue) && |m.queue| == |l.queue|
    && (forall p :: 0 <= p < |l.queue| ==>
      m.queue[p] == if Comes(items, l.queue[p].id) && l.queue[p].status != Discarded then l.queue[p].(status := to) else l.queue[p])
  }

  /**
  Into the request: it is in the history and the transcript in any case, and its queued inputs are admitted then.
  A stale token is found out too late to keep them out.
  */
  ghost predicate Enters(
      d: Delivery, token: nat, others: seq<Payload>, inputs: seq<Item>, steers: seq<Payload>, after: Delivery, outcome: Turn)
  {
    var queued := exists i :: 0 <= i < |inputs| && inputs[i].origin.Some?;
    && after == d.(ledger := after.ledger, represented := after.represented, recorded := after.recorded)
    && (forall id :: id in after.represented <==> id in d.represented || Comes(inputs, id))
    && (after.recorded.Some? <==> d.recorded.Some?)
    && (after.recorded.Some? ==> |after.recorded.value| > 0 && after.recorded.value[..|after.recorded.value| - 1] == d.recorded.value)
    && (after.recorded.Some? ==> Asks(after.recorded.value[|after.recorded.value| - 1], others, inputs, steers))
    && (queued && Stale(d.ledger, token) ==> outcome == FencedOut && after.ledger == d.ledger)
    && (!(queued && Stale(d.ledger, token)) ==>
      && outcome.Requested? && Asks(outcome.request, others, inputs, steers)
      && (after.recorded.Some? ==> after.recorded.value[|after.recorded.value| - 1] == outcome.request)
      && Settles(d.ledger, after.ledger, inputs, Admitted))
  }

  lemma MarkSettles(l: BranchLedger<Item>, items: seq<Item>, to: InputStatus, kept: set<InputStatus>)
    requires kept == {Discarded} || (kept == {} && to == Discarded)
    ensures Settles(l, l.(queue := Marked(l.queue, Origins(items), to, kept)), items, to)
  {
    hide Origins;
    InputDelivery.OriginsAre(items);
  }

  lemma EnteredIs(d: Delivery, token: nat, others: seq<Payload>, inputs: seq<Item>, steers: seq<Payload>)
    ensures var (after, outcome) := Entered(d, token, others, inputs, steers);
      Enters(d, token, others, inputs, steers, after, outcome)
  {
    hide Origins, Marked, Asks, Settles, SetOf;
    RewrittenIs(others, inputs, steers);
    var origins := OriginsInOrder(inputs);
    InputDelivery.OriginsAre(inputs);
    InputDelivery.InSet(Origins(inputs));
    MarkSettles(d.ledger, inputs, Admitted, {Discarded});
    NoIdsNoMark(d.ledger);
    if Origins(inputs) != [] {
      assert inputs[origins[0]].origin.Some?;
    }
    if i :| 0 <= i < |inputs| && inputs[i].origin.Some? {
      assert i in origins;
    }
  }

  lemma NoIdsNoMark(l: BranchLedger<Item>)
    ensures Marked(l.queue, [], Admitted, {Discarded}) == l.queue
  {
  }

  /** The prompts of the request come before what was queued. */
  ghost predicate Gathers(inputs: seq<Item>, prompts: seq<Payload>, pending: seq<Item>) {
    && |inputs| == |prompts| + |pending|
    && (forall i :: 0 <= i < |prompts| ==> inputs[i] == Item(None, prompts[i]))
    && (forall i :: 0 <= i < |pending| ==> inputs[|prompts| + i] == pending[i])
  }

  /** The screening took it out, and it has a name to be discarded by. */
  predicate TakenOut(pending: seq<Item>, items: seq<Item>, id: string) {
    Comes(pending, id) && id != "" && !Comes(items, id)
  }

  /** What the screening took out is discarded, whatever became of it meanwhile. */
  ghost predicate Drops(l: BranchLedger<Item>, m: BranchLedger<Item>, pending: seq<Item>, items: seq<Item>) {
    && m == l.(queue := m.queue) && |m.queue| == |l.queue|
    && (forall p :: 0 <= p < |l.queue| ==>
      m.queue[p] == if TakenOut(pending, items, l.queue[p].id) then l.queue[p].(status := Discarded) else l.queue[p])
  }

  /** The screened inputs: those it took out are dropped before the controls may halt, and the rest goes in. */
  ghost predicate Screens(
      d: Delivery, token: nat, others: seq<Payload>, pending: seq<Item>, items: seq<Item>, halts: bool, steers: seq<Payload>,
      after: Delivery, outcome: Turn)
  {
    var drops := exists id :: TakenOut(pending, items, id);
    if drops && Stale(d.ledger, token) then after == d && outcome == FencedOut
    else
      exists m :: Drops(d.ledger, m, pending, items)
        && if halts then after == d.(ledger := m) && outcome == Halted
           else Enters(d.(ledger := m), token, others, items, steers, after, outcome)
  }

  lemma DropsAre(l: BranchLedger<Item>, pending: seq<Item>, items: seq<Item>)
    ensures var dropped := Dropped(pending, SetOf(Origins(items)));
      && (dropped != [] <==> exists id :: TakenOut(pending, items, id))
      && Drops(l, l.(queue := Marked(l.queue, Origins(dropped), Discarded, {})), pending, items)
      && (dropped == [] ==> Drops(l, l, pending, items))
  {
    hide Origins, Dropped, SetOf;
    var surviving := SetOf(Origins(items));
    InputDelivery.DroppedAre(pending, surviving);
    InputDelivery.OriginsAre(pending);
    InputDelivery.OriginsAre(items);
    InputDelivery.InSet(Origins(items));
    DroppedNone(pending, surviving);
    var dropped := Dropped(pending, surviving);
    assert forall id :: id in Origins(dropped) <==> TakenOut(pending, items, id);
    if Origins(dropped) != [] {
      assert Origins(dropped)[0] in Origins(dropped);
    }
  }

  lemma ScreeningIs(
      d: Delivery, token: nat, others: seq<Payload>, pending: seq<Item>, items: seq<Item>, halts: bool, steers: seq<Payload>)
    ensures var (after, outcome) := Screening(d, token, others, pending, items, halts, steers);
      Screens(d, token, others, pending, items, halts, steers, after, outcome)
  {
    hide Origins, Dropped, SetOf, Drops, TakenOut, Marked, Entered, Enters;
    DropsAre(d.ledger, pending, items);
    var dropped := Dropped(pending, SetOf(Origins(items)));
    var m := if dropped == [] then d.ledger else d.ledger.(queue := Marked(d.ledger.queue, Origins(dropped), Discarded, {}));
    EnteredIs(d.(ledger := m), token, others, items, steers);
  }

  /**
  A model boundary: nothing in hand and nothing to say is asked as it is; the controls may halt on the inputs
  before any of them is dropped, or before the model is asked, after those are dropped that the screening took out.
  */
  ghost predicate Judges(d: Delivery, token: nat, node: Node, policy: Policy, pending: seq<Item>, after: Delivery, outcome: Turn) {
    exists inputs :: Gathers(inputs, node.prompts, pending)
      && match policy
        case NoControls => Enters(d, token, node.others, inputs, [], after, outcome)
        case Controls(screened, halts, steers) =>
          && (inputs == [] && halts ==> after == d && outcome == Halted)
          && (inputs == [] && !halts ==> Enters(d, token, node.others, [], steers, after, outcome))
          && (inputs != [] && screened.HaltInputs? ==> after == d && outcome == Halted)
          && (inputs != [] && screened.Passed? ==>
            Screens(d, token, node.others, pending, screened.items, halts, steers, after, outcome))
  }

  lemma JudgedIs(d: Delivery, token: nat, node: Node, policy: Policy, pending: seq<Item>)
    ensures var (after, outcome) := Judged(d, token, node, policy, pending); Judges(d, token, node, policy, pending, after, outcome)
  {
    hide Entered, Enters, Screening, Screens;
    var inputs := Typed(node.prompts) + pending;
    assert Gathers(inputs, node.prompts, pending);
    EnteredIs(d, token, node.others, inputs, if policy.Controls? then policy.steers else []);
    if policy.Controls? && policy.screened.Passed? {
      ScreeningIs(d, token, node.others, pending, policy.screened.items, policy.halts, policy.steers);
    }
  }

  /** What was in hand comes before what was late, and nothing is in hand any more. */
  lemma AdmissionIs(d: Delivery, token: nat, node: Node, policy: Policy)
    ensures var (after, outcome) := Admission(d, token, node, policy);
      var (claimed, late) := ClaimOf(d, token);
      if late.None? then after == d.(prefetched := []) && outcome == FencedOut
      else Judges(claimed.(prefetched := []), token, node, policy, d.prefetched + late.value, after, outcome)
  {
    hide ClaimOf, Judged, Judges, IsLate, HasLate;
    var at := ClaimIs(d, token);
    ClaimKeeps(d, token);
    assert ClaimOf(d.(prefetched := [], recorded := d.recorded), token)
      == (ClaimOf(d, token).0.(prefetched := [], recorded := d.recorded), ClaimOf(d, token).1);
    if ClaimOf(d, token).1.Some? {
      JudgedIs(ClaimOf(d, token).0.(prefetched := []), token, node, policy, d.prefetched + ClaimOf(d, token).1.value);
    }
  }
}
