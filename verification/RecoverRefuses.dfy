/**
A history that `recover` refuses although an attempt reached it: the model has answered, and the calls of the
answer are not on record as the round yet, so an attempt that ends here leaves the round before on record.
A host that keeps the messages itself can hold such a history; the transcript gets a response only behind its
round.
*/
module RecoverRefuses {
  import opened Ledger
  import opened Attempts
  import opened Replay
  import opened CrashReplay
  import opened ReusedIds

  /** One response calls `x` and every other one `y`; the gate denies them all. */
  function TwoRounds(first: Payload, denied: Payload): Driver {
    Driver(false,
      (bodies: seq<Body>) => Tally(|bodies|),
      (response: Payload) => if response == first then ["x"] else ["y"],
      (bodies: seq<Body>, i: nat) => Deny(denied),
      (bodies: seq<Body>, told: seq<Told>) => denied,
      (bodies: seq<Body>) => None)
  }

  /** No call is ever started. */
  lemma {:induction false} DeniedIsConsistent(r: Runs, first: Payload, denied: Payload, moves: seq<Move>)
    requires IsRunOf(r, TwoRounds(first, denied), moves)
    ensures ConsistentRun(r, TwoRounds(first, denied), moves)
    decreases |moves|
  {
    hide Moved, Allowed, CallsOf;
    if moves != [] {
      assert !(moves[0].Own? && IsStarting(r, TwoRounds(first, denied), moves[0].owner));
      DeniedIsConsistent(Moved(r, TwoRounds(first, denied), moves[0]), first, denied, moves[1..]);
    }
  }

  lemma Histories(first: Payload, second: Payload, denied: Payload)
    ensures var h := [Message(Ask(first), 0), Message(Say(first), 0), Message(Ask(denied), 0), Message(Say(second), 0)];
      && Bodies(h) == [Ask(first), Say(first), Ask(denied), Say(second)]
      && h[..1] == [Message(Ask(first), 0)] && |Bodies(h[..1])| == 1
      && h[..1] + [h[1]] == h[..2] && h[..2] + [h[2]] == h[..3] && h[..3] + [h[3]] == h
      && Bodies(h[..2]) == [Ask(first), Say(first)] && |Bodies(h[..3])| == 3
  {
  }

  /** The first round is recorded and denied; then the model answers again, and that is all. */
  lemma CutOff(first: Payload, second: Payload, denied: Payload) returns (moves: seq<Move>)
    requires first != second
    ensures IsRunOf(Opening([Ask(first)]), TwoRounds(first, denied), moves)
    ensures var r := AfterAll(Opening([Ask(first)]), TwoRounds(first, denied), moves);
      r.trail == [Ask(first), Say(first), Ask(denied), Say(second)] && RecordedRound(r.world.ledger) == Some(["x"])
  {
    hide KeyOf, StandsAt, Steps, IsRunOf, AfterAll, Repeated, Bodies, StepKey;
    var d := TwoRounds(first, denied);
    var h := [Message(Ask(first), 0), Message(Say(first), 0), Message(Ask(denied), 0), Message(Say(second), 0)];
    Histories(first, second, denied);
    KeysOfFickle();
    var k1, k3 := KeyOf(ModelRequest(Tally(1))), KeyOf(ModelRequest(Tally(3)));
    var start := Begins(d, first);
    var a := ModelTurn(start, d, h[..1], map[], first);
    var s1: map<string, Step<Value>> := map[][k1 := Done(Response(first))];
    var b := RoundOpens(a, d, h[..2], s1, first);
    var s2 := s1[PENDING_ROUND := Done(PendingRound(["x"], 0))];
    StandsSteps(b, h[..2], true, [], s2);
    var c := RoundDenied(b, d, h[..2], s2, first, denied);
    var end := ModelTurn(c, d, h[..3], s2, second);
    StandsSteps(end, h, false, [], s2[k3 := Done(Response(second))]);
    StepsJoin(start, d, Again(first), 7, a, 1, b);
    StepsJoin(start, d, Again(first), 8, b, 2, c);
    StepsAreRun(start, d, Again(first), 10, c);
    StepsAreRun(c, d, Again(second), 7, end);
    var opening := [Beside(Join(ME, 0.0, 1.0, true, false)), Enter(ME, h[..1], false)];
    var tail := Repeated(Again(first), 10);
    RunsJoin(Opening([Ask(first)]), d, opening, tail);
    RunsJoin(Opening([Ask(first)]), d, opening + tail, Repeated(Again(second), 7));
    moves := opening + tail + Repeated(Again(second), 7);
  }

  /**
  From an empty ledger, by one attempt that obeys the condition of crash replay: nobody can recover the full
  history, whatever its volatile fields; the one without the last answer `recover` takes.
  */
  lemma FullHistoryIsRefused(first: Payload, second: Payload, denied: Payload) returns (moves: seq<Move>)
    requires first != second
    ensures IsRunOf(Opening([Ask(first)]), TwoRounds(first, denied), moves)
    ensures ConsistentRun(Opening([Ask(first)]), TwoRounds(first, denied), moves)
    ensures var r := AfterAll(Opening([Ask(first)]), TwoRounds(first, denied), moves);
      && r.trail == [Ask(first), Say(first), Ask(denied), Say(second)]
      && (forall owner, history :: Bodies(history) == r.trail ==>
        !Allowed(r, TwoRounds(first, denied), Enter(owner, history, true)))
      && Accepts(r.world.ledger, CallsAt(TwoRounds(first, denied), r.trail, 3))
  {
    hide IsRunOf, AfterAll, ConsistentRun;
    moves := CutOff(first, second, denied);
    DeniedIsConsistent(Opening([Ask(first)]), first, denied, moves);
    var d, r := TwoRounds(first, denied), AfterAll(Opening([Ask(first)]), TwoRounds(first, denied), moves);
    assert CallsOf(d, r.trail) == ["y"];
    assert CallsAt(d, r.trail, 3) == [];
    assert !Accepts(r.world.ledger, ["y"]) by {
      assert ["y"][0] !in ["x"];
    }
  }
}
