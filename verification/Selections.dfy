/** A part of a sequence, in its order: told by the positions it was taken from. */
module Selections {

  /** `kept` is what stands in `s` at the positions `at`, which rise. */
  ghost predicate InOrder<T>(kept: seq<T>, s: seq<T>, at: seq<nat>) {
    && |at| == |kept|
    && (forall k :: 0 <= k < |at| ==> at[k] < |s| && kept[k] == s[at[k]])
    && (forall k, m :: 0 <= k < m < |at| ==> at[k] < at[m])
  }

  /** One element more at the end, taken or passed over. */
  lemma OneMore<T>(kept: seq<T>, s: seq<T>, at: seq<nat>)
    requires s != [] && InOrder(kept, s[..|s| - 1], at)
    ensures InOrder(kept, s, at) && InOrder(kept + [s[|s| - 1]], s, at + [|s| - 1])
    ensures forall i :: 0 <= i < |s| - 1 ==> (i in at + [|s| - 1] <==> i in at)
    ensures |s| - 1 !in at
  {
    assert forall k :: 0 <= k < |at| ==> s[..|s| - 1][at[k]] == s[at[k]];
  }
}
