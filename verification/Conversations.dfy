/**
Conversations share one ledger: a branch of a conversation is filed as `<conversation>/<branch>`, and
an unscoped branch under its own name. What one conversation sees through its view is a ledger of its
own, whatever goes on beside it.
*/
module Conversations {
  import opened Ledger

  function Filed(conversation: Option<string>, branch: string): string {
    match conversation
    case None => branch
    case Some(c) => c + "/" + branch
  }

  /** An operation on a branch, through the view of a conversation or on the unscoped store. */
  datatype Call<V> = Call(conversation: Option<string>, branch: string, op: Op<V>)

  type Store<V> = map<string, BranchLedger<V>>

  function BranchOf<V>(store: Store<V>, name: string): BranchLedger<V> {
    if name in store then store[name] else Empty()
  }

  function Perform<V(==)>(store: Store<V>, name: string, op: Op<V>): Store<V> {
    store[name := Apply(BranchOf(store, name), op).0]
  }

  function RunShared<V(==)>(store: Store<V>, calls: seq<Call<V>>): Store<V>
    decreases |calls|
  {
    if calls == [] then store
    else RunShared(Perform(store, Filed(calls[0].conversation, calls[0].branch), calls[0].op), calls[1..])
  }

  /** The replies the calls through one conversation's view get, in order. */
  function RepliesShared<V(==)>(store: Store<V>, calls: seq<Call<V>>, conversation: string): seq<Reply>
    decreases |calls|
  {
    if calls == [] then []
    else
      var name := Filed(calls[0].conversation, calls[0].branch);
      (if calls[0].conversation == Some(conversation) then [Apply(BranchOf(store, name), calls[0].op).1] else [])
      + RepliesShared(Perform(store, name, calls[0].op), calls[1..], conversation)
  }

  /** The same conversation's calls, alone, on a store of its own. */
  function Own<V>(calls: seq<Call<V>>, conversation: string): seq<Call<V>>
    decreases |calls|
  {
    if calls == [] then []
    else
      (if calls[0].conversation == Some(conversation) then [calls[0].(conversation := None)] else [])
      + Own(calls[1..], conversation)
  }

  function RepliesAlone<V(==)>(store: Store<V>, calls: seq<Call<V>>): seq<Reply>
    decreases |calls|
  {
    if calls == [] then []
    else
      [Apply(BranchOf(store, calls[0].branch), calls[0].op).1]
      + RepliesAlone(Perform(store, calls[0].branch, calls[0].op), calls[1..])
  }

  /** The call is the conversation's own, or lands outside the names it files under. */
  predicate Apart<V>(conversation: string, call: Call<V>) {
    call.conversation == Some(conversation) || !(conversation + "/" <= Filed(call.conversation, call.branch))
  }

  predicate SlashFree(s: string) {
    '/' !in s
  }

  ghost predicate Mirrors<V>(shared: Store<V>, own: Store<V>, conversation: string) {
    forall b :: BranchOf(shared, Filed(Some(conversation), b)) == BranchOf(own, b)
  }

  lemma FiledInjective(conversation: string, a: string, b: string)
    ensures Filed(Some(conversation), a) == Filed(Some(conversation), b) ==> a == b
    ensures conversation + "/" <= Filed(Some(conversation), a)
  {
    assert Filed(Some(conversation), a)[|conversation| + 1..] == a;
    assert Filed(Some(conversation), b)[|conversation| + 1..] == b;
  }

  lemma OwnCall<V>(shared: Store<V>, own: Store<V>, conversation: string, branch: string, op: Op<V>)
    requires Mirrors(shared, own, conversation)
    ensures var name := Filed(Some(conversation), branch);
      && BranchOf(shared, name) == BranchOf(own, branch)
      && Mirrors(Perform(shared, name, op), Perform(own, branch, op), conversation)
  {
    hide Apply;
    var name := Filed(Some(conversation), branch);
    assert BranchOf(shared, name) == BranchOf(own, branch);
    forall b
      ensures BranchOf(Perform(shared, name, op), Filed(Some(conversation), b)) == BranchOf(Perform(own, branch, op), b)
    {
      FiledInjective(conversation, b, branch);
      assert BranchOf(shared, Filed(Some(conversation), b)) == BranchOf(own, b);
    }
  }

  lemma OtherCall<V>(shared: Store<V>, own: Store<V>, conversation: string, name: string, op: Op<V>)
    requires Mirrors(shared, own, conversation) && !(conversation + "/" <= name)
    ensures Mirrors(Perform(shared, name, op), own, conversation)
  {
  }

  lemma {:induction false} IsolationFrom<V>(shared: Store<V>, own: Store<V>, calls: seq<Call<V>>, conversation: string)
    requires Mirrors(shared, own, conversation)
    requires forall i :: 0 <= i < |calls| ==> Apart(conversation, calls[i])
    ensures Mirrors(RunShared(shared, calls), RunShared(own, Own(calls, conversation)), conversation)
    ensures RepliesShared(shared, calls, conversation) == RepliesAlone(own, Own(calls, conversation))
    decreases |calls|
  {
    hide Apply, Perform, Mirrors, Filed;
    if calls != [] {
      var call := calls[0];
      var name := Filed(call.conversation, call.branch);
      var after := Perform(shared, name, call.op);
      if call.conversation == Some(conversation) {
        OwnCall(shared, own, conversation, call.branch, call.op);
        IsolationFrom(after, Perform(own, call.branch, call.op), calls[1..], conversation);
        assert Own(calls, conversation)[1..] == Own(calls[1..], conversation);
        assert Filed(None, call.branch) == call.branch by { UnscopedName(call.branch); }
      } else {
        OtherCall(shared, own, conversation, name, call.op);
        IsolationFrom(after, own, calls[1..], conversation);
        assert Own(calls, conversation) == Own(calls[1..], conversation);
      }
    }
  }

  lemma UnscopedName(branch: string)
    ensures Filed(None, branch) == branch
  {
  }

  /**
  Isolation: any history through one conversation's view, interleaved with anything through other
  views or the unscoped store, leaves that conversation the branches, and gives it the replies, of the
  same history alone. Leases, tokens, inputs and steps alike.
  */
  lemma Isolation<V>(calls: seq<Call<V>>, conversation: string)
    requires forall i :: 0 <= i < |calls| ==> Apart(conversation, calls[i])
    ensures Mirrors(RunShared(map[], calls), RunShared(map[], Own(calls, conversation)), conversation)
    ensures RepliesShared(map[], calls, conversation) == RepliesAlone(map[], Own(calls, conversation))
  {
    IsolationFrom(map[], map[], calls, conversation);
  }

  /** Slash-free conversation ids and slash-free unscoped branch ids keep every call apart. */
  lemma SlashFreeIsApart<V>(conversation: string, call: Call<V>)
    requires SlashFree(conversation)
    requires call.conversation.Some? ==> SlashFree(call.conversation.value)
    requires call.conversation.None? ==> SlashFree(call.branch)
    ensures Apart(conversation, call)
  {
    var name := Filed(call.conversation, call.branch);
    if conversation + "/" <= name {
      PrefixHasSlash(conversation, name);
      if call.conversation.Some? {
        var d := call.conversation.value;
        assert name == (conversation + "/") + name[|conversation| + 1..];
        SameName(conversation, d, name[|conversation| + 1..], call.branch);
        PrefixHasSlash(conversation, d);
        PrefixHasSlash(d, conversation);
      }
    }
  }

  lemma PrefixHasSlash(s: string, t: string)
    ensures s + "/" <= t ==> !SlashFree(t)
  {
    if s + "/" <= t {
      assert t[|s|] == (s + "/")[|s|];
    }
  }

  /** Two conversations can collide exactly when one id continues the other behind a slash. */
  lemma CollideExactly(c: string, d: string)
    ensures (exists a, b :: Filed(Some(c), a) == Filed(Some(d), b)) <==> c == d || c + "/" <= d || d + "/" <= c
  {
    if c == d {
      assert Filed(Some(c), "") == Filed(Some(d), "");
    } else if c + "/" <= d {
      var rest := d[|c| + 1..] + "/";
      assert d == (c + "/") + d[|c| + 1..];
      assert Filed(Some(c), rest) == Filed(Some(d), "");
    } else if d + "/" <= c {
      var rest := c[|d| + 1..] + "/";
      assert c == (d + "/") + c[|d| + 1..];
      assert Filed(Some(d), rest) == Filed(Some(c), "");
    }
    if exists a, b :: Filed(Some(c), a) == Filed(Some(d), b) {
      var a, b :| Filed(Some(c), a) == Filed(Some(d), b);
      SameName(c, d, a, b);
    }
  }

  lemma SameName(c: string, d: string, a: string, b: string)
    requires Filed(Some(c), a) == Filed(Some(d), b)
    ensures c == d || c + "/" <= d || d + "/" <= c
  {
    var name := Filed(Some(c), a);
    assert name[..|c|] == c && name[..|d|] == d;
    assert name[|c|] == '/' && name[|d|] == '/';
    if |c| < |d| {
      assert d[..|c| + 1] == name[..|c| + 1] == c + "/";
    } else if |d| < |c| {
      assert c[..|d| + 1] == name[..|d| + 1] == d + "/";
    }
  }

  /** Another conversation that cannot collide, and an unscoped name outside the prefix, stay apart. */
  lemma CannotCollideIsApart<V>(conversation: string, call: Call<V>)
    ensures match call.conversation
      case Some(d) => !(conversation + "/" <= d) && !(d + "/" <= conversation) ==> Apart(conversation, call)
      case None => Apart(conversation, call) <==> !(conversation + "/" <= call.branch)
  {
    if call.conversation.Some? && conversation + "/" <= Filed(call.conversation, call.branch) {
      var name := Filed(call.conversation, call.branch);
      assert name == (conversation + "/") + name[|conversation| + 1..];
      SameName(conversation, call.conversation.value, name[|conversation| + 1..], call.branch);
    }
  }

  /**
  The condition of isolation is exact: a foreign call that is not apart changes, in some history, a reply
  the conversation gets. It queues an input under a name the conversation files under.
  */
  lemma ApartIsExact<V>(conversation: string, foreign: Option<string>, branch: string, id: string, value: V)
    requires foreign != Some(conversation)
    ensures var call := Call(foreign, branch, Enqueue(id, value));
      !Apart(conversation, call) <==> exists own :: Disturbs(conversation, call, own)
  {
    var call := Call(foreign, branch, Enqueue(id, value));
    var name := Filed(foreign, branch);
    if !Apart(conversation, call) {
      var own := Call(Some(conversation), name[|conversation| + 1..], Enqueue(id, value));
      assert name == (conversation + "/") + name[|conversation| + 1..];
      CollisionShows(conversation, call, own, id, value);
    } else if own :| Disturbs(conversation, call, own) {
      Isolation([call, own], conversation);
    }
  }

  /** The conversation's own call is answered otherwise behind the foreign one than alone. */
  ghost predicate Disturbs<V>(conversation: string, foreign: Call<V>, own: Call<V>) {
    && own.conversation == Some(conversation)
    && RepliesShared(map[], [foreign, own], conversation) != RepliesAlone(map[], Own([foreign, own], conversation))
  }

  lemma CollisionShows<V>(conversation: string, foreign: Call<V>, own: Call<V>, id: string, value: V)
    requires foreign.conversation != Some(conversation) && own.conversation == Some(conversation)
    requires foreign.op == Enqueue(id, value) && own.op == Enqueue(id, value)
    requires Filed(foreign.conversation, foreign.branch) == Filed(own.conversation, own.branch)
    ensures Disturbs(conversation, foreign, own)
  {
    hide HasInput;
    var name := Filed(own.conversation, own.branch);
    var calls := [foreign, own];
    assert calls[1..] == [own] && [own][1..] == [];
    var after := Perform(map[], name, foreign.op);
    var queue := BranchOf(after, name).queue;
    assert queue == [Input(id, Pending, value)] by { EmptyHasNothing<V>(id); }
    FirstIsThere(queue, id);
    EmptyHasNothing<V>(id);
    assert RepliesShared(map[], calls, conversation)
        == [] + RepliesShared(after, [own], conversation) == [Inserted(false)] + RepliesShared(Perform(after, name, own.op), [], conversation);
    var alone := [own.(conversation := None)];
    assert Own([own], conversation) == alone;
    assert Own(calls, conversation) == alone;
    assert RepliesAlone(map[], alone)[0] == Inserted(true);
    assert RepliesShared(map[], calls, conversation)[0] == Inserted(false);
  }

  lemma EmptyHasNothing<V>(id: string)
    ensures !HasInput<V>([], id)
  {
  }

  lemma FirstIsThere<V>(queue: seq<Input<V>>, id: string)
    requires queue != [] && queue[0].id == id
    ensures HasInput(queue, id)
  {
  }

  /** A slash in a conversation id makes two conversations one branch. */
  lemma SlashesCollide()
    ensures Filed(Some("chat/a"), "b") == Filed(Some("chat"), "a/b")
  {
  }
}
