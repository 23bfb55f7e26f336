/**
The append-only transcript as a value: entry identity, the active branch and its walk.

An entry's identifier is a hash of its parent's identifier (or, for a leaf marker, of a timestamp) and
of its body without volatile fields. It is modelled as that pair itself, which is the hash taken to be
injective.
*/
module TranscriptLog {
  import opened Ledger

  datatype Json =
    | Null
    | Bool(b: bool)
    | Number(n: int)
    | Text(text: string)
    | List(items: seq<Json>)
    | Object(fields: map<string, Json>)

  const VOLATILE := {
    "timestamp", "run_id", "branch_id", "conversation_id", "usage", "provider_details",
    "provider_response_id", "provider_name", "provider_url", "finish_reason", "model_name" }

  /** The value without its volatile fields, in nested objects and lists as well. */
  function Stripped(value: Json): Json {
    match value
    case List(items) => List(seq(|items|, i requires 0 <= i < |items| => Stripped(items[i])))
    case Object(fields) => Object(map k | k in fields && k !in VOLATILE :: Stripped(fields[k]))
    case _ => value
  }

  lemma {:induction false} StrippedIsStable(value: Json)
    ensures Stripped(Stripped(value)) == Stripped(value)
  {
    match value
    case List(items) =>
      forall i | 0 <= i < |items| { StrippedIsStable(items[i]); }
      assert Stripped(Stripped(value)).items == Stripped(value).items;
    case Object(fields) =>
      forall k | k in fields && k !in VOLATILE { StrippedIsStable(fields[k]); }
      assert Stripped(Stripped(value)).fields == Stripped(value).fields;
    case _ =>
  }

  // ── entries and identity ─────────────────────────────────────────────────

  datatype Slot = Root | Parent(parent: Uuid) | Stamp(at: int)

  datatype Content = Message(body: Json) | LeafAt(target: Option<Uuid>) | Deletion(of: Uuid)

  datatype Uuid = Uuid(slot: Slot, content: Content)

  datatype Entry =
    | Chained(uuid: Uuid, parent: Option<Uuid>, message: Json)
    | Leaf(uuid: Uuid, leaf: Option<Uuid>)
    | Tombstone(uuid: Uuid, deleted: Uuid)

  function EntryId(parent: Option<Uuid>, message: Json): Uuid {
    Uuid(if parent.Some? then Parent(parent.value) else Root, Message(Stripped(message)))
  }

  function MessageEntry(parent: Option<Uuid>, message: Json): Entry {
    Chained(EntryId(parent, message), parent, message)
  }

  function LeafMarker(at: int, leaf: Option<Uuid>): Entry {
    Leaf(Uuid(Stamp(at), LeafAt(leaf)), leaf)
  }

  predicate HasUuid(log: seq<Entry>, uuid: Uuid) {
    exists i :: 0 <= i < |log| && log[i].uuid == uuid
  }

  predicate HasEntry(log: seq<Entry>, uuid: Uuid) {
    exists i :: 0 <= i < |log| && log[i].Chained? && log[i].uuid == uuid
  }

  /** `append`: an identity the conversation already holds is absorbed. */
  function Appended(log: seq<Entry>, entry: Entry): seq<Entry> {
    if HasUuid(log, entry.uuid) then log else log + [entry]
  }

  // ── the active branch, on arbitrary entries ──────────────────────────────

  /** The chained entries by identifier; a later one with the same identifier wins. */
  function ChainOf(log: seq<Entry>): (chain: map<Uuid, Entry>)
    ensures forall u :: u in chain ==> chain[u].Chained? && chain[u].uuid == u && chain[u] in log
    ensures forall u :: u in chain <==> HasEntry(log, u)
  {
    if log == [] then map[]
    else
      var n := |log| - 1;
      var chain := ChainOf(log[..n]);
      assert log == log[..n] + [log[n]];
      assert forall u :: HasEntry(log, u) <==> HasEntry(log[..n], u) || (log[n].Chained? && log[n].uuid == u) by {
        forall u | HasEntry(log, u)
          ensures HasEntry(log[..n], u) || (log[n].Chained? && log[n].uuid == u)
        {
          var i :| 0 <= i < |log| && log[i].Chained? && log[i].uuid == u;
          assert i < n ==> log[..n][i] == log[i];
        }
      }
      if log[n].Chained? then chain[log[n].uuid := log[n]] else chain
  }

  function BuriedIn(log: seq<Entry>): set<Uuid> {
    set i | 0 <= i < |log| && log[i].Tombstone? :: log[i].deleted
  }

  /** The newest entry that moves the tip decides it: a chained entry, or a leaf marker. */
  function Tip(log: seq<Entry>): Option<Uuid> {
    if log == [] then None
    else
      match log[|log| - 1]
      case Chained(uuid, _, _) => Some(uuid)
      case Leaf(_, leaf) => leaf
      case Tombstone(_, _) => Tip(log[..|log| - 1])
  }

  /** From a tip up the parent links, until they end, dangle, or come back; in chronological order. */
  function Walk(chain: map<Uuid, Entry>, tip: Option<Uuid>, seen: set<Uuid>): seq<Entry>
    requires forall u :: u in chain ==> chain[u].Chained?
    decreases |chain.Keys - seen|
  {
    if tip.None? || tip.value !in chain || tip.value in seen then []
    else
      assert chain.Keys - (seen + {tip.value}) < chain.Keys - seen by {
        assert tip.value in chain.Keys - seen;
      }
      FewerLeft(chain.Keys - (seen + {tip.value}), chain.Keys - seen);
      Walk(chain, chain[tip.value].parent, seen + {tip.value}) + [chain[tip.value]]
  }

  lemma FewerLeft(a: set<Uuid>, b: set<Uuid>)
    requires a < b
    ensures |a| < |b|
  {
    assert b == a + (b - a);
    assert b - a != {};
  }

  function Visible(buried: set<Uuid>, branch: seq<Entry>): seq<Entry> {
    if branch == [] then []
    else
      var n := |branch| - 1;
      Visible(buried, branch[..n]) + (if branch[n].uuid in buried then [] else [branch[n]])
  }

  function ActiveBranch(log: seq<Entry>): seq<Entry> {
    Visible(BuriedIn(log), Walk(ChainOf(log), Tip(log), {}))
  }

  predicate Within(walk: seq<Entry>, uuid: Uuid) {
    exists i :: 0 <= i < |walk| && walk[i].uuid == uuid
  }

  /** Why a walk stopped: at a root, at a link to nothing, or at an entry already passed. */
  predicate Stops(chain: map<Uuid, Entry>, tip: Option<Uuid>, seen: set<Uuid>, walk: seq<Entry>) {
    var link := if walk != [] && walk[0].Chained? then walk[0].parent else tip;
    link.None? || link.value !in chain || link.value in seen || Within(walk, link.value)
  }

  /** On any entries, cyclic parents included: a walk is parent-linked and repeats nothing. */
  lemma {:induction false} WalkShape(chain: map<Uuid, Entry>, tip: Option<Uuid>, seen: set<Uuid>)
    requires forall u :: u in chain ==> chain[u].Chained? && chain[u].uuid == u
    ensures var walk := Walk(chain, tip, seen);
      && (forall i :: 0 <= i < |walk| ==> walk[i].uuid in chain && walk[i] == chain[walk[i].uuid] && walk[i].uuid !in seen)
      && (forall i :: 0 < i < |walk| ==> walk[i].parent == Some(walk[i - 1].uuid))
      && (forall i, j :: 0 <= i < j < |walk| ==> walk[i].uuid != walk[j].uuid)
      && (walk != [] ==> tip == Some(walk[|walk| - 1].uuid))
      && Stops(chain, tip, seen, walk)
    decreases |chain.Keys - seen|
  {
    if tip.Some? && tip.value in chain && tip.value !in seen {
      assert tip.value in chain.Keys - seen;
      FewerLeft(chain.Keys - (seen + {tip.value}), chain.Keys - seen);
      var up, seen' := chain[tip.value].parent, seen + {tip.value};
      WalkShape(chain, up, seen');
      var rest, walk := Walk(chain, up, seen'), Walk(chain, tip, seen);
      assert walk == rest + [chain[tip.value]];
      assert walk[|walk| - 1].uuid == tip.value;
      forall u | Within(rest, u)
        ensures Within(walk, u)
      {
        var i :| 0 <= i < |rest| && rest[i].uuid == u;
        assert walk[i].uuid == u;
      }
      assert Within(walk, tip.value);
      assert Stops(chain, up, seen', rest);
    }
  }

  lemma {:induction false} VisibleAppend(buried: set<Uuid>, a: seq<Entry>, b: seq<Entry>)
    ensures Visible(buried, a + b) == Visible(buried, a) + Visible(buried, b)
  {
    if b == [] {
      assert a + b == a;
    } else {
      var n := |b| - 1;
      assert (a + b)[..|a + b| - 1] == a + b[..n];
      VisibleAppend(buried, a, b[..n]);
    }
  }

  lemma {:induction false} NothingBuried(branch: seq<Entry>)
    ensures Visible({}, branch) == branch
  {
    if branch != [] {
      NothingBuried(branch[..|branch| - 1]);
    }
  }

  function Reversed<T>(s: seq<T>): seq<T> {
    if s == [] then [] else [s[|s| - 1]] + Reversed(s[..|s| - 1])
  }

  lemma ReversedSnoc<T>(s: seq<T>, x: T)
    ensures Reversed(s + [x]) == [x] + Reversed(s)
  {
    assert (s + [x])[..|s|] == s;
  }

  lemma WalkOneUp(chain: map<Uuid, Entry>, buried: set<Uuid>, tip: Uuid, seen: set<Uuid>)
    requires forall u :: u in chain ==> chain[u].Chained? && chain[u].uuid == u
    requires tip in chain && tip !in seen
    ensures Visible(buried, Walk(chain, Some(tip), seen))
      == Visible(buried, Walk(chain, chain[tip].parent, seen + {tip})) + (if tip in buried then [] else [chain[tip]])
    ensures |chain.Keys - (seen + {tip})| < |chain.Keys - seen|
  {
    assert tip in chain.Keys - seen;
    FewerLeft(chain.Keys - (seen + {tip}), chain.Keys - seen);
    VisibleAppend(buried, Walk(chain, chain[tip].parent, seen + {tip}), [chain[tip]]);
    assert Visible(buried, [chain[tip]]) == (if tip in buried then [] else [chain[tip]]);
  }

  lemma WalkedOut(chain: map<Uuid, Entry>, buried: set<Uuid>, tip: Option<Uuid>, seen: set<Uuid>)
    requires forall u :: u in chain ==> chain[u].Chained?
    requires tip.None? || tip.value !in chain || tip.value in seen
    ensures Visible(buried, Walk(chain, tip, seen)) == []
  {
  }

  // ── the loops of the module ──────────────────────────────────────────────

  method IndexChain(entries: seq<Entry>) returns (chained: map<Uuid, Entry>)
    ensures chained == ChainOf(entries)
  {
    chained := map[];
    for i := 0 to |entries|
      invariant chained == ChainOf(entries[..i])
    {
      assert entries[..i + 1][..i] == entries[..i];
      if entries[i].Chained? {
        chained := chained[entries[i].uuid := entries[i]];
      }
    }
    assert entries[..|entries|] == entries;
  }

  /** Where the branch ends: chained entries outrank an older leaf marker. */
  method ResolveTip(entries: seq<Entry>) returns (tip: Option<Uuid>)
    ensures tip == Tip(entries)
  {
    var mark := -1;
    for i := 0 to |entries|
      invariant -1 <= mark < i
      invariant mark >= 0 ==> entries[mark].Leaf?
      invariant forall j :: mark < j < i ==> !entries[j].Leaf?
    {
      if entries[i].Leaf? { mark := i; }
    }
    var marked := if mark >= 0 then entries[mark].leaf else None;
    var grown: seq<Uuid> := [];
    var i := mark + 1;
    assert mark >= 0 ==> entries[..i][|entries[..i]| - 1] == entries[mark];
    while i < |entries|
      invariant mark + 1 <= i <= |entries|
      invariant Tip(entries[..i]) == if grown == [] then marked else Some(grown[|grown| - 1])
    {
      assert entries[..i + 1][..i] == entries[..i];
      if entries[i].Chained? {
        grown := grown + [entries[i].uuid];
      }
      i := i + 1;
    }
    assert entries[..i] == entries;
    tip := if grown != [] then Some(grown[|grown| - 1]) else marked;
  }

  /** The walk shared by `active_branch` and `messages_at`; it ends on every input. */
  method WalkUp(chained: map<Uuid, Entry>, buried: set<Uuid>, from: Option<Uuid>) returns (branch: seq<Entry>)
    requires forall u :: u in chained ==> chained[u].Chained? && chained[u].uuid == u
    ensures branch == Visible(buried, Walk(chained, from, {}))
  {
    hide Walk, Visible;
    var tip := from;
    var seen: set<Uuid> := {};
    var upward: seq<Entry> := [];
    while tip.Some? && tip.value in chained && tip.value !in seen
      invariant Visible(buried, Walk(chained, from, {})) == Visible(buried, Walk(chained, tip, seen)) + Reversed(upward)
      decreases |chained.Keys - seen|
    {
      WalkOneUp(chained, buried, tip.value, seen);
      seen := seen + {tip.value};
      var entry := chained[tip.value];
      if tip.value !in buried {
        ReversedSnoc(upward, entry);
        upward := upward + [entry];
      }
      tip := entry.parent;
    }
    WalkedOut(chained, buried, tip, seen);
    branch := Reversed(upward);
  }

  method ResolveActiveBranch(entries: seq<Entry>) returns (branch: seq<Entry>)
    ensures branch == ActiveBranch(entries)
  {
    var chained := IndexChain(entries);
    var buried := BuriedIn(entries);
    var tip := ResolveTip(entries);
    branch := WalkUp(chained, buried, tip);
  }

  /** The messages of a branch: a chained entry whose body is no object carries none. */
  function MessagesIn(branch: seq<Entry>): seq<Json> {
    if branch == [] then []
    else
      var e := branch[|branch| - 1];
      MessagesIn(branch[..|branch| - 1]) + (if e.Chained? && e.message.Object? then [e.message] else [])
  }

  function MessagesOf(log: seq<Entry>): seq<Json> {
    MessagesIn(ActiveBranch(log))
  }

  datatype Lookup = Found(messages: seq<Json>) | LookupError(cursor: Uuid)

  function MessagesAt(log: seq<Entry>, cursor: Option<Uuid>): Lookup {
    if cursor.Some? && !HasEntry(log, cursor.value) then LookupError(cursor.value)
    else Found(MessagesIn(Visible(BuriedIn(log), Walk(ChainOf(log), cursor, {}))))
  }

  method ReadMessagesAt(entries: seq<Entry>, cursor: Option<Uuid>) returns (r: Lookup)
    ensures r == MessagesAt(entries, cursor)
  {
    var chained := IndexChain(entries);
    var buried := BuriedIn(entries);
    var branch := WalkUp(chained, buried, cursor);
    if cursor.Some? && cursor.value !in chained {
      return LookupError(cursor.value);
    }
    r := Found(MessagesIn(branch));
  }

  // ── logs the writers produce ─────────────────────────────────────────────

  function ParentOf(uuid: Uuid): Option<Uuid> {
    if uuid.slot.Parent? then Some(uuid.slot.parent) else None
  }

  predicate Placed(log: seq<Entry>, i: nat)
    requires i < |log|
  {
    match log[i]
    case Chained(uuid, parent, message) =>
      message.Object? && uuid == EntryId(parent, message) && (parent.Some? ==> HasEntry(log[..i], parent.value))
    case Leaf(uuid, leaf) =>
      uuid.slot.Stamp? && uuid.content == LeafAt(leaf) && (leaf.Some? ==> HasEntry(log[..i], leaf.value))
    case Tombstone(_, _) => false
  }

  /** Every entry carries its own identity once, and refers only to entries before it. No tombstones. */
  ghost predicate WellFormed(log: seq<Entry>) {
    && (forall i, j :: 0 <= i < j < |log| ==> log[i].uuid != log[j].uuid)
    && (forall i :: 0 <= i < |log| ==> Placed(log, i))
  }

  function PathOf(uuid: Uuid): seq<Uuid> {
    if uuid.slot.Parent? then PathOf(uuid.slot.parent) + [uuid] else [uuid]
  }

  function Depth(uuid: Uuid): nat {
    if uuid.slot.Parent? then Depth(uuid.slot.parent) + 1 else 0
  }

  lemma {:induction false} PathIsShallower(uuid: Uuid)
    ensures forall u :: u in PathOf(uuid) ==> Depth(u) <= Depth(uuid)
  {
    if uuid.slot.Parent? { PathIsShallower(uuid.slot.parent); }
  }

  lemma EntryHasParent(log: seq<Entry>, uuid: Uuid)
    requires WellFormed(log) && HasEntry(log, uuid)
    ensures ChainOf(log)[uuid].parent == ParentOf(uuid)
    ensures ChainOf(log)[uuid].message.Object? && uuid.content == Message(Stripped(ChainOf(log)[uuid].message))
    ensures uuid.slot.Parent? ==> HasEntry(log, uuid.slot.parent)
  {
    var entry := ChainOf(log)[uuid];
    var i :| 0 <= i < |log| && log[i] == entry;
    assert Placed(log, i);
    if uuid.slot.Parent? {
      var j :| 0 <= j < i && log[..i][j].Chained? && log[..i][j].uuid == uuid.slot.parent;
      assert log[j].uuid == uuid.slot.parent;
    }
  }

  /** On the writers' logs the walk is the identity's own path: `seen` never fires, it ends at a root. */
  lemma {:induction false} WalkIsPath(log: seq<Entry>, uuid: Uuid, seen: set<Uuid>)
    requires WellFormed(log) && HasEntry(log, uuid)
    requires forall u :: u in PathOf(uuid) ==> u !in seen
    ensures var walk := Walk(ChainOf(log), Some(uuid), seen);
      && |walk| == |PathOf(uuid)|
      && (forall i :: 0 <= i < |walk| ==> walk[i].uuid == PathOf(uuid)[i])
      && (forall i :: 0 <= i < |walk| ==> HasEntry(log, walk[i].uuid) && walk[i] == ChainOf(log)[walk[i].uuid])
    decreases uuid
  {
    hide WellFormed, Stripped, EntryId, ChainOf, HasEntry;
    EntryHasParent(log, uuid);
    var chain := ChainOf(log);
    assert uuid in PathOf(uuid);
    if uuid.slot.Parent? {
      var parent := uuid.slot.parent;
      PathIsShallower(parent);
      assert forall u :: u in PathOf(parent) ==> u in PathOf(uuid) && Depth(u) < Depth(uuid);
      WalkIsPath(log, parent, seen + {uuid});
      assert Walk(chain, Some(uuid), seen) == Walk(chain, Some(parent), seen + {uuid}) + [chain[uuid]];
    } else {
      assert Walk(chain, None, seen + {uuid}) == [];
      assert Walk(chain, Some(uuid), seen) == [] + [chain[uuid]];
    }
  }
}
