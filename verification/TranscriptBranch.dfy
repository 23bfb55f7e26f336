/**
A mutable list of messages kept on an append-only log: `Branch.replace` moves to the common prefix and
appends the rest, a record the log already holds is absorbed, and readers see exactly the list.
*/
module TranscriptBranch {
  import opened Ledger
  import opened TranscriptLog

  // ── the refinement, on values ────────────────────────────────────────────

  function Last(uuids: seq<Uuid>): Option<Uuid> {
    if uuids == [] then None else Some(uuids[|uuids| - 1])
  }

  /** Messages agree up to the fields that vary across replays. */
  predicate SameShape(a: seq<Json>, b: seq<Json>) {
    |a| == |b| && forall i :: 0 <= i < |a| ==> Stripped(a[i]) == Stripped(b[i])
  }

  /** Each identifier names its message behind the one before it. */
  predicate Links(uuids: seq<Uuid>, messages: seq<Json>) {
    && |uuids| == |messages|
    && (forall i :: 0 <= i < |uuids| ==> messages[i].Object?)
    && (forall i :: 0 <= i < |uuids| ==> uuids[i] == EntryId(Last(uuids[..i]), messages[i]))
  }

  /** The abstraction relation between a log and the writer's list. */
  ghost predicate Aligned(log: seq<Entry>, uuids: seq<Uuid>, messages: seq<Json>) {
    && WellFormed(log)
    && Tip(log) == Last(uuids)
    && Links(uuids, messages)
    && (uuids != [] ==> HasEntry(log, uuids[|uuids| - 1]))
  }

  lemma LinksPrefix(uuids: seq<Uuid>, messages: seq<Json>, n: nat)
    requires Links(uuids, messages) && n <= |uuids|
    ensures |uuids| == |messages| && Links(uuids[..n], messages[..n])
  {
  }

  lemma LastLink(uuids: seq<Uuid>, messages: seq<Json>)
    requires Links(uuids, messages) && uuids != []
    ensures var n := |uuids| - 1; ParentOf(uuids[n]) == if n > 0 then Some(uuids[n - 1]) else None
  {
  }

  lemma {:induction false} LinkedPath(uuids: seq<Uuid>, messages: seq<Json>)
    requires Links(uuids, messages) && uuids != []
    ensures PathOf(uuids[|uuids| - 1]) == uuids
  {
    hide Links, EntryId;
    var n := |uuids| - 1;
    LastLink(uuids, messages);
    LinksPrefix(uuids, messages, n);
    assert uuids == uuids[..n] + [uuids[n]];
    if n > 0 {
      LinkedPath(uuids[..n], messages[..n]);
    }
  }

  lemma {:induction false} AllMessages(branch: seq<Entry>)
    requires forall i :: 0 <= i < |branch| ==> branch[i].Chained? && branch[i].message.Object?
    ensures |MessagesIn(branch)| == |branch|
    ensures forall i :: 0 <= i < |branch| ==> MessagesIn(branch)[i] == branch[i].message
  {
    if branch != [] {
      AllMessages(branch[..|branch| - 1]);
    }
  }

  lemma ShapesJoin(kept: seq<Json>, desired: seq<Json>, common: nat)
    requires common <= |desired| && SameShape(kept, desired[..common])
    ensures SameShape(kept + desired[common..], desired)
  {
    assert forall i :: 0 <= i < common ==> desired[..common][i] == desired[i];
  }

  lemma ShapesCompose(a: seq<Json>, b: seq<Json>, c: seq<Json>)
    requires SameShape(a, b) && SameShape(b, c)
    ensures SameShape(a, c)
  {
  }

  lemma OneEach(log: seq<Entry>, uuids: seq<Uuid>, messages: seq<Json>)
    requires Aligned(log, uuids, messages)
    ensures |uuids| == |messages|
  {
  }

  lemma NoTombstones(log: seq<Entry>)
    requires WellFormed(log)
    ensures BuriedIn(log) == {}
  {
    forall i | 0 <= i < |log|
      ensures !log[i].Tombstone?
    {
      assert Placed(log, i);
    }
  }

  /** On a writers' log the walk from an entry spells the entry's path, in strictly rising arrival order. */
  lemma BranchIsPath(log: seq<Entry>, uuid: Uuid)
    requires WellFormed(log) && HasEntry(log, uuid)
    ensures var branch := Visible(BuriedIn(log), Walk(ChainOf(log), Some(uuid), {}));
      && |branch| == |PathOf(uuid)|
      && (forall i :: 0 <= i < |branch| ==> branch[i] in log && branch[i].uuid == PathOf(uuid)[i])
      && (forall i :: 0 <= i < |branch| ==>
        branch[i].Chained? && branch[i].message.Object? && branch[i].uuid.content == Message(Stripped(branch[i].message)))
      && branch[0].parent == None
      && (forall i :: 0 < i < |branch| ==> branch[i].parent == Some(branch[i - 1].uuid))
  {
    WalkIsPath(log, uuid, {});
    NoTombstones(log);
    var walk := Walk(ChainOf(log), Some(uuid), {});
    NothingBuried(walk);
    forall i | 0 <= i < |walk|
      ensures walk[i] in log && walk[i].Chained? && walk[i].message.Object?
      ensures walk[i].uuid.content == Message(Stripped(walk[i].message)) && walk[i].parent == ParentOf(walk[i].uuid)
    {
      EntryHasParent(log, walk[i].uuid);
    }
    PathShape(uuid);
  }

  lemma {:induction false} PathShape(uuid: Uuid)
    ensures PathOf(uuid) != [] && ParentOf(PathOf(uuid)[0]) == None
    ensures forall i :: 0 < i < |PathOf(uuid)| ==> ParentOf(PathOf(uuid)[i]) == Some(PathOf(uuid)[i - 1])
    ensures PathOf(uuid)[|PathOf(uuid)| - 1] == uuid
  {
    if uuid.slot.Parent? { PathShape(uuid.slot.parent); }
  }

  /** Along a branch, entries arrived in order. */
  lemma ArrivalRises(log: seq<Entry>, uuid: Uuid, i: nat, p: nat, q: nat)
    requires WellFormed(log) && HasEntry(log, uuid)
    requires 0 < i < |PathOf(uuid)| && p < |log| && q < |log|
    requires log[p].uuid == PathOf(uuid)[i - 1] && log[q].uuid == PathOf(uuid)[i]
    ensures p < q
  {
    hide Walk, Visible, PathOf, BuriedIn, ChainOf, WellFormed;
    BranchIsPath(log, uuid);
    var branch := Visible(BuriedIn(log), Walk(ChainOf(log), Some(uuid), {}));
    SameEntry(log, log, branch[i], log[q]);
    ParentIsEarlier(log, q, p);
  }

  lemma ParentIsEarlier(log: seq<Entry>, child: nat, parent: nat)
    requires WellFormed(log) && child < |log| && parent < |log|
    requires log[child].Chained? && log[child].parent == Some(log[parent].uuid)
    ensures parent < child
  {
    assert Placed(log, child);
    var k :| 0 <= k < child && log[..child][k].Chained? && log[..child][k].uuid == log[parent].uuid;
    assert log[k].uuid == log[parent].uuid;
  }

  /**
  Refinement: whoever reads the log sees the writer's list. The active branch carries the writer's
  identifiers, its messages are the writer's up to volatile fields, and the tip is the writer's parent.
  */
  lemma ReadersSee(log: seq<Entry>, uuids: seq<Uuid>, messages: seq<Json>)
    requires Aligned(log, uuids, messages)
    ensures |ActiveBranch(log)| == |uuids|
    ensures forall i :: 0 <= i < |uuids| ==> ActiveBranch(log)[i].uuid == uuids[i]
    ensures SameShape(MessagesOf(log), messages)
    ensures Tip(log) == Last(uuids)
  {
    hide Links, Walk, Visible, PathOf, BuriedIn, ChainOf, WellFormed, HasEntry, Stripped;
    OneEach(log, uuids, messages);
    if uuids == [] {
      NothingToSee(log);
    } else {
      hide Tip;
      LinkedPath(uuids, messages);
      BranchIsPath(log, uuids[|uuids| - 1]);
      BranchMessages(ActiveBranch(log), uuids, messages);
    }
  }

  lemma NothingToSee(log: seq<Entry>)
    requires Tip(log) == None
    ensures ActiveBranch(log) == [] && MessagesOf(log) == []
  {
    assert Walk(ChainOf(log), Tip(log), {}) == [];
  }

  /** Entries under the list's identifiers carry the list's messages, up to volatile fields. */
  lemma BranchMessages(branch: seq<Entry>, uuids: seq<Uuid>, messages: seq<Json>)
    requires Links(uuids, messages) && |branch| == |uuids|
    requires forall i :: 0 <= i < |branch| ==>
      branch[i].Chained? && branch[i].message.Object? && branch[i].uuid == uuids[i]
      && branch[i].uuid.content == Message(Stripped(branch[i].message))
    ensures SameShape(MessagesIn(branch), messages)
  {
    hide Stripped, MessagesIn;
    AllMessages(branch);
    forall i | 0 <= i < |uuids|
      ensures Stripped(branch[i].message) == Stripped(messages[i])
    {
      assert uuids[i] == EntryId(Last(uuids[..i]), messages[i]);
    }
  }

  lemma PathInLog(log: seq<Entry>, uuids: seq<Uuid>, messages: seq<Json>, i: nat)
    requires Aligned(log, uuids, messages) && i < |uuids|
    ensures HasEntry(log, uuids[i])
  {
    LinkedPath(uuids, messages);
    BranchIsPath(log, uuids[|uuids| - 1]);
    var branch := Visible(BuriedIn(log), Walk(ChainOf(log), Some(uuids[|uuids| - 1]), {}));
    var j :| 0 <= j < |log| && log[j] == branch[i];
  }

  lemma RewindPoint(log: seq<Entry>, uuids: seq<Uuid>, messages: seq<Json>, keep: nat)
    requires Aligned(log, uuids, messages) && keep <= |uuids|
    ensures Last(uuids[..keep]) == if keep > 0 then Some(uuids[keep - 1]) else None
    ensures keep > 0 ==> HasEntry(log, uuids[keep - 1])
  {
    if keep > 0 { PathInLog(log, uuids, messages, keep - 1); }
  }

  // ── the two writer operations ────────────────────────────────────────────

  /** Clock readings from `at` on make leaf markers this log has not seen. */
  ghost predicate ClockAhead(log: seq<Entry>, at: int) {
    forall i :: 0 <= i < |log| && log[i].Leaf? && log[i].uuid.slot.Stamp? ==> log[i].uuid.slot.at < at
  }

  lemma Extends(log: seq<Entry>, entry: Entry)
    requires WellFormed(log) && !HasUuid(log, entry.uuid) && Placed(log + [entry], |log|)
    ensures WellFormed(log + [entry])
    ensures forall u :: HasEntry(log, u) ==> HasEntry(log + [entry], u)
  {
    var after := log + [entry];
    forall i | 0 <= i < |after|
      ensures Placed(after, i)
    {
      if i < |log| {
        assert Placed(log, i);
        assert after[..i] == log[..i];
      }
    }
    forall u | HasEntry(log, u)
      ensures HasEntry(after, u)
    {
      var i :| 0 <= i < |log| && log[i].Chained? && log[i].uuid == u;
      assert after[i].Chained? && after[i].uuid == u;
    }
  }

  function Recorded(log: seq<Entry>, parent: Option<Uuid>, message: Json, at: int): seq<Entry> {
    var entry := MessageEntry(parent, message);
    if HasUuid(log, entry.uuid) then Appended(log, LeafMarker(at, Some(entry.uuid))) else log + [entry]
  }

  lemma MarkerIsNew(log: seq<Entry>, leaf: Option<Uuid>, at: int)
    requires WellFormed(log) && ClockAhead(log, at)
    ensures Appended(log, LeafMarker(at, leaf)) == log + [LeafMarker(at, leaf)]
    ensures Tip(Appended(log, LeafMarker(at, leaf))) == leaf
  {
    forall i | 0 <= i < |log|
      ensures log[i].uuid != LeafMarker(at, leaf).uuid
    {
      assert Placed(log, i);
    }
  }

  lemma MarkerLands(log: seq<Entry>, leaf: Option<Uuid>, at: int)
    requires WellFormed(log) && ClockAhead(log, at) && (leaf.Some? ==> HasEntry(log, leaf.value))
    ensures var after := Appended(log, LeafMarker(at, leaf));
      && WellFormed(after) && Tip(after) == leaf && ClockAhead(after, at + 1)
      && after == log + [LeafMarker(at, leaf)]
      && (forall u :: HasEntry(log, u) ==> HasEntry(after, u))
  {
    MarkerIsNew(log, leaf, at);
    assert !HasUuid(log, LeafMarker(at, leaf).uuid);
    assert (log + [LeafMarker(at, leaf)])[..|log|] == log;
    Extends(log, LeafMarker(at, leaf));
  }

  /** A record lands the tip on its entry whether it was new or absorbed as a duplicate. */
  lemma RecordLands(log: seq<Entry>, parent: Option<Uuid>, message: Json, at: int)
    requires WellFormed(log) && ClockAhead(log, at) && message.Object?
    requires parent.Some? ==> HasEntry(log, parent.value)
    ensures var after := Recorded(log, parent, message, at);
      var uuid := EntryId(parent, message);
      && WellFormed(after) && Tip(after) == Some(uuid) && HasEntry(after, uuid) && ClockAhead(after, at + 1)
      && (forall u :: HasEntry(log, u) ==> HasEntry(after, u))
  {
    var entry := MessageEntry(parent, message);
    if HasUuid(log, entry.uuid) {
      var i :| 0 <= i < |log| && log[i].uuid == entry.uuid;
      assert Placed(log, i);
      assert HasEntry(log, entry.uuid);
      MarkerLands(log, Some(entry.uuid), at);
    } else {
      assert (log + [entry])[..|log|] == log;
      Extends(log, entry);
      assert (log + [entry])[|log|] == entry;
    }
  }

  lemma RecordAligns(log: seq<Entry>, uuids: seq<Uuid>, messages: seq<Json>, message: Json, at: int)
    requires Aligned(log, uuids, messages) && ClockAhead(log, at) && message.Object?
    ensures var uuid := EntryId(Last(uuids), message);
      Aligned(Recorded(log, Last(uuids), message, at), uuids + [uuid], messages + [message])
  {
    hide WellFormed, HasEntry, ClockAhead, Tip, Recorded;
    RecordLands(log, Last(uuids), message, at);
    var uuid := EntryId(Last(uuids), message);
    forall i | 0 <= i < |uuids| + 1
      ensures (uuids + [uuid])[i] == EntryId(Last((uuids + [uuid])[..i]), (messages + [message])[i])
    {
      assert (uuids + [uuid])[..i] == uuids[..i];
      assert uuids[..|uuids|] == uuids;
    }
  }

  lemma RewindAligns(log: seq<Entry>, uuids: seq<Uuid>, messages: seq<Json>, keep: nat, at: int)
    requires Aligned(log, uuids, messages) && ClockAhead(log, at) && keep <= |uuids|
    ensures Aligned(Appended(log, LeafMarker(at, Last(uuids[..keep]))), uuids[..keep], messages[..keep])
    ensures ClockAhead(Appended(log, LeafMarker(at, Last(uuids[..keep]))), at + 1)
  {
    hide WellFormed, HasEntry, ClockAhead, Tip, Appended;
    RewindPoint(log, uuids, messages, keep);
    MarkerLands(log, Last(uuids[..keep]), at);
    assert forall i :: 0 <= i < keep ==> uuids[..keep][..i] == uuids[..i];
  }

  // ── what a repeated timestamp does ───────────────────────────────────────

  /**
  A rewind whose marker the log already holds is absorbed. It still lands exactly when the tip was
  there already, so the condition a caller can check is that the timestamp is new or the tip in place.
  */
  lemma RewindLandsExactly(log: seq<Entry>, leaf: Option<Uuid>, at: int)
    ensures Tip(Appended(log, LeafMarker(at, leaf))) == leaf
      <==> !HasUuid(log, LeafMarker(at, leaf).uuid) || Tip(log) == leaf
  {
  }

  /** Two rewinds within one clock reading, with a message between them: the second one is lost. */
  lemma RewindLost(message: Json, at: int)
    requires message.Object?
    ensures var log := Recorded(Appended([], LeafMarker(at, None)), None, message, at + 1);
      Tip(Appended(log, LeafMarker(at, None))) == Some(EntryId(None, message))
  {
    var marker := LeafMarker(at, None);
    assert Appended([], marker) == [marker];
    var entry := MessageEntry(None, message);
    assert Recorded([marker], None, message, at + 1) == [marker, entry];
    assert [marker, entry][0].uuid == marker.uuid;
  }

  // ── cursors ──────────────────────────────────────────────────────────────

  lemma SameEntry(log: seq<Entry>, later: seq<Entry>, a: Entry, b: Entry)
    requires WellFormed(later) && log <= later && a in log && b in later && a.uuid == b.uuid
    ensures a == b
  {
  }

  /** A cursor reads the same messages after any later records and rewinds, on whatever branch. */
  lemma CursorIsStable(log: seq<Entry>, later: seq<Entry>, uuid: Uuid)
    requires WellFormed(log) && WellFormed(later) && log <= later && HasEntry(log, uuid)
    ensures MessagesAt(later, Some(uuid)) == MessagesAt(log, Some(uuid))
  {
    hide WellFormed, Walk, Visible, MessagesIn, PathOf;
    var i :| 0 <= i < |log| && log[i].Chained? && log[i].uuid == uuid;
    assert later[i].uuid == uuid;
    BranchIsPath(log, uuid);
    BranchIsPath(later, uuid);
    var a := Visible(BuriedIn(log), Walk(ChainOf(log), Some(uuid), {}));
    var b := Visible(BuriedIn(later), Walk(ChainOf(later), Some(uuid), {}));
    forall k | 0 <= k < |a|
      ensures a[k] == b[k]
    {
      SameEntry(log, later, a[k], b[k]);
    }
    assert a == b;
  }

  /** The active tip of a writers' log is an entry of it. */
  lemma {:induction false} TipIsEntry(log: seq<Entry>)
    requires WellFormed(log) && Tip(log).Some?
    ensures HasEntry(log, Tip(log).value)
  {
    var n := |log| - 1;
    assert Placed(log, n);
    if log[n].Leaf? {
      var i :| 0 <= i < n && log[..n][i].Chained? && log[..n][i].uuid == Tip(log).value;
      assert log[i].uuid == Tip(log).value;
    }
  }

  /** The active branch is the branch of the cursor at the active tip. */
  lemma ActiveIsAtTip(log: seq<Entry>)
    requires WellFormed(log)
    ensures MessagesAt(log, Tip(log)) == Found(MessagesOf(log))
  {
    if Tip(log).Some? {
      TipIsEntry(log);
    }
  }

  // ── the stores and the writers ───────────────────────────────────────────

  datatype Row = Row(sequence: nat, entry: Entry)

  /** Python's `rows[start:]`: a negative start counts from the end and stops at the front. */
  function SliceFrom<T>(s: seq<T>, start: int): seq<T> {
    var from := if start < 0 then start + |s| else start;
    s[if from < 0 then 0 else if from > |s| then |s| else from..]
  }

  function NewestTail<T>(s: seq<T>, limit: int): seq<T> {
    if limit <= 0 then [] else if limit >= |s| then s else s[|s| - limit..]
  }

  function EntriesOf(rows: seq<Row>): seq<Entry> {
    seq(|rows|, i requires 0 <= i < |rows| => rows[i].entry)
  }

  /** The window `read` takes out of a conversation's rows. */
  function Window<T>(rows: seq<T>, limit: Option<int>): seq<T> {
    match limit
    case None => rows
    case Some(n) => if n > 0 then SliceFrom(rows, |rows| - n) else []
  }

  /**
  `read(limit)` promises the newest tail. It keeps the promise exactly when the limit is at most the
  number of rows or at least twice it: in between, the slice start goes negative and wraps.
  */
  lemma WindowIsNewestTail<T>(rows: seq<T>, limit: int)
    ensures |Window(rows, Some(limit))| == |NewestTail(rows, limit)| <==> limit <= |rows| || 2 * |rows| <= limit
    ensures limit <= |rows| || 2 * |rows| <= limit ==> Window(rows, Some(limit)) == NewestTail(rows, limit)
  {
  }

  /** Five rows read with a limit of eight give the newest three. */
  lemma WindowWraps()
    ensures Window([1, 2, 3, 4, 5], Some(8)) == [3, 4, 5]
  {
  }

  lemma HasUuidSnoc(log: seq<Entry>, entry: Entry, uuid: Uuid)
    ensures HasUuid(log + [entry], uuid) <==> HasUuid(log, uuid) || uuid == entry.uuid
  {
    if HasUuid(log, uuid) {
      var i :| 0 <= i < |log| && log[i].uuid == uuid;
      assert (log + [entry])[i].uuid == uuid;
    }
    assert (log + [entry])[|log|] == entry;
  }

  class MemoryTranscript {
    var rows: map<string, seq<Row>>
    var seen: set<(string, Uuid)>
    var sequence: nat

    ghost function Log(conversation: string): seq<Entry>
      reads this
    {
      if conversation in rows then EntriesOf(rows[conversation]) else []
    }

    /** `seen` is the identities held; rows of every conversation are in arrival order. */
    ghost predicate Valid()
      reads this
    {
      && (forall c, u :: (c, u) in seen <==> HasUuid(Log(c), u))
      && (forall c :: c in rows ==> forall i :: 0 <= i < |rows[c]| ==> rows[c][i].sequence <= sequence)
      && (forall c :: c in rows ==>
        forall i, j :: 0 <= i < j < |rows[c]| ==> rows[c][i].sequence < rows[c][j].sequence)
    }

    constructor ()
      ensures Valid() && forall c :: Log(c) == []
    {
      rows, seen, sequence := map[], {}, 0;
    }

    method Append(conversation: string, entry: Entry) returns (appended: bool)
      requires Valid()
      modifies this
      ensures Valid()
      ensures appended == !HasUuid(old(Log(conversation)), entry.uuid)
      ensures Log(conversation) == Appended(old(Log(conversation)), entry)
      ensures forall c :: c != conversation ==> Log(c) == old(Log(c))
    {
      hide HasUuid;
      var key := (conversation, entry.uuid);
      if key in seen { return false; }
      seen := seen + {key};
      sequence := sequence + 1;
      var before := if conversation in rows then rows[conversation] else [];
      rows := rows[conversation := before + [Row(sequence, entry)]];
      assert Log(conversation) == old(Log(conversation)) + [entry];
      forall c, u
        ensures (c, u) in seen <==> HasUuid(Log(c), u)
      {
        if c == conversation {
          HasUuidSnoc(old(Log(c)), entry, u);
        } else {
          assert Log(c) == old(Log(c));
        }
      }
      appended := true;
    }

    method Read(conversation: string, limit: Option<int>) returns (entries: seq<Entry>)
      ensures entries == Window(Log(conversation), limit)
    {
      var held := if conversation in rows then rows[conversation] else [];
      var window := match limit
        case None => held
        case Some(n) => if n > 0 then SliceFrom(held, |held| - n) else [];
      entries := EntriesOf(window);
    }
  }

  class TranscriptWriter {
    const store: MemoryTranscript
    const conversation: string
    var parentUuid: Option<Uuid>
    var clock: int  // the next reading of the clock

    constructor (store: MemoryTranscript, conversation: string, parentUuid: Option<Uuid>, now: int)
      ensures this.store == store && this.conversation == conversation
      ensures this.parentUuid == parentUuid && clock == now
    {
      this.store, this.conversation, this.parentUuid, this.clock := store, conversation, parentUuid, now;
    }

    ghost predicate Valid()
      reads this, store
    {
      && store.Valid()
      && WellFormed(store.Log(conversation))
      && ClockAhead(store.Log(conversation), clock)
      && (parentUuid.Some? ==> HasEntry(store.Log(conversation), parentUuid.value))
    }

    method AppendLeaf(leaf: Option<Uuid>)
      requires store.Valid()
      modifies this`clock, store
      ensures store.Valid() && clock == old(clock) + 1
      ensures store.Log(conversation) == Appended(old(store.Log(conversation)), LeafMarker(old(clock), leaf))
      ensures forall c :: c != conversation ==> store.Log(c) == old(store.Log(c))
    {
      var timestamp := clock;
      clock := clock + 1;
      var _ := store.Append(conversation, LeafMarker(timestamp, leaf));
    }

    /** Append one message, or move the tip to the entry that already holds it. */
    method Record(message: Json) returns (appended: bool)
      requires Valid() && message.Object?
      modifies this, store
      ensures Valid()
      ensures parentUuid == Some(EntryId(old(parentUuid), message))
      ensures store.Log(conversation) == Recorded(old(store.Log(conversation)), old(parentUuid), message, old(clock))
      ensures appended == !HasUuid(old(store.Log(conversation)), EntryId(old(parentUuid), message))
      ensures clock == old(clock) + 1
      ensures forall c :: c != conversation ==> store.Log(c) == old(store.Log(c))
    {
      RecordLands(store.Log(conversation), parentUuid, message, clock);
      var entry := MessageEntry(parentUuid, message);
      appended := store.Append(conversation, entry);
      parentUuid := Some(entry.uuid);
      if appended {
        clock := clock + 1;
      } else {
        AppendLeaf(Some(entry.uuid));
      }
    }

    /** Any identifier can be rewound to; one that names an entry keeps the writer on its log. */
    method Rewind(leaf: Option<Uuid>)
      requires Valid()
      modifies this, store
      ensures store.Valid() && parentUuid == leaf && Tip(store.Log(conversation)) == leaf
      ensures leaf.None? || HasEntry(old(store.Log(conversation)), leaf.value) ==> Valid()
      ensures store.Log(conversation) == Appended(old(store.Log(conversation)), LeafMarker(old(clock), leaf))
      ensures clock == old(clock) + 1
      ensures forall c :: c != conversation ==> store.Log(c) == old(store.Log(c))
    {
      MarkerIsNew(store.Log(conversation), leaf, clock);
      if leaf.None? || HasEntry(store.Log(conversation), leaf.value) {
        MarkerLands(store.Log(conversation), leaf, clock);
      }
      AppendLeaf(leaf);
      parentUuid := leaf;
    }
  }

  /** The two agree on the first `k` messages, and not on the next one if both have one. */
  predicate AgreeUpTo(a: seq<Json>, b: seq<Json>, k: int) {
    && 0 <= k <= |a| && k <= |b| && SameShape(a[..k], b[..k])
    && (k < |a| && k < |b| ==> Stripped(a[k]) != Stripped(b[k]))
  }

  lemma AgreeOnce(a: seq<Json>, b: seq<Json>, k: nat)
    requires AgreeUpTo(a, b, k)
    ensures forall j :: AgreeUpTo(a, b, j) ==> j == k
    ensures SameShape(a, b) ==> k == |a| == |b|
  {
    hide SameShape;
    ShapeAt(a, b, k);
    forall j | AgreeUpTo(a, b, j)
      ensures j == k
    {
      ShapeAt(a, b, j);
    }
    if SameShape(a, b) {
      ShapeAll(a, b);
    }
  }

  lemma ShapeAt(a: seq<Json>, b: seq<Json>, k: nat)
    requires k <= |a| && k <= |b| && SameShape(a[..k], b[..k])
    ensures forall i :: 0 <= i < k ==> Stripped(a[i]) == Stripped(b[i])
  {
    hide Stripped;
    forall i | 0 <= i < k
      ensures Stripped(a[i]) == Stripped(b[i])
    {
      assert a[..k][i] == a[i] && b[..k][i] == b[i];
    }
  }

  lemma ShapeAll(a: seq<Json>, b: seq<Json>)
    requires SameShape(a, b)
    ensures |a| == |b| && forall i :: 0 <= i < |a| ==> Stripped(a[i]) == Stripped(b[i])
  {
  }

  class Branch {
    const writer: TranscriptWriter
    var messages: seq<Json>
    var uuids: seq<Uuid>

    /** The log as a reader of the conversation finds it. */
    ghost function Log(): seq<Entry>
      reads writer, writer.store
    {
      writer.store.Log(writer.conversation)
    }

    ghost predicate Valid()
      reads this, writer, writer.store
    {
      && writer.Valid()
      && writer.parentUuid == Last(uuids)
      && Aligned(Log(), uuids, messages)
    }

    /** Whoever reads the conversation sees this list, up to volatile fields, under these identifiers. */
    ghost predicate ReadersAgree()
      reads this, writer, writer.store
    {
      && SameShape(MessagesOf(Log()), messages)
      && |ActiveBranch(Log())| == |uuids|
      && (forall i :: 0 <= i < |uuids| ==> ActiveBranch(Log())[i].uuid == uuids[i])
      && Tip(Log()) == writer.parentUuid
    }

    /** `open`: the messages are what readers see, and the next one goes behind the tip. */
    constructor Open(store: MemoryTranscript, conversation: string, now: int)
      requires store.Valid() && WellFormed(store.Log(conversation)) && ClockAhead(store.Log(conversation), now)
      ensures Valid() && fresh(writer) && writer.store == store && writer.conversation == conversation
      ensures messages == MessagesOf(store.Log(conversation)) && ReadersAgree()
    {
      hide WellFormed, HasEntry, HasUuid, Tip, ClockAhead, ActiveBranch, Links;
      var entries := store.Read(conversation, None);
      var branch := ResolveActiveBranch(entries);
      OpenedAligns(entries);
      var parent := if branch == [] then None else Some(branch[|branch| - 1].uuid);
      writer := new TranscriptWriter(store, conversation, parent, now);
      messages := MessagesIn(branch);
      uuids := seq(|branch|, i requires 0 <= i < |branch| => branch[i].uuid);
      new;
      ReadersSee(Log(), uuids, messages);
    }

    method AppendOne(message: Json)
      requires Valid() && message.Object?
      modifies this, writer, writer.store
      ensures Valid()
      ensures messages == old(messages) + [message] && old(uuids) <= uuids
      ensures forall c :: c != writer.conversation ==> writer.store.Log(c) == old(writer.store.Log(c))
    {
      hide WellFormed, Links, HasEntry, HasUuid;
      RecordAligns(Log(), uuids, messages, message, writer.clock);
      var _ := writer.Record(message);
      messages := messages + [message];
      uuids := uuids + [writer.parentUuid.value];
    }

    /** The messages go behind the ones there are, whose coordinates stay. */
    method Append(added: seq<Json>)
      requires Valid() && forall i :: 0 <= i < |added| ==> added[i].Object?
      modifies this, writer, writer.store
      ensures Valid()
      ensures messages == old(messages) + added && ReadersAgree()
      ensures old(uuids) <= uuids && (added == [] ==> uuids == old(uuids) && Log() == old(Log()))
      ensures forall c :: c != writer.conversation ==> writer.store.Log(c) == old(writer.store.Log(c))
    {
      hide Aligned, WellFormed, SameShape, ActiveBranch, MessagesOf, Tip;
      var i := 0;
      while i < |added|
        invariant 0 <= i <= |added| && Valid()
        invariant messages == old(messages) + added[..i]
        invariant old(uuids) <= uuids && (i == 0 ==> uuids == old(uuids) && Log() == old(Log()))
        invariant forall c :: c != writer.conversation ==> writer.store.Log(c) == old(writer.store.Log(c))
      {
        AppendOne(added[i]);
        i := i + 1;
      }
      ReadersSee(Log(), uuids, messages);
    }

    /** Drop everything behind the first `keep` messages. */
    method RewindTo(keep: nat)
      requires Valid() && keep <= |uuids|
      modifies this, writer, writer.store
      ensures Valid() && messages == old(messages)[..keep] && uuids == old(uuids)[..keep]
      ensures forall c :: c != writer.conversation ==> writer.store.Log(c) == old(writer.store.Log(c))
    {
      hide WellFormed, Links, HasEntry, HasUuid, Appended, Tip, ClockAhead, Aligned, Last, LeafMarker;
      OneEach(Log(), uuids, messages);
      RewindAligns(Log(), uuids, messages, keep, writer.clock);
      RewindPoint(Log(), uuids, messages, keep);
      var leaf := if keep > 0 then Some(uuids[keep - 1]) else None;
      writer.Rewind(leaf);
      messages := messages[..keep];
      uuids := uuids[..keep];
    }

    /**
    Whatever was there before, readers see `desired` afterwards, up to volatile fields. As far as the two agree
    the messages and their identifiers stay; if they agree throughout nothing is written.
    */
    method Replace(desired: seq<Json>)
      requires Valid() && forall i :: 0 <= i < |desired| ==> desired[i].Object?
      modifies this, writer, writer.store
      ensures Valid()
      ensures SameShape(messages, desired) && ReadersAgree()
      ensures SameShape(MessagesOf(Log()), desired)
      ensures forall k :: AgreeUpTo(old(messages), desired, k) ==>
        messages == old(messages)[..k] + desired[k..] && k <= |old(uuids)| && old(uuids)[..k] <= uuids
      ensures SameShape(old(messages), desired) ==> messages == old(messages) && uuids == old(uuids) && Log() == old(Log())
      ensures forall c :: c != writer.conversation ==> writer.store.Log(c) == old(writer.store.Log(c))
    {
      hide WellFormed, HasEntry, Aligned, Stripped, ActiveBranch, MessagesOf, Tip;
      OneEach(Log(), uuids, messages);
      var common := 0;
      while common < |messages| && common < |desired| && Stripped(messages[common]) == Stripped(desired[common])
        invariant 0 <= common <= |messages| && common <= |desired|
        invariant SameShape(messages[..common], desired[..common])
      {
        common := common + 1;
      }
      AgreeOnce(messages, desired, common);
      if common < |messages| {
        RewindTo(common);
      }
      ghost var kept := messages;
      Append(desired[common..]);
      ShapesJoin(kept, desired, common);
      ShapesCompose(MessagesOf(Log()), messages, desired);
    }
  }

  /** A restored branch is aligned with the log it was read from. */
  lemma OpenedAligns(log: seq<Entry>)
    requires WellFormed(log)
    ensures var branch := ActiveBranch(log);
      var uuids := seq(|branch|, i requires 0 <= i < |branch| => branch[i].uuid);
      Aligned(log, uuids, MessagesIn(branch)) && (Last(uuids).Some? ==> HasEntry(log, Last(uuids).value))
  {
    if Tip(log).None? {
      assert Walk(ChainOf(log), Tip(log), {}) == [];
    } else {
      hide Walk, Visible, BuriedIn, ChainOf, WellFormed, Tip, HasEntry, PathOf, MessagesIn;
      TipIsEntry(log);
      BranchIsPath(log, Tip(log).value);
      PathShape(Tip(log).value);
      var branch := ActiveBranch(log);
      AllMessages(branch);
      PathLinks(log, branch, MessagesIn(branch));
    }
  }

  lemma PathLinks(log: seq<Entry>, branch: seq<Entry>, messages: seq<Json>)
    requires WellFormed(log) && |messages| == |branch|
    requires forall i :: 0 <= i < |branch| ==> branch[i] in log && branch[i].Chained? && branch[i].message.Object?
    requires forall i :: 0 <= i < |branch| ==> messages[i] == branch[i].message
    requires forall i :: 0 < i < |branch| ==> branch[i].parent == Some(branch[i - 1].uuid)
    requires branch != [] ==> branch[0].parent == None
    ensures Links(seq(|branch|, i requires 0 <= i < |branch| => branch[i].uuid), messages)
  {
    hide WellFormed;
    var uuids := seq(|branch|, i requires 0 <= i < |branch| => branch[i].uuid);
    forall i | 0 <= i < |uuids|
      ensures uuids[i] == EntryId(Last(uuids[..i]), messages[i])
    {
      assert i > 0 ==> uuids[..i][i - 1] == branch[i - 1].uuid;
      EntryIdentity(log, branch[i]);
    }
  }

  lemma EntryIdentity(log: seq<Entry>, entry: Entry)
    requires WellFormed(log) && entry in log && entry.Chained?
    ensures entry.uuid == EntryId(entry.parent, entry.message)
  {
    var i :| 0 <= i < |log| && log[i] == entry;
    assert Placed(log, i);
  }
}
