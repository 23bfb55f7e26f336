/**
What a reader of the transcript gets, told entry by entry: which fields make two messages one, where a branch ends,
and which messages a walk from there shows, tombstones and foreign entries included.
*/
module TranscriptReading {
  import opened Ledger
  import opened TranscriptLog

  // ── what is compared ─────────────────────────────────────────────────────

  /** One step into a value. */
  datatype Hop = Field(key: string) | Index(i: nat)

  function Reach(value: Json, path: seq<Hop>): Option<Json>
    decreases |path|
  {
    if path == [] then Some(value)
    else
      match path[0]
      case Field(key) => if value.Object? && key in value.fields then Reach(value.fields[key], path[1..]) else None
      case Index(i) => if value.List? && i < |value.items| then Reach(value.items[i], path[1..]) else None
  }

  predicate CrossesVolatile(path: seq<Hop>) {
    exists i :: 0 <= i < |path| && path[i].Field? && path[i].key in VOLATILE
  }

  lemma CrossesLater(path: seq<Hop>)
    requires path != []
    ensures CrossesVolatile(path) <==> (path[0].Field? && path[0].key in VOLATILE) || CrossesVolatile(path[1..])
  {
    if i :| 0 <= i < |path[1..]| && path[1..][i].Field? && path[1..][i].key in VOLATILE {
      assert path[i + 1].key in VOLATILE;
    }
    if i :| 0 <= i < |path| && path[i].Field? && path[i].key in VOLATILE {
      assert i > 0 ==> path[1..][i - 1].key in VOLATILE;
    }
  }

  /** The value is of the same sort: equal, if it holds no other values, and a list of the same length. */
  predicate SameSort(a: Json, b: Json) {
    match a
    case List(items) => b.List? && |b.items| == |items|
    case Object(_) => b.Object?
    case _ => a == b
  }

  /**
  Stripping takes out what lies in a volatile field, at any depth, and nothing else: behind every other path there
  is what was there.
  */
  lemma {:induction false} StrippedKeeps(value: Json, path: seq<Hop>)
    ensures CrossesVolatile(path) ==> Reach(Stripped(value), path).None?
    ensures !CrossesVolatile(path) ==> (Reach(Stripped(value), path).Some? <==> Reach(value, path).Some?)
    ensures !CrossesVolatile(path) && Reach(value, path).Some? ==> SameSort(Reach(value, path).value, Reach(Stripped(value), path).value)
    decreases |path|
  {
    if path != [] {
      CrossesLater(path);
      match path[0]
      case Field(key) =>
        if value.Object? && key in value.fields {
          StrippedKeeps(value.fields[key], path[1..]);
        }
      case Index(i) =>
        if value.List? && i < |value.items| {
          StrippedKeeps(value.items[i], path[1..]);
        }
    }
  }

  /** Two records are one entry exactly if they follow one parent and agree but for volatile fields. */
  lemma OneEntryExactly(parent: Option<Uuid>, message: Json, other: Option<Uuid>, another: Json)
    ensures EntryId(parent, message) == EntryId(other, another) <==> parent == other && Stripped(message) == Stripped(another)
  {
  }

  /** Two rewinds are one marker exactly if they go to one leaf at one clock reading; and no marker is a message. */
  lemma OneMarkerExactly(at: int, leaf: Option<Uuid>, later: int, other: Option<Uuid>, parent: Option<Uuid>, message: Json)
    ensures LeafMarker(at, leaf).uuid == LeafMarker(later, other).uuid <==> at == later && leaf == other
    ensures LeafMarker(at, leaf).uuid != EntryId(parent, message)
  {
  }

  // ── where a branch ends ──────────────────────────────────────────────────

  /** Entry `i` is the newest one that is no tombstone. */
  predicate IsNewest(log: seq<Entry>, i: int) {
    0 <= i < |log| && !log[i].Tombstone? && forall j :: i < j < |log| ==> log[j].Tombstone?
  }

  /** The newest entry but for tombstones says where the branch ends; without one it is empty. */
  lemma {:induction false} TipIs(log: seq<Entry>)
    ensures (forall i :: 0 <= i < |log| ==> log[i].Tombstone?) ==> Tip(log) == None
    ensures forall i :: IsNewest(log, i) ==> Tip(log) == if log[i].Chained? then Some(log[i].uuid) else log[i].leaf
  {
    if log != [] && log[|log| - 1].Tombstone? {
      var before := log[..|log| - 1];
      TipIs(before);
      forall i | IsNewest(log, i)
        ensures IsNewest(before, i) && before[i] == log[i]
      {
      }
    }
  }

  // ── which messages it shows ──────────────────────────────────────────────

  predicate IsBuried(log: seq<Entry>, uuid: Uuid) {
    exists i :: 0 <= i < |log| && log[i].Tombstone? && log[i].deleted == uuid
  }

  /** The entry has a message to show, and no tombstone anywhere in the log names it. */
  predicate Shows(log: seq<Entry>, e: Entry) {
    e.Chained? && e.message.Object? && !IsBuried(log, e.uuid)
  }

  /** `messages` are what the entries of the walk show, from the positions `at`, in order. */
  ghost predicate ShownBy(log: seq<Entry>, walk: seq<Entry>, messages: seq<Json>, at: seq<nat>) {
    && |at| == |messages|
    && (forall k, m :: 0 <= k < m < |at| ==> at[k] < at[m])
    && (forall k :: 0 <= k < |at| ==> at[k] < |walk| && walk[at[k]].Chained? && messages[k] == walk[at[k]].message)
    && (forall i :: 0 <= i < |walk| ==> (i in at <==> Shows(log, walk[i])))
  }

  lemma ShownMore(log: seq<Entry>, walk: seq<Entry>, messages: seq<Json>, at: seq<nat>)
    requires walk != [] && ShownBy(log, walk[..|walk| - 1], messages, at)
    ensures var n := |walk| - 1;
      && (!Shows(log, walk[n]) ==> ShownBy(log, walk, messages, at))
      && (Shows(log, walk[n]) ==> ShownBy(log, walk, messages + [walk[n].message], at + [n]))
  {
    hide IsBuried;
    var before := walk[..|walk| - 1];
    assert forall i :: 0 <= i < |before| ==> before[i] == walk[i];
    assert forall i :: 0 <= i < |before| ==> (i in at + [|walk| - 1] <==> i in at);
    assert |walk| - 1 !in at;
  }

  lemma BuriedIs(log: seq<Entry>, uuid: Uuid)
    ensures uuid in BuriedIn(log) <==> IsBuried(log, uuid)
  {
  }

  lemma MessagesSnoc(branch: seq<Entry>, e: Entry)
    ensures MessagesIn(branch + [e]) == if e.Chained? && e.message.Object? then MessagesIn(branch) + [e.message] else MessagesIn(branch)
  {
    assert (branch + [e])[..|branch|] == branch;
  }

  lemma MessagesLast(log: seq<Entry>, walk: seq<Entry>)
    requires walk != [] && walk[|walk| - 1].Chained?
    ensures var before, last := Visible(BuriedIn(log), walk[..|walk| - 1]), walk[|walk| - 1];
      MessagesIn(Visible(BuriedIn(log), walk)) == if Shows(log, last) then MessagesIn(before) + [last.message] else MessagesIn(before)
  {
    hide BuriedIn, IsBuried, MessagesIn;
    BuriedIs(log, walk[|walk| - 1].uuid);
    var before := Visible(BuriedIn(log), walk[..|walk| - 1]);
    MessagesSnoc(before, walk[|walk| - 1]);
    assert before + [] == before;
  }

  lemma NothingShown(log: seq<Entry>)
    ensures ShownBy(log, [], MessagesIn(Visible(BuriedIn(log), [])), [])
  {
  }

  lemma {:induction false} MessagesAre(log: seq<Entry>, walk: seq<Entry>) returns (at: seq<nat>)
    requires forall i :: 0 <= i < |walk| ==> walk[i].Chained?
    ensures ShownBy(log, walk, MessagesIn(Visible(BuriedIn(log), walk)), at)
  {
    hide ShownBy, Shows, MessagesIn, Visible, BuriedIn;
    if walk == [] {
      NothingShown(log);
      at := [];
    } else {
      at := MessagesAre(log, walk[..|walk| - 1]);
      MessagesLast(log, walk);
      ShownMore(log, walk, MessagesIn(Visible(BuriedIn(log), walk[..|walk| - 1])), at);
      if Shows(log, walk[|walk| - 1]) {
        at := at + [|walk| - 1];
      }
    }
  }

  /** A walk up the parent links of the log, without repeats, that ends at `cursor` and goes on as long as it can. */
  ghost predicate IsWalk(log: seq<Entry>, cursor: Option<Uuid>, walk: seq<Entry>) {
    && (forall i :: 0 <= i < |walk| ==> walk[i] in log && walk[i].Chained?)
    && (forall i :: 0 < i < |walk| ==> walk[i].parent == Some(walk[i - 1].uuid))
    && (forall i, j :: 0 <= i < j < |walk| ==> walk[i].uuid != walk[j].uuid)
    && (walk != [] ==> cursor == Some(walk[|walk| - 1].uuid))
    && var link := if walk != [] && walk[0].Chained? then walk[0].parent else cursor;
      link.None? || !HasEntry(log, link.value) || Within(walk, link.value)
  }

  /**
  Reading behind a cursor, on any log: an unknown cursor is an error; a known one gives, in order, what the walk up
  from it shows. So a message comes out once, and not if its entry was deleted.
  */
  lemma ReadingIs(log: seq<Entry>, cursor: Option<Uuid>) returns (walk: seq<Entry>, at: seq<nat>)
    ensures cursor.Some? && !HasEntry(log, cursor.value) ==> MessagesAt(log, cursor) == LookupError(cursor.value)
    ensures cursor.None? || HasEntry(log, cursor.value) ==>
      MessagesAt(log, cursor).Found? && IsWalk(log, cursor, walk) && ShownBy(log, walk, MessagesAt(log, cursor).messages, at)
  {
    hide Visible, MessagesIn, ShownBy, Walk;
    walk := Walk(ChainOf(log), cursor, {});
    WalkShape(ChainOf(log), cursor, {});
    at := MessagesAre(log, walk);
  }

  /** And the active messages are those behind the tip. */
  lemma ActiveReadingIs(log: seq<Entry>) returns (walk: seq<Entry>, at: seq<nat>)
    ensures IsWalk(log, Tip(log), walk) && ShownBy(log, walk, MessagesOf(log), at)
  {
    hide Visible, MessagesIn, ShownBy, Walk, Tip;
    walk := Walk(ChainOf(log), Tip(log), {});
    WalkShape(ChainOf(log), Tip(log), {});
    at := MessagesAre(log, walk);
  }
}
