/** What a whole upload does to the session's history, whatever the network does to its batches. */
module HistoryUpload {
  import opened Text
  import opened Protocol
  import opened HistoryBatches
  import opened HistoryStore

  // ----- counting implies completeness -----

  /** Every recorded batch index is below the largest count its upload ever claimed. */
  ghost predicate UploadsValid(h: History) {
    forall k :: k in h.received ==> k.upload in h.uploads && 0 <= k.batch < h.uploads[k.upload].count
  }

  lemma SaveKeepsUploadsValid(h: History, agentId: string, b: Batch, ok: bool, h': History)
    requires UploadsValid(h) && Saves(h, agentId, b, ok, h')
    ensures UploadsValid(h')
  {
    hide TrimSpace, SaveDirect, StageItems, DropBatch, Lists, Commit;
    if ShouldStage(b) && Normalize(b).Some? {
      var n := Normalize(b).value;
      var recorded := Record(h, agentId, n);
      RecordKeepsUploadsValid(h, agentId, n);
      if Ready(recorded, KeyOf(agentId, n)) {
        CommitKeepsUploadsValid(recorded, KeyOf(agentId, n), h');
      }
    }
  }

  lemma RecordKeepsUploadsValid(h: History, agentId: string, b: Batch)
    requires UploadsValid(h) && 0 <= b.index < b.count
    ensures UploadsValid(Record(h, agentId, b))
  {
    hide StageItems, DropBatch;
  }

  lemma CommitKeepsUploadsValid(h: History, u: UploadKey, h': History)
    requires UploadsValid(h) && exists order :: Lists(h.staging, u, order) && h' == Commit(h, u, order)
    ensures UploadsValid(h')
  {
    hide ClearSession, PutAll;
  }

  /** The batch indexes of 0 to n-1 that were recorded. */
  function Indexes(u: UploadKey, n: nat): (r: set<BatchKey>)
    ensures |r| == n && forall k :: k in r <==> k.upload == u && 0 <= k.batch < n
  {
    if n == 0 then {} else Indexes(u, n - 1) + {BatchKey(u, n - 1)}
  }

  lemma {:induction false} FullSubset<T>(a: set<T>, b: set<T>)
    requires a <= b && |a| >= |b|
    ensures a == b
  {
    if a != {} {
      var x :| x in a;
      FullSubset(a - {x}, b - {x});
    } else {
      assert |b| == 0;
    }
  }

  /** Although the code compares only counts, an upload is judged complete exactly when its final batch was seen and
      every one of the batches 0 to count-1 was recorded. */
  lemma ReadyIffComplete(h: History, u: UploadKey)
    requires UploadsValid(h)
    ensures Ready(h, u) <==>
      u in h.uploads && h.uploads[u].final && h.uploads[u].count > 0
      && forall i :: 0 <= i < h.uploads[u].count ==> BatchKey(u, i) in h.received
  {
    if u in h.uploads && h.uploads[u].count > 0 {
      var got, all := ReceivedOf(h, u), Indexes(u, h.uploads[u].count);
      assert got <= all;
      if |got| >= |all| {
        FullSubset(got, all);
        assert forall i :: 0 <= i < h.uploads[u].count ==> BatchKey(u, i) in all;
      }
      if forall i :: 0 <= i < h.uploads[u].count ==> BatchKey(u, i) in h.received {
        assert all <= got;
        assert got == all;
      }
    }
  }

  // ----- what a list of insertions leaves under a key -----

  function Get<K, V>(m: map<K, V>, k: K): Option<V> {
    if k in m then Some(m[k]) else None
  }

  predicate Matches(e: Entry, index: int, kind: string, textOnly: bool) {
    e.index == index && e.kind == kind && (textOnly ==> e.row.text != "")
  }

  /** The last matching insertion. */
  function LastRow(entries: seq<Entry>, index: int, kind: string, textOnly: bool): Option<Row> {
    if entries == [] then None
    else if Matches(entries[|entries| - 1], index, kind, textOnly) then Some(entries[|entries| - 1].row)
    else LastRow(entries[..|entries| - 1], index, kind, textOnly)
  }

  lemma {:induction false} PutAllRows(t: Tables, agentId: string, sessionId: string, entries: seq<Entry>, k: ItemKey)
    ensures var last := LastRow(entries, k.index, k.kind, false);
      Get(PutAll(t, agentId, sessionId, entries).items, k) ==
      if k.agentId == agentId && k.sessionId == sessionId && last.Some? then last else Get(t.items, k)
  {
    if entries != [] {
      PutAllRows(t, agentId, sessionId, entries[..|entries| - 1], k);
    }
  }

  lemma {:induction false} PutAllTexts(t: Tables, agentId: string, sessionId: string, entries: seq<Entry>, k: MessageKey)
    ensures var last := LastRow(entries, k.index, "message", true);
      Get(PutAll(t, agentId, sessionId, entries).messages, k) ==
      if k.agentId == agentId && k.sessionId == sessionId && last.Some?
      then Some(Message(last.value.role, last.value.text, last.value.at)) else Get(t.messages, k)
  {
    if entries != [] {
      PutAllTexts(t, agentId, sessionId, entries[..|entries| - 1], k);
    }
  }

  lemma EqualIfGet<K, V>(m: map<K, V>, m': map<K, V>)
    requires forall k :: Get(m, k) == Get(m', k)
    ensures m == m'
  {
    forall k
      ensures k in m <==> k in m'
      ensures k in m && k in m' ==> m[k] == m'[k]
    {
      assert Get(m, k) == Get(m', k);
    }
  }

  /** The tables depend on the last insertions only. */
  lemma SameLastSameTables(t: Tables, t': Tables, agentId: string, sessionId: string, a: seq<Entry>, b: seq<Entry>)
    requires forall k: ItemKey | k.agentId != agentId || k.sessionId != sessionId || LastRow(a, k.index, k.kind, false).None? ::
      Get(t.items, k) == Get(t'.items, k)
    requires forall index, kind :: LastRow(a, index, kind, false) == LastRow(b, index, kind, false)
    ensures PutAll(t, agentId, sessionId, a).items == PutAll(t', agentId, sessionId, b).items
    ensures (forall index :: LastRow(a, index, "message", true) == LastRow(b, index, "message", true))
      && t.messages == t'.messages
      ==> PutAll(t, agentId, sessionId, a).messages == PutAll(t', agentId, sessionId, b).messages
  {
    var x, y := PutAll(t, agentId, sessionId, a), PutAll(t', agentId, sessionId, b);
    forall k
      ensures Get(x.items, k) == Get(y.items, k)
    {
      PutAllRows(t, agentId, sessionId, a, k);
      PutAllRows(t', agentId, sessionId, b, k);
    }
    EqualIfGet(x.items, y.items);
    if (forall index :: LastRow(a, index, "message", true) == LastRow(b, index, "message", true)) && t.messages == t'.messages {
      forall k
        ensures Get(x.messages, k) == Get(y.messages, k)
      {
        PutAllTexts(t, agentId, sessionId, a, k);
        PutAllTexts(t', agentId, sessionId, b, k);
      }
      EqualIfGet(x.messages, y.messages);
    }
  }

  lemma {:induction false} LastRowAt(entries: seq<Entry>, index: int, kind: string, textOnly: bool, p: nat)
    requires p < |entries| && Matches(entries[p], index, kind, textOnly)
    requires forall q :: p < q < |entries| ==> !Matches(entries[q], index, kind, textOnly)
    ensures LastRow(entries, index, kind, textOnly) == Some(entries[p].row)
  {
    if p < |entries| - 1 {
      LastRowAt(entries[..|entries| - 1], index, kind, textOnly, p);
    }
  }

  lemma {:induction false} LastRowNone(entries: seq<Entry>, index: int, kind: string, textOnly: bool)
    requires forall q :: 0 <= q < |entries| ==> !Matches(entries[q], index, kind, textOnly)
    ensures LastRow(entries, index, kind, textOnly) == None
  {
    if entries != [] {
      LastRowNone(entries[..|entries| - 1], index, kind, textOnly);
    }
  }

  lemma {:induction false} LastRowOfConcat(a: seq<Entry>, b: seq<Entry>, index: int, kind: string, textOnly: bool)
    ensures LastRow(a + b, index, kind, textOnly) ==
      if LastRow(b, index, kind, textOnly).Some? then LastRow(b, index, kind, textOnly)
      else LastRow(a, index, kind, textOnly)
  {
    if b == [] {
      assert a + b == a;
    } else {
      assert (a + b)[..|a + b| - 1] == a + b[..|b| - 1];
      LastRowOfConcat(a, b[..|b| - 1], index, kind, textOnly);
    }
  }

  // ----- the entries of a list of items, and the list without superseded ones -----

  function Entries(items: seq<Item>): seq<Entry> {
    if items == [] then []
    else
      var rest, last := Entries(items[..|items| - 1]), items[|items| - 1];
      if last.kind != "" && !IsUsageKind(last.kind) then rest + [Entry(last.index, last.kind, RowOf(last))] else rest
  }

  function Parts(groups: seq<seq<Item>>): (r: seq<seq<Entry>>)
    ensures |r| == |groups| && forall i :: 0 <= i < |r| ==> r[i] == Entries(groups[i])
  {
    seq(|groups|, i requires 0 <= i < |groups| => Entries(groups[i]))
  }

  function Without(entries: seq<Entry>, index: int, kind: string): seq<Entry> {
    if entries == [] then []
    else
      var rest, last := Without(entries[..|entries| - 1], index, kind), entries[|entries| - 1];
      if last.index == index && last.kind == kind then rest else rest + [last]
  }

  /** Only the last entry under each index and kind. */
  function KeepLast(entries: seq<Entry>): seq<Entry> {
    if entries == [] then []
    else
      var last := entries[|entries| - 1];
      Without(KeepLast(entries[..|entries| - 1]), last.index, last.kind) + [last]
  }

  /** All parts in order, each without its superseded entries. */
  function Merged(parts: seq<seq<Entry>>): seq<Entry> {
    if parts == [] then [] else Merged(parts[..|parts| - 1]) + KeepLast(parts[|parts| - 1])
  }

  function TextFilter(r: Option<Row>, textOnly: bool): Option<Row> {
    if r.Some? && textOnly && r.value.text == "" then None else r
  }

  lemma {:induction false} LastRowOfWithout(entries: seq<Entry>, index: int, kind: string, i: int, k: string, textOnly: bool)
    ensures LastRow(Without(entries, index, kind), i, k, textOnly) ==
      if i == index && k == kind then None else LastRow(entries, i, k, textOnly)
  {
    if entries != [] {
      LastRowOfWithout(entries[..|entries| - 1], index, kind, i, k, textOnly);
    }
  }

  lemma {:induction false} LastRowOfKeepLast(entries: seq<Entry>, i: int, k: string, textOnly: bool)
    ensures LastRow(KeepLast(entries), i, k, textOnly) == TextFilter(LastRow(entries, i, k, false), textOnly)
  {
    if entries != [] {
      var init, last := entries[..|entries| - 1], entries[|entries| - 1];
      LastRowOfKeepLast(init, i, k, textOnly);
      LastRowOfWithout(KeepLast(init), last.index, last.kind, i, k, textOnly);
    }
  }

  /** The row of the last part that has one, if it counts. */
  function LatestRow(parts: seq<seq<Entry>>, i: int, k: string, textOnly: bool): Option<Row> {
    if parts == [] then None
    else
      var last := TextFilter(LastRow(parts[|parts| - 1], i, k, false), textOnly);
      if last.Some? then last else LatestRow(parts[..|parts| - 1], i, k, textOnly)
  }

  lemma {:induction false} LastRowOfMerged(parts: seq<seq<Entry>>, i: int, k: string, textOnly: bool)
    ensures LastRow(Merged(parts), i, k, textOnly) == LatestRow(parts, i, k, textOnly)
  {
    if parts != [] {
      var init, last := parts[..|parts| - 1], parts[|parts| - 1];
      LastRowOfMerged(init, i, k, textOnly);
      LastRowOfConcat(Merged(init), KeepLast(last), i, k, textOnly);
      LastRowOfKeepLast(last, i, k, textOnly);
    }
  }

  // ----- where a text is lost -----

  /** The last message of the index in this batch has no text, although an earlier one has: only the last is staged. */
  predicate LosesText(entries: seq<Entry>, i: int) {
    LastRow(entries, i, "message", true).Some? && TextFilter(LastRow(entries, i, "message", false), true).None?
  }

  lemma {:induction false} TextBeforeLast(entries: seq<Entry>, i: int)
    ensures TextFilter(LastRow(entries, i, "message", false), true).Some? ==>
      LastRow(entries, i, "message", true) == LastRow(entries, i, "message", false)
  {
    if entries != [] {
      TextBeforeLast(entries[..|entries| - 1], i);
    }
  }

  /** One after the last batch that holds a message of the index with text, or 0 when there is none. */
  function LastSpeaking(parts: seq<seq<Entry>>, i: int): (n: nat)
    ensures n <= |parts| && (n > 0 ==> LastRow(parts[n - 1], i, "message", true).Some?)
    ensures forall q :: n <= q < |parts| ==> LastRow(parts[q], i, "message", true).None?
  {
    if parts == [] then 0
    else if LastRow(parts[|parts| - 1], i, "message", true).Some? then |parts|
    else LastSpeaking(parts[..|parts| - 1], i)
  }

  /** What of a row reaches the message table. */
  function Shown(r: Option<Row>): Option<Message> {
    if r.Some? then Some(Message(r.value.role, r.value.text, r.value.at)) else None
  }

  /** In the batch that has the last text of the index, no later message of the index is without one; or the text that
      survives from the batches before it happens to be the same. */
  predicate TextSurvives(parts: seq<seq<Entry>>, i: int) {
    var n := LastSpeaking(parts, i);
    n > 0 && LosesText(parts[n - 1], i) ==>
      Shown(LatestRow(parts[..n - 1], i, "message", true)) == Shown(LastRow(parts[n - 1], i, "message", true))
  }

  ghost predicate TextsSurvive(groups: seq<seq<Item>>) {
    forall i :: TextSurvives(Parts(groups), i)
  }

  lemma {:induction false} LatestText(parts: seq<seq<Entry>>, i: int)
    ensures var n := LastSpeaking(parts, i);
      LatestRow(parts, i, "message", true) ==
        if n == 0 then None
        else if LosesText(parts[n - 1], i) then LatestRow(parts[..n - 1], i, "message", true)
        else LastRow(parts[n - 1], i, "message", true)
  {
    hide LastRow;
    if parts != [] {
      var init, last := parts[..|parts| - 1], parts[|parts| - 1];
      TextBeforeLast(last, i);
      if LastSpeaking(parts, i) < |parts| {
        LatestText(init, i);
        var n := LastSpeaking(init, i);
        assert n > 0 ==> init[..n - 1] == parts[..n - 1];
      }
    }
  }

  lemma {:induction false} EntriesOfConcat(a: seq<Item>, b: seq<Item>)
    ensures Entries(a + b) == Entries(a) + Entries(b)
  {
    hide IsUsageKind;
    if b == [] {
      assert a + b == a;
    } else {
      assert (a + b)[..|a + b| - 1] == a + b[..|b| - 1];
      EntriesOfConcat(a, b[..|b| - 1]);
    }
  }

  /** For the items table superseded entries never matter. */
  lemma {:induction false} LastRowOfStream(groups: seq<seq<Item>>, i: int, k: string)
    ensures LastRow(Entries(Concat(groups)), i, k, false) == LatestRow(Parts(groups), i, k, false)
  {
    if groups != [] {
      var init, last := groups[..|groups| - 1], groups[|groups| - 1];
      assert Parts(groups)[..|groups| - 1] == Parts(init);
      LastRowOfStream(init, i, k);
      EntriesOfConcat(Concat(init), last);
      LastRowOfConcat(Entries(Concat(init)), Entries(last), i, k, false);
    }
  }

  lemma NothingLast(i: int, k: string, textOnly: bool)
    ensures LastRow(Entries(Concat([])), i, k, textOnly) == None
  {
  }

  /** The last text of an index in the stream is the last one in the last batch that has any. */
  lemma {:induction false} LastTextOfStream(groups: seq<seq<Item>>, i: int)
    ensures var parts := Parts(groups); var n := LastSpeaking(parts, i);
      LastRow(Entries(Concat(groups)), i, "message", true) ==
        if n == 0 then None else LastRow(parts[n - 1], i, "message", true)
  {
    hide LastRow, Entries;
    if groups == [] {
      NothingLast(i, "message", true);
    } else {
      var init, last := groups[..|groups| - 1], groups[|groups| - 1];
      assert Parts(groups)[..|groups| - 1] == Parts(init);
      LastTextOfStream(init, i);
      EntriesOfConcat(Concat(init), last);
      LastRowOfConcat(Entries(Concat(init)), Entries(last), i, "message", true);
    }
  }

  /** Both paths show the same for one index exactly when its text survives. */
  lemma TextSurvivesIff(groups: seq<seq<Item>>, i: int)
    ensures TextSurvives(Parts(groups), i) <==>
      Shown(LatestRow(Parts(groups), i, "message", true)) == Shown(LastRow(Entries(Concat(groups)), i, "message", true))
  {
    hide LastRow, Entries, Concat, LatestRow, LastSpeaking, LosesText;
    LatestText(Parts(groups), i);
    LastTextOfStream(groups, i);
  }

  // ----- what is staged, and what committing it writes -----

  lemma {:induction false} StagedRow(staging: map<StageKey, Row>, u: UploadKey, batch: int, items: seq<Item>, k: StageKey)
    requires u.sessionId != ""
    ensures var last := LastRow(Entries(items), k.index, k.kind, false);
      Get(StageItems(staging, u, batch, items), k) ==
      if k.upload == u && k.batch == batch && last.Some? then last else Get(staging, k)
  {
    hide IsUsageKind;
    if items != [] {
      StagedRow(staging, u, batch, items[..|items| - 1], k);
    }
  }

  /** The upload holds exactly the parts of `got`, each without its superseded entries. */
  ghost predicate Holds(staging: map<StageKey, Row>, u: UploadKey, parts: seq<seq<Entry>>, got: set<int>) {
    forall k: StageKey | k.upload == u ::
      Get(staging, k) ==
        if k.batch in got && 0 <= k.batch < |parts| then LastRow(parts[k.batch], k.index, k.kind, false) else None
  }

  lemma RecordHolds(h: History, agentId: string, b: Batch, parts: seq<seq<Entry>>, got: set<int>)
    requires b.sessionId != "" && 0 <= b.index < |parts| && parts[b.index] == Entries(b.items)
    requires Holds(h.staging, KeyOf(agentId, b), parts, got)
    ensures Holds(Record(h, agentId, b).staging, KeyOf(agentId, b), parts, got + {b.index})
  {
    hide StageItems, UpsertUpload, LastRow, Entries;
    var u := KeyOf(agentId, b);
    var dropped := DropBatch(h.staging, u, b.index);
    var staging := Record(h, agentId, b).staging;
    forall k: StageKey | k.upload == u
      ensures Get(staging, k) == if k.batch in got + {b.index} && 0 <= k.batch < |parts|
        then LastRow(parts[k.batch], k.index, k.kind, false) else None
    {
      StagedRow(dropped, u, b.index, b.items, k);
      assert k.batch != b.index ==> Get(dropped, k) == Get(h.staging, k);
      assert k.batch == b.index ==> Get(dropped, k) == None;
    }
  }

  function AllParts(n: nat): (r: set<int>)
    ensures forall b :: b in r <==> 0 <= b < n
  {
    if n == 0 then {} else AllParts(n - 1) + {n - 1}
  }

  /** The index of the part `LatestRow` takes its row from. */
  lemma {:induction false} LatestPart(parts: seq<seq<Entry>>, i: int, k: string, textOnly: bool) returns (p: int)
    ensures -1 <= p < |parts|
    ensures forall q :: p < q < |parts| ==> TextFilter(LastRow(parts[q], i, k, false), textOnly) == None
    ensures p == -1 ==> LatestRow(parts, i, k, textOnly) == None
    ensures p >= 0 ==> LatestRow(parts, i, k, textOnly).Some?
    ensures p >= 0 ==> LatestRow(parts, i, k, textOnly) == TextFilter(LastRow(parts[p], i, k, false), textOnly)
  {
    if parts == [] {
      p := -1;
    } else if TextFilter(LastRow(parts[|parts| - 1], i, k, false), textOnly).Some? {
      p := |parts| - 1;
    } else {
      p := LatestPart(parts[..|parts| - 1], i, k, textOnly);
    }
  }

  /** Whatever order the database gives tied rows, the last listed row of a key is the one of its latest part. */
  lemma ListedLast(staging: map<StageKey, Row>, u: UploadKey, parts: seq<seq<Entry>>, order: seq<StageKey>,
                   i: int, k: string, textOnly: bool)
    requires Lists(staging, u, order) && Holds(staging, u, parts, AllParts(|parts|))
    ensures LastRow(EntriesOf(staging, order), i, k, textOnly) == LatestRow(parts, i, k, textOnly)
  {
    hide LastRow;
    var entries := EntriesOf(staging, order);
    var p := LatestPart(parts, i, k, textOnly);
    forall q | 0 <= q < |order| && order[q].index == i && order[q].kind == k
      ensures 0 <= order[q].batch < |parts|
      ensures LastRow(parts[order[q].batch], i, k, false) == Some(entries[q].row)
      ensures Matches(entries[q], i, k, textOnly) ==> order[q].batch <= p
    {
      assert order[q] in order;
      assert Get(staging, order[q]) == Some(entries[q].row);
    }
    if p == -1 {
      LastRowNone(entries, i, k, textOnly);
    } else {
      var key := StageKey(u, p, i, k);
      assert Get(staging, key) == LastRow(parts[p], i, k, false);
      assert key in staging;
      var at :| 0 <= at < |order| && order[at] == key;
      forall q | at < q < |entries|
        ensures !Matches(entries[q], i, k, textOnly)
      {
        assert order[at] != order[q] && InOrder(order[at], order[q]);
      }
      LastRowAt(entries, i, k, textOnly, at);
    }
  }

  /** The tables after the whole upload: the cleared session with the last of each key written over it. */
  function Final(t: Tables, u: UploadKey, parts: seq<seq<Entry>>): Tables {
    PutAll(ClearSession(t, u.agentId, u.sessionId), u.agentId, u.sessionId, Merged(parts))
  }

  lemma CommitWritesFinal(h: History, u: UploadKey, parts: seq<seq<Entry>>, order: seq<StageKey>)
    requires Lists(h.staging, u, order) && Holds(h.staging, u, parts, AllParts(|parts|))
    ensures Commit(h, u, order).tables == Final(h.tables, u, parts)
  {
    hide ClearSession, PutAll, LastRow, LatestRow, Merged, Holds;
    var t := ClearSession(h.tables, u.agentId, u.sessionId);
    var entries := EntriesOf(h.staging, order);
    forall i, k, textOnly
      ensures LastRow(entries, i, k, textOnly) == LastRow(Merged(parts), i, k, textOnly)
    {
      ListedLast(h.staging, u, parts, order, i, k, textOnly);
      LastRowOfMerged(parts, i, k, textOnly);
    }
    SameLastSameTables(t, t, u.agentId, u.sessionId, entries, Merged(parts));
  }

  /** Uploading the same parts again changes nothing more. */
  lemma FinalIsIdempotent(t: Tables, u: UploadKey, parts: seq<seq<Entry>>)
    ensures Final(Final(t, u, parts), u, parts) == Final(t, u, parts)
  {
    hide PutAll, LastRow, Merged;
    var t0, t1 := ClearSession(t, u.agentId, u.sessionId), Final(t, u, parts);
    var t2 := ClearSession(t1, u.agentId, u.sessionId);
    forall k: ItemKey | k.agentId != u.agentId || k.sessionId != u.sessionId || LastRow(Merged(parts), k.index, k.kind, false).None?
      ensures Get(t2.items, k) == Get(t0.items, k)
    {
      PutAllRows(t0, u.agentId, u.sessionId, Merged(parts), k);
    }
    forall k
      ensures Get(t2.messages, k) == Get(t0.messages, k)
    {
      PutAllTexts(t0, u.agentId, u.sessionId, Merged(parts), k);
    }
    EqualIfGet(t2.messages, t0.messages);
    SameLastSameTables(t2, t0, u.agentId, u.sessionId, Merged(parts), Merged(parts));
  }

  // ----- a whole upload over an unreliable network -----

  /** Nothing of this upload is stored yet. */
  ghost predicate Unseen(h: History, u: UploadKey) {
    && u !in h.uploads
    && (forall k :: k in h.received ==> k.upload != u)
    && (forall k :: k in h.staging ==> k.upload != u)
  }

  /** The batches `got` are staged since the last commit; `done` says whether there was one. */
  ghost predicate Progress(h0: History, h: History, u: UploadKey, parts: seq<seq<Entry>>, got: set<int>, done: bool) {
    var n := |parts|;
    && got <= AllParts(n) && got != AllParts(n)
    && (forall k: BatchKey | k.upload == u :: k in h.received <==> k.batch in got)
    && Holds(h.staging, u, parts, got)
    && (u in h.uploads <==> got != {})
    && (u in h.uploads ==> h.uploads[u].count == n && (h.uploads[u].final <==> n - 1 in got))
    && h.tables == if done then Final(h0.tables, u, parts) else h0.tables
  }

  ghost predicate IsUpload(batches: seq<Batch>, sessionId: string, cursor: string, uploadId: string) {
    !Blank(sessionId) && !Blank(uploadId) && |batches| > 1 && Numbered(batches, sessionId, cursor, uploadId)
  }

  function UploadOf(agentId: string, sessionId: string, uploadId: string): UploadKey {
    UploadKey(agentId, TrimSpace(sessionId), TrimSpace(uploadId))
  }

  lemma NormalizedBatch(batches: seq<Batch>, sessionId: string, cursor: string, uploadId: string, b: nat)
    requires IsUpload(batches, sessionId, cursor, uploadId) && b < |batches|
    ensures ShouldStage(batches[b])
    ensures Normalize(batches[b]) == Some(Batch(
      TrimSpace(sessionId), cursor, b == 0, TrimSpace(uploadId), b, |batches|, b == |batches| - 1, batches[b].items))
  {
    assert InPlace(batches[b], b, |batches|, sessionId, cursor, uploadId);
  }

  /** One delivery: either one more batch is staged, or it was the last missing one and the history is switched. */
  lemma DeliverOne(h0: History, h: History, agentId: string, b: Batch, h': History, parts: seq<seq<Entry>>,
                   got: set<int>, done: bool)
    requires UploadsValid(h) && b.sessionId != "" && b.count == |parts| && 0 <= b.index < |parts|
    requires b.final == (b.index == |parts| - 1) && parts[b.index] == Entries(b.items)
    requires Progress(h0, h, KeyOf(agentId, b), parts, got, done) && Stages(h, agentId, b, h')
    ensures var u, more := KeyOf(agentId, b), got + {b.index};
      if more == AllParts(|parts|) then Progress(h0, h', u, parts, {}, true) else Progress(h0, h', u, parts, more, done)
  {
    hide ClearSession, PutAll, LastRow, Merged, StageItems, DropBatch, Entries, Commit, Lists, Final;
    var u, recorded, more := KeyOf(agentId, b), Record(h, agentId, b), got + {b.index};
    RecordKeepsUploadsValid(h, agentId, b);
    RecordHolds(h, agentId, b, parts, got);
    assert forall k: BatchKey | k.upload == u :: k in recorded.received <==> k.batch in more;
    assert recorded.uploads[u].count == |parts| && (recorded.uploads[u].final <==> |parts| - 1 in more);
    ReadyIffComplete(recorded, u);
    if more == AllParts(|parts|) {
      assert forall i :: 0 <= i < |parts| ==> BatchKey(u, i) in recorded.received;
      assert Ready(recorded, u);
      CommitSwitches(recorded, u, parts, h');
      if done { FinalIsIdempotent(h0.tables, u, parts); }
      EmptyHolds(h', u, parts);
    } else {
      var i :| i in AllParts(|parts|) && i !in more;
      assert BatchKey(u, i) !in recorded.received;
    }
  }

  lemma CommitSwitches(h: History, u: UploadKey, parts: seq<seq<Entry>>, h': History)
    requires exists order :: Lists(h.staging, u, order) && h' == Commit(h, u, order)
    requires Holds(h.staging, u, parts, AllParts(|parts|))
    ensures Unseen(h', u) && h'.tables == Final(h.tables, u, parts)
  {
    hide ClearSession, PutAll, Final, Holds, AllParts;
    var order :| Lists(h.staging, u, order) && h' == Commit(h, u, order);
    CommitWritesFinal(h, u, parts, order);
  }

  lemma EmptyHolds(h: History, u: UploadKey, parts: seq<seq<Entry>>)
    requires Unseen(h, u)
    ensures Holds(h.staging, u, parts, {})
  {
  }

  /** The states between deliveries: `deliveries[i]` names the batch that arrives `i`-th. */
  ghost predicate Delivers(hs: seq<History>, agentId: string, batches: seq<Batch>, deliveries: seq<nat>) {
    && |hs| == |deliveries| + 1
    && forall i | 0 <= i < |deliveries| ::
      deliveries[i] < |batches| && Saves(hs[i], agentId, batches[deliveries[i]], true, hs[i + 1])
  }

  /** Every batch has arrived at least once. */
  predicate Covers(deliveries: seq<nat>, n: nat) {
    forall b: nat :: b < n ==> b in deliveries
  }

  function Arrived(deliveries: seq<nat>): (r: set<int>)
    ensures forall b: nat :: b in r <==> b in deliveries
    ensures forall b :: b in r ==> b >= 0
  {
    set d | d in deliveries :: d as int
  }

  lemma CoversIffArrived(deliveries: seq<nat>, n: nat)
    ensures Covers(deliveries, n) <==> AllParts(n) <= Arrived(deliveries)
  {
    if AllParts(n) <= Arrived(deliveries) {
      forall b: nat | b < n
        ensures b in deliveries
      {
        var i: int := b;
        assert i in AllParts(n);
      }
    }
  }

  lemma {:induction false} DeliveriesProgress(hs: seq<History>, agentId: string, batches: seq<Batch>, deliveries: seq<nat>,
                             sessionId: string, cursor: string, uploadId: string)
    returns (got: set<int>, done: bool)
    requires IsUpload(batches, sessionId, cursor, uploadId) && Delivers(hs, agentId, batches, deliveries)
    requires UploadsValid(hs[0]) && Unseen(hs[0], UploadOf(agentId, sessionId, uploadId))
    ensures UploadsValid(hs[|deliveries|])
    ensures Progress(hs[0], hs[|deliveries|], UploadOf(agentId, sessionId, uploadId), Parts(Groups(batches)), got, done)
    ensures got <= Arrived(deliveries) && (!done ==> got == Arrived(deliveries))
    ensures done ==> Covers(deliveries, |batches|)
    decreases |deliveries|
  {
    hide Final, Holds, Saves, Parts, UploadsValid, TrimSpace, Blank, IsUpload;
    var u, parts := UploadOf(agentId, sessionId, uploadId), Parts(Groups(batches));
    assert |parts| == |batches| > 1 by { UploadHasBatches(batches, sessionId, cursor, uploadId); }
    if deliveries == [] {
      EmptyHolds(hs[0], u, parts);
      assert 0 in AllParts(|parts|);
      return {}, false;
    }
    var m := |deliveries| - 1;
    var rest := deliveries[..m];
    got, done := DeliveriesProgress(hs[..|hs| - 1], agentId, batches, rest, sessionId, cursor, uploadId);
    var b := deliveries[m];
    assert Saves(hs[m], agentId, batches[b], true, hs[m + 1]);
    DeliverToUpload(hs[0], hs[m], agentId, batches, b, hs[m + 1], sessionId, cursor, uploadId, got, done);
    assert deliveries == rest + [b];
    assert Arrived(deliveries) == Arrived(rest) + {b as int};
    if got + {b as int} == AllParts(|parts|) {
      CoversIffArrived(deliveries, |batches|);
      return {}, true;
    }
    if done {
      assert forall x: nat :: x in rest ==> x in deliveries;
    }
    got := got + {b as int};
  }

  lemma UploadHasBatches(batches: seq<Batch>, sessionId: string, cursor: string, uploadId: string)
    requires IsUpload(batches, sessionId, cursor, uploadId)
    ensures |Parts(Groups(batches))| == |batches| > 1
  {
    hide TrimSpace;
  }

  lemma DeliverToUpload(h0: History, h: History, agentId: string, batches: seq<Batch>, b: nat, h': History,
                        sessionId: string, cursor: string, uploadId: string, got: set<int>, done: bool)
    requires IsUpload(batches, sessionId, cursor, uploadId) && b < |batches|
    requires UploadsValid(h) && Saves(h, agentId, batches[b], true, h')
    requires Progress(h0, h, UploadOf(agentId, sessionId, uploadId), Parts(Groups(batches)), got, done)
    ensures UploadsValid(h')
    ensures var u, parts, more := UploadOf(agentId, sessionId, uploadId), Parts(Groups(batches)), got + {b as int};
      if more == AllParts(|parts|) then Progress(h0, h', u, parts, {}, true) else Progress(h0, h', u, parts, more, done)
  {
    hide Final, Holds, Stages, UploadsValid, TrimSpace, IsUsageKind, Normalize, ShouldStage, Progress, AllParts, Entries;
    NormalizedBatch(batches, sessionId, cursor, uploadId, b);
    SaveKeepsUploadsValid(h, agentId, batches[b], true, h');
    NotBlankIsNotEmpty(sessionId);
    DeliverOne(h0, h, agentId, Normalize(batches[b]).value, h', Parts(Groups(batches)), got, done);
  }

  lemma NotBlankIsNotEmpty(s: string)
    requires !Blank(s)
    ensures TrimSpace(s) != ""
  {
  }

  /** Whatever the order and the repeats: until every batch has arrived the history is what it was before, and from
      then on it is what the items make of it. */
  lemma UploadIsAtomic(hs: seq<History>, agentId: string, batches: seq<Batch>, deliveries: seq<nat>,
                       sessionId: string, cursor: string, uploadId: string)
    requires IsUpload(batches, sessionId, cursor, uploadId) && Delivers(hs, agentId, batches, deliveries)
    requires UploadsValid(hs[0]) && Unseen(hs[0], UploadOf(agentId, sessionId, uploadId))
    ensures hs[|deliveries|].tables == if Covers(deliveries, |batches|)
      then Final(hs[0].tables, UploadOf(agentId, sessionId, uploadId), Parts(Groups(batches))) else hs[0].tables
  {
    hide Final, Holds, UploadsValid, Delivers, IsUpload, UploadOf;
    var got, done := DeliveriesProgress(hs, agentId, batches, deliveries, sessionId, cursor, uploadId);
    UploadHasBatches(batches, sessionId, cursor, uploadId);
    CoversIffArrived(deliveries, |batches|);
  }

  // ----- the round trip -----

  /** The tables a session's items stand for: its old scanned items and messages gone, the last of each key written. */
  function Expected(t: Tables, agentId: string, sessionId: string, items: seq<Item>): Tables {
    PutAll(ClearSession(t, agentId, sessionId), agentId, sessionId, Entries(items))
  }

  /** What that means for each row. */
  lemma ExpectedRows(t: Tables, agentId: string, sessionId: string, items: seq<Item>, k: ItemKey)
    ensures var t', last := Expected(t, agentId, sessionId, items), LastRow(Entries(items), k.index, k.kind, false);
      if k.agentId != agentId || k.sessionId != sessionId then Get(t'.items, k) == Get(t.items, k)
      else if last.Some? then Get(t'.items, k) == last
      else if k in t.items && t.items[k].source != "codex.history" then Get(t'.items, k) == Some(t.items[k])
      else k !in t'.items
  {
    hide PutAll, LastRow, Entries;
    PutAllRows(ClearSession(t, agentId, sessionId), agentId, sessionId, Entries(items), k);
  }

  lemma {:induction false} SaveItemsIsPutAll(t: Tables, agentId: string, sessionId: string, items: seq<Item>)
    requires sessionId != "" && forall i :: i in items ==> i.sessionId == sessionId
    ensures SaveItems(t, agentId, sessionId, items) == PutAll(t, agentId, sessionId, Entries(items))
  {
    hide IsUsageKind, Put;
    if items != [] {
      var init, last := items[..|items| - 1], items[|items| - 1];
      assert last in items;
      SaveItemsIsPutAll(t, agentId, sessionId, init);
      var rest, e := Entries(init), Entry(last.index, last.kind, RowOf(last));
      assert (rest + [e])[..|rest|] == rest;
    }
  }

  lemma DirectWritesExpected(t: Tables, agentId: string, b: Batch)
    requires b.reset && b.sessionId != "" && forall i :: i in b.items ==> i.sessionId == b.sessionId
    ensures SaveDirect(t, agentId, b) == Expected(t, agentId, b.sessionId, b.items)
  {
    SaveItemsIsPutAll(ClearSession(t, agentId, b.sessionId), agentId, b.sessionId, b.items);
  }

  lemma FinalText(t: Tables, u: UploadKey, parts: seq<seq<Entry>>, k: MessageKey)
    ensures var last := Shown(LatestRow(parts, k.index, "message", true));
      Get(Final(t, u, parts).messages, k) ==
        if k.agentId == u.agentId && k.sessionId == u.sessionId then last else Get(t.messages, k)
  {
    hide PutAll, LastRow, Merged, LatestRow;
    var t0 := ClearSession(t, u.agentId, u.sessionId);
    PutAllTexts(t0, u.agentId, u.sessionId, Merged(parts), k);
    LastRowOfMerged(parts, k.index, "message", true);
  }

  lemma ExpectedText(t: Tables, agentId: string, sessionId: string, items: seq<Item>, k: MessageKey)
    ensures var last := Shown(LastRow(Entries(items), k.index, "message", true));
      Get(Expected(t, agentId, sessionId, items).messages, k) ==
        if k.agentId == agentId && k.sessionId == sessionId then last else Get(t.messages, k)
  {
    hide PutAll, LastRow, Entries;
    PutAllTexts(ClearSession(t, agentId, sessionId), agentId, sessionId, Entries(items), k);
  }

  lemma SameItems(t: Tables, agentId: string, sessionId: string, uploadId: string, groups: seq<seq<Item>>)
    requires sessionId == TrimSpace(sessionId)
    ensures Final(t, UploadOf(agentId, sessionId, uploadId), Parts(groups)).items
      == Expected(t, agentId, sessionId, Concat(groups)).items
  {
    hide PutAll, LastRow, Merged, LatestRow, Entries, Concat, ClearSession, TrimSpace;
    var a, b := Merged(Parts(groups)), Entries(Concat(groups));
    forall i, k
      ensures LastRow(a, i, k, false) == LastRow(b, i, k, false)
    {
      LastRowOfMerged(Parts(groups), i, k, false);
      LastRowOfStream(groups, i, k);
    }
    var t0 := ClearSession(t, agentId, sessionId);
    SameLastSameTables(t0, t0, agentId, sessionId, a, b);
  }

  lemma SameMessagesIff(t: Tables, agentId: string, sessionId: string, uploadId: string, groups: seq<seq<Item>>)
    requires sessionId == TrimSpace(sessionId)
    ensures TextsSurvive(groups) <==>
      Final(t, UploadOf(agentId, sessionId, uploadId), Parts(groups)).messages
        == Expected(t, agentId, sessionId, Concat(groups)).messages
  {
    hide Final, Expected, LastRow, LatestRow, Entries, Concat, TrimSpace, TextSurvives, Shown;
    var u := UploadOf(agentId, sessionId, uploadId);
    var x, y := Final(t, u, Parts(groups)).messages, Expected(t, agentId, sessionId, Concat(groups)).messages;
    forall k: MessageKey
      ensures Get(x, k) == Get(y, k) <==>
        (k.agentId == agentId && k.sessionId == sessionId ==> TextSurvives(Parts(groups), k.index))
    {
      FinalText(t, u, Parts(groups), k);
      ExpectedText(t, agentId, sessionId, Concat(groups), k);
      TextSurvivesIff(groups, k.index);
    }
    if TextsSurvive(groups) {
      EqualIfGet(x, y);
    } else {
      var i :| !TextSurvives(Parts(groups), i);
      assert Get(x, MessageKey(agentId, sessionId, i)) != Get(y, MessageKey(agentId, sessionId, i));
    }
  }

  /** The staged path leaves the same items as the direct one; it leaves the same messages if and only if the last text of
      every index survives. */
  lemma FinalIsExpected(t: Tables, agentId: string, sessionId: string, uploadId: string, groups: seq<seq<Item>>)
    requires sessionId == TrimSpace(sessionId)
    ensures var t', t'' := Final(t, UploadOf(agentId, sessionId, uploadId), Parts(groups)),
                           Expected(t, agentId, sessionId, Concat(groups));
      t'.items == t''.items && (t' == t'' <==> TextsSurvive(groups))
  {
    hide Final, Expected, Concat, TrimSpace, TextsSurvive;
    SameItems(t, agentId, sessionId, uploadId, groups);
    SameMessagesIff(t, agentId, sessionId, uploadId, groups);
  }

  /** From the scanned items to the stored history and back: whatever the order and the repeats of the deliveries, the
      session shows its previous history until the last missing batch is in, and exactly the items afterwards; the
      messages are theirs too if and only if no batch loses the last text of an index. */
  lemma HistoryRoundTrip(hs: seq<History>, agentId: string, scanned: seq<Scanned>, batches: seq<Batch>,
                         deliveries: seq<nat>, sessionId: string, cursor: string, uploadId: string)
    requires sessionId == TrimSpace(sessionId) && IsUpload(batches, sessionId, cursor, uploadId)
    requires IsCut(Wires(sessionId, scanned), Groups(batches)) && Delivers(hs, agentId, batches, deliveries)
    requires UploadsValid(hs[0]) && Unseen(hs[0], UploadOf(agentId, sessionId, uploadId))
    ensures var before, after, expected := hs[0].tables, hs[|deliveries|].tables,
                                           Expected(hs[0].tables, agentId, sessionId, Wires(sessionId, scanned));
      && (!Covers(deliveries, |batches|) ==> after == before)
      && (Covers(deliveries, |batches|) ==> after.items == expected.items)
      && (Covers(deliveries, |batches|) ==> (after == expected <==> TextsSurvive(Groups(batches))))
  {
    hide Final, Expected, IsUpload, UploadsValid, Unseen, TrimSpace, Wires, TextsSurvive;
    UploadIsAtomic(hs, agentId, batches, deliveries, sessionId, cursor, uploadId);
    FinalIsExpected(hs[0].tables, agentId, sessionId, uploadId, Groups(batches));
  }

  // ----- scanned items lose no text -----

  /** The scanner numbers the items it yields 0, 1, 2 and so on. */
  predicate ScanNumbered(scanned: seq<Scanned>) {
    forall i :: 0 <= i < |scanned| ==> scanned[i].index == i
  }

  predicate Ascending(items: seq<Item>) {
    forall i, j :: 0 <= i < j < |items| ==> items[i].index < items[j].index
  }

  lemma {:induction false} WiresAscend(sessionId: string, scanned: seq<Scanned>)
    requires ScanNumbered(scanned)
    ensures Ascending(Wires(sessionId, scanned))
    ensures forall i :: i in Wires(sessionId, scanned) ==> i.index < |scanned|
  {
    hide IsUsageKind;
    if scanned != [] {
      WiresAscend(sessionId, scanned[..|scanned| - 1]);
    }
  }

  lemma {:induction false} GroupsAscend(groups: seq<seq<Item>>, g: nat)
    requires Ascending(Concat(groups)) && g < |groups|
    ensures Ascending(groups[g])
  {
    var init, last := groups[..|groups| - 1], groups[|groups| - 1];
    var all, m := Concat(groups), |Concat(init)|;
    if g < |init| {
      assert forall i :: 0 <= i < m ==> all[i] == Concat(init)[i];
      GroupsAscend(init, g);
    } else {
      assert forall i :: 0 <= i < |last| ==> all[m + i] == last[i];
    }
  }

  lemma {:induction false} IndexesBelow(items: seq<Item>, i: int, kind: string, textOnly: bool)
    requires forall x :: x in items ==> x.index < i
    ensures LastRow(Entries(items), i, kind, textOnly).None?
  {
    hide IsUsageKind;
    if items != [] {
      IndexesBelow(items[..|items| - 1], i, kind, textOnly);
      assert items[|items| - 1] in items;
    }
  }

  lemma {:induction false} AscendingLosesNone(items: seq<Item>, i: int)
    requires Ascending(items)
    ensures !LosesText(Entries(items), i)
  {
    hide IsUsageKind;
    if items != [] {
      var init, last := items[..|items| - 1], items[|items| - 1];
      AscendingLosesNone(init, i);
      if last.index == i {
        IndexesBelow(init, i, "message", true);
      }
    }
  }

  /** So what the scanner found is what the session shows, messages included, as soon as every batch has arrived. */
  lemma ScannedRoundTrip(hs: seq<History>, agentId: string, scanned: seq<Scanned>, batches: seq<Batch>,
                         deliveries: seq<nat>, sessionId: string, cursor: string, uploadId: string)
    requires ScanNumbered(scanned)
    requires sessionId == TrimSpace(sessionId) && IsUpload(batches, sessionId, cursor, uploadId)
    requires IsCut(Wires(sessionId, scanned), Groups(batches)) && Delivers(hs, agentId, batches, deliveries)
    requires UploadsValid(hs[0]) && Unseen(hs[0], UploadOf(agentId, sessionId, uploadId))
    ensures hs[|deliveries|].tables == if Covers(deliveries, |batches|)
      then Expected(hs[0].tables, agentId, sessionId, Wires(sessionId, scanned)) else hs[0].tables
  {
    hide Expected, IsUpload, UploadsValid, Unseen, TrimSpace, Wires, Entries, LastRow, LosesText, LatestRow, Delivers,
      Ascending, Covers;
    HistoryRoundTrip(hs, agentId, scanned, batches, deliveries, sessionId, cursor, uploadId);
    WiresAscend(sessionId, scanned);
    var groups := Groups(batches);
    forall g, i | 0 <= g < |groups|
      ensures !LosesText(Entries(groups[g]), i)
    {
      GroupsAscend(groups, g);
      AscendingLosesNone(groups[g], i);
    }
    assert TextsSurvive(groups);
  }

  /** An upload of one batch goes the direct way: each delivery of it leaves exactly the items. */
  lemma {:induction false} OneBatchRoundTrip(hs: seq<History>, agentId: string, batches: seq<Batch>, deliveries: seq<nat>,
                                             sessionId: string, cursor: string, uploadId: string)
    requires |batches| == 1 && sessionId != "" && Numbered(batches, sessionId, cursor, uploadId)
    requires forall i :: i in batches[0].items ==> i.sessionId == sessionId
    requires Delivers(hs, agentId, batches, deliveries)
    ensures hs[|deliveries|].tables == if deliveries == [] then hs[0].tables
      else Expected(hs[0].tables, agentId, sessionId, batches[0].items)
    decreases |deliveries|
  {
    hide ClearSession, PutAll, Entries, SaveDirect;
    if deliveries != [] {
      var m := |deliveries| - 1;
      OneBatchRoundTrip(hs[..|hs| - 1], agentId, batches, deliveries[..m], sessionId, cursor, uploadId);
      assert InPlace(batches[0], 0, 1, sessionId, cursor, uploadId);
      assert Saves(hs[m], agentId, batches[deliveries[m]], true, hs[m + 1]);
      DirectWritesExpected(hs[m].tables, agentId, batches[0]);
      ExpectedIsIdempotent(hs[0].tables, agentId, sessionId, batches[0].items);
    }
  }

  lemma ExpectedIsIdempotent(t: Tables, agentId: string, sessionId: string, items: seq<Item>)
    ensures Expected(Expected(t, agentId, sessionId, items), agentId, sessionId, items) ==
      Expected(t, agentId, sessionId, items)
  {
    hide PutAll, LastRow, Entries;
    var entries := Entries(items);
    var t0, t1 := ClearSession(t, agentId, sessionId), Expected(t, agentId, sessionId, items);
    var t2 := ClearSession(t1, agentId, sessionId);
    forall k: ItemKey | k.agentId != agentId || k.sessionId != sessionId || LastRow(entries, k.index, k.kind, false).None?
      ensures Get(t2.items, k) == Get(t0.items, k)
    {
      PutAllRows(t0, agentId, sessionId, entries, k);
    }
    forall k
      ensures Get(t2.messages, k) == Get(t0.messages, k)
    {
      PutAllTexts(t0, agentId, sessionId, entries, k);
    }
    EqualIfGet(t2.messages, t0.messages);
    SameLastSameTables(t2, t0, agentId, sessionId, entries, entries);
  }

  // ----- where the two paths part -----

  /** The two paths agree on every starting table exactly when the session id carries no outer space. */
  lemma PathsAgreeIffTrimmed(agentId: string, sessionId: string, uploadId: string, groups: seq<seq<Item>>)
    requires Entries(Concat(groups)) != []
    ensures sessionId == TrimSpace(sessionId) <==>
      forall t :: Final(t, UploadOf(agentId, sessionId, uploadId), Parts(groups)).items
        == Expected(t, agentId, sessionId, Concat(groups)).items
  {
    hide PutAll, Merged, Concat, TrimSpace, Final, Expected;
    if sessionId == TrimSpace(sessionId) {
      forall t
        ensures Final(t, UploadOf(agentId, sessionId, uploadId), Parts(groups)).items
          == Expected(t, agentId, sessionId, Concat(groups)).items
      {
        FinalIsExpected(t, agentId, sessionId, uploadId, groups);
      }
    } else {
      PaddedSessionDiffers(agentId, sessionId, uploadId, groups);
    }
  }

  lemma PaddedSessionDiffers(agentId: string, sessionId: string, uploadId: string, groups: seq<seq<Item>>)
    requires Entries(Concat(groups)) != [] && sessionId != TrimSpace(sessionId)
    ensures var t := Tables(map[], map[]);
      Final(t, UploadOf(agentId, sessionId, uploadId), Parts(groups)).items
        != Expected(t, agentId, sessionId, Concat(groups)).items
  {
    hide PutAll, Merged, Concat, TrimSpace, Entries;
    var t, u, entries := Tables(map[], map[]), UploadOf(agentId, sessionId, uploadId), Entries(Concat(groups));
    var last := entries[|entries| - 1];
    var k := ItemKey(agentId, sessionId, last.index, last.kind);
    PutAllRows(ClearSession(t, agentId, sessionId), agentId, sessionId, entries, k);
    PutAllRows(ClearSession(t, u.agentId, u.sessionId), u.agentId, u.sessionId, Merged(Parts(groups)), k);
    assert Get(Expected(t, agentId, sessionId, Concat(groups)).items, k).Some?;
    assert Get(Final(t, u, Parts(groups)).items, k) == None;
  }

  /** A message of index 0 with the given text. */
  function Say(text: string): Item {
    Item("s", 0, "user", "message", text, "", "codex.history", "", 0)
  }

  function SayEntry(text: string): Entry {
    Entry(0, "message", RowOf(Say(text)))
  }

  lemma SayEntries(text: string)
    ensures Entries([Say(text)]) == [SayEntry(text)]
    ensures Entries([Say(text), Say("")]) == [SayEntry(text), SayEntry("")]
  {
    hide IsUsageKind;
    MessageIsNotUsage();
    assert [Say(text), Say("")][..1] == [Say(text)] && [Say(text)][..0] == [];
  }

  lemma SpeakingParts(text: string)
    requires text != ""
    ensures var first, second := [SayEntry(text), SayEntry("")], [SayEntry("")];
      && LastSpeaking([first, second], 0) == 1 && LosesText(first, 0)
      && LastRow(first, 0, "message", true) == Some(RowOf(Say(text))) && LatestRow([], 0, "message", true) == None
  {
    hide LastRow;
    var first, second := [SayEntry(text), SayEntry("")], [SayEntry("")];
    LastRowAt(first, 0, "message", true, 0);
    LastRowAt(first, 0, "message", false, 1);
    LastRowNone(second, 0, "message", true);
    assert [first, second][..1] == [first];
  }

  /** A text is lost whenever a textless message of its index follows it in its batch and no other batch speaks. */
  lemma SupersededTextIsLost(t: Tables, agentId: string, uploadId: string, text: string)
    requires text != ""
    ensures var groups, k := [[Say(text), Say("")], [Say("")]], MessageKey(agentId, "s", 0);
      && !TextsSurvive(groups)
      && k in Expected(t, agentId, "s", Concat(groups)).messages
      && k !in Final(t, UploadOf(agentId, "s", uploadId), Parts(groups)).messages
  {
    hide Expected, Final, Entries, LastRow, LatestRow, LastSpeaking, LosesText, Concat, TrimSpace;
    var groups, k := [[Say(text), Say("")], [Say("")]], MessageKey(agentId, "s", 0);
    MessageIsNotUsage();
    SayEntries(text);
    SayEntries("");
    SpeakingParts(text);
    assert Parts(groups) == [[SayEntry(text), SayEntry("")], [SayEntry("")]];
    assert Parts(groups)[..0] == [];
    FinalText(t, UploadOf(agentId, "s", uploadId), Parts(groups), k);
    ExpectedText(t, agentId, "s", Concat(groups), k);
    LatestText(Parts(groups), 0);
    LastTextOfStream(groups, 0);
    TextSurvivesIff(groups, 0);
  }

  lemma MessageIsNotUsage()
    ensures !IsUsageKind("message") && TrimSpace("s") == "s"
  {
    assert TrimSpace("message") == "message";
    assert ToLower("message") == "message";
  }
}
