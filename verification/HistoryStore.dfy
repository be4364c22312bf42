/** The server's session history: the direct path for one-batch uploads and the staged path for all others. */
module HistoryStore {
  import opened Text
  import opened Protocol
  import opened HistoryBatches

  datatype ItemKey = ItemKey(agentId: string, sessionId: string, index: int, kind: string)
  datatype MessageKey = MessageKey(agentId: string, sessionId: string, index: int)
  datatype Row = Row(role: string, text: string, payload: string, source: string, eventId: string, at: int)
  datatype Message = Message(role: string, text: string, at: int)

  datatype UploadKey = UploadKey(agentId: string, sessionId: string, uploadId: string)
  datatype Upload = Upload(cursor: string, count: int, final: bool)
  datatype BatchKey = BatchKey(upload: UploadKey, batch: int)
  datatype StageKey = StageKey(upload: UploadKey, batch: int, index: int, kind: string)

  /** `history_items` and `history_messages`. */
  datatype Tables = Tables(items: map<ItemKey, Row>, messages: map<MessageKey, Message>)

  datatype History = History(
    tables: Tables, uploads: map<UploadKey, Upload>, received: set<BatchKey>, staging: map<StageKey, Row>)

  /** One insertion: an item under its index and kind. */
  datatype Entry = Entry(index: int, kind: string, row: Row)

  predicate Kept(item: Item, sessionId: string) {
    OrElse(item.sessionId, sessionId) != "" && item.kind != "" && !IsUsageKind(item.kind)
  }

  function RowOf(item: Item): Row {
    Row(item.role, item.text, OrElse(item.payload, "null"), OrElse(item.source, "codex.history"), item.eventId, item.at)
  }

  /** Upsert of an item and, when it is a message with text, of its message row. */
  function Put(t: Tables, agentId: string, sessionId: string, e: Entry): Tables {
    Tables(t.items[ItemKey(agentId, sessionId, e.index, e.kind) := e.row],
      if e.kind == "message" && e.row.text != ""
      then t.messages[MessageKey(agentId, sessionId, e.index) := Message(e.row.role, e.row.text, e.row.at)]
      else t.messages)
  }

  function PutAll(t: Tables, agentId: string, sessionId: string, entries: seq<Entry>): Tables {
    if entries == [] then t
    else Put(PutAll(t, agentId, sessionId, entries[..|entries| - 1]), agentId, sessionId, entries[|entries| - 1])
  }

  // ----- the direct path -----

  /** What a reset or a commit deletes: the session's scanned items and all its messages. */
  function ClearSession(t: Tables, agentId: string, sessionId: string): Tables {
    Tables(
      map k | k in t.items && !(k.agentId == agentId && k.sessionId == sessionId && t.items[k].source == "codex.history")
        :: t.items[k],
      map k | k in t.messages && !(k.agentId == agentId && k.sessionId == sessionId) :: t.messages[k])
  }

  function SaveItem(t: Tables, agentId: string, sessionId: string, item: Item): Tables {
    if Kept(item, sessionId)
    then Put(t, agentId, OrElse(item.sessionId, sessionId), Entry(item.index, item.kind, RowOf(item)))
    else t
  }

  function SaveItems(t: Tables, agentId: string, sessionId: string, items: seq<Item>): Tables {
    if items == [] then t
    else SaveItem(SaveItems(t, agentId, sessionId, items[..|items| - 1]), agentId, sessionId, items[|items| - 1])
  }

  function SaveDirect(t: Tables, agentId: string, b: Batch): Tables {
    SaveItems(if b.reset && b.sessionId != "" then ClearSession(t, agentId, b.sessionId) else t,
      agentId, b.sessionId, b.items)
  }

  // ----- the staged path -----

  predicate ShouldStage(b: Batch) {
    !Blank(b.uploadId) && b.count > 1
  }

  /** The batch with trimmed ids, unless it is malformed. */
  function Normalize(b: Batch): Option<Batch> {
    if Blank(b.sessionId) || Blank(b.uploadId) || b.count <= 0 || b.index < 0 || b.index >= b.count then None
    else Some(b.(sessionId := TrimSpace(b.sessionId), uploadId := TrimSpace(b.uploadId)))
  }

  function KeyOf(agentId: string, b: Batch): UploadKey {
    UploadKey(agentId, b.sessionId, b.uploadId)
  }

  function UpsertUpload(uploads: map<UploadKey, Upload>, u: UploadKey, b: Batch): map<UploadKey, Upload> {
    uploads[u := if u !in uploads then Upload(b.cursor, b.count, b.final)
      else Upload(b.cursor, if b.count > uploads[u].count then b.count else uploads[u].count,
        uploads[u].final || b.final)]
  }

  function DropBatch(staging: map<StageKey, Row>, u: UploadKey, batch: int): map<StageKey, Row> {
    map k | k in staging && !(k.upload == u && k.batch == batch) :: staging[k]
  }

  function StageItem(staging: map<StageKey, Row>, u: UploadKey, batch: int, item: Item): map<StageKey, Row> {
    if Kept(item, u.sessionId) then staging[StageKey(u, batch, item.index, item.kind) := RowOf(item)] else staging
  }

  function StageItems(staging: map<StageKey, Row>, u: UploadKey, batch: int, items: seq<Item>): map<StageKey, Row> {
    if items == [] then staging
    else StageItem(StageItems(staging, u, batch, items[..|items| - 1]), u, batch, items[|items| - 1])
  }

  /** The batch is recorded and its items replace those of an earlier delivery of it. */
  function Record(h: History, agentId: string, b: Batch): History {
    var u := KeyOf(agentId, b);
    h.(uploads := UpsertUpload(h.uploads, u, b), received := h.received + {BatchKey(u, b.index)},
       staging := StageItems(DropBatch(h.staging, u, b.index), u, b.index, b.items))
  }

  function ReceivedOf(h: History, u: UploadKey): set<BatchKey> {
    set k | k in h.received && k.upload == u
  }

  /** The upload is complete as far as its counts tell. */
  predicate Ready(h: History, u: UploadKey) {
    u in h.uploads && h.uploads[u].final && h.uploads[u].count > 0 && |ReceivedOf(h, u)| >= h.uploads[u].count
  }

  predicate InOrder(a: StageKey, b: StageKey) {
    a.batch < b.batch || (a.batch == b.batch && a.index <= b.index)
  }

  /** A result of the ordered query over the staged rows of one upload; ties come in any order. */
  ghost predicate Lists(staging: map<StageKey, Row>, u: UploadKey, order: seq<StageKey>) {
    && (forall k :: k in order <==> k in staging && k.upload == u)
    && (forall i, j :: 0 <= i < j < |order| ==> order[i] != order[j] && InOrder(order[i], order[j]))
  }

  function EntriesOf(staging: map<StageKey, Row>, order: seq<StageKey>): (r: seq<Entry>)
    requires forall k :: k in order ==> k in staging
    ensures |r| == |order|
    ensures forall i :: 0 <= i < |r| ==> r[i] == Entry(order[i].index, order[i].kind, staging[order[i]])
  {
    seq(|order|, i requires 0 <= i < |order| => Entry(order[i].index, order[i].kind, staging[order[i]]))
  }

  function Commit(h: History, u: UploadKey, order: seq<StageKey>): History
    requires forall k :: k in order ==> k in h.staging
  {
    History(
      PutAll(ClearSession(h.tables, u.agentId, u.sessionId), u.agentId, u.sessionId, EntriesOf(h.staging, order)),
      h.uploads - {u},
      set k | k in h.received && k.upload != u,
      map k | k in h.staging && k.upload != u :: h.staging[k])
  }

  /** Staging one well-formed batch, and committing when that made the upload complete. */
  ghost predicate Stages(h: History, agentId: string, b: Batch, h': History) {
    var u, recorded := KeyOf(agentId, b), Record(h, agentId, b);
    if Ready(recorded, u) then exists order :: Lists(recorded.staging, u, order) && h' == Commit(recorded, u, order)
    else h' == recorded
  }

  /** One delivery. */
  ghost predicate Saves(h: History, agentId: string, b: Batch, ok: bool, h': History) {
    if !ShouldStage(b) then ok && h' == h.(tables := SaveDirect(h.tables, agentId, b))
    else if Normalize(b).None? then !ok && h' == h
    else ok && Stages(h, agentId, Normalize(b).value, h')
  }

  class Store {
    var tables: Tables
    var uploads: map<UploadKey, Upload>
    var received: set<BatchKey>
    var staging: map<StageKey, Row>

    ghost function Snapshot(): History
      reads this
    {
      History(tables, uploads, received, staging)
    }

    constructor ()
      ensures Snapshot() == History(Tables(map[], map[]), map[], {}, map[])
    {
      tables, uploads, received, staging := Tables(map[], map[]), map[], {}, map[];
    }

    method SaveHistoryItems(agentId: string, b: Batch) returns (ok: bool)
      modifies this
      ensures Saves(old(Snapshot()), agentId, b, ok, Snapshot())
    {
      hide Stages, SaveDirect;
      if ShouldStage(b) {
        ok := StageHistoryItems(agentId, b);
      } else {
        SaveHistoryItemsDirect(agentId, b);
        ok := true;
      }
    }

    method SaveHistoryItemsDirect(agentId: string, b: Batch)
      modifies this`tables
      ensures tables == SaveDirect(old(tables), agentId, b)
    {
      hide IsUsageKind, ClearSession, Put;
      if b.reset && b.sessionId != "" {
        DeleteSession(agentId, b.sessionId);
      }
      ghost var start := tables;
      var i := 0;
      while i < |b.items|
        invariant 0 <= i <= |b.items|
        invariant tables == SaveItems(start, agentId, b.sessionId, b.items[..i])
      {
        assert b.items[..i + 1][..i] == b.items[..i];
        var item := b.items[i];
        var sessionId := if item.sessionId == "" then b.sessionId else item.sessionId;
        if sessionId != "" && item.kind != "" && !IsUsageKind(item.kind) {
          Upsert(agentId, sessionId, item.index, item.kind, RowOf(item));
        }
        i := i + 1;
      }
      assert b.items[..i] == b.items;
    }

    method DeleteSession(agentId: string, sessionId: string)
      modifies this`tables
      ensures tables == ClearSession(old(tables), agentId, sessionId)
    {
      var items := map k | k in tables.items && !(k.agentId == agentId && k.sessionId == sessionId
        && tables.items[k].source == "codex.history") :: tables.items[k];
      var messages := map k | k in tables.messages && !(k.agentId == agentId && k.sessionId == sessionId)
        :: tables.messages[k];
      tables := Tables(items, messages);
    }

    method Upsert(agentId: string, sessionId: string, index: int, kind: string, row: Row)
      modifies this`tables
      ensures tables == Put(old(tables), agentId, sessionId, Entry(index, kind, row))
    {
      tables := tables.(items := tables.items[ItemKey(agentId, sessionId, index, kind) := row]);
      if kind == "message" && row.text != "" {
        tables := tables.(messages :=
          tables.messages[MessageKey(agentId, sessionId, index) := Message(row.role, row.text, row.at)]);
      }
    }

    method StageHistoryItems(agentId: string, batch: Batch) returns (ok: bool)
      modifies this
      ensures if Normalize(batch).None? then !ok && Snapshot() == old(Snapshot())
        else ok && Stages(old(Snapshot()), agentId, Normalize(batch).value, Snapshot())
    {
      hide IsUsageKind, Lists, Commit, StageItems, TrimSpace;
      var normalized := Normalize(batch);
      if normalized.None? {
        return false;
      }
      var b := normalized.value;
      var u := KeyOf(agentId, b);
      uploads := UpsertUpload(uploads, u, b);
      ReplaceHistoryUploadBatch(u, b);
      ghost var recorded := Snapshot();
      var ready := HistoryUploadReady(u);
      if ready {
        ghost var order;
        order := CommitHistoryUpload(u);
      }
      return true;
    }

    method ReplaceHistoryUploadBatch(u: UploadKey, b: Batch)
      modifies this`staging, this`received
      ensures received == old(received) + {BatchKey(u, b.index)}
      ensures staging == StageItems(DropBatch(old(staging), u, b.index), u, b.index, b.items)
    {
      hide IsUsageKind;
      staging := DropBatch(staging, u, b.index);
      received := received + {BatchKey(u, b.index)};
      var i := 0;
      while i < |b.items|
        invariant 0 <= i <= |b.items| && received == old(received) + {BatchKey(u, b.index)}
        invariant staging == StageItems(DropBatch(old(staging), u, b.index), u, b.index, b.items[..i])
      {
        assert b.items[..i + 1][..i] == b.items[..i];
        var item := b.items[i];
        if (item.sessionId != "" || u.sessionId != "") && item.kind != "" && !IsUsageKind(item.kind) {
          staging := staging[StageKey(u, b.index, item.index, item.kind) := RowOf(item)];
        }
        i := i + 1;
      }
      assert b.items[..i] == b.items;
    }

    method HistoryUploadReady(u: UploadKey) returns (ready: bool)
      requires u in uploads
      ensures ready == Ready(Snapshot(), u)
    {
      var count := |set k | k in received && k.upload == u|;
      return uploads[u].final && uploads[u].count > 0 && count >= uploads[u].count;
    }

    /** `ORDER BY batch_index, item_index` */
    method StagedRows(u: UploadKey) returns (order: seq<StageKey>)
      ensures Lists(staging, u, order)
    {
      var pending := set k | k in staging && k.upload == u;
      order := [];
      while pending != {}
        invariant forall k :: k in staging && k.upload == u <==> k in pending || k in order
        invariant forall k :: k in order ==> k !in pending
        invariant forall i, j :: 0 <= i < j < |order| ==> order[i] != order[j] && InOrder(order[i], order[j])
        decreases pending
      {
        var k :| k in pending;
        order := InsertKey(order, k);
        pending := pending - {k};
      }
    }

    method CommitHistoryUpload(u: UploadKey) returns (ghost order: seq<StageKey>)
      modifies this
      ensures Lists(old(staging), u, order)
      ensures Snapshot() == Commit(old(Snapshot()), u, order)
    {
      hide ClearSession, Put;
      DeleteSession(u.agentId, u.sessionId);
      ghost var cleared := tables;
      var rows := StagedRows(u);
      order := rows;
      ghost var entries := EntriesOf(staging, rows);
      var i := 0;
      while i < |rows|
        invariant 0 <= i <= |rows| && staging == old(staging) && uploads == old(uploads) && received == old(received)
        invariant tables == PutAll(cleared, u.agentId, u.sessionId, entries[..i])
      {
        assert entries[..i + 1][..i] == entries[..i];
        var k := rows[i];
        assert k in rows;
        Upsert(u.agentId, u.sessionId, k.index, k.kind, staging[k]);
        i := i + 1;
      }
      assert entries[..i] == entries;
      staging := map k | k in staging && k.upload != u :: staging[k];
      received := set k | k in received && k.upload != u;
      uploads := uploads - {u};
    }
  }

  predicate Sorted(order: seq<StageKey>) {
    forall i, j :: 0 <= i < j < |order| ==> order[i] != order[j] && InOrder(order[i], order[j])
  }

  /** Insertion into a sorted list. */
  function InsertKey(order: seq<StageKey>, k: StageKey): (r: seq<StageKey>)
    requires Sorted(order) && k !in order
    ensures Sorted(r) && forall x :: x in r <==> x in order || x == k
  {
    if order == [] then [k]
    else if InOrder(k, order[0]) then
      assert forall i :: 0 <= i < |order| ==> InOrder(order[0], order[i]);
      [k] + order
    else
      var rest := InsertKey(order[1..], k);
      assert forall i :: 0 <= i < |rest| ==> rest[i] in order[1..] || rest[i] == k;
      assert forall i :: 1 <= i < |order| ==> order[1..][i - 1] == order[i];
      [order[0]] + rest
  }
}
