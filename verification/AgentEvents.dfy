/** How the agent numbers and persists run events, over crashes and restarts.

    `Manager.Emit` assigns a sequence number under its lock and saves the event after releasing it, so several
    numbered events can be on their way to the outbox at once, in any order. A crash loses exactly those. */
module AgentEvents {
  import opened Text
  import opened Protocol
  import opened LocalStore

  /** `staged` holds the events that have a number and are not saved yet; `issued` every event id ever generated. */
  datatype Agent = Agent(seqNo: nat, staged: set<RunEvent>, issued: set<string>, db: Local)

  function Stamp(a: Agent, content: RunEvent, id: string): RunEvent {
    content.(seqNo := a.seqNo + 1, eventId := if content.eventId == "" then id else content.eventId)
  }

  /** The locked part of `Manager.Emit`; the client then skips usage events, which still consume a number. */
  function Number(a: Agent, content: RunEvent, id: string): Agent {
    var e := Stamp(a, content, id);
    a.(seqNo := e.seqNo, issued := a.issued + {e.eventId},
       staged := if IsUsageKind(e.kind) then a.staged else a.staged + {e})
  }

  /** Event ids are generated, whether by the manager or by the runtime: never blank and never used before. */
  predicate FreshId(a: Agent, id: string) {
    !Blank(id) && id !in a.issued && id !in a.db.events
  }

  function Persist(a: Agent, e: RunEvent): Saving {
    SaveEvent(a.db, e)
  }

  function AfterPersist(a: Agent, e: RunEvent): Agent {
    a.(staged := a.staged - {e}, db := Persist(a, e).local)
  }

  /** Restart of the process: what was staged is gone, open runs are closed, and the counter is restored. */
  ghost predicate Restarts(a: Agent, order: seq<string>, ids: seq<string>, at: int, a': Agent) {
    && ListsOpenRuns(a.db.runs, order) && |order| <= |ids|
    && Unused(ids, a.db.events) && (forall id :: id in ids ==> id !in a.issued)
    && exists last: nat :: IsLastSeq(a.db.events, last)
        && a'.db == Reconcile(a.db, order, ids, last, at, |order|)
        && IsLastSeq(a'.db.events, a'.seqNo)
        && a'.staged == {} && a'.issued == a.issued + (set id | id in ids)
  }

  // ----- the invariant -----

  predicate RowValid(id: string, e: RunEvent, issued: set<string>) {
    e.eventId == id && id in issued && !Blank(id) && !IsUsageKind(e.kind) && e.seqNo > 0
  }

  ghost predicate RowsValid(events: map<string, OutboxRow>, issued: set<string>) {
    && (forall id :: id in events ==> RowValid(id, events[id].event, issued))
    && (forall id, id' :: id in events && id' in events && events[id].event.seqNo == events[id'].event.seqNo ==>
          id == id')
  }

  predicate Bounded(events: map<string, OutboxRow>, n: nat) {
    forall id :: id in events ==> events[id].event.seqNo <= n
  }

  ghost predicate StagedValid(a: Agent) {
    && (forall e :: e in a.staged ==>
      RowValid(e.eventId, e, a.issued) && e.seqNo <= a.seqNo && e.eventId !in a.db.events)
    && (forall e, f :: e in a.staged && f in a.staged && (e.seqNo == f.seqNo || e.eventId == f.eventId) ==> e == f)
    && (forall e, id :: e in a.staged && id in a.db.events ==> a.db.events[id].event.seqNo != e.seqNo)
  }

  /** No two events, saved or on their way, share an id or a sequence number. */
  ghost predicate Valid(a: Agent) {
    RowsValid(a.db.events, a.issued) && Bounded(a.db.events, a.seqNo) && StagedValid(a)
  }

  lemma NumberKeepsValid(a: Agent, content: RunEvent, id: string)
    requires Valid(a) && FreshId(a, Stamp(a, content, id).eventId)
    ensures Valid(Number(a, content, id))
  {
  }

  /** Saving an event whose id and number no row holds. */
  lemma SaveNew(local: Local, e: RunEvent)
    requires !Blank(e.eventId) && !IsUsageKind(e.kind) && e.eventId !in local.events
    requires forall id :: id in local.events ==> local.events[id].event.seqNo != e.seqNo
    ensures SaveEvent(local, e) == Saving(Local(
      local.events[e.eventId := OutboxRow(e, false, 0, false, false)], ProjectRunState(local.runs, e), local.acks), Saved)
  {
    hide ProjectRunState, IsUsageKind, Blank;
  }

  /** Saving a numbered event always inserts a new row: the insert is never ignored and never fails, whatever the
      order in which concurrently numbered events reach the outbox. */
  lemma PersistNeverDrops(a: Agent, e: RunEvent)
    requires Valid(a) && e in a.staged
    ensures e.eventId !in a.db.events
    ensures Persist(a, e) == Saving(Local(
      a.db.events[e.eventId := OutboxRow(e, false, 0, false, false)], ProjectRunState(a.db.runs, e), a.db.acks), Saved)
    ensures Valid(AfterPersist(a, e))
  {
    hide SaveEvent, ProjectRunState, IsUsageKind, Blank;
    SaveNew(a.db, e);
    AddRow(a.db.events, e, a.issued);
  }

  lemma AddRow(events: map<string, OutboxRow>, e: RunEvent, issued: set<string>)
    requires RowsValid(events, issued) && RowValid(e.eventId, e, issued) && e.eventId !in events
    requires forall id :: id in events ==> events[id].event.seqNo != e.seqNo
    ensures RowsValid(events[e.eventId := OutboxRow(e, false, 0, false, false)], issued)
  {
    hide IsUsageKind, Blank;
  }

  /** The generated ids of a reconciliation: distinct and unused. */
  ghost predicate Unused(ids: seq<string>, events: map<string, OutboxRow>) {
    && (forall i :: 0 <= i < |ids| ==> !Blank(ids[i]) && ids[i] !in events)
    && (forall i, j :: 0 <= i < j < |ids| ==> ids[i] != ids[j])
  }

  function ClosingRow(local: Local, order: seq<string>, ids: seq<string>, last: nat, at: int, i: nat): OutboxRow
    requires i < |order| && i < |ids|
  {
    OutboxRow(InterruptEvent(order[i], RowOf(local.runs, order[i]), last + i + 1, ids[i], at), false, 0, false, false)
  }

  /** The rows after the first `n` closings. */
  function ClosedRows(local: Local, order: seq<string>, ids: seq<string>, last: nat, at: int, n: nat)
    : map<string, OutboxRow>
    requires n <= |order| && n <= |ids|
  {
    if n == 0 then local.events
    else ClosedRows(local, order, ids, last, at, n - 1)[ids[n - 1] := ClosingRow(local, order, ids, last, at, n - 1)]
  }

  /** Every closing event is saved, under the numbers just after the last saved one, and nothing else changes. */
  lemma {:induction false} ReconcileSaves(local: Local, order: seq<string>, ids: seq<string>, last: nat, at: int,
                                          n: nat, issued: set<string>)
    requires n <= |order| <= |ids|
    requires RowsValid(local.events, issued) && Bounded(local.events, last) && Unused(ids, local.events)
    requires forall id :: id in ids ==> id in issued
    ensures Reconcile(local, order, ids, last, at, n).events == ClosedRows(local, order, ids, last, at, n)
    ensures Reconcile(local, order, ids, last, at, n).acks == local.acks
    ensures RowsValid(ClosedRows(local, order, ids, last, at, n), issued)
    ensures Bounded(ClosedRows(local, order, ids, last, at, n), last + n)
    ensures forall i :: n <= i < |ids| ==> ids[i] !in ClosedRows(local, order, ids, last, at, n)
  {
    hide SaveEvent, IsUsageKind, ProjectRunState, Blank, InterruptEvent;
    if n > 0 {
      ReconcileSaves(local, order, ids, last, at, n - 1, issued);
      var r := Reconcile(local, order, ids, last, at, n - 1);
      assert ids[n - 1] in ids;
      var e := InterruptEvent(order[n - 1], RowOf(local.runs, order[n - 1]), last + n, ids[n - 1], at);
      InterruptEventValid(order[n - 1], RowOf(local.runs, order[n - 1]), last + n, ids[n - 1], at, issued);
      SaveNew(r, e);
      AddRow(r.events, e, issued);
    }
  }

  lemma InterruptEventValid(runId: string, run: RunRow, seqNo: nat, id: string, at: int, issued: set<string>)
    requires !Blank(id) && id in issued && seqNo > 0
    ensures var e := InterruptEvent(runId, run, seqNo, id, at);
      RowValid(id, e, issued) && e.eventId == id && e.seqNo == seqNo
  {
    InterruptEventIsNotUsage();
  }

  ghost predicate HoldsClosings(rows: map<string, OutboxRow>, local: Local, order: seq<string>, ids: seq<string>, last: nat,
                                at: int, n: nat)
    requires n <= |order| && n <= |ids|
  {
    && (forall id :: id in local.events ==> id in rows && rows[id] == local.events[id])
    && (forall id :: id in rows && id !in local.events ==> id in ids[..n])
    && (forall i :: 0 <= i < n ==> ids[i] in rows && rows[ids[i]] == ClosingRow(local, order, ids, last, at, i))
  }

  lemma HoldsOneMore(rows: map<string, OutboxRow>, local: Local, order: seq<string>, ids: seq<string>, last: nat, at: int, n: nat)
    requires n < |order| && n < |ids| && HoldsClosings(rows, local, order, ids, last, at, n)
    requires ids[n] !in local.events && forall i :: 0 <= i < n ==> ids[i] != ids[n]
    ensures HoldsClosings(rows[ids[n] := ClosingRow(local, order, ids, last, at, n)], local, order, ids, last, at, n + 1)
  {
    hide ClosingRow;
    assert ids[..n + 1] == ids[..n] + [ids[n]];
  }

  lemma NoClosings(local: Local, order: seq<string>, ids: seq<string>, last: nat, at: int)
    ensures HoldsClosings(local.events, local, order, ids, last, at, 0)
  {
  }

  /** What the closed rows hold. */
  lemma {:induction false} ClosedRowsHold(local: Local, order: seq<string>, ids: seq<string>, last: nat, at: int, n: nat)
    requires n <= |order| <= |ids| && Unused(ids, local.events)
    ensures HoldsClosings(ClosedRows(local, order, ids, last, at, n), local, order, ids, last, at, n)
  {
    hide ClosingRow, Blank, HoldsClosings;
    if n == 0 {
      NoClosings(local, order, ids, last, at);
    } else {
      ClosedRowsHold(local, order, ids, last, at, n - 1);
      HoldsOneMore(ClosedRows(local, order, ids, last, at, n - 1), local, order, ids, last, at, n - 1);
    }
  }

  lemma InterruptEventIsNotUsage()
    ensures !IsUsageKind("run.error")
  {
    assert TrimSpace("run.error") == "run.error";
    assert ToLower("run.error")[3] == '.';
  }

  lemma RowsStayValid(events: map<string, OutboxRow>, issued: set<string>, issued': set<string>)
    requires RowsValid(events, issued) && issued <= issued'
    ensures RowsValid(events, issued')
  {
    hide IsUsageKind, Blank;
  }

  /** Every row a reconciliation adds is an unsent interruption under one of the generated ids. */
  lemma ClosedAreInterruptions(local: Local, order: seq<string>, ids: seq<string>, last: nat, at: int)
    requires |order| <= |ids| && Unused(ids, local.events)
    ensures var rows := ClosedRows(local, order, ids, last, at, |order|);
      && (forall id :: id in local.events ==> id in rows && rows[id] == local.events[id])
      && (forall id :: id in rows && id !in local.events ==>
          id in ids && !rows[id].acked && rows[id].event.kind == "run.error")
  {
    hide ClosedRows, Blank, Unused;
    ClosedRowsHold(local, order, ids, last, at, |order|);
    var rows := ClosedRows(local, order, ids, last, at, |order|);
    forall id | id in rows && id !in local.events
      ensures id in ids && !rows[id].acked && rows[id].event.kind == "run.error"
    {
      var i :| 0 <= i < |order| && ids[i] == id;
      assert rows[ids[i]] == ClosingRow(local, order, ids, last, at, i);
    }
  }

  lemma RestartKeepsValid(a: Agent, order: seq<string>, ids: seq<string>, at: int, a': Agent)
    requires Valid(a) && Restarts(a, order, ids, at, a')
    ensures Valid(a')
    ensures forall id :: id in a.db.events ==> id in a'.db.events && a'.db.events[id] == a.db.events[id]
    ensures forall id :: id in a'.db.events && id !in a.db.events ==>
      id in a'.issued && !a'.db.events[id].acked && a'.db.events[id].event.kind == "run.error"
    ensures a'.db.acks == a.db.acks && a.issued <= a'.issued
  {
    hide Reconcile, ListsOpenRuns, RowsValid, ClosedRows, Unused;
    var last: nat :| IsLastSeq(a.db.events, last)
        && a'.db == Reconcile(a.db, order, ids, last, at, |order|)
        && IsLastSeq(a'.db.events, a'.seqNo)
        && a'.staged == {} && a'.issued == a.issued + (set id | id in ids);
    RowsStayValid(a.db.events, a.issued, a'.issued);
    ReconcileSaves(a.db, order, ids, last, at, |order|, a'.issued);
    ClosedAreInterruptions(a.db, order, ids, last, at);
  }
}
