/** The agent's durable state: the run-event outbox, the local run rows and the stored command acks. */
module LocalStore {
  import opened Text
  import opened Protocol

  /** A row of `run_events`; the timestamps are kept as the flags they are tested for. */
  datatype OutboxRow = OutboxRow(event: RunEvent, sent: bool, retryCount: nat, acked: bool, failed: bool)

  datatype RunRow = RunRow(commandId: string, projectId: string, sessionId: string, status: string, lastSeq: nat)

  /** The three tables, keyed by event id, run id and command id. */
  datatype Local = Local(events: map<string, OutboxRow>, runs: map<string, RunRow>, acks: map<string, Ack>)

  datatype SaveOutcome = Skipped | Dropped | Failed | Saved

  datatype Saving = Saving(local: Local, outcome: SaveOutcome)

  /** Another row already holds this event's (run, seq) key. */
  predicate SeqTaken(events: map<string, OutboxRow>, e: RunEvent) {
    exists id :: id in events && id != e.eventId
      && events[id].event.runId == e.runId && events[id].event.seqNo == e.seqNo
  }

  /** Insert-or-ignore, then rewrite the row found under the event id, then project the run state. */
  function SaveEvent(local: Local, e: RunEvent): Saving {
    if Blank(e.eventId) || IsUsageKind(e.kind) then Saving(local, Skipped)
    else if e.eventId !in local.events && SeqTaken(local.events, e) then Saving(local, Dropped)
    else if SeqTaken(local.events, e) then Saving(local, Failed)
    else
      var row := if e.eventId in local.events then local.events[e.eventId] else OutboxRow(e, false, 0, false, false);
      Saving(local.(events := local.events[e.eventId := row.(event := e)], runs := ProjectRunState(local.runs, e)), Saved)
  }

  predicate IsFinalStatus(status: string) {
    status in {"done", "error", "interrupted", "stopped"}
  }

  predicate IsOpenStatus(status: string) {
    status in {"queued", "starting", "running", "awaiting_approval", "stopping"}
  }

  function RunStatusOf(e: RunEvent): string {
    match e.kind
    case "run.started" => "running"
    case "run.awaiting_approval" => "awaiting_approval"
    case "run.done" => "done"
    case "run.completed" => "done"
    case "run.stopped" => "stopped"
    case _ =>
      if e.kind != "run.error" && e.kind != "run.failed" then ""
      else if EqualFoldAscii(PayloadString(e.payload, ["status"]), "interrupted") then "interrupted"
      else if Contains(EventReason(e.payload), "interrupted") then "interrupted"
      else "error"
  }

  function ProjectRunState(runs: map<string, RunRow>, e: RunEvent): map<string, RunRow> {
    var status := RunStatusOf(e);
    if Blank(e.runId) || status == "" then runs
    else if e.runId !in runs then runs[e.runId := RunRow(e.commandId, e.projectId, e.sessionId, status, e.seqNo)]
    else
      var run := runs[e.runId];
      runs[e.runId := RunRow(
        OrElse(e.commandId, run.commandId), OrElse(e.projectId, run.projectId), OrElse(e.sessionId, run.sessionId),
        if IsFinalStatus(run.status) && !IsFinalStatus(status) then run.status else status,
        if run.lastSeq > e.seqNo then run.lastSeq else e.seqNo)]
  }

  /** The rows an ack names: by event id, or by run and sequence number when it carries no event id. */
  predicate AckMatches(e: RunEvent, ack: Ack) {
    if !Blank(ack.eventId) then e.eventId == ack.eventId
    else !Blank(ack.runId) && ack.ackSeq != 0 && e.runId == ack.runId && e.seqNo == ack.ackSeq
  }

  function MarkAcked(events: map<string, OutboxRow>, ack: Ack): map<string, OutboxRow> {
    map id | id in events ::
      if AckMatches(events[id].event, ack) then events[id].(acked := true) else events[id]
  }

  function MarkAckError(events: map<string, OutboxRow>, ack: Ack): map<string, OutboxRow> {
    map id | id in events ::
      if AckMatches(events[id].event, ack) && !events[id].acked then events[id].(failed := true) else events[id]
  }

  function MarkSent(events: map<string, OutboxRow>, id: string): map<string, OutboxRow> {
    if id !in events then events
    else events[id := events[id].(sent := true, retryCount := events[id].retryCount + 1, failed := false)]
  }

  /** `COALESCE(MAX(seq), 0)` */
  ghost predicate IsLastSeq(events: map<string, OutboxRow>, n: nat) {
    && (forall id :: id in events ==> events[id].event.seqNo <= n)
    && (n != 0 ==> exists id :: id in events && events[id].event.seqNo == n)
  }

  // ----- reconciliation of runs the previous process left open -----

  ghost predicate IsOpenRun(runs: map<string, RunRow>, id: string) {
    id in runs && IsOpenStatus(runs[id].status)
  }

  /** An enumeration of exactly the open runs, each once. */
  ghost predicate ListsOpenRuns(runs: map<string, RunRow>, order: seq<string>) {
    && (forall id :: id in order <==> IsOpenRun(runs, id))
    && (forall i, j :: 0 <= i < j < |order| ==> order[i] != order[j])
  }

  function RowOf(runs: map<string, RunRow>, id: string): RunRow {
    if id in runs then runs[id] else RunRow("", "", "", "", 0)
  }

  function InterruptEvent(runId: string, run: RunRow, seqNo: nat, eventId: string, at: int): RunEvent {
    RunEvent(eventId, runId, run.commandId, run.projectId, run.sessionId, seqNo, "run.error",
      Fields(map["error" := Str("agent restarted before run completed"), "status" := Str("interrupted")]), at)
  }

  /** The first `n` open runs have been closed, with consecutive numbers after `seqNo`. */
  function Reconcile(local: Local, order: seq<string>, ids: seq<string>, seqNo: nat, at: int, n: nat): Local
    requires n <= |order| && n <= |ids|
  {
    if n == 0 then local
    else
      var e := InterruptEvent(order[n - 1], RowOf(local.runs, order[n - 1]), seqNo + n, ids[n - 1], at);
      SaveEvent(Reconcile(local, order, ids, seqNo, at, n - 1), e).local
  }

  class Store {
    var events: map<string, OutboxRow>
    var runs: map<string, RunRow>
    var acks: map<string, Ack>

    ghost function Snapshot(): Local
      reads this
    {
      Local(events, runs, acks)
    }

    /** A generated event id is new, and every saved event has been numbered by the counter. */
    ghost predicate SnapshotValid(newId: string, counter: nat)
      reads this
    {
      && !Blank(newId) && newId !in events
      && forall id :: id in events ==> events[id].event.seqNo <= counter
    }

    constructor ()
      ensures Snapshot() == Local(map[], map[], map[])
    {
      events, runs, acks := map[], map[], map[];
    }

    method HoldsSeqOf(e: RunEvent) returns (taken: bool)
      ensures taken == SeqTaken(events, e)
    {
      var pending := events.Keys;
      while pending != {}
        invariant pending <= events.Keys
        invariant forall id :: id in events && id !in pending && id != e.eventId ==>
          !(events[id].event.runId == e.runId && events[id].event.seqNo == e.seqNo)
        decreases pending
      {
        var id :| id in pending;
        if id != e.eventId && events[id].event.runId == e.runId && events[id].event.seqNo == e.seqNo {
          return true;
        }
        pending := pending - {id};
      }
      return false;
    }

    method SaveRunEvent(e: RunEvent) returns (outcome: SaveOutcome)
      modifies this
      ensures Saving(Snapshot(), outcome) == SaveEvent(old(Snapshot()), e)
    {
      if Blank(e.eventId) || IsUsageKind(e.kind) {
        return Skipped;
      }
      var taken := HoldsSeqOf(e);
      if e.eventId !in events {
        if taken {
          return Dropped;
        }
        events := events[e.eventId := OutboxRow(e, false, 0, false, false)];
      }
      if taken {
        return Failed;
      }
      events := events[e.eventId := events[e.eventId].(event := e)];
      SaveRunState(e);
      return Saved;
    }

    method SaveRunState(e: RunEvent)
      modifies this`runs
      ensures runs == ProjectRunState(old(runs), e)
    {
      if Blank(e.runId) {
        return;
      }
      var status := RunStatusOf(e);
      if status == "" {
        return;
      }
      if e.runId !in runs {
        runs := runs[e.runId := RunRow(e.commandId, e.projectId, e.sessionId, status, e.seqNo)];
        return;
      }
      var run := runs[e.runId];
      if e.commandId != "" { run := run.(commandId := e.commandId); }
      if e.projectId != "" { run := run.(projectId := e.projectId); }
      if e.sessionId != "" { run := run.(sessionId := e.sessionId); }
      if !IsFinalStatus(run.status) || IsFinalStatus(status) { run := run.(status := status); }
      if run.lastSeq < e.seqNo { run := run.(lastSeq := e.seqNo); }
      runs := runs[e.runId := run];
    }

    /** Whether this was the first send is what the caller keys its follow-up work on. */
    method MarkRunEventSent(e: RunEvent) returns (first: bool)
      modifies this`events
      ensures events == if Blank(e.eventId) then old(events) else MarkSent(old(events), e.eventId)
      ensures first <==> !Blank(e.eventId) && e.eventId in old(events) && old(events)[e.eventId].retryCount == 0
    {
      if Blank(e.eventId) || e.eventId !in events {
        return false;
      }
      var row := events[e.eventId];
      row := row.(sent := true, retryCount := row.retryCount + 1, failed := false);
      events := events[e.eventId := row];
      return row.retryCount == 1;
    }

    /** A terminal ack settles the row; any other ack only notes the failure. */
    method ReceiveRunEventAck(ack: Ack)
      modifies this`events
      ensures events == if AckIsTerminal(ack.status) then MarkAcked(old(events), ack) else MarkAckError(old(events), ack)
    {
      var terminal := AckIsTerminal(ack.status);
      var pending := events.Keys;
      while pending != {}
        invariant pending <= events.Keys == old(events).Keys
        invariant forall id :: id in pending ==> events[id] == old(events)[id]
        invariant forall id :: id in events && id !in pending ==>
          events[id] == (if terminal then MarkAcked(old(events), ack) else MarkAckError(old(events), ack))[id]
        decreases pending
      {
        var id :| id in pending;
        if AckMatches(events[id].event, ack) && !events[id].acked {
          events := events[id := if terminal then events[id].(acked := true) else events[id].(failed := true)];
        }
        pending := pending - {id};
      }
    }

    method LastRunEventSeq() returns (n: nat)
      ensures IsLastSeq(events, n)
    {
      n := 0;
      var pending := events.Keys;
      while pending != {}
        invariant pending <= events.Keys
        invariant forall id :: id in events && id !in pending ==> events[id].event.seqNo <= n
        invariant n != 0 ==> exists id :: id in events && events[id].event.seqNo == n
        decreases pending
      {
        var id :| id in pending;
        if events[id].event.seqNo > n {
          n := events[id].event.seqNo;
        }
        pending := pending - {id};
      }
    }

    method OpenRuns() returns (order: seq<string>)
      ensures ListsOpenRuns(runs, order)
    {
      order := [];
      var pending := runs.Keys;
      while pending != {}
        invariant pending <= runs.Keys
        invariant forall id :: id in order <==> id !in pending && IsOpenRun(runs, id)
        invariant forall i, j :: 0 <= i < j < |order| ==> order[i] != order[j]
        decreases pending
      {
        var id :| id in pending;
        pending := pending - {id};
        if IsOpenStatus(runs[id].status) {
          order := order + [id];
        }
      }
    }

    /** The loop that closes the listed runs one by one. */
    method CloseRuns(order: seq<string>, ids: seq<string>, last: nat, at: int)
      requires |order| <= |ids| && forall id :: id in order ==> id in runs
      modifies this
      ensures Snapshot() == Reconcile(old(Snapshot()), order, ids, last, at, |order|)
    {
      hide SaveEvent;
      hide InterruptEvent;
      var rows := runs;
      ghost var before := Snapshot();
      var seqNo := last;
      var i := 0;
      while i < |order|
        invariant 0 <= i <= |order| && seqNo == last + i
        invariant Snapshot() == Reconcile(before, order, ids, last, at, i)
      {
        seqNo := seqNo + 1;
        assert order[i] in order;
        var _ := SaveRunEvent(InterruptEvent(order[i], rows[order[i]], seqNo, ids[i], at));
        i := i + 1;
      }
    }

    /** Closes every run the previous process left open; `ids` are the generated event ids. */
    method ReconcileInterruptedRuns(ids: seq<string>, at: int) returns (order: seq<string>, ghost last: nat)
      requires |ids| >= |runs|
      modifies this
      ensures IsLastSeq(old(events), last) && ListsOpenRuns(old(runs), order) && |order| <= |ids|
      ensures Snapshot() == Reconcile(old(Snapshot()), order, ids, last, at, |order|)
    {
      order := OpenRuns();
      OpenRunsFit(runs, order);
      var seqNo := LastRunEventSeq();
      last := seqNo;
      CloseRuns(order, ids, seqNo, at);
    }

    method SaveCommandAck(ack: Ack)
      modifies this`acks
      ensures acks == if Blank(ack.commandId) then old(acks) else old(acks)[ack.commandId := ack]
    {
      if !Blank(ack.commandId) {
        acks := acks[ack.commandId := ack];
      }
    }
  }

  /** `runEventAckTerminal` */
  predicate AckIsTerminal(status: string) {
    ToLower(TrimSpace(status)) in {"", "ok", "acked", "ignored", "duplicate", "conflict"}
  }

  lemma {:induction false} OpenRunsFit(runs: map<string, RunRow>, order: seq<string>)
    requires forall id :: id in order ==> id in runs
    requires forall i, j :: 0 <= i < j < |order| ==> order[i] != order[j]
    ensures |order| <= |runs|
  {
    if order != [] {
      var n := |order| - 1;
      assert order == order[..n] + [order[n]];
      var rest := runs - {order[n]};
      OpenRunsFit(rest, order[..n]);
      assert runs.Keys == rest.Keys + {order[n]};
    }
  }
}
