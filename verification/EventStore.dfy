/** The server's `run_events` table and the receive step that feeds it. */
module EventStore {
  import opened Text
  import opened Protocol

  datatype Record = Record(agentId: string, deviceId: string, event: RunEvent)

  datatype Gap = Gap(agentId: string, runId: string, seqNo: nat, kind: string)

  /** `projected` lists the events whose projections ran, in the order their transactions committed. */
  datatype Server = Server(events: map<string, Record>, projected: seq<string>, gaps: set<Gap>)

  datatype Status = Inserted | Duplicate | SeqConflict | IdConflict | Ignored

  datatype Result = Stored(status: Status) | Rejected

  datatype Outcome = Outcome(server: Server, result: Result)

  /** The partial unique index on (agent, run, seq), seen from one incoming event. */
  predicate HoldsSeq(events: map<string, Record>, id: string, agentId: string, e: RunEvent) {
    id in events && SameKey(events[id], agentId, e)
  }

  predicate SameKey(r: Record, agentId: string, e: RunEvent) {
    e.runId != "" && e.seqNo > 0 && r.agentId == agentId && r.event.runId == e.runId && r.event.seqNo == e.seqNo
  }

  predicate SeqTaken(events: map<string, Record>, agentId: string, e: RunEvent) {
    exists id :: id in events && HoldsSeq(events, id, agentId, e)
  }

  /** `runEventsEquivalent`: everything but the event id and the event time. */
  predicate Equivalent(existing: Record, deviceId: string, e: RunEvent) {
    existing.deviceId == deviceId && existing.event.(eventId := e.eventId, at := e.at) == e
  }

  function RecordGap(s: Server, agentId: string, e: RunEvent, kind: string): Server {
    if Blank(e.runId) || e.seqNo == 0 then s
    else s.(gaps := s.gaps + {Gap(agentId, e.runId, e.seqNo, kind)})
  }

  /** `resolveRunEventInsertConflict`; `holder` is the row found under the event's (run, seq), if any. */
  function Resolve(s: Server, agentId: string, deviceId: string, e: RunEvent, holder: Option<string>): Outcome
    requires holder.Some? ==> holder.value in s.events
  {
    if !Blank(e.eventId) && e.eventId in s.events then
      if s.events[e.eventId].agentId == agentId && Equivalent(s.events[e.eventId], deviceId, e) then
        Outcome(s, Stored(Duplicate))
      else Outcome(RecordGap(s, agentId, e, "event_id_conflict"), Stored(IdConflict))
    else if Blank(e.runId) || e.seqNo == 0 || holder.None? then Outcome(s, Stored(IdConflict))
    else if Equivalent(s.events[holder.value], deviceId, e) then Outcome(s, Stored(Duplicate))
    else Outcome(RecordGap(s, agentId, e, "seq_conflict"), Stored(SeqConflict))
  }

  function Insert(s: Server, agentId: string, deviceId: string, e: RunEvent): Server {
    s.(events := s.events[e.eventId := Record(agentId, deviceId, e)], projected := s.projected + [e.eventId])
  }

  /** Whether `outcome` is what saving `incoming` may do. `owned` says that the ownership checks before the insert
      pass, `projects` that the projections inside the transaction do; `id` is a generated id. */
  ghost predicate Saves(s: Server, agentId: string, deviceId: string, incoming: RunEvent, id: string,
                        owned: bool, projects: bool, outcome: Outcome)
  {
    var e := if incoming.eventId == "" then incoming.(eventId := id) else incoming;
    if IsUsageKind(incoming.kind) then outcome == Outcome(s, Stored(Ignored))
    else if !owned then outcome == Outcome(s, Rejected)
    else if SeqTaken(s.events, agentId, e) then
      exists holder :: HoldsSeq(s.events, holder, agentId, e) && outcome == Resolve(s, agentId, deviceId, e, Some(holder))
    else if e.eventId in s.events then outcome == Resolve(s, agentId, deviceId, e, None)
    else outcome == if projects then Outcome(Insert(s, agentId, deviceId, e), Stored(Inserted)) else Outcome(s, Rejected)
  }

  function AckStatus(r: Result): string {
    match r
    case Rejected => "failed"
    case Stored(Duplicate) => "duplicate"
    case Stored(SeqConflict) => "conflict"
    case Stored(IdConflict) => "conflict"
    case Stored(Ignored) => "ignored"
    case Stored(Inserted) => "acked"
  }

  /** The ack the receive loop sends: none for an event without a run or a number. */
  function AckFor(incoming: RunEvent, r: Result): Option<Ack> {
    if incoming.runId != "" && incoming.seqNo > 0 then
      Some(Ack(incoming.eventId, "", incoming.runId, AckStatus(r), incoming.seqNo))
    else None
  }

  class Store {
    var events: map<string, Record>
    var projected: seq<string>
    var gaps: set<Gap>

    ghost function Snapshot(): Server
      reads this
    {
      Server(events, projected, gaps)
    }

    constructor ()
      ensures Snapshot() == Server(map[], [], {})
    {
      events, projected, gaps := map[], [], {};
    }

    method EventByRunSeq(agentId: string, e: RunEvent) returns (holder: Option<string>)
      ensures holder.None? <==> !SeqTaken(events, agentId, e)
      ensures holder.Some? ==> HoldsSeq(events, holder.value, agentId, e)
    {
      var pending := events.Keys;
      while pending != {}
        invariant pending <= events.Keys
        invariant forall id :: id in events && id !in pending ==> !HoldsSeq(events, id, agentId, e)
        decreases pending
      {
        var id :| id in pending;
        if HoldsSeq(events, id, agentId, e) {
          return Some(id);
        }
        pending := pending - {id};
      }
      return None;
    }

    method SaveConflict(agentId: string, e: RunEvent, kind: string)
      modifies this`gaps
      ensures Snapshot() == RecordGap(old(Snapshot()), agentId, e, kind)
    {
      if !Blank(e.runId) && e.seqNo != 0 {
        gaps := gaps + {Gap(agentId, e.runId, e.seqNo, kind)};
      }
    }

    method ResolveInsertConflict(agentId: string, deviceId: string, e: RunEvent, holder: Option<string>)
      returns (status: Status)
      requires holder.Some? ==> holder.value in events
      modifies this`gaps
      ensures Outcome(Snapshot(), Stored(status)) == Resolve(old(Snapshot()), agentId, deviceId, e, holder)
    {
      if !Blank(e.eventId) && e.eventId in events {
        var existing := events[e.eventId];
        if existing.agentId == agentId && Equivalent(existing, deviceId, e) {
          return Duplicate;
        }
        SaveConflict(agentId, e, "event_id_conflict");
        return IdConflict;
      }
      if Blank(e.runId) || e.seqNo == 0 || holder.None? {
        return IdConflict;
      }
      if Equivalent(events[holder.value], deviceId, e) {
        return Duplicate;
      }
      SaveConflict(agentId, e, "seq_conflict");
      return SeqConflict;
    }

    method SaveRunEvent(agentId: string, deviceId: string, incoming: RunEvent, id: string, owned: bool, projects: bool)
      returns (result: Result)
      modifies this
      ensures Saves(old(Snapshot()), agentId, deviceId, incoming, id, owned, projects, Outcome(Snapshot(), result))
    {
      hide Resolve, Equivalent, IsUsageKind, Blank;
      if IsUsageKind(incoming.kind) {
        return Stored(Ignored);
      }
      var e := incoming;
      if e.eventId == "" {
        e := e.(eventId := id);
      }
      if !owned {
        return Rejected;
      }
      var holder := EventByRunSeq(agentId, e);
      if holder.Some? || e.eventId in events {
        var status := ResolveInsertConflict(agentId, deviceId, e, holder);
        return Stored(status);
      }
      if !projects {
        return Rejected;
      }
      events := events[e.eventId := Record(agentId, deviceId, e)];
      projected := projected + [e.eventId];
      return Stored(Inserted);
    }
  }

  // ----- what the table keeps -----

  ghost predicate RowsValid(events: map<string, Record>) {
    forall id :: id in events ==> events[id].event.eventId == id && !IsUsageKind(events[id].event.kind)
  }

  ghost predicate SeqsValid(events: map<string, Record>) {
    forall id, id' | id in events && id' in events && id != id' ::
      !SameKey(events[id'], events[id].agentId, events[id].event)
  }

  ghost predicate ProjectedOnce(events: map<string, Record>, projected: seq<string>) {
    forall id :: multiset(projected)[id] == if id in events then 1 else 0
  }

  /** Rows sit under their event id, no two rows of an agent share a run and a sequence number, no usage event is
      stored, and the projections ran exactly once for every stored event. */
  ghost predicate Valid(s: Server) {
    RowsValid(s.events) && SeqsValid(s.events) && ProjectedOnce(s.events, s.projected)
  }

  /** Every save, by any agent and whatever its outcome, keeps the table valid, never changes a stored event, adds at
      most the incoming one, and leaves everything but the recorded gaps alone unless it answers `Inserted`. */
  lemma SaveKeepsValid(s: Server, agentId: string, deviceId: string, incoming: RunEvent, id: string,
                       owned: bool, projects: bool, outcome: Outcome)
    requires Valid(s) && Saves(s, agentId, deviceId, incoming, id, owned, projects, outcome)
    ensures Valid(outcome.server)
    ensures forall k :: k in s.events ==> k in outcome.server.events && outcome.server.events[k] == s.events[k]
    ensures outcome.result != Stored(Inserted) ==>
      outcome.server.events == s.events && outcome.server.projected == s.projected
    ensures forall gap :: gap in outcome.server.gaps ==> gap in s.gaps || gap.agentId == agentId
    ensures outcome.result == Stored(Inserted) ==>
      var e := if incoming.eventId == "" then incoming.(eventId := id) else incoming;
      e.eventId !in s.events && outcome.server == Insert(s, agentId, deviceId, e)
  {
    hide IsUsageKind, Equivalent, Blank, Valid;
    var e := if incoming.eventId == "" then incoming.(eventId := id) else incoming;
    if !IsUsageKind(incoming.kind) && owned && !SeqTaken(s.events, agentId, e) && e.eventId !in s.events && projects {
      InsertKeepsValid(s, agentId, deviceId, e);
    } else if !IsUsageKind(incoming.kind) && owned && SeqTaken(s.events, agentId, e) {
      var holder :| HoldsSeq(s.events, holder, agentId, e)
        && outcome == Resolve(s, agentId, deviceId, e, Some(holder));
      GapsKeepValid(s, outcome.server);
    } else {
      GapsKeepValid(s, outcome.server);
    }
  }

  lemma GapsKeepValid(s: Server, s': Server)
    requires s'.events == s.events && s'.projected == s.projected
    ensures Valid(s) ==> Valid(s')
  {
  }

  lemma InsertKeepsSeqs(events: map<string, Record>, r: Record)
    requires SeqsValid(events) && !SeqTaken(events, r.agentId, r.event) && r.event.eventId !in events
    ensures SeqsValid(events[r.event.eventId := r])
  {
    assert forall id :: id in events ==> !HoldsSeq(events, id, r.agentId, r.event);
  }

  lemma InsertKeepsValid(s: Server, agentId: string, deviceId: string, e: RunEvent)
    requires Valid(s) && !IsUsageKind(e.kind) && !SeqTaken(s.events, agentId, e) && e.eventId !in s.events
    ensures Valid(Insert(s, agentId, deviceId, e))
  {
    hide IsUsageKind, SeqsValid, SeqTaken;
    InsertKeepsSeqs(s.events, Record(agentId, deviceId, e));
  }

  /** Receiving an event that is already stored, unchanged, from the device that sent it first: always a duplicate,
      never a conflict, and nothing is written. */
  lemma ResendIsDuplicate(s: Server, agentId: string, deviceId: string, e: RunEvent, id: string, projects: bool,
                          outcome: Outcome)
    requires Valid(s) && !Blank(e.eventId) && e.eventId in s.events
    requires s.events[e.eventId] == Record(agentId, deviceId, e)
    requires Saves(s, agentId, deviceId, e, id, true, projects, outcome)
    ensures outcome == Outcome(s, Stored(Duplicate))
  {
    assert e.eventId != "";
  }
}
