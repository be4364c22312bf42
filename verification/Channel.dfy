/** The run-event channel end to end: agent outbox, a network that loses, duplicates and reorders, and the server. */
module Channel {
  import opened Text
  import opened Protocol
  import L = LocalStore
  import A = AgentEvents
  import S = EventStore

  /** `up` and `down` hold every message ever sent: delivering from them any number of times, in any order or
      never, is what the network may do. `saved` is the history of events the agent persisted. */
  datatype System = System(
    agentId: string, deviceId: string,
    agent: A.Agent, up: set<RunEvent>, down: set<Ack>, server: S.Server, saved: set<RunEvent>)

  datatype Step =
    | NumberEvent(content: RunEvent, id: string)
    | PersistEvent(e: RunEvent)
    | Send(e: RunEvent)
    | Receive(e: RunEvent, newId: string, owned: bool, projects: bool, outcome: S.Outcome)
    | ReceiveFromOther(otherAgent: string, otherDevice: string, e: RunEvent, newId: string, owned: bool, projects: bool,
                       outcome: S.Outcome)
    | ReceiveAck(ack: Ack)
    | Restart(order: seq<string>, ids: seq<string>, at: int, restarted: A.Agent)

  function Events(rows: map<string, L.OutboxRow>): set<RunEvent> {
    set id | id in rows :: rows[id].event
  }

  /** Events go out of the outbox only: right after they were saved, or when the pending ones are flushed. Other
      agents never generate this agent's event ids. */
  ghost predicate Enabled(s: System, step: Step) {
    match step
    case NumberEvent(content, id) =>
      var e := A.Stamp(s.agent, content, id);
      A.FreshId(s.agent, e.eventId) && e.eventId !in s.server.events
    case PersistEvent(e) => e in s.agent.staged
    case Send(e) => e.eventId in s.agent.db.events && s.agent.db.events[e.eventId].event == e
    case Receive(e, newId, owned, projects, outcome) =>
      e in s.up && S.Saves(s.server, s.agentId, s.deviceId, e, newId, owned, projects, outcome)
    case ReceiveFromOther(otherAgent, otherDevice, e, newId, owned, projects, outcome) =>
      && otherAgent != s.agentId && e.eventId !in s.agent.issued && newId !in s.agent.issued
      && S.Saves(s.server, otherAgent, otherDevice, e, newId, owned, projects, outcome)
    case ReceiveAck(ack) => ack in s.down
    case Restart(order, ids, at, restarted) =>
      A.Restarts(s.agent, order, ids, at, restarted) && forall id :: id in ids ==> id !in s.server.events
  }

  function Apply(s: System, step: Step): System {
    match step
    case NumberEvent(content, id) => s.(agent := A.Number(s.agent, content, id))
    case PersistEvent(e) =>
      s.(agent := A.AfterPersist(s.agent, e),
         saved := if A.Persist(s.agent, e).outcome == L.Saved then s.saved + {e} else s.saved)
    case Send(e) =>
      s.(up := s.up + {e}, agent := s.agent.(db := s.agent.db.(events := L.MarkSent(s.agent.db.events, e.eventId))))
    case Receive(e, _, _, _, outcome) =>
      s.(server := outcome.server,
         down := match S.AckFor(e, outcome.result) case Some(ack) => s.down + {ack} case None => s.down)
    case ReceiveFromOther(_, _, _, _, _, _, outcome) => s.(server := outcome.server)
    case ReceiveAck(ack) =>
      s.(agent := s.agent.(db := s.agent.db.(events :=
        if L.AckIsTerminal(ack.status) then L.MarkAcked(s.agent.db.events, ack)
        else L.MarkAckError(s.agent.db.events, ack))))
    case Restart(_, _, _, restarted) => s.(agent := restarted, saved := s.saved + Events(restarted.db.events))
  }

  predicate Initial(s: System) {
    && s.agent == A.Agent(0, {}, {}, L.Local(map[], map[], map[]))
    && s.up == {} && s.down == {} && s.saved == {} && s.server == S.Server(map[], [], {})
  }

  /** Every step was possible when it was taken. */
  ghost predicate IsRun(s: System, steps: seq<Step>)
    decreases |steps|
  {
    steps == [] || (Enabled(s, steps[0]) && IsRun(Apply(s, steps[0]), steps[1..]))
  }

  function Execute(s: System, steps: seq<Step>): System
    decreases |steps|
  {
    if steps == [] then s else Execute(Apply(s, steps[0]), steps[1..])
  }

  // ----- the promise -----

  /** An acked row is stored on the server under its id with its content, its projections ran exactly once, and no
      other row holds its run and number. */
  ghost predicate StoredOnce(s: System, id: string)
    requires id in s.agent.db.events
  {
    var e := s.agent.db.events[id].event;
    && id in s.server.events && s.server.events[id] == S.Record(s.agentId, s.deviceId, e)
    && multiset(s.server.projected)[id] == 1
    && forall id' :: S.HoldsSeq(s.server.events, id', s.agentId, e) ==> id' == id
  }

  ghost predicate ExactlyOnce(s: System) {
    // what was acked is there, once
    && (forall id :: id in s.agent.db.events && s.agent.db.events[id].acked ==> StoredOnce(s, id))
    // what was saved is still in the outbox, so pending unless it was acked
    && (forall e :: e in s.saved ==> e.eventId in s.agent.db.events && s.agent.db.events[e.eventId].event == e)
    // what the server stores for this agent was saved by this agent, once
    && (forall id :: id in s.server.events && s.server.events[id].agentId == s.agentId ==>
      s.server.events[id].event in s.saved && s.server.events[id].event.eventId == id
        && multiset(s.server.projected)[id] == 1)
    // no conflict was ever recorded against this agent
    && (forall gap :: gap in s.server.gaps ==> gap.agentId != s.agentId)
  }

  // ----- the invariant -----

  ghost predicate UpValid(s: System) {
    forall e :: e in s.up ==> e.eventId in s.agent.db.events && s.agent.db.events[e.eventId].event == e
  }

  /** The server's rows of this agent are the outbox's rows; the rows of others use other ids. */
  ghost predicate ServerAgrees(s: System) {
    forall id :: id in s.server.events ==>
      if s.server.events[id].agentId == s.agentId then
        id in s.agent.db.events && s.server.events[id] == S.Record(s.agentId, s.deviceId, s.agent.db.events[id].event)
      else id !in s.agent.issued
  }

  predicate OwnStored(s: System, id: string) {
    id in s.server.events && s.server.events[id].agentId == s.agentId
  }

  ghost predicate AcksValid(s: System) {
    && (forall ack | ack in s.down :: !Blank(ack.eventId) && (L.AckIsTerminal(ack.status) ==> OwnStored(s, ack.eventId)))
    && (forall id :: id in s.agent.db.events && s.agent.db.events[id].acked ==> OwnStored(s, id))
  }

  ghost predicate Inv(s: System) {
    && A.Valid(s.agent) && S.Valid(s.server)
    && UpValid(s) && ServerAgrees(s) && AcksValid(s)
    && s.saved == Events(s.agent.db.events)
    && (forall gap :: gap in s.server.gaps ==> gap.agentId != s.agentId)
  }

  lemma InvImpliesExactlyOnce(s: System)
    requires Inv(s)
    ensures ExactlyOnce(s)
  {
    hide Blank, IsUsageKind;
    forall id | id in s.agent.db.events && s.agent.db.events[id].acked
      ensures StoredOnce(s, id)
    {
      assert OwnStored(s, id);
    }
  }

  lemma AckStatusTerminal(r: S.Result)
    ensures L.AckIsTerminal(S.AckStatus(r)) <==> r != S.Rejected
  {
    var status := S.AckStatus(r);
    assert TrimSpace(status) == status;
    assert r != S.Rejected ==> ToLower(status) == status;
  }

  /** The server's answer to an event from this agent's outbox: stored, a duplicate of what is already there
      unchanged, or refused with nothing written. Never a conflict. */
  lemma OwnEventIsNeverInConflict(s: System, e: RunEvent, newId: string, owned: bool, projects: bool, outcome: S.Outcome)
    requires Inv(s) && Enabled(s, Receive(e, newId, owned, projects, outcome))
    ensures e.eventId in s.agent.db.events && s.agent.db.events[e.eventId].event == e
    ensures e.eventId in s.agent.issued && !Blank(e.eventId)
    ensures outcome == if !owned then S.Outcome(s.server, S.Rejected)
      else if e.eventId in s.server.events then S.Outcome(s.server, S.Stored(S.Duplicate))
      else if projects then S.Outcome(S.Insert(s.server, s.agentId, s.deviceId, e), S.Stored(S.Inserted))
      else S.Outcome(s.server, S.Rejected)
    ensures e.eventId in s.server.events ==> OwnStored(s, e.eventId)
  {
    hide IsUsageKind, TrimSpace;
    if e.eventId in s.server.events {
      if owned { S.ResendIsDuplicate(s.server, s.agentId, s.deviceId, e, newId, projects, outcome); }
    } else {
      assert !S.SeqTaken(s.server.events, s.agentId, e);
    }
  }

  lemma ReceiveKeepsInv(s: System, e: RunEvent, newId: string, owned: bool, projects: bool, outcome: S.Outcome)
    requires Inv(s) && Enabled(s, Receive(e, newId, owned, projects, outcome))
    ensures Inv(Apply(s, Receive(e, newId, owned, projects, outcome)))
  {
    hide IsUsageKind, TrimSpace, L.AckIsTerminal, S.AckStatus, S.Saves, S.Valid;
    OwnEventIsNeverInConflict(s, e, newId, owned, projects, outcome);
    S.SaveKeepsValid(s.server, s.agentId, s.deviceId, e, newId, owned, projects, outcome);
    AckStatusTerminal(outcome.result);
  }

  lemma ReceiveFromOtherKeepsInv(s: System, agentId: string, deviceId: string, e: RunEvent, newId: string,
                                 owned: bool, projects: bool, outcome: S.Outcome)
    requires Inv(s) && Enabled(s, ReceiveFromOther(agentId, deviceId, e, newId, owned, projects, outcome))
    ensures Inv(Apply(s, ReceiveFromOther(agentId, deviceId, e, newId, owned, projects, outcome)))
  {
    hide IsUsageKind, TrimSpace, L.AckIsTerminal, S.Valid, S.Saves, A.Valid;
    S.SaveKeepsValid(s.server, agentId, deviceId, e, newId, owned, projects, outcome);
  }

  /** Only the flags of outbox rows differ. */
  ghost predicate SameEvents(rows: map<string, L.OutboxRow>, rows': map<string, L.OutboxRow>) {
    rows'.Keys == rows.Keys && forall id :: id in rows ==> rows'[id].event == rows[id].event
  }

  lemma FlagsKeepInv(s: System, rows: map<string, L.OutboxRow>)
    requires Inv(s) && SameEvents(s.agent.db.events, rows)
    requires forall id :: id in rows && rows[id].acked ==> s.agent.db.events[id].acked || OwnStored(s, id)
    ensures Inv(s.(agent := s.agent.(db := s.agent.db.(events := rows))))
  {
    hide IsUsageKind, Blank, S.Valid, L.AckIsTerminal, S.SameKey;
    assert Events(rows) == Events(s.agent.db.events);
  }

  lemma ReceiveAckKeepsInv(s: System, ack: Ack)
    requires Inv(s) && Enabled(s, ReceiveAck(ack))
    ensures Inv(Apply(s, ReceiveAck(ack)))
  {
    hide IsUsageKind, S.Valid, L.AckIsTerminal, Blank;
    FlagsKeepInv(s, Apply(s, ReceiveAck(ack)).agent.db.events);
  }

  lemma SendKeepsInv(s: System, e: RunEvent)
    requires Inv(s) && Enabled(s, Send(e))
    ensures Inv(Apply(s, Send(e)))
  {
    hide IsUsageKind, S.Valid, L.AckIsTerminal, A.Valid, Blank;
    FlagsKeepInv(s, Apply(s, Send(e)).agent.db.events);
  }

  lemma EventsAdd(rows: map<string, L.OutboxRow>, id: string, row: L.OutboxRow)
    requires id !in rows
    ensures Events(rows[id := row]) == Events(rows) + {row.event}
  {
    assert rows[id := row][id] == row;
    assert forall k :: k in rows ==> rows[id := row][k] == rows[k];
  }

  lemma PersistKeepsInv(s: System, e: RunEvent)
    requires Inv(s) && Enabled(s, PersistEvent(e))
    ensures Inv(Apply(s, PersistEvent(e)))
  {
    hide IsUsageKind, TrimSpace, S.Valid, L.AckIsTerminal, A.Valid, L.SaveEvent;
    A.PersistNeverDrops(s.agent, e);
    var s' := Apply(s, PersistEvent(e));
    EventsAdd(s.agent.db.events, e.eventId, s'.agent.db.events[e.eventId]);
  }

  lemma RestartKeepsInv(s: System, order: seq<string>, ids: seq<string>, at: int, restarted: A.Agent)
    requires Inv(s) && Enabled(s, Restart(order, ids, at, restarted))
    ensures Inv(Apply(s, Restart(order, ids, at, restarted)))
  {
    hide IsUsageKind, TrimSpace, S.Valid, L.AckIsTerminal, A.Valid, L.Reconcile;
    A.RestartKeepsValid(s.agent, order, ids, at, restarted);
    assert Events(s.agent.db.events) <= Events(restarted.db.events);
  }

  lemma StepKeepsInv(s: System, step: Step)
    requires Inv(s) && Enabled(s, step)
    ensures Inv(Apply(s, step))
    ensures Apply(s, step).agentId == s.agentId
  {
    hide Inv, A.Valid, S.Saves, A.Restarts;
    match step
    case NumberEvent(content, id) => NumberKeepsInv(s, content, id);
    case PersistEvent(e) => PersistKeepsInv(s, e);
    case Send(e) => SendKeepsInv(s, e);
    case Receive(e, newId, owned, projects, outcome) => ReceiveKeepsInv(s, e, newId, owned, projects, outcome);
    case ReceiveFromOther(agentId, deviceId, e, newId, owned, projects, outcome) =>
      ReceiveFromOtherKeepsInv(s, agentId, deviceId, e, newId, owned, projects, outcome);
    case ReceiveAck(ack) => ReceiveAckKeepsInv(s, ack);
    case Restart(order, ids, at, restarted) => RestartKeepsInv(s, order, ids, at, restarted);
  }

  lemma NumberKeepsInv(s: System, content: RunEvent, id: string)
    requires Inv(s) && Enabled(s, NumberEvent(content, id))
    ensures Inv(Apply(s, NumberEvent(content, id)))
  {
    hide IsUsageKind, TrimSpace, S.Valid, L.AckIsTerminal, A.Valid;
    A.NumberKeepsValid(s.agent, content, id);
  }

  lemma {:induction false} RunKeepsInv(s: System, steps: seq<Step>)
    requires Inv(s) && IsRun(s, steps)
    ensures Inv(Execute(s, steps))
    decreases |steps|
  {
    hide Inv, Enabled, Apply;
    if steps != [] {
      StepKeepsInv(s, steps[0]);
      RunKeepsInv(Apply(s, steps[0]), steps[1..]);
    }
  }

  /** Over every run with loss, duplication, reordering, crashes and restarts: exactly once. */
  lemma ExactlyOnceAlways(s: System, steps: seq<Step>)
    requires Initial(s) && IsRun(s, steps)
    ensures ExactlyOnce(Execute(s, steps))
  {
    hide IsUsageKind, TrimSpace;
    assert Inv(s);
    RunKeepsInv(s, steps);
    InvImpliesExactlyOnce(Execute(s, steps));
  }

  /** What was stored, what was acked and what was saved stays so, over every run. */
  ghost predicate Extends(s: System, s': System) {
    && s'.agentId == s.agentId && s'.deviceId == s.deviceId && s.saved <= s'.saved
    && (forall id :: id in s.server.events ==> id in s'.server.events && s'.server.events[id] == s.server.events[id])
    && (forall id | id in s.agent.db.events ::
      && id in s'.agent.db.events && s'.agent.db.events[id].event == s.agent.db.events[id].event
      && (s.agent.db.events[id].acked ==> s'.agent.db.events[id].acked))
  }

  lemma StepExtends(s: System, step: Step)
    requires Inv(s) && Enabled(s, step)
    ensures Extends(s, Apply(s, step))
  {
    hide IsUsageKind, Blank, L.AckIsTerminal, S.SameKey, S.Valid, A.Valid, L.SaveEvent, S.Saves, A.Restarts;
    match step
    case NumberEvent(content, id) =>
    case PersistEvent(e) => A.PersistNeverDrops(s.agent, e);
    case Send(e) =>
    case Receive(e, newId, owned, projects, outcome) =>
      S.SaveKeepsValid(s.server, s.agentId, s.deviceId, e, newId, owned, projects, outcome);
    case ReceiveFromOther(agentId, deviceId, e, newId, owned, projects, outcome) =>
      S.SaveKeepsValid(s.server, agentId, deviceId, e, newId, owned, projects, outcome);
    case ReceiveAck(ack) =>
    case Restart(order, ids, at, restarted) => A.RestartKeepsValid(s.agent, order, ids, at, restarted);
  }

  lemma {:induction false} RunExtends(s: System, steps: seq<Step>)
    requires Inv(s) && IsRun(s, steps)
    ensures Extends(s, Execute(s, steps))
    decreases |steps|
  {
    hide Inv, Enabled, Apply;
    if steps != [] {
      StepExtends(s, steps[0]);
      StepKeepsInv(s, steps[0]);
      RunExtends(Apply(s, steps[0]), steps[1..]);
    }
  }

  function Acked(s: System, id: string): bool {
    id in s.agent.db.events && s.agent.db.events[id].acked
  }

  /** From every reachable state a pending event with a run id can still be settled: sending it, one delivery that
      the server does not refuse and one delivery of the ack leave it acked, whatever happened to it before. */
  lemma PendingEventCanSettle(s: System, id: string, newId: string)
    requires Inv(s) && id in s.agent.db.events && s.agent.db.events[id].event.runId != ""
    ensures exists steps :: |steps| == 3 && IsRun(s, steps) && Acked(Execute(s, steps), id)
  {
    hide IsUsageKind, Blank, L.AckIsTerminal, S.Saves, S.AckStatus, S.Valid, A.Valid, IsRun, Execute;
    var e := s.agent.db.events[id].event;
    RowsUnderTheirId(s);
    var s1 := Apply(s, Send(e));
    SendKeepsInv(s, e);
    assert s1.agent.db.events[id].event == e && s1.server == s.server && e in s1.up;
    var outcome := if id in s.server.events then S.Outcome(s.server, S.Stored(S.Duplicate))
      else S.Outcome(S.Insert(s.server, s.agentId, s.deviceId, e), S.Stored(S.Inserted));
    OwnSaveIsPossible(s1, e, newId, outcome);
    var receive := Receive(e, newId, true, true, outcome);
    var s2 := Apply(s1, receive);
    NumberIsPositive(s, id);
    var ack := S.AckFor(e, outcome.result).value;
    AckStatusTerminal(outcome.result);
    UnfoldRun(s, Send(e), receive, ReceiveAck(ack));
    assert ack in s2.down && s2.agent == s1.agent;
    AckSettles(s2, ack, id);
  }

  lemma NumberIsPositive(s: System, id: string)
    requires Inv(s) && id in s.agent.db.events
    ensures s.agent.db.events[id].event.seqNo > 0 && !Blank(id)
  {
    hide IsUsageKind, Blank;
  }

  lemma AckSettles(s: System, ack: Ack, id: string)
    requires id in s.agent.db.events && L.AckIsTerminal(ack.status)
    requires !Blank(ack.eventId) && ack.eventId == s.agent.db.events[id].event.eventId
    ensures Acked(Apply(s, ReceiveAck(ack)), id)
  {
    hide Blank;
  }

  lemma UnfoldRun(s: System, a: Step, b: Step, c: Step)
    ensures var s1, s2 := Apply(s, a), Apply(Apply(s, a), b);
      && (IsRun(s, [a, b, c]) <==> Enabled(s, a) && Enabled(s1, b) && Enabled(s2, c))
      && Execute(s, [a, b, c]) == Apply(s2, c)
  {
    hide Enabled, Apply;
    assert [a, b, c][1..] == [b, c] && [b, c][1..] == [c] && [c][1..] == [];
    var s1, s2 := Apply(s, a), Apply(Apply(s, a), b);
    assert IsRun(s2, [c]) <==> Enabled(s2, c);
    assert IsRun(s1, [b, c]) <==> Enabled(s1, b) && Enabled(s2, c);
    assert Execute(s2, [c]) == Apply(s2, c);
    assert Execute(s1, [b, c]) == Apply(s2, c);
  }

  lemma OwnSaveIsPossible(s: System, e: RunEvent, newId: string, outcome: S.Outcome)
    requires Inv(s) && e.eventId in s.agent.db.events && s.agent.db.events[e.eventId].event == e
    requires outcome == if e.eventId in s.server.events then S.Outcome(s.server, S.Stored(S.Duplicate))
      else S.Outcome(S.Insert(s.server, s.agentId, s.deviceId, e), S.Stored(S.Inserted))
    ensures S.Saves(s.server, s.agentId, s.deviceId, e, newId, true, true, outcome)
  {
    hide IsUsageKind, TrimSpace;
    assert e.eventId != "" by { assert TrimSpace("") == ""; }
    if e.eventId in s.server.events {
      assert s.server.events[e.eventId] == S.Record(s.agentId, s.deviceId, e);
      assert outcome == S.Resolve(s.server, s.agentId, s.deviceId, e, Some(e.eventId));
      if S.SeqTaken(s.server.events, s.agentId, e) {
        assert S.HoldsSeq(s.server.events, e.eventId, s.agentId, e);
      } else {
        assert outcome == S.Resolve(s.server, s.agentId, s.deviceId, e, None);
      }
    } else {
      assert !S.SeqTaken(s.server.events, s.agentId, e);
    }
  }

  /** No ack is ever sent for an event without a run id, so such an event stays pending over every run. */
  ghost predicate AcksNameRuns(s: System) {
    && (forall ack | ack in s.down ::
      && ack.runId != "" && ack.eventId in s.agent.db.events
      && s.agent.db.events[ack.eventId].event.runId == ack.runId)
    && (forall id :: Acked(s, id) ==> s.agent.db.events[id].event.runId != "")
  }

  lemma StepKeepsAcksNameRuns(s: System, step: Step)
    requires Inv(s) && AcksNameRuns(s) && Enabled(s, step)
    ensures AcksNameRuns(Apply(s, step))
  {
    hide IsUsageKind, L.AckIsTerminal, S.SameKey, S.Valid, S.Saves, L.SaveEvent, A.Restarts, Blank, A.Valid;
    match step
    case PersistEvent(e) => A.PersistNeverDrops(s.agent, e);
    case ReceiveAck(ack) => RowsUnderTheirId(s);
    case Restart(order, ids, at, restarted) => A.RestartKeepsValid(s.agent, order, ids, at, restarted);
    case _ =>
  }

  lemma RowsUnderTheirId(s: System)
    requires Inv(s)
    ensures forall id :: id in s.agent.db.events ==> s.agent.db.events[id].event.eventId == id
    ensures forall ack :: ack in s.down ==> !Blank(ack.eventId)
  {
    hide IsUsageKind, Blank;
  }

  lemma {:induction false} RunKeepsAcksNameRuns(s: System, steps: seq<Step>)
    requires Inv(s) && AcksNameRuns(s) && IsRun(s, steps)
    ensures AcksNameRuns(Execute(s, steps))
    decreases |steps|
  {
    hide Inv, Enabled, Apply, AcksNameRuns;
    if steps != [] {
      StepKeepsInv(s, steps[0]);
      StepKeepsAcksNameRuns(s, steps[0]);
      RunKeepsAcksNameRuns(Apply(s, steps[0]), steps[1..]);
    }
  }

  /** An event can be settled exactly when it names a run: one without a run id stays pending over every run. */
  lemma EventsWithoutRunStayPending(s: System, steps: seq<Step>, id: string)
    requires Initial(s) && IsRun(s, steps) && id in Execute(s, steps).agent.db.events
    requires Execute(s, steps).agent.db.events[id].event.runId == ""
    ensures !Acked(Execute(s, steps), id)
  {
    hide IsUsageKind, Blank;
    assert Inv(s) && AcksNameRuns(s);
    RunKeepsAcksNameRuns(s, steps);
  }
}
