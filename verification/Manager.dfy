/** The run manager as an object over the agent's store. Each method is one critical section or one call of the
    serial command loop; the interleavings between them are the subject of `RunSystem`. */
module Manager {
  import opened Text
  import opened Protocol
  import opened RunManager
  import L = LocalStore

  predicate CreatesRun(kind: string) {
    kind in {"command.new_session", "new_session", "command.resume", "resume", "command.send", "send"}
  }

  predicate StopsRun(kind: string) {
    kind in {"command.stop", "stop"}
  }

  function StartedEvent(c: Command, at: int): RunEvent {
    RunEvent("", c.runId, c.commandId, c.projectId, c.sessionId, 0, "run.started", NoPayload, at)
  }

  class Manager {
    var active: map<string, ActiveRun>
    var commands: map<string, Ack>
    var eventSeq: nat
    var maxActive: nat
    const store: L.Store

    ghost function Snapshot(): Proc
      reads this
    {
      Proc(active, commands, maxActive)
    }

    constructor (store: L.Store)
      ensures Snapshot() == Proc(map[], map[], 1) && eventSeq == 0 && this.store == store
    {
      active, commands, eventSeq, maxActive := map[], map[], 0, 1;
      this.store := store;
    }

    method SetMaxActive(requested: int)
      modifies this`maxActive
      ensures maxActive == if requested < 1 then 1 else requested
    {
      maxActive := if requested < 1 then 1 else requested;
    }

    /** Attaching the store closes the runs a previous process left open and moves the counter past every saved
        event, so no number is ever given out twice. */
    method SetAckStore(ids: seq<string>, at: int) returns (order: seq<string>, ghost last: nat)
      requires |ids| >= |store.runs|
      modifies this`eventSeq, store
      ensures L.IsLastSeq(old(store.events), last) && L.ListsOpenRuns(old(store.runs), order) && |order| <= |ids|
      ensures store.Snapshot() == L.Reconcile(old(store.Snapshot()), order, ids, last, at, |order|)
      ensures forall id :: id in store.events ==> store.events[id].event.seqNo <= eventSeq
      ensures old(eventSeq) <= eventSeq && (old(eventSeq) == 0 ==> L.IsLastSeq(store.events, eventSeq))
    {
      order, last := store.ReconcileInterruptedRuns(ids, at);
      var n := store.LastRunEventSeq();
      if n > eventSeq {
        eventSeq := n;
      }
    }

    method ApplyRuntimeSessionUpdate(e: RunEvent)
      modifies this`active
      ensures Snapshot() == ApplySessionUpdate(old(Snapshot()), e)
    {
      if e.kind != "session.updated" || e.runId !in active {
        return;
      }
      var session := DecodeSession(e.payload);
      if session.None? {
        return;
      }
      var run := active[e.runId];
      run := AddSession(run, session.value.sessionId);
      run := AddSession(run, session.value.nativeId);
      if session.value.sessionId != "" && run.command.sessionId == "" {
        run := run.(command := run.command.(sessionId := session.value.sessionId));
      }
      if session.value.projectId != "" && run.command.projectId == "" {
        run := run.(command := run.command.(projectId := session.value.projectId));
      }
      active := active[e.runId := run];
    }

    /** Numbers the event and hands it to the client, which saves it before anything is sent. `broken` says that
        the save itself fails. */
    method Emit(content: RunEvent, id: string, broken: bool) returns (e: RunEvent, outcome: L.SaveOutcome)
      modifies this`active, this`eventSeq, store
      ensures Snapshot() == ApplySessionUpdate(old(Snapshot()), content)
      ensures eventSeq == old(eventSeq) + 1
      ensures e == content.(seqNo := eventSeq, eventId := if content.eventId == "" then id else content.eventId)
      ensures if IsUsageKind(e.kind) then outcome == L.Skipped && store.Snapshot() == old(store.Snapshot())
        else if broken then outcome == L.Failed && store.Snapshot() == old(store.Snapshot())
        else L.Saving(store.Snapshot(), outcome) == L.SaveEvent(old(store.Snapshot()), e)
    {
      ApplyRuntimeSessionUpdate(content);
      eventSeq := eventSeq + 1;
      e := content.(seqNo := eventSeq);
      if e.eventId == "" {
        e := e.(eventId := id);
      }
      if IsUsageKind(e.kind) {
        return e, L.Skipped;
      }
      if broken {
        return e, L.Failed;
      }
      outcome := store.SaveRunEvent(e);
    }

    method RememberAck(ack: Ack)
      modifies this`commands, store`acks
      ensures Snapshot() == Remember(old(Snapshot()), ack)
      ensures store.acks == SavedAcks(old(store.acks), ack)
    {
      commands := commands[ack.commandId := ack];
      store.SaveCommandAck(ack);
    }

    /** The cached or stored answer to a command that was handled before. */
    method KnownAck(commandId: string) returns (known: Option<Ack>)
      modifies this`commands
      ensures known == if commandId in old(commands) then Some(old(commands)[commandId])
        else if !Blank(commandId) && commandId in store.acks then Some(store.acks[commandId]) else None
      ensures commands == if known.Some? then old(commands)[commandId := known.value] else old(commands)
    {
      if commandId in commands {
        return Some(commands[commandId]);
      }
      if Blank(commandId) || commandId !in store.acks {
        return None;
      }
      commands := commands[commandId := store.acks[commandId]];
      return Some(store.acks[commandId]);
    }

    method IsSessionBusy(sessionId: string) returns (busy: Option<string>)
      ensures busy.None? <==> !SessionBusy(active, sessionId)
      ensures busy.Some? ==> busy.value in active && HasSession(active[busy.value], sessionId)
    {
      var pending := active.Keys;
      while pending != {}
        invariant pending <= active.Keys
        invariant forall id :: id in active && id !in pending ==> !HasSession(active[id], sessionId)
        decreases pending
      {
        var id :| id in pending;
        if HasSession(active[id], sessionId) {
          return Some(id);
        }
        pending := pending - {id};
      }
      return None;
    }

    /** The admission decision, taken under the lock. */
    method TryAdmit(c: Command) returns (admission: Admission)
      modifies this`active
      ensures admission == Admit(old(Snapshot()), c)
      ensures Snapshot() == if admission == Admitted then StartRun(old(Snapshot()), c) else old(Snapshot())
    {
      if |active| >= maxActive {
        return Refused("rejected");
      }
      if c.runId in active {
        return Refused("duplicate");
      }
      if c.sessionId != "" {
        var busy := IsSessionBusy(c.sessionId);
        if busy.Some? {
          return Refused("rejected");
        }
      }
      active := active[c.runId := ActiveRun(c, Starting, false, map[], AliasSet(c.sessionId))];
      return Admitted;
    }

    /** `start`: the run is launched only after its first event and the command's answer are saved. */
    method Start(c: Command, expired: bool, id: string, at: int, broken: bool) returns (ack: Ack, launched: bool)
      requires store.SnapshotValid(id, eventSeq)
      modifies this, store
      ensures maxActive == old(maxActive)
      ensures commands == old(commands)[c.commandId := ack]
      ensures launched <==> !expired && Admit(old(Snapshot()), c) == Admitted && !broken
      ensures ack == CommandAck(c, c.runId,
        if launched then "ok"
        else if expired || Admit(old(Snapshot()), c) == Admitted then "rejected" else Admit(old(Snapshot()), c).status)
      ensures active == if launched then StartRun(old(Snapshot()), c).active else old(active)
      ensures store.acks == SavedAcks(old(store.acks), ack)
      ensures store.events == if launched
        then var e := StartedEvent(c, at).(seqNo := eventSeq, eventId := id);
          old(store.events)[id := L.OutboxRow(e, false, 0, false, false)]
        else old(store.events)
    {
      hide IsUsageKind, L.ProjectRunState, Blank, SessionBusy;
      if expired {
        ack := CommandAck(c, c.runId, "rejected");
        RememberAck(ack);
        return ack, false;
      }
      var admission := TryAdmit(c);
      if admission.Refused? {
        ack := CommandAck(c, c.runId, admission.status);
        RememberAck(ack);
        return ack, false;
      }
      StartedIsNotUsage();
      assert id != "" by { BlankEmpty(); }
      var e, outcome := Emit(StartedEvent(c, at), id, broken);
      if outcome == L.Failed {
        active := active - {c.runId};
        assert active == old(active);
        ack := CommandAck(c, c.runId, "rejected");
        RememberAck(ack);
        return ack, false;
      }
      ack := CommandAck(c, c.runId, "ok");
      RememberAck(ack);
      return ack, true;
    }

    method Stop(c: Command) returns (ack: Ack, ghost target: Option<string>)
      modifies this, store`acks
      ensures IsStopTarget(old(Snapshot()), c, target)
      ensures target.Some? ==> target.value in old(active)
      ensures Snapshot() == Remember(
        if target.Some? then MarkStopping(old(Snapshot()), target.value) else old(Snapshot()), ack)
      ensures ack == if target.Some? then CommandAck(c, old(active)[target.value].command.runId, "ok")
        else CommandAck(c, c.runId, "rejected")
      ensures store.acks == SavedAcks(old(store.acks), ack) && eventSeq == old(eventSeq)
    {
      var run: Option<string> := None;
      if c.runId in active {
        run := Some(c.runId);
      } else if c.sessionId != "" {
        run := IsSessionBusy(c.sessionId);
      }
      target := run;
      if run.None? {
        ack := CommandAck(c, c.runId, "rejected");
        RememberAck(ack);
        return;
      }
      active := active[run.value := active[run.value].(state := Stopping, stopping := true)];
      ack := CommandAck(c, active[run.value].command.runId, "ok");
      RememberAck(ack);
    }

    /** A command that was answered before is answered the same way again, and nothing else happens. A command
        without an id gets a generated one. */
    method Handle(command: Command, newCommandId: string, newRunId: string, expired: bool, id: string, at: int,
                  broken: bool) returns (ack: Ack, launched: bool)
      requires store.SnapshotValid(id, eventSeq)
      modifies this, store
      ensures var key := if command.commandId == "" then newCommandId else command.commandId;
        var known := key in old(commands) || (!Blank(key) && key in old(store.acks));
        && key in commands && commands[key] == ack
        && (launched ==> !known && CreatesRun(command.kind) && ack.status == "ok")
        && (known ==> active == old(active) && store.Snapshot() == old(store.Snapshot()) && eventSeq == old(eventSeq))
        && (!known && !CreatesRun(command.kind) && !StopsRun(command.kind) ==>
            ack == Ack("", key, command.runId, "rejected", 0) && active == old(active) && store.events == old(store.events))
        && (!known && !Blank(key) ==> key in store.acks)
      ensures forall k :: k in old(store.acks) ==> k in store.acks
    {
      hide IsUsageKind, L.ProjectRunState, Blank, SessionBusy, SetState;
      var c := if command.commandId == "" then command.(commandId := newCommandId) else command;
      var known := KnownAck(c.commandId);
      if known.Some? {
        return known.value, false;
      }
      if CreatesRun(c.kind) {
        var run := if c.runId == "" then c.(runId := newRunId) else c;
        ack, launched := Start(run, expired, id, at, broken);
      } else if StopsRun(c.kind) {
        ghost var target;
        ack, target := Stop(c);
        launched := false;
      } else {
        ack := CommandAck(c, c.runId, "rejected");
        RememberAck(ack);
        launched := false;
      }
    }

    method AwaitApproval(runId: string, approvalId: string) returns (found: bool)
      modifies this`active
      ensures found <==> runId in old(active)
      ensures Snapshot() == BeginApproval(old(Snapshot()), runId, approvalId)
    {
      if runId !in active {
        return false;
      }
      var run := active[runId];
      run := run.(state := AwaitingApproval);
      run := run.(approvals := run.approvals[approvalId := None]);
      active := active[runId := run];
      return true;
    }

    method ResumeAfterApproval(runId: string, approvalId: string)
      modifies this`active
      ensures Snapshot() == EndApproval(old(Snapshot()), runId, approvalId)
    {
      if runId in active {
        var run := active[runId];
        run := run.(approvals := run.approvals - {approvalId});
        if run.state == AwaitingApproval {
          run := run.(state := Running);
        }
        active := active[runId := run];
      }
    }

    method DecideApproval(approvalId: string, decision: string) returns (ack: Ack)
      modifies this`active
      ensures (exists id :: id in old(active) && approvalId in old(active)[id].approvals) ==>
        exists id :: id in old(active) && approvalId in old(active)[id].approvals
          && Snapshot() == Decide(old(Snapshot()), id, approvalId, decision)
          && ack == Ack("", "", old(active)[id].command.runId, "ok", 0)
      ensures !(exists id :: id in old(active) && approvalId in old(active)[id].approvals) ==>
        Snapshot() == old(Snapshot()) && ack == Ack("", "", "", "rejected", 0)
    {
      var pending := active.Keys;
      while pending != {}
        invariant pending <= active.Keys && active == old(active)
        invariant forall id :: id in active && id !in pending ==> approvalId !in active[id].approvals
        decreases pending
      {
        var id :| id in pending;
        var run := active[id];
        if approvalId in run.approvals {
          if run.approvals[approvalId].None? {
            active := active[id := run.(approvals := run.approvals[approvalId := Some(decision)])];
          }
          return Ack("", "", run.command.runId, "ok", 0);
        }
        pending := pending - {id};
      }
      return Ack("", "", "", "rejected", 0);
    }

    /** The last act of `execute`: the terminal event goes out, then the slot is free. */
    method Finish(c: Command, ending: Ending, id: string, at: int, broken: bool) returns (e: RunEvent)
      modifies this`active, this`eventSeq, store
      ensures active == old(active) - {c.runId}
      ensures eventSeq == old(eventSeq) + 1
      ensures IsTerminalKind(e.kind) && e.runId == c.runId && e.seqNo == eventSeq
      ensures e.kind == "run.stopped" <==>
        ending == Canceled && c.runId in old(active) && old(active)[c.runId].stopping
      ensures broken || L.SaveEvent(old(store.Snapshot()), e).local == store.Snapshot()
    {
      hide L.SaveEvent;
      var stopping := c.runId in active && active[c.runId].stopping;
      var content := RunEvent("", c.runId, c.commandId, c.projectId, c.sessionId, 0, FinishKind(ending, stopping), NoPayload, at);
      TerminalIsNotUsage(content.kind);
      var outcome;
      e, outcome := Emit(content, id, broken);
      active := active - {c.runId};
    }
  }

  lemma StartedIsNotUsage()
    ensures !IsUsageKind("run.started")
  {
    assert TrimSpace("run.started") == "run.started";
    assert ToLower("run.started")[3] == '.';
  }

  lemma TerminalIsNotUsage(kind: string)
    requires IsTerminalKind(kind)
    ensures !IsUsageKind(kind)
  {
    assert TrimSpace(kind) == kind;
    assert ToLower(kind)[3] == '.';
  }
}
