/** What the event log of a run looks like over every interleaving, crash and restart. */
module RunTrace {
  import opened Text
  import opened Protocol
  import opened RunManager
  import opened RunSystem
  import M = Manager
  import L = LocalStore
  import A = AgentEvents

  // ----- the agent's numbering, whatever the manager does -----

  lemma DropKeepsValid(a: A.Agent, e: RunEvent)
    requires A.Valid(a)
    ensures A.Valid(Drop(a, e))
  {
    hide IsUsageKind, Blank;
  }

  lemma AcksKeepValid(a: A.Agent, acks: map<string, Ack>)
    requires A.Valid(a)
    ensures A.Valid(WithAcks(a, acks))
  {
    hide IsUsageKind, Blank;
  }

  lemma SaveKeepsValid(a: A.Agent, e: RunEvent, ok: bool)
    requires A.Valid(a) && e in a.staged
    ensures A.Valid(AfterSave(a, e, ok))
    ensures AfterSave(a, e, ok).staged == a.staged - {e}
    ensures AfterSave(a, e, ok).seqNo == a.seqNo && AfterSave(a, e, ok).db.acks == a.db.acks
    ensures e.eventId !in a.db.events
    ensures AfterSave(a, e, ok).db.events ==
      if ok then a.db.events[e.eventId := L.OutboxRow(e, false, 0, false, false)] else a.db.events
    ensures AfterSave(a, e, ok).db.runs == if ok then L.ProjectRunState(a.db.runs, e) else a.db.runs
  {
    hide IsUsageKind, Blank, A.Valid, L.SaveEvent, L.ProjectRunState;
    A.PersistNeverDrops(a, e);
    DropKeepsValid(a, e);
  }

  lemma NumberStages(a: A.Agent, content: RunEvent, id: string)
    requires A.Valid(a) && A.FreshId(a, A.Stamp(a, content, id).eventId)
    ensures A.Valid(A.Number(a, content, id))
    ensures A.Number(a, content, id).db == a.db
    ensures var e := A.Stamp(a, content, id);
      && A.Number(a, content, id).staged == (if IsUsageKind(content.kind) then a.staged else a.staged + {e})
      && e.runId == content.runId && e.kind == content.kind
      && forall id :: id in a.db.events ==> a.db.events[id].event.seqNo < e.seqNo
  {
    hide IsUsageKind, Blank;
    A.NumberKeepsValid(a, content, id);
  }

  // ----- the slots -----

  /** A run holds a slot from its admission until its terminal event is out, and its context is cancelled only after
      a stop of it was accepted. */
  ghost predicate SlotsValid(s: System) {
    && (forall r :: r in s.execs ==> r in s.proc.active && s.execs[r].command.runId == r)
    && (forall r :: r in s.proc.active ==> r in s.execs || (IsStarting(s.pc) && s.pc.c.runId == r))
    && (IsStarting(s.pc) ==> s.pc.c.runId in s.proc.active && s.pc.c.runId !in s.execs && s.pc.c.runId != "")
    && (forall r :: r in s.proc.active && s.proc.active[r].stopping ==> r in s.stops)
    && (s.pc.AtCancel? ==> s.pc.runId in s.proc.active ==> s.proc.active[s.pc.runId].stopping)
    && (forall r :: r in s.execs && s.execs[r].canceled ==> s.proc.active[r].stopping)
  }

  lemma ReceiveKeepsSlots(s: System, step: Step)
    requires SlotsValid(s) && step.Receive? && Enabled(s, step)
    ensures SlotsValid(Apply(s, step))
  {
    hide Apply, AliasSet, Enabled, Admit, Known;
    ReceiveOutcome(s, step);
  }

  /** The same slots, with the same stop marks. */
  ghost predicate SameSlots(p: Proc, p': Proc) {
    p'.active.Keys == p.active.Keys && forall r :: r in p.active ==> p'.active[r].stopping == p.active[r].stopping
  }

  lemma ManagerStepsKeepSlots(s: System, step: Step)
    requires Enabled(s, step)
    requires step.EmitEvent? || step.AskApproval? || step.DecideApproval? || step.LeaveApproval? || step.Begin?
    ensures SameSlots(s.proc, Apply(s, step).proc)
    ensures !step.Begin? ==> var s' := Apply(s, step); s'.execs == s.execs
    ensures var s' := Apply(s, step); s'.pc == s.pc && s'.stops == s.stops
  {
    hide A.Number, A.FreshId, DecodeSession, AliasSet;
  }

  lemma NumberStartKeepsSlots(s: System, step: Step)
    requires SlotsValid(s) && step.NumberStart? && Enabled(s, step)
    ensures SlotsValid(Apply(s, step))
  {
    hide A.Stamp, A.Number, A.FreshId, SlotsValid;
    SameShapeKeepsSlots(s, Apply(s, step));
  }

  lemma SaveStartKeepsSlots(s: System, ok: bool)
    requires SlotsValid(s) && Enabled(s, SaveStart(ok))
    ensures SlotsValid(Apply(s, SaveStart(ok)))
  {
    hide AfterSave, SlotsValid, CommandAck, WithAcks, SavedAcks;
    if ok {
      SameShapeKeepsSlots(s, Apply(s, SaveStart(ok)));
    } else {
      RefusedStartKeepsSlots(s, Apply(s, SaveStart(ok)));
    }
  }

  lemma RefusedStartKeepsSlots(s: System, s': System)
    requires SlotsValid(s) && s.pc.AtSave? && s'.proc.active == s.proc.active - {s.pc.c.runId}
    requires s'.pc == Idle && s'.execs == s.execs && s'.stops == s.stops
    ensures SlotsValid(s')
  {
  }

  lemma AnswerStartKeepsSlots(s: System, ok: bool)
    requires SlotsValid(s) && Enabled(s, AnswerStart(ok))
    ensures SlotsValid(Apply(s, AnswerStart(ok)))
  {
    hide Blank, SlotsValid, CommandAck, WithAcks, SavedAcks;
    SameShapeKeepsSlots(s, Apply(s, AnswerStart(ok)));
  }

  lemma LaunchKeepsSlots(s: System)
    requires SlotsValid(s) && Enabled(s, Launch)
    ensures SlotsValid(Apply(s, Launch))
  {
  }

  lemma CancelKeepsSlots(s: System)
    requires SlotsValid(s) && Enabled(s, CancelStop)
    ensures SlotsValid(Apply(s, CancelStop))
  {
    hide CommandAck, WithAcks;
  }

  ghost predicate SameExecs(execs: map<string, Exec>, execs': map<string, Exec>) {
    execs'.Keys == execs.Keys
    && forall r :: r in execs ==> execs'[r].command == execs[r].command && execs'[r].canceled == execs[r].canceled
  }

  /** Slots, stop marks, loop and cancellations are as before. */
  lemma SameShapeKeepsSlots(s: System, s': System)
    requires SlotsValid(s) && SameSlots(s.proc, s'.proc) && SameExecs(s.execs, s'.execs)
    requires s'.stops == s.stops
    requires s'.pc == s.pc || (IsStarting(s.pc) && IsStarting(s'.pc) && s'.pc.c == s.pc.c)
    ensures SlotsValid(s')
  {
  }

  lemma ManagerStepsKeepSlotsValid(s: System, step: Step)
    requires SlotsValid(s) && Enabled(s, step)
    requires step.EmitEvent? || step.AskApproval? || step.DecideApproval? || step.LeaveApproval? || step.Begin?
    ensures SlotsValid(Apply(s, step))
  {
    hide A.Number, A.FreshId, ApplySessionUpdate, BeginApproval, EndApproval, Decide, SetState, Blank, SlotsValid, SameSlots;
    ManagerStepsKeepSlots(s, step);
    SameShapeKeepsSlots(s, Apply(s, step));
  }

  lemma ExecStepsKeepSlots(s: System, step: Step)
    requires SlotsValid(s) && Enabled(s, step) && (step.SaveEmitted? || step.EndRuntime? || step.SaveTerminal?)
    ensures SlotsValid(Apply(s, step))
  {
    hide AfterSave, A.Stamp, A.Number, A.FreshId, Blank, TerminalKind, EndingFits, SlotsValid;
    SameShapeKeepsSlots(s, Apply(s, step));
  }

  lemma CloseKeepsSlots(s: System, r: string)
    requires SlotsValid(s) && Enabled(s, Close(r))
    ensures SlotsValid(Apply(s, Close(r)))
  {
  }

  lemma RestartKeepsSlots(s: System, step: Step)
    requires SlotsValid(s) && step.Restart? && Enabled(s, step)
    ensures SlotsValid(Apply(s, step))
  {
    hide A.Restarts, Blank;
  }

  lemma StepKeepsSlots(s: System, step: Step)
    requires SlotsValid(s) && Enabled(s, step)
    ensures SlotsValid(Apply(s, step))
  {
    hide Apply, Enabled, SlotsValid;
    match step
    case Receive(_, _, _, _) => ReceiveKeepsSlots(s, step);
    case NumberStart(_, _) => NumberStartKeepsSlots(s, step);
    case SaveStart(ok) => SaveStartKeepsSlots(s, ok);
    case AnswerStart(ok) => AnswerStartKeepsSlots(s, ok);
    case Launch => LaunchKeepsSlots(s);
    case CancelStop => CancelKeepsSlots(s);
    case SaveEmitted(_, _) => ExecStepsKeepSlots(s, step);
    case EndRuntime(_, _, _, _) => ExecStepsKeepSlots(s, step);
    case SaveTerminal(_, _) => ExecStepsKeepSlots(s, step);
    case Close(r) => CloseKeepsSlots(s, r);
    case Restart(_, _, _, _) => RestartKeepsSlots(s, step);
    case _ => ManagerStepsKeepSlotsValid(s, step);
  }

  // ----- what a step does to the log -----

  /** The loop's and the ending runs' own events wait to be saved. */
  ghost predicate OwnStaged(s: System) {
    && (s.pc.AtSave? ==>
      s.pc.e in s.agent.staged && s.pc.e.kind == "run.started" && s.pc.e.runId == s.pc.c.runId)
    && (forall r | r in s.execs && s.execs[r].phase.Finishing? ::
      var e := s.execs[r].phase.e;
      e in s.agent.staged && IsTerminalKind(e.kind) && e.runId == r)
  }

  ghost function SavedBy(s: System, step: Step): Option<RunEvent>
    requires Enabled(s, step)
  {
    match step
    case SaveStart(ok) => if ok then Some(s.pc.e) else None
    case SaveEmitted(e, ok) => if ok then Some(e) else None
    case SaveTerminal(r, ok) => if ok then Some(s.execs[r].phase.e) else None
    case _ => None
  }

  ghost function NumberedBy(s: System, step: Step): Option<RunEvent>
    requires Enabled(s, step)
  {
    match step
    case NumberStart(id, at) => Some(A.Stamp(s.agent, M.StartedEvent(s.pc.c, at), id))
    case EmitEvent(content, id) => Some(A.Stamp(s.agent, content, id))
    case EndRuntime(r, ending, id, at) =>
      Some(A.Stamp(s.agent, TerminalContent(s.execs[r].command, TerminalKind(s, r, ending), at), id))
    case _ => None
  }

  ghost predicate LogAfter(a: A.Agent, saved: Option<RunEvent>, numbered: Option<RunEvent>, a': A.Agent) {
    && A.Valid(a')
    && (saved.None? ==> a'.db.events == a.db.events && a'.db.runs == a.db.runs)
    && (saved.Some? ==> var e := saved.value;
      && e in a.staged && e.eventId !in a.db.events && numbered.None?
      && a'.db.events == a.db.events[e.eventId := L.OutboxRow(e, false, 0, false, false)]
      && a'.db.runs == L.ProjectRunState(a.db.runs, e)
      && a'.staged == a.staged - {e})
    && (numbered.Some? ==> var e := numbered.value;
      && a'.staged == (if IsUsageKind(e.kind) then a.staged else a.staged + {e})
      && forall id :: id in a.db.events ==> a.db.events[id].event.seqNo < e.seqNo)
    && (forall e :: e in a'.staged ==> e in a.staged || numbered == Some(e))
  }

  lemma NumberStepsOnLog(s: System, step: Step)
    requires A.Valid(s.agent) && Enabled(s, step) && (step.NumberStart? || step.EmitEvent? || step.EndRuntime?)
    ensures LogAfter(s.agent, SavedBy(s, step), NumberedBy(s, step), Apply(s, step).agent)
    ensures NumberedBy(s, step).Some? && Apply(s, step).agent.db == s.agent.db && Apply(s, step).first == s.first
  {
    hide A.Valid, IsUsageKind, Blank, ApplySessionUpdate, A.Number;
    match step
    case NumberStart(id, at) => NumberStages(s.agent, M.StartedEvent(s.pc.c, at), id);
    case EmitEvent(content, id) => NumberStages(s.agent, content, id);
    case EndRuntime(r, ending, id, at) =>
      NumberStages(s.agent, TerminalContent(s.execs[r].command, TerminalKind(s, r, ending), at), id);
  }

  lemma SaveStepsOnLog(s: System, step: Step)
    requires A.Valid(s.agent) && OwnStaged(s) && Enabled(s, step)
    requires step.SaveStart? || step.SaveEmitted? || step.SaveTerminal?
    ensures LogAfter(s.agent, SavedBy(s, step), NumberedBy(s, step), Apply(s, step).agent)
    ensures step == SaveStart(false) ==> Apply(s, step).agent.staged == s.agent.staged - {s.pc.e}
    ensures step.SaveEmitted? ==> Apply(s, step).agent.staged == s.agent.staged - {step.e}
    ensures step.SaveTerminal? ==> Apply(s, step).agent.staged == s.agent.staged - {s.execs[step.runId].phase.e}
  {
    hide A.Valid, IsUsageKind, Blank, AfterSave, SavedAcks, L.ProjectRunState;
    var e := match step case SaveStart(_) => s.pc.e case SaveEmitted(e, _) => e case SaveTerminal(r, _) => s.execs[r].phase.e;
    SaveKeepsValid(s.agent, e, step.ok);
    if step == SaveStart(false) {
      AcksKeepValid(AfterSave(s.agent, e, false), Apply(s, step).agent.db.acks);
    }
  }

  lemma ReceiveOnLog(s: System, step: Step)
    requires A.Valid(s.agent) && Enabled(s, step) && step.Receive?
    ensures A.Valid(Apply(s, step).agent) && Apply(s, step).agent.staged == s.agent.staged
    ensures Apply(s, step).agent.db.events == s.agent.db.events && Apply(s, step).agent.db.runs == s.agent.db.runs
  {
    hide A.Valid, Apply, Enabled, Admits, Stops, Answers;
    ReceiveOutcome(s, step);
    AcksKeepValid(s.agent, Apply(s, step).agent.db.acks);
  }

  lemma StepOnLog(s: System, step: Step)
    requires A.Valid(s.agent) && OwnStaged(s) && Enabled(s, step) && !step.Restart?
    ensures LogAfter(s.agent, SavedBy(s, step), NumberedBy(s, step), Apply(s, step).agent)
  {
    hide A.Valid, IsUsageKind, A.FreshId, ApplySessionUpdate, ApplyReceive, SavedAcks, OwnStaged, A.Restarts, A.Number,
      AfterSave, BeginApproval, Decide, EndApproval, SetState;
    match step
    case Receive(_, _, _, _) => ReceiveOnLog(s, step);
    case NumberStart(_, _) => NumberStepsOnLog(s, step);
    case EmitEvent(_, _) => NumberStepsOnLog(s, step);
    case EndRuntime(_, _, _, _) => NumberStepsOnLog(s, step);
    case SaveStart(_) => SaveStepsOnLog(s, step);
    case SaveEmitted(_, _) => SaveStepsOnLog(s, step);
    case SaveTerminal(_, _) => SaveStepsOnLog(s, step);
    case AnswerStart(_) => AcksKeepValid(s.agent, Apply(s, step).agent.db.acks);
    case CancelStop => AcksKeepValid(s.agent, Apply(s, step).agent.db.acks);
    case _ =>
  }

  lemma NumberStepsKeepOwnStaged(s: System, step: Step)
    requires A.Valid(s.agent) && OwnStaged(s) && Enabled(s, step)
    requires step.NumberStart? || step.EmitEvent? || step.EndRuntime?
    requires SlotsValid(s)
    ensures OwnStaged(Apply(s, step))
  {
    hide A.Valid, IsUsageKind, Blank, ApplySessionUpdate, A.Number;
    NumberStepsOnLog(s, step);
    M.StartedIsNotUsage();
    if step.EndRuntime? {
      M.TerminalIsNotUsage(TerminalKind(s, step.runId, step.ending));
    }
  }

  lemma SaveStepsKeepOwnStaged(s: System, step: Step)
    requires A.Valid(s.agent) && OwnStaged(s) && Enabled(s, step)
    requires step.SaveStart? || step.SaveEmitted? || step.SaveTerminal?
    ensures OwnStaged(Apply(s, step))
  {
    hide A.Valid, IsUsageKind, Blank, AfterSave, SavedAcks, L.ProjectRunState;
    SaveStepsOnLog(s, step);
  }

  lemma ReceiveKeepsOwnStaged(s: System, step: Step)
    requires A.Valid(s.agent) && OwnStaged(s) && Enabled(s, step) && step.Receive?
    ensures OwnStaged(Apply(s, step))
  {
    hide A.Valid, Apply, Enabled, Admit, Known, StartRun, MarkStopping;
    ReceiveOutcome(s, step);
  }

  lemma StepKeepsOwnStaged(s: System, step: Step)
    requires A.Valid(s.agent) && SlotsValid(s) && OwnStaged(s) && Enabled(s, step)
    ensures OwnStaged(Apply(s, step))
  {
    hide A.Valid, SlotsValid, IsUsageKind, A.FreshId, ApplySessionUpdate, ApplyReceive, SavedAcks, A.Restarts, A.Number,
      AfterSave, BeginApproval, Decide, EndApproval, SetState;
    match step
    case Receive(_, _, _, _) => ReceiveKeepsOwnStaged(s, step);
    case NumberStart(_, _) => NumberStepsKeepOwnStaged(s, step);
    case EmitEvent(_, _) => NumberStepsKeepOwnStaged(s, step);
    case EndRuntime(_, _, _, _) => NumberStepsKeepOwnStaged(s, step);
    case SaveStart(_) => SaveStepsKeepOwnStaged(s, step);
    case SaveEmitted(_, _) => SaveStepsKeepOwnStaged(s, step);
    case SaveTerminal(_, _) => SaveStepsKeepOwnStaged(s, step);
    case _ =>
  }

  // ----- a run's local row follows its log -----

  predicate IsEndOf(e: RunEvent, r: string) {
    e.runId == r && IsTerminalKind(e.kind)
  }

  /** The row of a run is final exactly when a terminal event of the run is in the log, and open otherwise. */
  ghost predicate StatusValid(db: L.Local) {
    && (forall r :: r in db.runs ==> !Blank(r) && (L.IsOpenStatus(db.runs[r].status) || L.IsFinalStatus(db.runs[r].status)))
    && (forall r :: r in db.runs && L.IsFinalStatus(db.runs[r].status) ==> Ended(db.events, r))
    && (forall id | id in db.events && !Blank(db.events[id].event.runId) ::
      var e := db.events[id].event;
      && (IsLifecycleKind(e.kind) ==> e.runId in db.runs)
      && (IsTerminalKind(e.kind) ==> L.IsFinalStatus(db.runs[e.runId].status)))
  }

  ghost predicate Ended(events: map<string, L.OutboxRow>, r: string) {
    exists id :: id in events && IsEndOf(events[id].event, r)
  }

  lemma StatusOfEvent(e: RunEvent)
    ensures IsTerminalKind(e.kind) <==> L.IsFinalStatus(L.RunStatusOf(e))
    ensures L.RunStatusOf(e) != "" ==> L.IsOpenStatus(L.RunStatusOf(e)) || L.IsFinalStatus(L.RunStatusOf(e))
    ensures IsLifecycleKind(e.kind) ==> L.RunStatusOf(e) != ""
  {
    hide EqualFoldAscii, Contains, PayloadString, EventReason;
  }

  lemma EndedExtends(events: map<string, L.OutboxRow>, id: string, row: L.OutboxRow, r: string)
    requires id !in events
    ensures Ended(events[id := row], r) <==> Ended(events, r) || IsEndOf(row.event, r)
  {
    if IsEndOf(row.event, r) {
      assert events[id := row][id] == row;
    }
    if Ended(events, r) {
      var k :| k in events && IsEndOf(events[k].event, r);
      assert events[id := row][k] == events[k];
    }
  }

  /** A final status stays unless another final one comes. */
  function KeptStatus(runs: map<string, L.RunRow>, r: string, status: string): string {
    if r in runs && L.IsFinalStatus(runs[r].status) && !L.IsFinalStatus(status) then runs[r].status else status
  }

  /** What saving an event does to the local rows. */
  lemma ProjectEffect(runs: map<string, L.RunRow>, e: RunEvent)
    ensures var runs', status := L.ProjectRunState(runs, e), L.RunStatusOf(e);
      && (forall r :: r in runs ==> r in runs' && (r != e.runId ==> runs'[r] == runs[r]))
      && (forall r :: r in runs' ==> r in runs || r == e.runId)
      && (Blank(e.runId) || status == "" ==> runs' == runs)
      && (!Blank(e.runId) && status != "" ==> e.runId in runs')
      && (!Blank(e.runId) && status != "" ==>
        runs'[e.runId].status == KeptStatus(runs, e.runId, status))
  {
    hide L.RunStatusOf, TrimSpace, L.IsFinalStatus;
  }

  lemma EndedAfterSaving(events: map<string, L.OutboxRow>, e: RunEvent, events': map<string, L.OutboxRow>)
    requires e.eventId !in events && events' == events[e.eventId := L.OutboxRow(e, false, 0, false, false)]
    ensures forall r :: Ended(events', r) <==> Ended(events, r) || IsEndOf(e, r)
  {
    hide Ended;
    forall r
      ensures Ended(events', r) <==> Ended(events, r) || IsEndOf(e, r)
    {
      EndedExtends(events, e.eventId, L.OutboxRow(e, false, 0, false, false), r);
    }
  }

  /** Saving any new event keeps it so: in particular a final row never becomes open again. */
  lemma SavingKeepsStatus(db: L.Local, e: RunEvent, db': L.Local)
    requires StatusValid(db) && e.eventId !in db.events
    requires db'.events == db.events[e.eventId := L.OutboxRow(e, false, 0, false, false)]
    requires db'.runs == L.ProjectRunState(db.runs, e)
    ensures StatusValid(db')
    ensures forall r :: r in db.runs ==> r in db'.runs
    ensures forall r :: r in db.runs && L.IsFinalStatus(db.runs[r].status) ==> L.IsFinalStatus(db'.runs[r].status)
    ensures forall r :: r in db.runs && r != e.runId ==> db'.runs[r] == db.runs[r]
  {
    hide L.RunStatusOf, Blank, IsTerminalKind, Ended, L.ProjectRunState, L.IsOpenStatus;
    StatusOfEvent(e);
    ProjectEffect(db.runs, e);
    EndedAfterSaving(db.events, e, db'.events);
  }

  lemma InterruptEventCloses(runs: map<string, L.RunRow>, runId: string, run: L.RunRow, seqNo: nat, id: string, at: int)
    requires runId in runs && !Blank(runId)
    ensures var e := L.InterruptEvent(runId, run, seqNo, id, at);
      && L.ProjectRunState(runs, e).Keys == runs.Keys
      && L.IsFinalStatus(L.ProjectRunState(runs, e)[runId].status)
      && forall r :: r in runs && r != runId ==> L.ProjectRunState(runs, e)[r] == runs[r]
  {
    hide TrimSpace, EqualFoldAscii, Contains, PayloadString, EventReason;
    StatusOfEvent(L.InterruptEvent(runId, run, seqNo, id, at));
  }

  predicate Distinct(order: seq<string>) {
    forall i, j :: 0 <= i < j < |order| ==> order[i] != order[j]
  }

  /** One closing. */
  lemma CloseOne(prev: L.Local, runId: string, run: L.RunRow, seqNo: nat, id: string, at: int, issued: set<string>)
    requires StatusValid(prev) && runId in prev.runs && seqNo > 0
    requires !Blank(id) && id in issued && id !in prev.events && A.Bounded(prev.events, seqNo - 1)
    ensures var next := L.SaveEvent(prev, L.InterruptEvent(runId, run, seqNo, id, at)).local;
      && StatusValid(next) && next.runs.Keys == prev.runs.Keys && L.IsFinalStatus(next.runs[runId].status)
      && forall r :: r in prev.runs && r != runId ==> next.runs[r] == prev.runs[r]
  {
    hide L.SaveEvent, IsUsageKind, L.ProjectRunState, Blank, L.InterruptEvent, StatusValid, L.IsFinalStatus;
    var e := L.InterruptEvent(runId, run, seqNo, id, at);
    A.InterruptEventValid(runId, run, seqNo, id, at, issued);
    SaveNewClosing(prev, e, seqNo - 1, 1, issued);
    SavingKeepsStatus(prev, e, L.SaveEvent(prev, e).local);
    RunIdsAreNotBlank(prev, runId);
    InterruptEventCloses(prev.runs, runId, run, seqNo, id, at);
  }

  /** The first `n` runs are closed. */
  ghost predicate ClosedUpTo(runs: map<string, L.RunRow>, order: seq<string>, n: nat, runs': map<string, L.RunRow>)
    requires n <= |order|
  {
    && runs'.Keys == runs.Keys
    && (forall i :: 0 <= i < n ==> order[i] in runs' && L.IsFinalStatus(runs'[order[i]].status))
    && (forall r :: r in runs && r !in order[..n] ==> runs'[r] == runs[r])
  }

  lemma CloseNext(runs: map<string, L.RunRow>, order: seq<string>, n: nat, prev: map<string, L.RunRow>, next: map<string, L.RunRow>)
    requires n < |order| && order[n] in runs && ClosedUpTo(runs, order, n, prev)
    requires next.Keys == prev.Keys && L.IsFinalStatus(next[order[n]].status)
    requires forall r :: r in prev && r != order[n] ==> next[r] == prev[r]
    requires order[n] !in order[..n]
    ensures ClosedUpTo(runs, order, n + 1, next)
  {
    hide L.IsFinalStatus;
    assert order[..n + 1] == order[..n] + [order[n]];
    assert forall i :: 0 <= i < n ==> order[i] in order[..n];
  }

  /** After the first `n` closings those runs are final and the others are as they were. */
  lemma {:induction false} ClosingKeepsStatus(db: L.Local, order: seq<string>, ids: seq<string>, last: nat, at: int,
                                              n: nat, issued: set<string>)
    requires n <= |order| <= |ids| && Distinct(order) && (forall r :: r in order ==> r in db.runs) && StatusValid(db)
    requires A.RowsValid(db.events, issued) && A.Bounded(db.events, last) && A.Unused(ids, db.events)
    requires forall id :: id in ids ==> id in issued
    ensures var db' := L.Reconcile(db, order, ids, last, at, n);
      StatusValid(db') && ClosedUpTo(db.runs, order, n, db'.runs)
  {
    hide L.SaveEvent, Blank, L.InterruptEvent, StatusValid, A.RowsValid, L.IsFinalStatus, A.ClosedRows, A.Bounded, ClosedUpTo;
    if n > 0 {
      var m := n - 1;
      ClosingKeepsStatus(db, order, ids, last, at, m, issued);
      A.ReconcileSaves(db, order, ids, last, at, m, issued);
      assert ids[m] in ids && order[m] in order && order[m] !in order[..m] && !Blank(ids[m]);
      var prev := L.Reconcile(db, order, ids, last, at, m);
      ClosedRunIsThere(db.runs, order, m, prev.runs);
      CloseOne(prev, order[m], L.RowOf(db.runs, order[m]), last + n, ids[m], at, issued);
      CloseNext(db.runs, order, m, prev.runs, L.Reconcile(db, order, ids, last, at, n).runs);
    } else {
      NoneClosed(db.runs, order);
    }
  }

  lemma NoneClosed(runs: map<string, L.RunRow>, order: seq<string>)
    ensures ClosedUpTo(runs, order, 0, runs)
  {
  }

  lemma ClosedRunIsThere(runs: map<string, L.RunRow>, order: seq<string>, n: nat, runs': map<string, L.RunRow>)
    requires n < |order| && order[n] in runs && ClosedUpTo(runs, order, n, runs')
    ensures order[n] in runs'
  {
  }

  lemma RunIdsAreNotBlank(db: L.Local, r: string)
    requires StatusValid(db) && r in db.runs
    ensures !Blank(r)
  {
    hide Blank;
  }

  lemma SaveNewClosing(prev: L.Local, e: RunEvent, last: nat, n: nat, issued: set<string>)
    requires n > 0 && A.RowValid(e.eventId, e, issued) && e.eventId !in prev.events
    requires A.Bounded(prev.events, last + n - 1) && e.seqNo == last + n
    ensures L.SaveEvent(prev, e).local == L.Local(prev.events[e.eventId := L.OutboxRow(e, false, 0, false, false)],
      L.ProjectRunState(prev.runs, e), prev.acks)
  {
    hide IsUsageKind, L.ProjectRunState, Blank;
    A.SaveNew(prev, e);
  }

  /** What closing the open runs leaves: all final, what was final untouched, and one last event for each. */
  ghost predicate ClosedBy(db: L.Local, db': L.Local) {
    && StatusValid(db') && db'.acks == db.acks && db'.runs.Keys == db.runs.Keys
    && (forall r :: r in db'.runs ==> L.IsFinalStatus(db'.runs[r].status))
    && (forall r :: r in db.runs && L.IsFinalStatus(db.runs[r].status) ==> db'.runs[r] == db.runs[r])
    && (forall id :: id in db.events ==> id in db'.events && db'.events[id] == db.events[id])
    && (forall id | id in db'.events && id !in db.events ::
      var e := db'.events[id].event;
      && e.kind == "run.error" && L.IsOpenRun(db.runs, e.runId)
      && (forall k :: k in db.events ==> db.events[k].event.seqNo < e.seqNo)
      && (forall k :: k in db'.events && k !in db.events && db'.events[k].event.runId == e.runId ==> k == id))
  }

  /** Once every open run is closed, all are final and the final ones are as they were. */
  lemma ClosedRunsAreFinal(runs: map<string, L.RunRow>, order: seq<string>, runs': map<string, L.RunRow>)
    requires L.ListsOpenRuns(runs, order) && ClosedUpTo(runs, order, |order|, runs')
    requires forall r :: r in runs ==> L.IsOpenStatus(runs[r].status) || L.IsFinalStatus(runs[r].status)
    ensures forall r :: r in runs' ==> L.IsFinalStatus(runs'[r].status)
    ensures forall r :: r in runs && L.IsFinalStatus(runs[r].status) ==> runs'[r] == runs[r]
  {
    hide L.IsFinalStatus, L.IsOpenStatus;
    assert order[..|order|] == order;
    forall r | r in runs
      ensures L.IsFinalStatus(runs'[r].status)
      ensures L.IsFinalStatus(runs[r].status) ==> runs'[r] == runs[r]
    {
      OpenIsNotFinal(runs[r].status);
      assert r in order <==> L.IsOpenRun(runs, r);
      if r in order {
        var i :| 0 <= i < |order| && order[i] == r;
      }
    }
  }

  lemma ClosingEventsAreLast(db: L.Local, order: seq<string>, ids: seq<string>, last: nat, at: int,
                             rows: map<string, L.OutboxRow>)
    requires |order| <= |ids| && L.ListsOpenRuns(db.runs, order) && A.Bounded(db.events, last)
    requires A.HoldsClosings(rows, db, order, ids, last, at, |order|)
    ensures forall id | id in rows && id !in db.events ::
      var e := rows[id].event;
      && e.kind == "run.error" && L.IsOpenRun(db.runs, e.runId)
      && (forall k :: k in db.events ==> db.events[k].event.seqNo < e.seqNo)
      && (forall k :: k in rows && k !in db.events && rows[k].event.runId == e.runId ==> k == id)
  {
    hide L.IsOpenRun;
    forall id | id in rows && id !in db.events
      ensures exists i :: 0 <= i < |order| && ids[i] == id && rows[id] == A.ClosingRow(db, order, ids, last, at, i)
    {
      var i :| 0 <= i < |order| && ids[i] == id;
      assert rows[ids[i]] == A.ClosingRow(db, order, ids, last, at, i);
    }
    assert forall i :: 0 <= i < |order| ==> order[i] in order;
  }

  lemma ReconcileCloses(db: L.Local, order: seq<string>, ids: seq<string>, last: nat, at: int, issued: set<string>)
    requires |order| <= |ids| && L.ListsOpenRuns(db.runs, order) && StatusValid(db)
    requires A.RowsValid(db.events, issued) && A.Bounded(db.events, last) && A.Unused(ids, db.events)
    requires forall id :: id in ids ==> id in issued
    ensures ClosedBy(db, L.Reconcile(db, order, ids, last, at, |order|))
  {
    hide L.Reconcile, StatusValid, A.RowsValid, L.IsFinalStatus, A.ClosedRows, L.IsOpenStatus, A.Unused, A.Bounded,
      ClosedUpTo;
    var db' := L.Reconcile(db, order, ids, last, at, |order|);
    A.ReconcileSaves(db, order, ids, last, at, |order|, issued);
    A.ClosedRowsHold(db, order, ids, last, at, |order|);
    ClosingEventsAreLast(db, order, ids, last, at, db'.events);
    ClosingKeepsStatus(db, order, ids, last, at, |order|, issued);
    RowsAreOpenOrFinal(db);
    ClosedRunsAreFinal(db.runs, order, db'.runs);
    SameKeysClosed(db.runs, order, db'.runs);
  }

  lemma SameKeysClosed(runs: map<string, L.RunRow>, order: seq<string>, runs': map<string, L.RunRow>)
    requires ClosedUpTo(runs, order, |order|, runs')
    ensures runs'.Keys == runs.Keys
  {
  }

  lemma OpenIsNotFinal(status: string)
    ensures !(L.IsOpenStatus(status) && L.IsFinalStatus(status))
  {
  }

  /** A restart closes every run that was open, each with one event after all others, and leaves none open. */
  lemma RestartCloses(s: System, step: Step)
    requires A.Valid(s.agent) && StatusValid(s.agent.db) && step.Restart? && Enabled(s, step)
    ensures A.Valid(Apply(s, step).agent) && ClosedBy(s.agent.db, Apply(s, step).agent.db)
  {
    hide L.Reconcile, IsUsageKind, Blank, StatusValid, A.RowsValid, ClosedBy, L.ListsOpenRuns;
    var order, ids, at, a, a' := step.order, step.ids, step.at, s.agent, step.restarted;
    var last: nat :| L.IsLastSeq(a.db.events, last)
        && a'.db == L.Reconcile(a.db, order, ids, last, at, |order|)
        && L.IsLastSeq(a'.db.events, a'.seqNo)
        && a'.staged == {} && a'.issued == a.issued + (set id | id in ids);
    A.RestartKeepsValid(a, order, ids, at, a');
    A.RowsStayValid(a.db.events, a.issued, a'.issued);
    ReconcileCloses(a.db, order, ids, last, at, a'.issued);
  }

  lemma RowsAreOpenOrFinal(db: L.Local)
    requires StatusValid(db)
    ensures forall r :: r in db.runs ==> L.IsOpenStatus(db.runs[r].status) || L.IsFinalStatus(db.runs[r].status)
  {
    hide Blank;
  }

  // ----- every run begins with its start -----

  ghost predicate NotBefore(s: System, e: RunEvent) {
    && e.runId in s.first && s.first[e.runId] in s.agent.db.events
    && s.agent.db.events[s.first[e.runId]].event.seqNo <= e.seqNo
  }

  ghost predicate FirstValid(s: System) {
    && (forall r | r in s.first ::
      && r != "" && s.first[r] in s.agent.db.events
      && s.agent.db.events[s.first[r]].event.runId == r && s.agent.db.events[s.first[r]].event.kind == "run.started")
    && (forall id :: id in s.agent.db.events && s.agent.db.events[id].event.runId != "" ==>
      NotBefore(s, s.agent.db.events[id].event))
    && (forall e :: e in s.agent.staged && e.runId != "" ==>
      NotBefore(s, e) || (s.pc.AtSave? && e == s.pc.e && e.runId !in s.first))
    && (forall r :: r in s.execs || r in s.agent.db.runs ==> r in s.first)
    && (s.pc.AtAnswer? || s.pc.AtLaunch? ==> s.pc.c.runId in s.first)
  }

  /** One more numbered event. */
  lemma NumberingKeepsFirst(s: System, e: RunEvent, s': System)
    requires FirstValid(s) && s'.first == s.first && s'.agent.db == s.agent.db && s'.execs.Keys == s.execs.Keys
    requires forall x :: x in s'.agent.staged ==> x in s.agent.staged || x == e
    requires e.runId == "" || NotBefore(s, e) || (s'.pc.AtSave? && e == s'.pc.e && e.runId !in s.first)
    requires s'.pc == s.pc || (s.pc.AtNumber? && s'.pc.AtSave?)
    ensures FirstValid(s')
  {
    assert forall x :: NotBefore(s', x) <==> NotBefore(s, x);
  }

  /** A run that has started numbers its events after its start. */
  lemma StartedIsNotBefore(s: System, e: RunEvent)
    requires FirstValid(s) && e.runId in s.first
    requires forall id :: id in s.agent.db.events ==> s.agent.db.events[id].event.seqNo < e.seqNo
    ensures NotBefore(s, e)
  {
  }

  lemma NumberStepsKeepFirst(s: System, step: Step)
    requires A.Valid(s.agent) && SlotsValid(s) && FirstValid(s) && Enabled(s, step)
    requires step.NumberStart? || step.EmitEvent? || step.EndRuntime?
    ensures FirstValid(Apply(s, step))
  {
    hide A.Valid, IsUsageKind, Blank, ApplySessionUpdate, A.Number, SlotsValid, FirstValid;
    NumberStepsOnLog(s, step);
    var s', e := Apply(s, step), NumberedBy(s, step).value;
    if step.EndRuntime? {
      ExecRunId(s, step.runId);
      ExecsStarted(s, step.runId);
    }
    if e.runId in s.first {
      StartedIsNotBefore(s, e);
    }
    NumberingKeepsFirst(s, e, s');
  }

  lemma ExecsStarted(s: System, r: string)
    requires FirstValid(s) && r in s.execs
    ensures r in s.first
  {
  }

  lemma ExecRunId(s: System, r: string)
    requires SlotsValid(s) && r in s.execs
    ensures s.execs[r].command.runId == r && r in s.proc.active
  {
  }

  ghost predicate Appends(a: A.Agent, e: RunEvent, a': A.Agent) {
    && e in a.staged && e.eventId !in a.db.events && a'.staged == a.staged - {e}
    && a'.db.events == a.db.events[e.eventId := L.OutboxRow(e, false, 0, false, false)]
    && a'.db.runs == L.ProjectRunState(a.db.runs, e)
  }

  lemma SaveAppends(s: System, step: Step)
    requires A.Valid(s.agent) && OwnStaged(s) && Enabled(s, step) && SavedBy(s, step).Some?
    ensures Appends(s.agent, SavedBy(s, step).value, Apply(s, step).agent)
  {
    hide A.Valid, OwnStaged, IsUsageKind, Blank, AfterSave, SavedAcks, L.ProjectRunState;
    SaveStepsOnLog(s, step);
  }

  lemma ProjectAddsOnly(runs: map<string, L.RunRow>, e: RunEvent)
    ensures forall r :: r in L.ProjectRunState(runs, e) ==> r in runs || (r == e.runId && r != "")
  {
    hide L.RunStatusOf;
    BlankEmpty();
  }

  /** An event saved by a run that has started. */
  lemma AppendKeepsFirst(s: System, e: RunEvent, s': System)
    requires FirstValid(s) && Appends(s.agent, e, s'.agent) && s'.first == s.first
    requires e.runId == "" || NotBefore(s, e)
    requires s'.execs.Keys == s.execs.Keys
    requires if s.pc.AtSave? && e == s.pc.e then s'.pc.AtAnswer? && s'.pc.c == s.pc.c && s.pc.c.runId in s.first
      else s'.pc == s.pc
    ensures FirstValid(s')
  {
    hide L.ProjectRunState;
    ProjectAddsOnly(s.agent.db.runs, e);
    assert forall x :: NotBefore(s, x) ==> NotBefore(s', x);
  }

  /** The first event of a run. */
  lemma FirstEventKeepsFirst(s: System, e: RunEvent, s': System)
    requires FirstValid(s) && Appends(s.agent, e, s'.agent) && e.kind == "run.started" && e.runId != "" && e.runId !in s.first
    requires s'.first == s.first[e.runId := e.eventId] && s'.execs == s.execs
    requires s.pc.AtSave? && s.pc.e == e && s'.pc == AtAnswer(s.pc.c) && s.pc.c.runId == e.runId
    ensures FirstValid(s')
  {
    hide L.ProjectRunState;
    ProjectAddsOnly(s.agent.db.runs, e);
    assert forall x :: NotBefore(s, x) ==> NotBefore(s', x);
    assert NotBefore(s', e);
  }

  lemma FirstStartKeepsFirst(s: System)
    requires FirstValid(s) && OwnStaged(s) && SlotsValid(s) && Enabled(s, SaveStart(true))
    requires s.pc.c.runId !in s.first && Appends(s.agent, s.pc.e, Apply(s, SaveStart(true)).agent)
    ensures FirstValid(Apply(s, SaveStart(true)))
  {
    hide L.ProjectRunState, AfterSave, FirstValid, Appends;
    FirstEventKeepsFirst(s, s.pc.e, Apply(s, SaveStart(true)));
  }

  lemma SavedEventsKeepFirst(s: System, step: Step)
    requires A.Valid(s.agent) && SlotsValid(s) && OwnStaged(s) && FirstValid(s) && Enabled(s, step)
    requires SavedBy(s, step).Some?
    ensures FirstValid(Apply(s, step))
  {
    hide A.Valid, IsUsageKind, Blank, AfterSave, L.ProjectRunState, Appends, FirstValid;
    SaveAppends(s, step);
    var e := SavedBy(s, step).value;
    StagedNotBefore(s, e);
    if step.SaveStart? && s.pc.c.runId !in s.first {
      FirstStartKeepsFirst(s);
    } else {
      AppendKeepsFirst(s, e, Apply(s, step));
    }
  }

  lemma StagedNotBefore(s: System, e: RunEvent)
    requires FirstValid(s) && e in s.agent.staged
    ensures e.runId == "" || NotBefore(s, e) || (s.pc.AtSave? && e == s.pc.e && e.runId !in s.first)
  {
  }

  /** An event that is lost, or a start that is refused. */
  lemma LosingKeepsFirst(s: System, e: RunEvent, s': System)
    requires FirstValid(s) && s'.first == s.first && s'.execs.Keys == s.execs.Keys
    requires s'.agent.db.events == s.agent.db.events && s'.agent.db.runs == s.agent.db.runs
    requires s'.agent.staged == s.agent.staged - {e}
    requires s'.pc == s.pc || (s'.pc == Idle && s.pc.AtSave? && s.pc.e == e)
    ensures FirstValid(s')
  {
    assert forall x :: NotBefore(s, x) <==> NotBefore(s', x);
  }

  lemma LostEventsKeepFirst(s: System, step: Step)
    requires A.Valid(s.agent) && OwnStaged(s) && FirstValid(s) && Enabled(s, step) && SavedBy(s, step).None?
    requires step.SaveStart? || step.SaveEmitted? || step.SaveTerminal?
    ensures FirstValid(Apply(s, step))
  {
    hide A.Valid, IsUsageKind, Blank, AfterSave, SavedAcks, L.ProjectRunState, Answer, FirstValid, OwnStaged;
    SaveStepsOnLog(s, step);
    if step.SaveStart? {
      RefusedStart(s);
      LosingKeepsFirst(s, s.pc.e, Apply(s, step));
    } else if step.SaveEmitted? {
      LosingKeepsFirst(s, step.e, Apply(s, step));
    } else {
      LosingKeepsFirst(s, s.execs[step.runId].phase.e, Apply(s, step));
    }
  }

  /** A start whose event cannot be saved gives its slot back. */
  lemma RefusedStart(s: System)
    requires Enabled(s, SaveStart(false))
    ensures var s' := Apply(s, SaveStart(false));
      && s'.first == s.first && s'.execs == s.execs && s'.pc == Idle && s'.torn == s.torn
      && s'.agent.db.events == s.agent.db.events && s'.agent.db.runs == s.agent.db.runs
      && s'.proc.active == s.proc.active - {s.pc.c.runId} && s'.owner == s.owner
      && s'.agent.db.acks.Keys >= s.agent.db.acks.Keys
  {
  }

  /** A step that leaves the log and the waiting events alone. */
  ghost predicate Quiet(s: System, s': System) {
    && s'.first == s.first && s'.agent.staged == s.agent.staged
    && s'.agent.db.events == s.agent.db.events && s'.agent.db.runs == s.agent.db.runs
    && (forall r :: r in s'.execs && r !in s.execs ==> s.pc.AtLaunch? && s.pc.c.runId == r)
    && (s'.pc.AtAnswer? || s'.pc.AtLaunch? ==> s'.pc == s.pc || (s.pc.AtAnswer? && s'.pc.c == s.pc.c))
    && (s.pc.AtSave? || s'.pc.AtSave? ==> s'.pc == s.pc)
  }

  predicate IsQuiet(step: Step) {
    match step
    case Receive(_, _, _, _) => true
    case AnswerStart(_) => true
    case Launch => true
    case CancelStop => true
    case Begin(_) => true
    case Close(_) => true
    case AskApproval(_, _) => true
    case DecideApproval(_, _, _) => true
    case LeaveApproval(_, _) => true
    case _ => false
  }

  lemma QuietSteps(s: System, step: Step)
    requires A.Valid(s.agent) && Enabled(s, step) && IsQuiet(step)
    ensures Quiet(s, Apply(s, step))
  {
    hide A.Valid, Blank, ApplyReceive, SavedAcks, BeginApproval, Decide, EndApproval, SetState, CommandAck, IsStopTarget,
      Quiet;
    match step
    case Receive(_, _, _, _) => ReceiveIsQuiet(s, step);
    case _ => OtherIsQuiet(s, step);
  }

  lemma ReceiveIsQuiet(s: System, step: Step)
    requires A.Valid(s.agent) && Enabled(s, step) && step.Receive?
    ensures Quiet(s, Apply(s, step))
  {
    hide A.Valid, Apply, Enabled, Admit, Known, StartRun, MarkStopping;
    ReceiveOutcome(s, step);
  }

  lemma OtherIsQuiet(s: System, step: Step)
    requires Enabled(s, step) && IsQuiet(step) && !step.Receive?
    ensures Quiet(s, Apply(s, step))
  {
    hide Quiet, Apply, Enabled;
    if step.AnswerStart? || step.Launch? || step.CancelStop? {
      AnswersAreQuiet(s, step);
    } else {
      RunStepsAreQuiet(s, step);
    }
  }

  lemma AnswersAreQuiet(s: System, step: Step)
    requires Enabled(s, step) && (step.AnswerStart? || step.Launch? || step.CancelStop?)
    ensures Quiet(s, Apply(s, step))
  {
    hide Blank, SavedAcks, CommandAck;
  }

  lemma RunStepsAreQuiet(s: System, step: Step)
    requires Enabled(s, step) && IsQuiet(step) && !step.Receive?
    requires !step.AnswerStart? && !step.Launch? && !step.CancelStop?
    ensures Quiet(s, Apply(s, step))
  {
    hide BeginApproval, Decide, EndApproval, SetState;
  }

  lemma QuietStepsKeepFirst(s: System, step: Step)
    requires A.Valid(s.agent) && FirstValid(s) && Enabled(s, step) && IsQuiet(step)
    ensures FirstValid(Apply(s, step))
  {
    hide A.Valid, Apply, Enabled;
    QuietSteps(s, step);
    var s' := Apply(s, step);
    assert forall x :: NotBefore(s, x) <==> NotBefore(s', x);
  }

  lemma ClosingKeepsFirst(s: System, s': System)
    requires FirstValid(s) && s'.first == s.first && s'.execs == map[] && s'.agent.staged == {} && s'.pc == Idle
    requires ClosedBy(s.agent.db, s'.agent.db)
    ensures FirstValid(s')
  {
    hide StatusValid, L.IsFinalStatus, L.IsOpenStatus;
    assert forall x :: NotBefore(s, x) ==> NotBefore(s', x);
    forall id | id in s'.agent.db.events && id !in s.agent.db.events
      ensures NotBefore(s', s'.agent.db.events[id].event)
    {
      assert L.IsOpenRun(s.agent.db.runs, s'.agent.db.events[id].event.runId);
    }
  }

  lemma RestartKeepsFirst(s: System, step: Step)
    requires A.Valid(s.agent) && StatusValid(s.agent.db) && FirstValid(s) && step.Restart? && Enabled(s, step)
    ensures FirstValid(Apply(s, step))
  {
    hide A.Valid, StatusValid, FirstValid, ClosedBy, A.Restarts;
    RestartCloses(s, step);
    RestartStagesNothing(s, step);
    ClosingKeepsFirst(s, Apply(s, step));
  }

  lemma RestartStagesNothing(s: System, step: Step)
    requires step.Restart? && Enabled(s, step)
    ensures Apply(s, step).agent.staged == {}
  {
    hide L.Reconcile, L.ListsOpenRuns;
  }

  // ----- one start and at most one end -----

  predicate Answered(s: System, r: string) {
    r in s.owner && !Blank(s.owner[r]) && s.owner[r] in s.agent.db.acks
  }

  predicate IsClosing(s: System, r: string) {
    r in s.execs && s.execs[r].phase == Closing
  }

  /** A run with a start has an answered command, so it is never admitted again; only the torn ones are not. */
  ghost predicate OwnersValid(s: System) {
    && (IsStarting(s.pc) ==> s.pc.c.runId in s.owner && s.owner[s.pc.c.runId] == s.pc.c.commandId)
    && (forall r :: r in s.first && r !in s.torn ==> Answered(s, r) || (s.pc.AtAnswer? && s.pc.c.runId == r))
    && ((s.pc.AtNumber? || s.pc.AtSave?) && s.pc.c.runId in s.first ==> s.pc.c.runId in s.torn)
  }

  ghost predicate EndOnce(events: map<string, L.OutboxRow>, torn: set<string>) {
    forall id, id' | id in events && id' in events ::
      var e, e' := events[id].event, events[id'].event;
      IsTerminalKind(e.kind) && IsTerminalKind(e'.kind) && e.runId == e'.runId && e.runId !in torn ==> id == id'
  }

  ghost predicate StartOnce(events: map<string, L.OutboxRow>, first: map<string, string>, torn: set<string>) {
    forall id | id in events ::
      var e := events[id].event;
      e.kind == "run.started" && e.runId !in torn ==> e.runId in first && id == first[e.runId]
  }

  ghost predicate EndsValid(s: System) {
    && EndOnce(s.agent.db.events, s.torn) && StartOnce(s.agent.db.events, s.first, s.torn)
    && (forall r :: r in s.proc.active && r !in s.torn && !IsClosing(s, r) ==> !Ended(s.agent.db.events, r))
  }

  lemma ReceiveKeepsOwners(s: System, step: Step)
    requires OwnersValid(s) && SlotsValid(s) && step.Receive? && Enabled(s, step)
    ensures OwnersValid(Apply(s, step))
    ensures var s' := Apply(s, step);
      && (forall r :: r in s'.proc.active && r !in s.proc.active ==> r in s.torn || r !in s.first)
      && s'.execs == s.execs && s'.torn == s.torn
  {
    hide Apply, Enabled, Admit, Blank, SlotsValid;
    ReceiveOutcome(s, step);
  }

  lemma AnswersKeepOwners(s: System, step: Step)
    requires OwnersValid(s) && FirstValid(s) && Enabled(s, step)
    requires step.AnswerStart? || step.Launch? || step.CancelStop? || step == SaveStart(false)
    ensures OwnersValid(Apply(s, step))
  {
    hide AfterSave, Blank;
    if step == SaveStart(false) {
      RefusedStart(s);
    }
  }

  lemma SavedStartKeepsOwners(s: System)
    requires OwnersValid(s) && A.Valid(s.agent) && OwnStaged(s) && Enabled(s, SaveStart(true))
    ensures OwnersValid(Apply(s, SaveStart(true)))
  {
    hide A.Valid, OwnStaged, AfterSave, Blank, L.ProjectRunState;
    SaveStepsOnLog(s, SaveStart(true));
    SaveKeepsAcks(s.agent, s.pc.e, true);
  }

  /** A step that leaves the owners, the answers and the loop alone. */
  lemma RunStepsKeepOwners(s: System, step: Step)
    requires OwnersValid(s) && A.Valid(s.agent) && Enabled(s, step)
    requires step.NumberStart? || step.EmitEvent? || step.EndRuntime? || step.SaveEmitted? || step.SaveTerminal?
      || step.Begin? || step.Close? || step.AskApproval? || step.DecideApproval? || step.LeaveApproval?
    ensures OwnersValid(Apply(s, step))
  {
    hide A.Valid, Blank, AfterSave, A.FreshId, A.Stamp, IsUsageKind, ApplySessionUpdate, BeginApproval, Decide,
      EndApproval, SetState;
    if step.SaveEmitted? {
      SaveKeepsAcks(s.agent, step.e, step.ok);
    } else if step.SaveTerminal? {
      SaveKeepsAcks(s.agent, s.execs[step.runId].phase.e, step.ok);
    }
    var s' := Apply(s, step);
    assert s'.agent.db.acks == s.agent.db.acks && s'.first == s.first && s'.owner == s.owner && s'.torn == s.torn;
  }

  lemma RestartKeepsOwners(s: System, step: Step)
    requires OwnersValid(s) && A.Valid(s.agent) && StatusValid(s.agent.db) && step.Restart? && Enabled(s, step)
    ensures OwnersValid(Apply(s, step))
  {
    hide A.Valid, Blank, StatusValid, A.Restarts;
    RestartCloses(s, step);
  }

  lemma StepKeepsOwners(s: System, step: Step)
    requires OwnersValid(s) && A.Valid(s.agent) && StatusValid(s.agent.db) && SlotsValid(s) && FirstValid(s) && OwnStaged(s)
    requires Enabled(s, step)
    ensures OwnersValid(Apply(s, step))
  {
    hide OwnersValid, A.Valid, StatusValid, SlotsValid, FirstValid, OwnStaged, Enabled, Apply;
    match step
    case Receive(_, _, _, _) => ReceiveKeepsOwners(s, step);
    case AnswerStart(_) => AnswersKeepOwners(s, step);
    case Launch => AnswersKeepOwners(s, step);
    case CancelStop => AnswersKeepOwners(s, step);
    case SaveStart(ok) => if ok { SavedStartKeepsOwners(s); } else { AnswersKeepOwners(s, step); }
    case Restart(_, _, _, _) => RestartKeepsOwners(s, step);
    case _ => RunStepsKeepOwners(s, step);
  }

  /** Nothing was saved, and no run became active that had started before. */
  lemma UnsavedKeepsEnds(s: System, s': System)
    requires EndsValid(s) && FirstValid(s) && SlotsValid(s)
    requires s'.agent.db.events == s.agent.db.events && s'.first == s.first && s.torn <= s'.torn
    requires forall r :: r in s'.proc.active && r !in s.proc.active ==> r in s.torn || (r !in s.first && r != "")
    requires forall r :: r in s'.proc.active && r in s.proc.active && IsClosing(s, r) ==> IsClosing(s', r)
    ensures EndsValid(s')
  {
    hide SlotsValid;
    forall r | r in s'.proc.active && r !in s.proc.active && r !in s.torn
      ensures !Ended(s.agent.db.events, r)
    {
      assert forall id :: id in s.agent.db.events && s.agent.db.events[id].event.runId == r ==>
        NotBefore(s, s.agent.db.events[id].event);
    }
  }

  lemma LostAndNumberedKeepEnds(s: System, step: Step)
    requires EndsValid(s) && FirstValid(s) && SlotsValid(s) && A.Valid(s.agent) && OwnStaged(s) && Enabled(s, step)
    requires !IsQuiet(step) && !step.Restart? && SavedBy(s, step).None?
    ensures EndsValid(Apply(s, step))
  {
    hide EndsValid, FirstValid, SlotsValid, A.Valid, OwnStaged, AfterSave, A.FreshId, A.Number, A.Stamp,
      ApplySessionUpdate, Answer, IsUsageKind;
    StepOnLog(s, step);
    if step.SaveStart? {
      RefusedStart(s);
    } else if step.EmitEvent? {
      ManagerStepsKeepSlots(s, step);
    }
    UnsavedKeepsEnds(s, Apply(s, step));
  }

  lemma QuietStepsKeepEnds(s: System, step: Step)
    requires EndsValid(s) && FirstValid(s) && SlotsValid(s) && A.Valid(s.agent) && OwnersValid(s) && Enabled(s, step)
    requires IsQuiet(step) && SlotsValid(Apply(s, step))
    ensures EndsValid(Apply(s, step))
  {
    hide EndsValid, FirstValid, SlotsValid, A.Valid, OwnersValid, Quiet;
    QuietStepsAreQuiet(s, step);
    UnsavedKeepsEnds(s, Apply(s, step));
  }

  lemma QuietStepsAreQuiet(s: System, step: Step)
    requires SlotsValid(s) && A.Valid(s.agent) && OwnersValid(s) && Enabled(s, step)
    requires IsQuiet(step) && SlotsValid(Apply(s, step))
    ensures var s' := Apply(s, step);
      && s'.agent.db.events == s.agent.db.events && s'.first == s.first && s.torn <= s'.torn
      && (forall r :: r in s'.proc.active && r !in s.proc.active ==> r in s.torn || (r !in s.first && r != ""))
      && (forall r :: r in s'.proc.active && r in s.proc.active && IsClosing(s, r) ==> IsClosing(s', r))
  {
    hide A.Valid, Apply, Enabled, OwnersValid;
    QuietSteps(s, step);
    if step.Receive? {
      ReceiveKeepsOwners(s, step);
    } else {
      NoNewRuns(s, step);
    }
  }

  lemma NoNewRuns(s: System, step: Step)
    requires Enabled(s, step) && IsQuiet(step) && !step.Receive?
    ensures var s' := Apply(s, step);
      && s.torn <= s'.torn && s'.proc.active.Keys <= s.proc.active.Keys
      && (forall r :: r in s'.proc.active && IsClosing(s, r) ==> IsClosing(s', r) || (s.pc.AtLaunch? && s.pc.c.runId == r))
  {
    hide BeginApproval, Decide, EndApproval, SetState, Blank, SavedAcks, CommandAck;
    match step
    case Begin(_) => ManagerStepsKeepSlots(s, step);
    case AskApproval(_, _) => ManagerStepsKeepSlots(s, step);
    case DecideApproval(_, _, _) => ManagerStepsKeepSlots(s, step);
    case LeaveApproval(_, _) => ManagerStepsKeepSlots(s, step);
    case _ =>
  }

  lemma AppendKeepsOnce(s: System, e: RunEvent, events': map<string, L.OutboxRow>, first': map<string, string>)
    requires EndOnce(s.agent.db.events, s.torn) && StartOnce(s.agent.db.events, s.first, s.torn) && FirstValid(s)
    requires e.eventId !in s.agent.db.events
    requires events' == s.agent.db.events[e.eventId := L.OutboxRow(e, false, 0, false, false)]
    requires forall r :: r in s.first ==> r in first' && first'[r] == s.first[r]
    requires e.kind == "run.started" && e.runId !in s.torn ==>
      e.runId != "" && e.runId !in s.first && e.runId in first' && first'[e.runId] == e.eventId
    requires IsTerminalKind(e.kind) && e.runId !in s.torn ==> !Ended(s.agent.db.events, e.runId)
    ensures EndOnce(events', s.torn) && StartOnce(events', first', s.torn)
  {
    hide Ended;
    if IsTerminalKind(e.kind) && e.runId !in s.torn {
      NotEnded(s.agent.db.events, e.runId);
    }
    if e.kind == "run.started" && e.runId !in s.torn {
      assert forall id :: id in s.agent.db.events && s.agent.db.events[id].event.runId == e.runId ==>
        NotBefore(s, s.agent.db.events[id].event);
    }
  }

  /** One more event, of a run that had no terminal event if it is one. */
  lemma AppendKeepsEnds(s: System, e: RunEvent, s': System)
    requires EndsValid(s) && FirstValid(s) && Appends(s.agent, e, s'.agent)
    requires s'.torn == s.torn && s'.proc.active.Keys == s.proc.active.Keys
    requires forall r :: r in s.first ==> r in s'.first && s'.first[r] == s.first[r]
    requires e.kind == "run.started" && e.runId !in s.torn ==>
      e.runId != "" && e.runId !in s.first && e.runId in s'.first && s'.first[e.runId] == e.eventId
    requires IsTerminalKind(e.kind) && e.runId !in s.torn ==>
      !Ended(s.agent.db.events, e.runId) && (e.runId in s.proc.active ==> IsClosing(s', e.runId))
    requires forall r :: r in s'.proc.active && IsClosing(s, r) ==> IsClosing(s', r)
    ensures EndsValid(s')
  {
    hide L.ProjectRunState, Ended, FirstValid, EndOnce, StartOnce, IsClosing;
    EndedAfterSaving(s.agent.db.events, e, s'.agent.db.events);
    AppendKeepsOnce(s, e, s'.agent.db.events, s'.first);
  }

  lemma NotEnded(events: map<string, L.OutboxRow>, r: string)
    requires !Ended(events, r)
    ensures forall id :: id in events ==> !IsEndOf(events[id].event, r)
  {
  }

  lemma SavedEventsKeepEnds(s: System, step: Step)
    requires EndsValid(s) && FirstValid(s) && SlotsValid(s) && OwnersValid(s) && A.Valid(s.agent) && OwnStaged(s)
    requires Enabled(s, step) && SavedBy(s, step).Some?
    ensures EndsValid(Apply(s, step))
  {
    hide FirstValid, A.Valid, AfterSave, Appends, Ended, IsUsageKind;
    SaveAppends(s, step);
    AppendKeepsEnds(s, SavedBy(s, step).value, Apply(s, step));
  }

  lemma ClosingKeepsOnce(db: L.Local, db': L.Local, first: map<string, string>, torn: set<string>)
    requires EndOnce(db.events, torn) && StartOnce(db.events, first, torn) && StatusValid(db) && ClosedBy(db, db')
    ensures EndOnce(db'.events, torn) && StartOnce(db'.events, first, torn)
  {
    hide L.IsOpenStatus, L.IsFinalStatus, Blank, Ended;
    forall id | id in db'.events && id !in db.events
      ensures forall k :: k in db.events ==> !IsEndOf(db.events[k].event, db'.events[id].event.runId)
    {
      var r := db'.events[id].event.runId;
      OpenIsNotFinal(db.runs[r].status);
    }
    assert forall k :: k in db.events && IsTerminalKind(db.events[k].event.kind) ==>
      IsEndOf(db.events[k].event, db.events[k].event.runId);
  }

  lemma RestartKeepsEnds(s: System, step: Step)
    requires EndsValid(s) && A.Valid(s.agent) && StatusValid(s.agent.db) && step.Restart? && Enabled(s, step)
    ensures EndsValid(Apply(s, step))
  {
    hide A.Valid, A.Restarts, StatusValid, ClosedBy;
    RestartCloses(s, step);
    ClosingKeepsOnce(s.agent.db, Apply(s, step).agent.db, s.first, s.torn);
  }

  // ----- the invariant and the results -----

  ghost predicate Inv(s: System) {
    && A.Valid(s.agent) && LaunchValid(s) && SlotsValid(s) && OwnStaged(s) && StatusValid(s.agent.db)
    && FirstValid(s) && OwnersValid(s) && EndsValid(s)
  }

  lemma StepKeepsStatus(s: System, step: Step)
    requires A.Valid(s.agent) && OwnStaged(s) && StatusValid(s.agent.db) && Enabled(s, step)
    ensures A.Valid(Apply(s, step).agent) && StatusValid(Apply(s, step).agent.db)
    ensures forall r :: r in s.agent.db.runs && L.IsFinalStatus(s.agent.db.runs[r].status) ==>
      r in Apply(s, step).agent.db.runs && L.IsFinalStatus(Apply(s, step).agent.db.runs[r].status)
  {
    hide A.Valid, OwnStaged, Apply, Enabled, L.IsFinalStatus, L.IsOpenStatus, Blank, IsUsageKind, L.ProjectRunState;
    if step.Restart? {
      RestartCloses(s, step);
    } else {
      StepOnLog(s, step);
      var s' := Apply(s, step);
      if SavedBy(s, step).Some? {
        SavingKeepsStatus(s.agent.db, SavedBy(s, step).value, s'.agent.db);
      }
    }
  }

  lemma StepKeepsFirst(s: System, step: Step)
    requires A.Valid(s.agent) && SlotsValid(s) && OwnStaged(s) && StatusValid(s.agent.db) && FirstValid(s)
    requires Enabled(s, step)
    ensures FirstValid(Apply(s, step))
  {
    hide A.Valid, SlotsValid, OwnStaged, StatusValid, FirstValid, Apply, Enabled;
    if step.Restart? {
      RestartKeepsFirst(s, step);
    } else if IsQuiet(step) {
      QuietStepsKeepFirst(s, step);
    } else if SavedBy(s, step).Some? {
      SavedEventsKeepFirst(s, step);
    } else if step.NumberStart? || step.EmitEvent? || step.EndRuntime? {
      NumberStepsKeepFirst(s, step);
    } else {
      LostEventsKeepFirst(s, step);
    }
  }

  lemma StepKeepsEnds(s: System, step: Step)
    requires Inv(s) && Enabled(s, step) && SlotsValid(Apply(s, step))
    ensures EndsValid(Apply(s, step))
  {
    hide A.Valid, SlotsValid, OwnStaged, StatusValid, FirstValid, OwnersValid, EndsValid, LaunchValid, Apply, Enabled;
    if step.Restart? {
      RestartKeepsEnds(s, step);
    } else if IsQuiet(step) {
      QuietStepsKeepEnds(s, step);
    } else if SavedBy(s, step).Some? {
      SavedEventsKeepEnds(s, step);
    } else {
      LostAndNumberedKeepEnds(s, step);
    }
  }

  lemma StepKeepsInv(s: System, step: Step)
    requires Inv(s) && Enabled(s, step)
    ensures Inv(Apply(s, step))
  {
    hide A.Valid, SlotsValid, OwnStaged, StatusValid, FirstValid, OwnersValid, EndsValid, LaunchValid, Apply, Enabled;
    StepKeepsSlots(s, step);
    StepKeepsLaunchValid(s, step);
    StepKeepsOwnStaged(s, step);
    StepKeepsStatus(s, step);
    StepKeepsFirst(s, step);
    StepKeepsOwners(s, step);
    StepKeepsEnds(s, step);
  }

  lemma {:induction false} RunKeepsInv(s: System, steps: seq<Step>)
    requires Inv(s) && IsRun(s, steps)
    ensures Inv(Execute(s, steps))
    decreases |steps|
  {
    hide Inv, Enabled, Apply;
    if steps != [] {
      StepKeepsInv(s, steps[0]);
      RunKeepsInv(Apply(s, steps[0]), steps[1..]);
    }
  }

  lemma InitialInv(s: System)
    requires Initial(s)
    ensures Inv(s)
  {
    hide IsUsageKind, Blank;
  }
}
