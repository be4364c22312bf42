/** What holds of the run manager over every run of the concurrent machine. */
module RunSafety {
  import opened Text
  import opened Protocol
  import opened RunManager
  import opened RunSystem
  import opened RunTrace
  import M = Manager
  import L = LocalStore
  import A = AgentEvents

  /** Over all redeliveries, reconnects and crashes, including one between saving `run.started` and saving the
      answer, `execute` is launched at most once for each command id that is not blank and whose answer could be saved. */
  lemma AtMostOneLaunch(s: System, steps: seq<Step>, i: nat, j: nat)
    requires Initial(s) && IsRun(s, steps) && i < j < |Execute(s, steps).launches|
    requires Execute(s, steps).launches[i] == Execute(s, steps).launches[j]
    ensures Unstored(Execute(s, steps).launches[i], Execute(s, steps).unsaved)
  {
    hide Unstored, IsRun, Execute;
    InitialInv(s);
    RunKeepsInv(s, steps);
  }

  // ----- slots -----

  /** The runtime never reports, for a run that is active, an id that another active run goes by. */
  ghost predicate Honest(s: System, steps: seq<Step>)
    requires IsRun(s, steps)
    decreases |steps|
  {
    steps == [] ||
    ((steps[0].EmitEvent? && steps[0].content.runId in s.proc.active ==> ReportsOwnSession(s.proc, steps[0].content))
      && Honest(Apply(s, steps[0]), steps[1..]))
  }

  lemma ReceiveKeepsExclusive(s: System, step: Step)
    requires Exclusive(s.proc) && step.Receive? && Enabled(s, step)
    ensures Exclusive(Apply(s, step).proc) && Apply(s, step).proc.maxActive == s.proc.maxActive
  {
    hide Exclusive, Admit, StartRun, Apply, Enabled, Known;
    ReceiveOutcome(s, step);
    if Admits(s, step.c, Apply(s, step)) {
      StartKeepsExclusive(s.proc, Apply(s, step).pc.c);
    } else {
      ShrinkKeepsExclusive(s.proc, Apply(s, step).proc);
    }
  }

  lemma StepKeepsExclusive(s: System, step: Step)
    requires Exclusive(s.proc) && Enabled(s, step)
    requires step.EmitEvent? && step.content.runId in s.proc.active ==> ReportsOwnSession(s.proc, step.content)
    ensures Exclusive(Apply(s, step).proc) && Apply(s, step).proc.maxActive == s.proc.maxActive
  {
    hide Exclusive, Admit, ApplySessionUpdate, ApplyReceive, A.Stamp, A.Number, A.FreshId, AfterSave, IsStopTarget, A.Restarts,
      CommandAck;
    match step
    case Receive(_, _, _, _) => ReceiveKeepsExclusive(s, step);
    case EmitEvent(content, _) => UpdateKeepsExclusive(s.proc, content);
    case _ => ShrinkKeepsExclusive(s.proc, Apply(s, step).proc);
  }

  lemma UpdateKeepsExclusive(p: Proc, e: RunEvent)
    requires Exclusive(p) && (e.runId in p.active ==> ReportsOwnSession(p, e))
    ensures Exclusive(ApplySessionUpdate(p, e)) && ApplySessionUpdate(p, e).maxActive == p.maxActive
  {
    hide Exclusive, ReportsOwnSession, DecodeSession;
    if e.runId in p.active {
      SessionUpdateKeepsExclusiveIff(p, e);
    }
  }

  lemma {:induction false} RunKeepsExclusive(s: System, steps: seq<Step>)
    requires Exclusive(s.proc) && IsRun(s, steps) && Honest(s, steps)
    ensures Exclusive(Execute(s, steps).proc) && Execute(s, steps).proc.maxActive == s.proc.maxActive
    decreases |steps|
  {
    hide Exclusive, Enabled, Apply, ReportsOwnSession;
    if steps != [] {
      StepKeepsExclusive(s, steps[0]);
      RunKeepsExclusive(Apply(s, steps[0]), steps[1..]);
    }
  }

  /** Under every interleaving the active runs never exceed the limit, no two share an alias, and the session id of a
      run is among its aliases. */
  lemma SlotsAreExclusive(s: System, steps: seq<Step>)
    requires Initial(s) && IsRun(s, steps) && Honest(s, steps)
    ensures var p := Execute(s, steps).proc;
      && |p.active| <= s.proc.maxActive
      && (forall r, r' :: r in p.active && r' in p.active && r != r' ==> p.active[r].sessions !! p.active[r'].sessions)
      && (forall r :: r in p.active && !Blank(p.active[r].command.sessionId) ==>
        TrimSpace(p.active[r].command.sessionId) in p.active[r].sessions)
  {
    hide Blank, TrimSpace, Honest, IsRun, Execute;
    RunKeepsExclusive(s, steps);
    var p := Execute(s, steps).proc;
    forall r | r in p.active && !Blank(p.active[r].command.sessionId)
      ensures TrimSpace(p.active[r].command.sessionId) in p.active[r].sessions
    {
      assert AliasSet(p.active[r].command.sessionId) == {TrimSpace(p.active[r].command.sessionId)};
    }
  }

  // ----- the trace of a run -----

  /** The log of a run: it begins with `start`, which is its only `run.started`, and at most one event ends it. */
  ghost predicate IsTrace(events: map<string, L.OutboxRow>, r: string, start: string) {
    && start in events && events[start].event.runId == r && events[start].event.kind == "run.started"
    && (forall id :: id in events && events[id].event.runId == r && id != start ==>
      events[id].event.kind != "run.started" && events[start].event.seqNo < events[id].event.seqNo)
    && (forall id, id' :: id in events && id' in events && IsEndOf(events[id].event, r) && IsEndOf(events[id'].event, r) ==>
      id == id')
  }

  ghost predicate HasEventOf(events: map<string, L.OutboxRow>, r: string) {
    exists id :: id in events && events[id].event.runId == r
  }

  lemma FirstIsFirst(s: System, r: string)
    requires FirstValid(s) && A.RowsValid(s.agent.db.events, s.agent.issued) && r != "" && HasEventOf(s.agent.db.events, r)
    ensures r in s.first
    ensures var events, start := s.agent.db.events, s.first[r];
      && start in events && events[start].event.runId == r && events[start].event.kind == "run.started"
      && forall id :: id in events && events[id].event.runId == r && id != start ==>
        events[start].event.seqNo < events[id].event.seqNo
  {
    hide IsUsageKind, Blank;
    var k :| k in s.agent.db.events && s.agent.db.events[k].event.runId == r;
    assert NotBefore(s, s.agent.db.events[k].event);
    forall id | id in s.agent.db.events && s.agent.db.events[id].event.runId == r && id != s.first[r]
      ensures s.agent.db.events[s.first[r]].event.seqNo < s.agent.db.events[id].event.seqNo
    {
      assert NotBefore(s, s.agent.db.events[id].event);
    }
  }

  lemma InvGivesTrace(s: System, r: string)
    requires Inv(s) && r != "" && r !in s.torn
    requires HasEventOf(s.agent.db.events, r)
    ensures r in s.first && IsTrace(s.agent.db.events, r, s.first[r])
  {
    hide LaunchValid, SlotsValid, OwnStaged, OwnersValid, StatusValid, Ended, FirstValid, A.RowsValid, A.StagedValid,
      HasEventOf;
    FirstIsFirst(s, r);
  }

  /** Every run with a persisted event, unless its start was torn by a crash, has such a trace. */
  lemma EveryRunHasATrace(s: System, steps: seq<Step>, r: string)
    requires Initial(s) && IsRun(s, steps) && r != "" && r !in Execute(s, steps).torn
    requires HasEventOf(Execute(s, steps).agent.db.events, r)
    ensures exists start :: IsTrace(Execute(s, steps).agent.db.events, r, start)
  {
    hide Inv, IsRun, Execute, IsTrace;
    InitialInv(s);
    RunKeepsInv(s, steps);
    InvGivesTrace(Execute(s, steps), r);
  }

  /** After a restart every started run has ended, exactly once unless torn, and reconciling again changes nothing. */
  lemma RestartSettles(s: System, steps: seq<Step>, step: Step)
    requires Initial(s) && IsRun(s, steps) && step.Restart? && Enabled(Execute(s, steps), step)
    ensures var s' := Apply(Execute(s, steps), step);
      && (forall r :: r in s'.first && !Blank(r) ==> Ended(s'.agent.db.events, r))
      && (forall r :: r in s'.first && r !in s'.torn ==> IsTrace(s'.agent.db.events, r, s'.first[r]))
      && (forall order, ids, at, again :: A.Restarts(s'.agent, order, ids, at, again) ==> again.db == s'.agent.db)
  {
    hide Inv, IsRun, Execute, IsTrace, Enabled, Apply, StatusValid, A.Restarts, L.IsFinalStatus, A.Valid, Blank, Ended;
    var t := Execute(s, steps);
    var s' := Apply(t, step);
    InitialInv(s);
    RunKeepsInv(s, steps);
    StepKeepsInv(t, step);
    RestartLeavesNoneOpen(t, step);
    StartedRunsHaveRows(s');
    forall r | r in s'.first && !Blank(r)
      ensures Ended(s'.agent.db.events, r)
    {
      FinalRunsEnded(s', r);
    }
    forall r | r in s'.first && r !in s'.torn
      ensures IsTrace(s'.agent.db.events, r, s'.first[r])
    {
      InvGivesTrace(s', r);
    }
    forall order, ids, at, again | A.Restarts(s'.agent, order, ids, at, again)
      ensures again.db == s'.agent.db
    {
      NothingToClose(s'.agent, order, ids, at, again);
    }
  }

  lemma RestartLeavesNoneOpen(s: System, step: Step)
    requires Inv(s) && step.Restart? && Enabled(s, step)
    ensures var runs := Apply(s, step).agent.db.runs; forall r :: r in runs ==> L.IsFinalStatus(runs[r].status)
  {
    hide Apply, Enabled, A.Valid, StatusValid, LaunchValid, SlotsValid, OwnStaged, FirstValid, OwnersValid, EndsValid;
    RestartCloses(s, step);
  }

  lemma StartedRunsHaveRows(s: System)
    requires Inv(s)
    ensures forall r | r in s.first ::
      && s.first[r] in s.agent.db.events && s.agent.db.events[s.first[r]].event.runId == r
      && r != "" && (!Blank(r) ==> r in s.agent.db.runs)
  {
    hide A.Valid, LaunchValid, SlotsValid, OwnStaged, OwnersValid, EndsValid, Blank, Ended, L.IsOpenStatus, L.IsFinalStatus;
  }

  lemma FinalRunsEnded(s: System, r: string)
    requires Inv(s) && r in s.agent.db.runs && L.IsFinalStatus(s.agent.db.runs[r].status)
    ensures Ended(s.agent.db.events, r)
  {
    hide A.Valid, LaunchValid, SlotsValid, OwnStaged, OwnersValid, EndsValid, FirstValid, Blank, Ended, L.IsOpenStatus,
      L.IsFinalStatus;
  }

  lemma SomeMember(order: seq<string>)
    ensures order == [] || exists r :: r in order
  {
    assert order == [] || order[0] in order;
  }

  lemma NothingToClose(a: A.Agent, order: seq<string>, ids: seq<string>, at: int, again: A.Agent)
    requires forall r :: r in a.db.runs ==> L.IsFinalStatus(a.db.runs[r].status)
    requires A.Restarts(a, order, ids, at, again)
    ensures again.db == a.db
  {
    hide L.SaveEvent, Blank;
    forall r | r in a.db.runs
      ensures !L.IsOpenRun(a.db.runs, r)
    {
      OpenIsNotFinal(a.db.runs[r].status);
    }
    SomeMember(order);
  }

  /** Once final, a run's local status is final for ever. */
  lemma {:induction false} FinalStatusIsForever(s: System, steps: seq<Step>, r: string)
    requires Inv(s) && IsRun(s, steps) && r in s.agent.db.runs && L.IsFinalStatus(s.agent.db.runs[r].status)
    ensures var runs := Execute(s, steps).agent.db.runs; r in runs && L.IsFinalStatus(runs[r].status)
    decreases |steps|
  {
    hide Inv, Enabled, Apply, L.IsFinalStatus;
    if steps != [] {
      StepKeepsFinal(s, steps[0], r);
      StepKeepsInv(s, steps[0]);
      FinalStatusIsForever(Apply(s, steps[0]), steps[1..], r);
    }
  }

  lemma StepKeepsFinal(s: System, step: Step, r: string)
    requires Inv(s) && Enabled(s, step) && r in s.agent.db.runs && L.IsFinalStatus(s.agent.db.runs[r].status)
    ensures var runs := Apply(s, step).agent.db.runs; r in runs && L.IsFinalStatus(runs[r].status)
  {
    hide Apply, Enabled, A.Valid, StatusValid, LaunchValid, SlotsValid, OwnStaged, FirstValid, OwnersValid, EndsValid,
      L.IsFinalStatus;
    StepKeepsStatus(s, step);
  }

  // ----- stops -----

  ghost predicate StopsValid(s: System) {
    && (forall id :: id in s.agent.db.events && s.agent.db.events[id].event.kind == "run.stopped" ==>
      s.agent.db.events[id].event.runId in s.stops)
    && (forall e :: e in s.agent.staged && e.kind == "run.stopped" ==> e.runId in s.stops)
  }

  lemma StopsGrow(s: System, step: Step)
    requires Enabled(s, step)
    ensures s.stops <= Apply(s, step).stops
  {
    hide Admit, M.StopsRun, M.CreatesRun, IsStopTarget, CommandAck, Known, A.Restarts, A.FreshId, A.Stamp, AfterSave,
      ApplySessionUpdate, BeginApproval, Decide, EndApproval, SetState, SavedAcks, Remember;
  }

  lemma NumberedStops(s: System, step: Step)
    requires Inv(s) && Enabled(s, step) && NumberedBy(s, step).Some?
    requires NumberedBy(s, step).value.kind == "run.stopped"
    ensures NumberedBy(s, step).value.runId in s.stops
  {
    hide A.Valid, StatusValid, LaunchValid, OwnStaged, FirstValid, OwnersValid, EndsValid;
  }

  lemma StepKeepsStops(s: System, step: Step)
    requires Inv(s) && StopsValid(s) && Enabled(s, step)
    ensures StopsValid(Apply(s, step))
  {
    hide Apply, Enabled, A.Valid, StatusValid, LaunchValid, SlotsValid, OwnStaged, FirstValid, OwnersValid, EndsValid,
      NumberedBy, SavedBy;
    StopsGrow(s, step);
    if step.Restart? {
      RestartCloses(s, step);
      NothingStagedAfterRestart(s, step);
    } else {
      StepOnLog(s, step);
      if NumberedBy(s, step).Some? && NumberedBy(s, step).value.kind == "run.stopped" {
        NumberedStops(s, step);
      }
    }
  }

  lemma NothingStagedAfterRestart(s: System, step: Step)
    requires step.Restart? && Enabled(s, step)
    ensures Apply(s, step).agent.staged == {}
  {
    hide L.Reconcile, L.ListsOpenRuns;
  }

  lemma {:induction false} RunKeepsStops(s: System, steps: seq<Step>)
    requires Inv(s) && StopsValid(s) && IsRun(s, steps)
    ensures StopsValid(Execute(s, steps))
    decreases |steps|
  {
    hide Inv, Enabled, Apply, StopsValid;
    if steps != [] {
      StepKeepsStops(s, steps[0]);
      StepKeepsInv(s, steps[0]);
      RunKeepsStops(Apply(s, steps[0]), steps[1..]);
    }
  }

  /** `run.stopped` is only ever logged for a run whose stop was accepted. */
  lemma StoppedImpliesStop(s: System, steps: seq<Step>, id: string)
    requires Initial(s) && IsRun(s, steps) && id in Execute(s, steps).agent.db.events
    requires Execute(s, steps).agent.db.events[id].event.kind == "run.stopped"
    ensures Execute(s, steps).agent.db.events[id].event.runId in Execute(s, steps).stops
  {
    hide IsRun, Execute, Inv;
    InitialInv(s);
    RunKeepsStops(s, steps);
  }

  /** A run that ends as cancelled always ends as stopped: the branch for a cancellation without a stop is dead. */
  lemma CanceledMeansStopped(s: System, steps: seq<Step>, r: string, ending: Ending, id: string, at: int)
    requires Initial(s) && IsRun(s, steps) && Enabled(Execute(s, steps), EndRuntime(r, ending, id, at))
    ensures TerminalKind(Execute(s, steps), r, ending) == "run.stopped" <==> ending == Canceled
  {
    hide IsRun, Execute, A.Valid, StatusValid, LaunchValid, OwnStaged, FirstValid, OwnersValid, EndsValid;
    InitialInv(s);
    RunKeepsInv(s, steps);
  }

  // ----- where the promises end -----

  lemma Prepend(s: System, step: Step, steps: seq<Step>)
    requires Enabled(s, step) && IsRun(Apply(s, step), steps)
    ensures IsRun(s, [step] + steps) && Execute(s, [step] + steps) == Execute(Apply(s, step), steps)
  {
    hide Enabled, Apply;
    assert ([step] + steps)[1..] == steps;
  }

  /** A new command, a free slot, a run id of its own and a fresh event id. */
  ghost predicate CanLaunch(s: System, c: Command, id: string) {
    && s.pc == Idle && c.commandId != "" && c.runId != "" && M.CreatesRun(c.kind) && !Known(s, c.commandId)
    && Admit(s.proc, c) == Admitted && (c.runId in s.owner ==> s.owner[c.runId] == c.commandId)
    && A.FreshId(s.agent, id)
  }

  /** The steps of a start whose answer is saved, or not. */
  function LaunchSteps(c: Command, id: string, at: int, ok: bool): seq<Step> {
    [Receive(c, "", false, None), NumberStart(id, at), SaveStart(true), AnswerStart(ok), Launch]
  }

  /** Undisturbed, the five steps of a start leave what `Manager.Start` promises: the run in its slot, the answer saved if
      it can be, one new row in the outbox, and one launch. */
  lemma StartLaunches(s: System, c: Command, id: string, at: int, ok: bool)
    requires Inv(s) && CanLaunch(s, c, id)
    ensures IsRun(s, LaunchSteps(c, id, at, ok))
    ensures var s' := Execute(s, LaunchSteps(c, id, at, ok));
      && s'.pc == Idle && s'.launches == s.launches + [c.commandId]
      && s'.proc == Remember(StartRun(s.proc, c), CommandAck(c, c.runId, "ok"))
      && s'.agent.db.acks == (if ok then SavedAcks(s.agent.db.acks, CommandAck(c, c.runId, "ok")) else s.agent.db.acks)
      && s'.unsaved == (if ok then s.unsaved else s.unsaved + {c.commandId})
      && s'.owner == s.owner[c.runId := c.commandId]
      && s'.agent.db.events == s.agent.db.events[id := L.OutboxRow(
          M.StartedEvent(c, at).(seqNo := s.agent.seqNo + 1, eventId := id), false, 0, false, false)]
  {
    hide Inv, IsRun, Execute, Enabled, Apply, A.FreshId, Admit, Known, StartRun, Remember, SavedAcks, CommandAck, M.StartedEvent,
      M.CreatesRun;
    var steps := LaunchSteps(c, id, at, ok);
    AdmitStep(s, c, id, at);
    var s1 := Apply(s, steps[0]);
    NumberStep(s1, c, id, at);
    var s2 := Apply(s1, steps[1]);
    SaveStep(s2);
    var s3 := Apply(s2, steps[2]);
    AnswerAndLaunch(s3, ok);
    var s4 := Apply(s3, steps[3]);
    var s5 := Apply(s4, steps[4]);
    assert steps == [steps[0]] + [steps[1], steps[2], steps[3], steps[4]];
    assert [steps[1], steps[2], steps[3], steps[4]] == [steps[1]] + [steps[2], steps[3], steps[4]];
    assert [steps[2], steps[3], steps[4]] == [steps[2]] + [steps[3], steps[4]];
    assert [steps[3], steps[4]] == [steps[3]] + [steps[4]];
    assert [steps[4]] == [steps[4]] + [];
    NoSteps(s5);
    Prepend(s4, steps[4], []);
    Prepend(s3, steps[3], [steps[4]]);
    Prepend(s2, steps[2], [steps[3], steps[4]]);
    Prepend(s1, steps[1], [steps[2], steps[3], steps[4]]);
    Prepend(s, steps[0], [steps[1], steps[2], steps[3], steps[4]]);
  }

  lemma NoSteps(s: System)
    ensures IsRun(s, []) && Execute(s, []) == s
  {
  }

  lemma AdmitStep(s: System, c: Command, id: string, at: int)
    requires Inv(s) && CanLaunch(s, c, id)
    ensures var step := Receive(c, "", false, None);
      && Enabled(s, step) && Inv(Apply(s, step))
      && Apply(s, step) == s.(proc := StartRun(s.proc, c), pc := AtNumber(c), owner := s.owner[c.runId := c.commandId])
  {
    hide Inv, Admit, Blank;
    StepKeepsInv(s, Receive(c, "", false, None));
  }

  lemma NumberStep(s: System, c: Command, id: string, at: int)
    requires Inv(s) && s.pc == AtNumber(c) && A.FreshId(s.agent, id)
    ensures var step, e := NumberStart(id, at), M.StartedEvent(c, at).(seqNo := s.agent.seqNo + 1, eventId := id);
      && Enabled(s, step) && Inv(Apply(s, step)) && Apply(s, step).pc == AtSave(c, e)
      && Apply(s, step).proc == s.proc && Apply(s, step).launches == s.launches && Apply(s, step).agent.db == s.agent.db
      && Apply(s, step).owner == s.owner && Apply(s, step).unsaved == s.unsaved
  {
    hide Inv, IsUsageKind;
    BlankEmpty();
    StepKeepsInv(s, NumberStart(id, at));
  }

  lemma SaveStep(s: System)
    requires Inv(s) && s.pc.AtSave?
    ensures var step, e := SaveStart(true), s.pc.e;
      && Enabled(s, step) && Apply(s, step).pc == AtAnswer(s.pc.c)
      && Apply(s, step).proc == s.proc && Apply(s, step).launches == s.launches && Apply(s, step).owner == s.owner
      && Apply(s, step).agent.db.acks == s.agent.db.acks && Apply(s, step).unsaved == s.unsaved
      && Apply(s, step).agent.db.events == s.agent.db.events[e.eventId := L.OutboxRow(e, false, 0, false, false)]
  {
    hide A.Valid, StatusValid, LaunchValid, SlotsValid, FirstValid, OwnersValid, EndsValid, AfterSave;
    SaveStepsOnLog(s, SaveStart(true));
    SaveKeepsAcks(s.agent, s.pc.e, true);
  }

  lemma AnswerAndLaunch(s: System, ok: bool)
    requires s.pc.AtAnswer?
    ensures Enabled(s, AnswerStart(ok)) && Enabled(Apply(s, AnswerStart(ok)), Launch)
    ensures var c, s' := s.pc.c, Apply(Apply(s, AnswerStart(ok)), Launch);
      && s'.pc == Idle && s'.launches == s.launches + [c.commandId]
      && s'.proc == Remember(s.proc, CommandAck(c, c.runId, "ok"))
      && s'.agent.db.acks == (if ok then SavedAcks(s.agent.db.acks, CommandAck(c, c.runId, "ok")) else s.agent.db.acks)
      && s'.unsaved == (if ok then s.unsaved else s.unsaved + {c.commandId})
      && s'.agent.db.events == s.agent.db.events && s'.owner == s.owner
  {
    hide SavedAcks;
  }

  /** Right after a restart a command is admitted again unless its answer was saved. */
  lemma RestartForgets(s: System, restart: Step, c: Command, id: string)
    requires Inv(s) && restart.Restart? && Enabled(s, restart) && s.proc.maxActive > 0
    requires c.commandId != "" && c.runId != "" && M.CreatesRun(c.kind)
    requires c.runId in s.owner && s.owner[c.runId] == c.commandId
    requires Blank(c.commandId) || c.commandId !in s.agent.db.acks
    requires A.FreshId(Apply(s, restart).agent, id)
    ensures Inv(Apply(s, restart)) && CanLaunch(Apply(s, restart), c, id)
    ensures Apply(s, restart).launches == s.launches && Apply(s, restart).unsaved == s.unsaved
    ensures forall k :: k in s.agent.db.events ==>
      k in Apply(s, restart).agent.db.events && Apply(s, restart).agent.db.events[k] == s.agent.db.events[k]
  {
    hide Inv, A.Restarts, A.FreshId, Blank, StatusValid;
    StepKeepsInv(s, restart);
    RestartKeepsAcks(s, restart);
  }

  lemma RestartKeepsAcks(s: System, restart: Step)
    requires Inv(s) && restart.Restart? && Enabled(s, restart)
    ensures var s' := Apply(s, restart);
      && s'.agent.db.acks == s.agent.db.acks
      && forall k :: k in s.agent.db.events ==> k in s'.agent.db.events && s'.agent.db.events[k] == s.agent.db.events[k]
  {
    hide Apply, Enabled, A.Valid, StatusValid, LaunchValid, SlotsValid, OwnStaged, FirstValid, OwnersValid, EndsValid;
    RestartCloses(s, restart);
  }

  lemma {:induction false} Append(s: System, a: seq<Step>, b: seq<Step>)
    requires IsRun(s, a) && IsRun(Execute(s, a), b)
    ensures IsRun(s, a + b) && Execute(s, a + b) == Execute(Execute(s, a), b)
    decreases |a|
  {
    hide Enabled, Apply;
    if a == [] {
      assert a + b == b;
    } else {
      assert (a + b)[1..] == a[1..] + b;
      Append(Apply(s, a[0]), a[1..], b);
    }
  }

  // ----- a restart is possible in every state -----

  lemma {:induction false} HasLastSeq(events: map<string, L.OutboxRow>) returns (n: nat)
    ensures L.IsLastSeq(events, n)
    decreases |events|
  {
    n := 0;
    if events != map[] {
      var id :| id in events;
      var rest := events - {id};
      assert events.Keys == rest.Keys + {id};
      n := HasLastSeq(rest);
      if events[id].event.seqNo > n {
        n := events[id].event.seqNo;
      } else if n != 0 {
        var k :| k in rest && rest[k].event.seqNo == n;
        assert k in events && events[k].event.seqNo == n;
      }
    }
  }

  lemma {:induction false} Enumerated(open: set<string>) returns (order: seq<string>)
    ensures forall id :: id in order <==> id in open
    ensures forall i, j :: 0 <= i < j < |order| ==> order[i] != order[j]
  {
    order := [];
    if open != {} {
      var id :| id in open;
      order := Enumerated(open - {id});
      order := order + [id];
    }
  }

  lemma {:induction false} Longest(used: set<string>) returns (n: nat)
    ensures forall id :: id in used ==> |id| <= n
  {
    n := 0;
    if used != {} {
      var id :| id in used;
      n := Longest(used - {id});
      if |id| > n {
        n := |id|;
      }
    }
  }

  function Xs(n: nat): (r: string)
    ensures |r| == n && forall i :: 0 <= i < n ==> r[i] == 'x'
  {
    seq(n, i => 'x')
  }

  lemma XsAreNotBlank(n: nat)
    requires n > 0
    ensures !Blank(Xs(n))
  {
  }

  /** There are always more ids: longer ones. */
  lemma HasFreshIds(used: set<string>, n: nat) returns (ids: seq<string>)
    ensures |ids| == n && (forall i :: 0 <= i < n ==> !Blank(ids[i]) && ids[i] !in used)
    ensures forall i, j :: 0 <= i < j < n ==> ids[i] != ids[j]
  {
    hide Blank;
    var longest := Longest(used);
    ids := seq(n, i requires 0 <= i < n => Xs(longest + 1 + i));
    forall i | 0 <= i < n
      ensures !Blank(ids[i]) && ids[i] !in used
    {
      assert ids[i] == Xs(longest + 1 + i);
      XsAreNotBlank(longest + 1 + i);
    }
    forall i, j | 0 <= i < j < n
      ensures ids[i] != ids[j]
    {
      assert ids[i] == Xs(longest + 1 + i) && ids[j] == Xs(longest + 1 + j);
    }
  }

  lemma RestartIsPossible(s: System, at: int) returns (step: Step)
    ensures step.Restart? && Enabled(s, step)
  {
    hide L.Reconcile, Blank;
    var a := s.agent;
    var order := Enumerated(set id | id in a.db.runs && L.IsOpenStatus(a.db.runs[id].status));
    var ids := HasFreshIds(a.issued + a.db.events.Keys, |order|);
    var last := HasLastSeq(a.db.events);
    var db := L.Reconcile(a.db, order, ids, last, at, |order|);
    var seqNo := HasLastSeq(db.events);
    step := Restart(order, ids, at, A.Agent(seqNo, {}, a.issued + (set id | id in ids), db));
    assert A.Unused(ids, a.db.events);
  }

  lemma HasFreshId(a: A.Agent) returns (id: string)
    ensures A.FreshId(a, id)
  {
    var ids := HasFreshIds(a.issued + a.db.events.Keys, 1);
    id := ids[0];
  }

  // ----- launched twice, started twice -----

  lemma InitialCanLaunch(s: System, c: Command, id: string)
    requires Initial(s) && s.proc.maxActive > 0 && !Blank(id)
    requires c.commandId != "" && c.runId != "" && M.CreatesRun(c.kind)
    ensures Inv(s) && CanLaunch(s, c, id)
  {
    hide Inv, Blank;
    InitialInv(s);
  }

  /** A command whose answer is not stored, because its id is blank or saving fails, is launched again after a restart. */
  lemma LaunchedAgain(s: System, c: Command, ok: bool) returns (steps: seq<Step>)
    requires Initial(s) && s.proc.maxActive > 0 && (Blank(c.commandId) || !ok)
    requires c.commandId != "" && c.runId != "" && M.CreatesRun(c.kind)
    ensures IsRun(s, steps) && Execute(s, steps).launches == [c.commandId, c.commandId]
    ensures ok ==> Execute(s, steps).unsaved == {}
  {
    hide Inv, Enabled, Apply, IsRun, Execute, A.FreshId, CanLaunch, M.CreatesRun, Blank;
    var e0 := HasFreshId(s.agent);
    FreshIsNew(s.agent, e0);
    InitialCanLaunch(s, c, e0);
    var first := LaunchSteps(c, e0, 0, ok);
    StartLaunches(s, c, e0, 0, ok);
    RunKeepsInv(s, first);
    var s1 := Execute(s, first);
    var restart := RestartIsPossible(s1, 0);
    var e1 := HasFreshId(Apply(s1, restart).agent);
    RestartForgets(s1, restart, c, e1);
    StartLaunches(Apply(s1, restart), c, e1, 0, ok);
    Prepend(s1, restart, LaunchSteps(c, e1, 0, ok));
    Append(s, first, [restart] + LaunchSteps(c, e1, 0, ok));
    steps := first + ([restart] + LaunchSteps(c, e1, 0, ok));
  }

  /** A run that launches the id twice; `saved` asks that no answer to it failed to be saved. */
  ghost predicate LaunchesTwice(s: System, steps: seq<Step>, id: string, saved: bool) {
    && IsRun(s, steps)
    && (saved ==> id !in Execute(s, steps).unsaved)
    && var launches := Execute(s, steps).launches;
      exists i, j :: 0 <= i < j < |launches| && launches[i] == id && launches[j] == id
  }

  lemma SomeRunLaunchesTwice(s: System, id: string, ok: bool)
    requires Initial(s) && s.proc.maxActive > 0 && id != "" && (Blank(id) || !ok)
    ensures exists steps :: LaunchesTwice(s, steps, id, ok)
  {
    hide IsRun, Execute, Blank;
    var c := Command(id, "r", "", "", "send");
    assert M.CreatesRun(c.kind);
    var steps := LaunchedAgain(s, c, ok);
    var launches := Execute(s, steps).launches;
    assert launches[0] == id && launches[1] == id;
    assert LaunchesTwice(s, steps, id, ok);
  }

  /** If saving an answer may fail, any id can be launched twice; as long as it does not, exactly the blank ids can: the
      guard of the answer store. */
  lemma LaunchedTwiceIff(s: System, id: string)
    requires Initial(s) && s.proc.maxActive > 0 && id != ""
    ensures exists steps :: LaunchesTwice(s, steps, id, false)
    ensures (exists steps :: LaunchesTwice(s, steps, id, true)) <==> Blank(id)
  {
    hide IsRun, Execute, Blank;
    SomeRunLaunchesTwice(s, id, false);
    if Blank(id) {
      SomeRunLaunchesTwice(s, id, true);
    }
    if exists steps :: LaunchesTwice(s, steps, id, true) {
      var steps :| LaunchesTwice(s, steps, id, true);
      var i: nat, j: nat :| i < j < |Execute(s, steps).launches|
        && Execute(s, steps).launches[i] == id && Execute(s, steps).launches[j] == id;
      AtMostOneLaunch(s, steps, i, j);
    }
  }

  /** Two rows that start the run. */
  predicate StartsTwice(events: map<string, L.OutboxRow>, r: string, k: string, k': string) {
    && k in events && k' in events && k != k'
    && events[k].event.kind == "run.started" && events[k].event.runId == r
    && events[k'].event.kind == "run.started" && events[k'].event.runId == r
  }

  /** From a state between saving `run.started` and saving the answer. */
  lemma TornStartStartsTwice(s: System, restart: Step, id: string, at: int)
    requires Inv(s) && s.pc.AtAnswer? && restart.Restart? && Enabled(s, restart) && s.proc.maxActive > 0
    requires s.pc.c.commandId != "" && M.CreatesRun(s.pc.c.kind)
    requires Blank(s.pc.c.commandId) || s.pc.c.commandId !in s.agent.db.acks
    requires A.FreshId(Apply(s, restart).agent, id)
    ensures var c, steps := s.pc.c, [restart] + LaunchSteps(s.pc.c, id, at, true);
      && IsRun(s, steps)
      && exists k, k' :: StartsTwice(Execute(s, steps).agent.db.events, c.runId, k, k')
  {
    hide Inv, Enabled, Apply, IsRun, Execute, A.FreshId, CanLaunch;
    var c := s.pc.c;
    StartedAtAnswer(s);
    var k := s.first[c.runId];
    RestartForgets(s, restart, c, id);
    FreshIsNew(Apply(s, restart).agent, id);
    StartLaunches(Apply(s, restart), c, id, at, true);
    Prepend(s, restart, LaunchSteps(c, id, at, true));
    var s', s'' := Apply(s, restart), Execute(s, [restart] + LaunchSteps(c, id, at, true));
    assert s''.agent.db.events == s'.agent.db.events[id := L.OutboxRow(
      M.StartedEvent(c, at).(seqNo := s'.agent.seqNo + 1, eventId := id), false, 0, false, false)];
    assert k in s''.agent.db.events && s''.agent.db.events[k] == s.agent.db.events[k];
    assert StartsTwice(s''.agent.db.events, c.runId, k, id);
  }

  /** The first three steps of a start, up to the crash point. */
  lemma ReachAnswer(s: System, c: Command, id: string)
    requires Inv(s) && CanLaunch(s, c, id)
    ensures var steps := [Receive(c, "", false, None), NumberStart(id, 0), SaveStart(true)];
      && IsRun(s, steps)
      && var s' := Execute(s, steps);
        s'.pc == AtAnswer(c) && s'.agent.db.acks == s.agent.db.acks && s'.proc.maxActive == s.proc.maxActive
  {
    hide Inv, IsRun, Execute, Enabled, Apply, A.FreshId, Admit, Known, M.StartedEvent, M.CreatesRun;
    var steps := [Receive(c, "", false, None), NumberStart(id, 0), SaveStart(true)];
    AdmitStep(s, c, id, 0);
    var s1 := Apply(s, steps[0]);
    NumberStep(s1, c, id, 0);
    var s2 := Apply(s1, steps[1]);
    SaveStep(s2);
    var s3 := Apply(s2, steps[2]);
    assert steps == [steps[0]] + [steps[1], steps[2]];
    assert [steps[1], steps[2]] == [steps[1]] + [steps[2]];
    assert [steps[2]] == [steps[2]] + [];
    NoSteps(s3);
    Prepend(s2, steps[2], []);
    Prepend(s1, steps[1], [steps[2]]);
    Prepend(s, steps[0], [steps[1], steps[2]]);
  }

  lemma TornFrom(s: System, c: Command) returns (steps: seq<Step>)
    requires Inv(s) && s.proc.maxActive > 0 && s.pc == Idle && s.proc.active == map[] && s.proc.commands == map[]
    requires c.commandId != "" && c.runId != "" && M.CreatesRun(c.kind)
    requires Blank(c.commandId) || c.commandId !in s.agent.db.acks
    requires c.runId in s.owner ==> s.owner[c.runId] == c.commandId
    ensures IsRun(s, steps) && exists k, k' :: StartsTwice(Execute(s, steps).agent.db.events, c.runId, k, k')
  {
    hide Inv, Enabled, Apply, IsRun, Execute, A.FreshId, CanLaunch, M.CreatesRun, Blank, StartsTwice;
    var e0 := HasFreshId(s.agent);
    FreeCanLaunch(s, c, e0);
    var first := [Receive(c, "", false, None), NumberStart(e0, 0), SaveStart(true)];
    ReachAnswer(s, c, e0);
    RunKeepsInv(s, first);
    var s1 := Execute(s, first);
    var restart := RestartIsPossible(s1, 0);
    var e1 := HasFreshId(Apply(s1, restart).agent);
    TornStartStartsTwice(s1, restart, e1, 0);
    Append(s, first, [restart] + LaunchSteps(c, e1, 0, true));
    steps := first + ([restart] + LaunchSteps(c, e1, 0, true));
  }

  lemma FreeCanLaunch(s: System, c: Command, id: string)
    requires s.proc.maxActive > 0 && s.pc == Idle && s.proc.active == map[] && s.proc.commands == map[] && A.FreshId(s.agent, id)
    requires c.commandId != "" && c.runId != "" && M.CreatesRun(c.kind)
    requires Blank(c.commandId) || c.commandId !in s.agent.db.acks
    requires c.runId in s.owner ==> s.owner[c.runId] == c.commandId
    ensures CanLaunch(s, c, id)
  {
    hide Blank, A.FreshId;
  }

  /** Every run-creating command has such a run from the start: saved, torn by a crash, redelivered, started again. */
  lemma TornRunExists(s: System, c: Command) returns (steps: seq<Step>)
    requires Initial(s) && s.proc.maxActive > 0
    requires c.commandId != "" && c.runId != "" && M.CreatesRun(c.kind)
    ensures IsRun(s, steps) && exists k, k' :: StartsTwice(Execute(s, steps).agent.db.events, c.runId, k, k')
  {
    hide Inv, IsRun, Execute, M.CreatesRun, Blank, StartsTwice;
    InitialInv(s);
    steps := TornFrom(s, c);
  }

  lemma FreshIsNew(a: A.Agent, id: string)
    requires A.FreshId(a, id)
    ensures id !in a.db.events && !Blank(id)
  {
  }

  lemma StartedAtAnswer(s: System)
    requires Inv(s) && s.pc.AtAnswer?
    ensures var c := s.pc.c;
      && c.runId != "" && c.runId in s.owner && s.owner[c.runId] == c.commandId && c.runId in s.first
      && s.first[c.runId] in s.agent.db.events
      && s.agent.db.events[s.first[c.runId]].event.kind == "run.started"
      && s.agent.db.events[s.first[c.runId]].event.runId == c.runId
  {
    hide A.Valid, StatusValid, LaunchValid, OwnStaged, EndsValid;
  }

  // ----- exactly which runs can still be started twice -----

  /** Every run belongs to a command with an id, and one that is about to be started is not answered yet. */
  ghost predicate StartsOpen(s: System) {
    && (forall r :: r in s.owner ==> s.owner[r] != "")
    && (IsStarting(s.pc) && !s.pc.AtLaunch? && !Blank(s.pc.c.commandId) ==> s.pc.c.commandId !in s.agent.db.acks)
  }

  lemma ReceiveKeepsOpen(s: System, step: Step)
    requires StartsOpen(s) && step.Receive? && Enabled(s, step)
    ensures StartsOpen(Apply(s, step))
  {
    hide Blank, Admit, MarkStopping, StartRun, Apply, A.Valid;
    ReceiveOutcome(s, step);
  }

  lemma OthersKeepOpen(s: System, step: Step)
    requires StartsOpen(s) && A.Valid(s.agent) && Enabled(s, step) && !step.Receive?
    ensures StartsOpen(Apply(s, step))
  {
    hide Blank, A.Valid, Enabled, Apply;
    OwnersStay(s, step);
    if step.AnswerStart? || step.Launch? || step.CancelStop? {
      AnsweringIsNoStart(s, step);
    } else {
      OtherStepsKeepAcks(s, step);
    }
  }

  lemma OwnersStay(s: System, step: Step)
    requires Enabled(s, step) && !step.Receive?
    ensures Apply(s, step).owner == s.owner
  {
    hide AfterSave, A.FreshId, A.Restarts, ApplySessionUpdate, A.Number, A.Stamp, BeginApproval, Decide, EndApproval, SetState,
      ApplyReceive, Admit, IsStopTarget, M.StopsRun, M.CreatesRun, SavedAcks, Remember, CommandAck, EndingFits, TerminalContent,
      TerminalKind, M.StartedEvent, Blank, IsLifecycleKind;
  }

  lemma AnsweringIsNoStart(s: System, step: Step)
    requires Enabled(s, step) && (step.AnswerStart? || step.Launch? || step.CancelStop?)
    ensures var pc := Apply(s, step).pc; !IsStarting(pc) || pc.AtLaunch?
  {
  }

  /** The answer to the run's command is stored. */
  ghost predicate Closed(s: System, r: string) {
    Inv(s) && StartsOpen(s) && Answered(s, r)
  }

  lemma StepKeepsOpen(s: System, step: Step)
    requires StartsOpen(s) && A.Valid(s.agent) && Enabled(s, step)
    ensures StartsOpen(Apply(s, step))
  {
    hide StartsOpen, A.Valid, Enabled, Apply;
    if step.Receive? {
      ReceiveKeepsOpen(s, step);
    } else {
      OthersKeepOpen(s, step);
    }
  }

  lemma StepKeepsAnswered(s: System, step: Step, r: string)
    requires Inv(s) && Answered(s, r) && Enabled(s, step)
    ensures Answered(Apply(s, step), r)
  {
    hide A.Valid, StatusValid, SlotsValid, OwnStaged, FirstValid, OwnersValid, EndsValid, LaunchValid, Enabled, Apply, Blank;
    StepKeepsLaunchValid(s, step);
    if step.Receive? {
      ReceiveOutcome(s, step);
    } else {
      OwnersStay(s, step);
    }
  }

  /** What a step saves never starts a run whose command is answered. */
  lemma SavedIsNoStart(s: System, step: Step, r: string)
    requires Closed(s, r) && Enabled(s, step) && SavedBy(s, step).Some?
    ensures !(SavedBy(s, step).value.kind == "run.started" && SavedBy(s, step).value.runId == r)
  {
    hide A.Valid, StatusValid, SlotsValid, FirstValid, EndsValid, LaunchValid;
  }

  lemma StartsAreOld(s: System, step: Step, r: string, k: string)
    requires Closed(s, r) && Enabled(s, step)
    requires var events := Apply(s, step).agent.db.events;
      k in events && events[k].event.kind == "run.started" && events[k].event.runId == r
    ensures k in s.agent.db.events && s.agent.db.events[k].event == Apply(s, step).agent.db.events[k].event
  {
    hide A.Valid, StatusValid, SlotsValid, OwnStaged, FirstValid, OwnersValid, EndsValid, LaunchValid, Enabled, Apply, StartsOpen,
      Answered, SavedBy, NumberedBy;
    if step.Restart? {
      RestartCloses(s, step);
    } else {
      StepOnLog(s, step);
      if SavedBy(s, step).Some? {
        SavedIsNoStart(s, step, r);
      }
    }
  }

  lemma {:induction false} AnsweredStartsNoMore(s: System, steps: seq<Step>, r: string, k: string)
    requires Closed(s, r) && IsRun(s, steps)
    requires var events := Execute(s, steps).agent.db.events;
      k in events && events[k].event.kind == "run.started" && events[k].event.runId == r
    ensures k in s.agent.db.events && s.agent.db.events[k].event == Execute(s, steps).agent.db.events[k].event
    decreases |steps|
  {
    hide Inv, StartsOpen, Answered, Enabled, Apply;
    if steps != [] {
      StepKeepsInv(s, steps[0]);
      InvIsValid(s);
      StepKeepsOpen(s, steps[0]);
      StepKeepsAnswered(s, steps[0], r);
      AnsweredStartsNoMore(Apply(s, steps[0]), steps[1..], r, k);
      StartsAreOld(s, steps[0], r, k);
    }
  }

  lemma InvIsValid(s: System)
    requires Inv(s)
    ensures A.Valid(s.agent)
  {
    hide A.Valid;
  }

  lemma {:induction false} RunKeepsOpen(s: System, steps: seq<Step>)
    requires Inv(s) && StartsOpen(s) && IsRun(s, steps)
    ensures StartsOpen(Execute(s, steps))
    decreases |steps|
  {
    hide Inv, StartsOpen, Enabled, Apply;
    if steps != [] {
      InvIsValid(s);
      StepKeepsOpen(s, steps[0]);
      StepKeepsInv(s, steps[0]);
      RunKeepsOpen(Apply(s, steps[0]), steps[1..]);
    }
  }

  ghost predicate EverStartsTwice(s: System, r: string) {
    exists steps, k, k' :: IsRun(s, steps) && StartsTwice(Execute(s, steps).agent.db.events, r, k, k')
  }

  ghost predicate StartedTwice(s: System, r: string) {
    exists k, k' :: StartsTwice(s.agent.db.events, r, k, k')
  }

  lemma UnansweredStartsTwice(s: System, r: string)
    requires Inv(s) && StartsOpen(s) && s.proc.maxActive > 0 && r != "" && !Answered(s, r)
    ensures EverStartsTwice(s, r)
  {
    hide Inv, Enabled, Apply, IsRun, Execute, StartsTwice, M.CreatesRun, Blank;
    var restart := RestartIsPossible(s, 0);
    StepKeepsInv(s, restart);
    RestartKeepsAcks(s, restart);
    RestartFrees(s, restart);
    var s1 := Apply(s, restart);
    var unused := HasFreshIds(s.agent.db.acks.Keys, 1);
    var c := Command(if r in s.owner then s.owner[r] else unused[0], r, "", "", "send");
    NonBlankIsSome(unused[0]);
    SendCreatesRun();
    var steps := TornFrom(s1, c);
    Prepend(s, restart, steps);
  }

  lemma NonBlankIsSome(id: string)
    ensures !Blank(id) ==> id != ""
  {
  }

  lemma SendCreatesRun()
    ensures M.CreatesRun("send")
  {
  }

  lemma RestartFrees(s: System, restart: Step)
    requires restart.Restart? && Enabled(s, restart)
    ensures var s' := Apply(s, restart);
      s'.pc == Idle && s'.proc == Proc(map[], map[], s.proc.maxActive) && s'.owner == s.owner
  {
    hide A.Restarts;
  }

  /** In every reachable state: a run can still come to be started twice if and only if it already was, or no answer to its
      command is stored; a run that was never heard of has none. */
  lemma StartsTwiceIff(s: System, steps: seq<Step>, r: string)
    requires Initial(s) && s.proc.maxActive > 0 && IsRun(s, steps) && r != ""
    ensures var now := Execute(s, steps); EverStartsTwice(now, r) <==> StartedTwice(now, r) || !Answered(now, r)
  {
    hide Inv, StartsOpen, IsRun, Execute, StartsTwice, Answered;
    InitialInv(s);
    InitialIsOpen(s);
    RunKeepsInv(s, steps);
    RunKeepsOpen(s, steps);
    RunKeepsLimit(s, steps);
    var now := Execute(s, steps);
    if StartedTwice(now, r) {
      var k, k' :| StartsTwice(now.agent.db.events, r, k, k');
      NoSteps(now);
    } else if !Answered(now, r) {
      UnansweredStartsTwice(now, r);
    } else if EverStartsTwice(now, r) {
      var more, k, k' :| IsRun(now, more) && StartsTwice(Execute(now, more).agent.db.events, r, k, k');
      TwoStartsAreOld(now, more, r, k, k');
    }
  }

  lemma StepKeepsLimit(s: System, step: Step)
    requires Enabled(s, step)
    ensures Apply(s, step).proc.maxActive == s.proc.maxActive
  {
    hide AfterSave, A.FreshId, A.Restarts, A.Number, A.Stamp, ApplyReceive, DecodeSession, AliasSet, Blank;
    if step.Receive? {
      ReceiveOutcome(s, step);
    }
  }

  lemma {:induction false} RunKeepsLimit(s: System, steps: seq<Step>)
    requires IsRun(s, steps)
    ensures Execute(s, steps).proc.maxActive == s.proc.maxActive
    decreases |steps|
  {
    hide Enabled, Apply;
    if steps != [] {
      StepKeepsLimit(s, steps[0]);
      RunKeepsLimit(Apply(s, steps[0]), steps[1..]);
    }
  }

  lemma InitialIsOpen(s: System)
    requires Initial(s)
    ensures StartsOpen(s)
  {
    hide Blank;
  }

  lemma TwoStartsAreOld(s: System, steps: seq<Step>, r: string, k: string, k': string)
    requires Closed(s, r) && IsRun(s, steps) && StartsTwice(Execute(s, steps).agent.db.events, r, k, k')
    ensures StartedTwice(s, r)
  {
    hide Closed, IsRun, Execute;
    AnsweredStartsNoMore(s, steps, r, k);
    AnsweredStartsNoMore(s, steps, r, k');
    assert StartsTwice(s.agent.db.events, r, k, k');
  }
}
