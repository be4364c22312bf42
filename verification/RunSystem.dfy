/** The run manager as a concurrent machine with crash points.

    Commands are handled one at a time; runs, the runtime's events, approvals and terminal events interleave with the
    command loop and with each other at every point where the manager does not hold its lock. A crash may come
    between any two steps and loses everything but the database. */
module RunSystem {
  import opened Text
  import opened Protocol
  import opened RunManager
  import M = Manager
  import L = LocalStore
  import A = AgentEvents

  /** How far `execute` has come. */
  datatype Phase = Launched | Executing | Finishing(e: RunEvent) | Closing

  datatype Exec = Exec(command: Command, canceled: bool, phase: Phase)

  /** What the command loop does next. */
  datatype Pc =
    | Idle
    | AtNumber(c: Command)
    | AtSave(c: Command, e: RunEvent)
    | AtAnswer(c: Command)
    | AtLaunch(c: Command)
    | AtCancel(c: Command, runId: string)

  /** The last six fields are history: every launch ever, the command each run id belongs to, the runs whose stop was
      accepted, the event that first started each run, the runs whose start was saved while its answer was not, and the
      commands that were launched although their answer could not be saved. */
  datatype System = System(
    proc: Proc, pc: Pc, execs: map<string, Exec>, agent: A.Agent,
    launches: seq<string>, owner: map<string, string>, stops: set<string>, first: map<string, string>, torn: set<string>,
    unsaved: set<string>)

  datatype Step =
    | Receive(c: Command, newRunId: string, expired: bool, target: Option<string>)
    | NumberStart(id: string, at: int)
    | SaveStart(ok: bool)
    | AnswerStart(ok: bool)
    | Launch
    | CancelStop
    | Begin(runId: string)
    | EmitEvent(content: RunEvent, id: string)
    | SaveEmitted(e: RunEvent, ok: bool)
    | EndRuntime(runId: string, ending: Ending, id: string, at: int)
    | SaveTerminal(runId: string, ok: bool)
    | Close(runId: string)
    | AskApproval(runId: string, approvalId: string)
    | DecideApproval(runId: string, approvalId: string, decision: string)
    | LeaveApproval(runId: string, approvalId: string)
    | Restart(order: seq<string>, ids: seq<string>, at: int, restarted: A.Agent)

  predicate Known(s: System, commandId: string) {
    commandId in s.proc.commands || (!Blank(commandId) && commandId in s.agent.db.acks)
  }

  function Filled(c: Command, newRunId: string): Command {
    if c.runId == "" then c.(runId := newRunId) else c
  }

  function TerminalContent(c: Command, kind: string, at: int): RunEvent {
    RunEvent("", c.runId, c.commandId, c.projectId, c.sessionId, 0, kind, NoPayload, at)
  }

  function TerminalKind(s: System, runId: string, ending: Ending): string {
    FinishKind(ending, runId in s.proc.active && s.proc.active[runId].stopping)
  }

  /** The context of a run is cancelled by a stop and by nothing else; once it is, the run ends as cancelled unless
      its deadline came first. */
  predicate EndingFits(x: Exec, ending: Ending) {
    match ending
    case Canceled => x.canceled
    case DeadlineExceeded => true
    case _ => !x.canceled
  }

  /** Run ids are fresh: a command comes with a run id no other command had. The runtime emits events of runs that
      have started, never one that starts or ends a run. */
  ghost predicate Enabled(s: System, step: Step) {
    match step
    case Receive(c, newRunId, expired, target) =>
      && s.pc == Idle && c.commandId != ""
      && (c.runId == "" ==> !Blank(newRunId) && newRunId !in s.owner)
      && (M.CreatesRun(c.kind) ==>
        var r := Filled(c, newRunId).runId; r in s.owner ==> s.owner[r] == c.commandId)
      && (M.StopsRun(c.kind) ==> IsStopTarget(s.proc, c, target))
    case NumberStart(id, at) => s.pc.AtNumber? && A.FreshId(s.agent, id) && id != ""
    case SaveStart(ok) => s.pc.AtSave?
    case AnswerStart(ok) => s.pc.AtAnswer?
    case Launch => s.pc.AtLaunch?
    case CancelStop => s.pc.AtCancel?
    case Begin(r) => r in s.execs && s.execs[r].phase == Launched
    case EmitEvent(content, id) =>
      && A.FreshId(s.agent, A.Stamp(s.agent, content, id).eventId)
      && !IsLifecycleKind(content.kind) && (content.runId == "" || content.runId in s.first)
    case SaveEmitted(e, ok) => e in s.agent.staged && !IsLifecycleKind(e.kind)
    case EndRuntime(r, ending, id, at) =>
      && r in s.execs && s.execs[r].phase == Executing && EndingFits(s.execs[r], ending)
      && A.FreshId(s.agent, id) && id != ""
    case SaveTerminal(r, ok) => r in s.execs && s.execs[r].phase.Finishing?
    case Close(r) => r in s.execs && s.execs[r].phase == Closing
    case AskApproval(r, approvalId) => true
    case DecideApproval(r, approvalId, decision) =>
      r in s.proc.active && approvalId in s.proc.active[r].approvals
    case LeaveApproval(r, approvalId) => true
    case Restart(order, ids, at, restarted) => A.Restarts(s.agent, order, ids, at, restarted)
  }

  function Answer(s: System, ack: Ack): System {
    s.(proc := Remember(s.proc, ack), agent := WithAcks(s.agent, SavedAcks(s.agent.db.acks, ack)))
  }

  function WithAcks(a: A.Agent, acks: map<string, Ack>): A.Agent {
    a.(db := a.db.(acks := acks))
  }

  function Drop(a: A.Agent, e: RunEvent): A.Agent {
    a.(staged := a.staged - {e})
  }

  function AfterSave(a: A.Agent, e: RunEvent, ok: bool): A.Agent {
    if ok then A.AfterPersist(a, e) else Drop(a, e)
  }

  function ApplyReceive(s: System, c: Command, newRunId: string, expired: bool, target: Option<string>): System {
    if c.commandId in s.proc.commands then s
    else if Known(s, c.commandId) then
      s.(proc := s.proc.(commands := s.proc.commands[c.commandId := s.agent.db.acks[c.commandId]]))
    else if M.CreatesRun(c.kind) then
      var run := Filled(c, newRunId);
      if expired then Answer(s, CommandAck(run, run.runId, "rejected"))
      else
        match Admit(s.proc, run)
        case Refused(status) => Answer(s, CommandAck(run, run.runId, status))
        case Admitted =>
          s.(proc := StartRun(s.proc, run), pc := AtNumber(run), owner := s.owner[run.runId := run.commandId])
    else if M.StopsRun(c.kind) && target.Some? && target.value in s.proc.active then
      s.(proc := MarkStopping(s.proc, target.value), pc := AtCancel(c, target.value), stops := s.stops + {target.value})
    else Answer(s, CommandAck(c, c.runId, "rejected"))
  }

  function WithPhase(s: System, runId: string, phase: Phase): map<string, Exec>
    requires runId in s.execs
  {
    s.execs[runId := s.execs[runId].(phase := phase)]
  }

  function Apply(s: System, step: Step): System
    requires Enabled(s, step)
  {
    match step
    case Receive(c, newRunId, expired, target) => ApplyReceive(s, c, newRunId, expired, target)
    case NumberStart(id, at) =>
      var content := M.StartedEvent(s.pc.c, at);
      s.(agent := A.Number(s.agent, content, id), pc := AtSave(s.pc.c, A.Stamp(s.agent, content, id)))
    case SaveStart(ok) =>
      var c, e := s.pc.c, s.pc.e;
      var s' := s.(agent := AfterSave(s.agent, e, ok));
      if ok then
        s'.(pc := AtAnswer(c), first := if c.runId in s.first then s.first else s.first[c.runId := e.eventId])
      else Answer(s'.(proc := EndRun(s.proc, c.runId), pc := Idle), CommandAck(c, c.runId, "rejected"))
    case AnswerStart(ok) =>
      var c := s.pc.c;
      var ack := CommandAck(c, c.runId, "ok");
      (if ok then Answer(s, ack) else s.(proc := Remember(s.proc, ack), unsaved := s.unsaved + {c.commandId})).(
        pc := AtLaunch(c), torn := if ok && !Blank(c.commandId) then s.torn else s.torn + {c.runId})
    case Launch =>
      var c := s.pc.c;
      s.(pc := Idle, execs := s.execs[c.runId := Exec(c, false, Launched)], launches := s.launches + [c.commandId])
    case CancelStop =>
      var r := s.pc.runId;
      Answer(s, CommandAck(s.pc.c, r, "ok")).(
        pc := Idle, execs := if r in s.execs then s.execs[r := s.execs[r].(canceled := true)] else s.execs)
    case Begin(r) => s.(proc := SetState(s.proc, r, Running), execs := WithPhase(s, r, Executing))
    case EmitEvent(content, id) =>
      s.(proc := ApplySessionUpdate(s.proc, content), agent := A.Number(s.agent, content, id))
    case SaveEmitted(e, ok) => s.(agent := AfterSave(s.agent, e, ok))
    case EndRuntime(r, ending, id, at) =>
      var content := TerminalContent(s.execs[r].command, TerminalKind(s, r, ending), at);
      s.(agent := A.Number(s.agent, content, id), execs := WithPhase(s, r, Finishing(A.Stamp(s.agent, content, id))))
    case SaveTerminal(r, ok) =>
      s.(agent := AfterSave(s.agent, s.execs[r].phase.e, ok), execs := WithPhase(s, r, Closing))
    case Close(r) => s.(proc := EndRun(s.proc, r), execs := s.execs - {r})
    case AskApproval(r, approvalId) => s.(proc := BeginApproval(s.proc, r, approvalId))
    case DecideApproval(r, approvalId, decision) => s.(proc := Decide(s.proc, r, approvalId, decision))
    case LeaveApproval(r, approvalId) => s.(proc := EndApproval(s.proc, r, approvalId))
    case Restart(order, ids, at, restarted) =>
      System(Proc(map[], map[], s.proc.maxActive), Idle, map[], restarted, s.launches, s.owner, s.stops, s.first,
        if s.pc.AtAnswer? then s.torn + {s.pc.c.runId} else s.torn, s.unsaved)
  }

  predicate Initial(s: System) {
    && s.proc == Proc(map[], map[], s.proc.maxActive) && s.pc == Idle && s.execs == map[]
    && s.agent == A.Agent(0, {}, {}, L.Local(map[], map[], map[]))
    && s.launches == [] && s.owner == map[] && s.stops == {} && s.first == map[] && s.torn == {} && s.unsaved == {}
  }

  ghost predicate IsRun(s: System, steps: seq<Step>)
    decreases |steps|
  {
    steps == [] || (Enabled(s, steps[0]) && IsRun(Apply(s, steps[0]), steps[1..]))
  }

  ghost function Execute(s: System, steps: seq<Step>): System
    requires IsRun(s, steps)
    decreases |steps|
  {
    if steps == [] then s else Execute(Apply(s, steps[0]), steps[1..])
  }

  // ----- what receiving a command changes -----

  /** Answers are added, the rest of the agent stays. */
  ghost predicate AnswersOnly(s: System, s': System) {
    && s' == s.(proc := s'.proc, pc := s'.pc, owner := s'.owner, stops := s'.stops, agent := WithAcks(s.agent, s'.agent.db.acks))
    && s.agent.db.acks.Keys <= s'.agent.db.acks.Keys && s'.proc.maxActive == s.proc.maxActive
  }

  /** The command is new, its run is admitted under a run id of its own, and nothing is answered yet. */
  ghost predicate Admits(s: System, c: Command, s': System) {
    && s'.pc.AtNumber? && s'.pc.c.commandId == c.commandId && !Known(s, c.commandId) && Admit(s.proc, s'.pc.c) == Admitted
    && s'.pc.c.runId != "" && s'.pc.c.runId !in s.proc.active && s'.stops == s.stops && s'.agent == s.agent
    && s'.proc == StartRun(s.proc, s'.pc.c) && s'.owner == s.owner[s'.pc.c.runId := c.commandId]
    && (s'.pc.c.runId in s.owner ==> s.owner[s'.pc.c.runId] == c.commandId)
  }

  ghost predicate Stops(s: System, c: Command, s': System) {
    && s'.pc.AtCancel? && s'.pc.c == c && s'.pc.runId in s.proc.active && s'.stops == s.stops + {s'.pc.runId}
    && s'.proc == MarkStopping(s.proc, s'.pc.runId) && s'.owner == s.owner
  }

  ghost predicate Answers(s: System, s': System) {
    s'.pc == Idle && s'.proc.active == s.proc.active && s'.stops == s.stops && s'.owner == s.owner
  }

  lemma RunCommandOutcome(s: System, c: Command, newRunId: string, expired: bool, target: Option<string>)
    requires Enabled(s, Receive(c, newRunId, expired, target)) && !Known(s, c.commandId) && M.CreatesRun(c.kind)
    ensures var s' := ApplyReceive(s, c, newRunId, expired, target);
      AnswersOnly(s, s') && (Answers(s, s') || Admits(s, c, s'))
  {
    hide SessionBusy, M.StopsRun, M.CreatesRun, IsStopTarget, CommandAck, Blank, AliasSet;
    BlankEmpty();
  }

  lemma OtherCommandOutcome(s: System, c: Command, newRunId: string, expired: bool, target: Option<string>)
    requires s.pc == Idle && c.commandId != "" && (Known(s, c.commandId) || !M.CreatesRun(c.kind))
    ensures var s' := ApplyReceive(s, c, newRunId, expired, target);
      AnswersOnly(s, s') && (Answers(s, s') || Stops(s, c, s'))
  {
    hide SessionBusy, M.StopsRun, M.CreatesRun, IsStopTarget, CommandAck, Blank, AliasSet, Admit;
  }

  lemma ReceiveOutcome(s: System, step: Step)
    requires step.Receive? && Enabled(s, step)
    ensures s.pc == Idle && AnswersOnly(s, Apply(s, step))
    ensures Answers(s, Apply(s, step)) || Stops(s, step.c, Apply(s, step)) || Admits(s, step.c, Apply(s, step))
  {
    hide M.StopsRun, M.CreatesRun, IsStopTarget, Known, AnswersOnly, Answers, Stops, Admits, Admit, Answer, StartRun, MarkStopping,
      Blank;
    var c := step.c;
    if !Known(s, c.commandId) && M.CreatesRun(c.kind) {
      KnownIfCached(s, c.commandId);
      RunCommandOutcome(s, c, step.newRunId, step.expired, step.target);
    } else {
      OtherCommandOutcome(s, c, step.newRunId, step.expired, step.target);
    }
  }

  lemma KnownIfCached(s: System, commandId: string)
    ensures commandId in s.proc.commands ==> Known(s, commandId)
  {
  }

  // ----- at most one launch -----

  predicate IsStarting(pc: Pc) {
    pc.AtNumber? || pc.AtSave? || pc.AtAnswer? || pc.AtLaunch?
  }

  /** The answer to a launched command is not in the database: its id is blank, or saving it failed. */
  predicate Unstored(id: string, unsaved: set<string>) {
    Blank(id) || id in unsaved
  }

  /** Otherwise a launched command is answered durably, and one on its way to its launch was never launched before. */
  ghost predicate LaunchesValid(launches: seq<string>, acks: map<string, Ack>, unsaved: set<string>, pc: Pc) {
    && (forall id :: id in launches && !Unstored(id, unsaved) ==> id in acks)
    && (forall i, j :: 0 <= i < j < |launches| && !Unstored(launches[i], unsaved) ==> launches[i] != launches[j])
    && (IsStarting(pc) && !Unstored(pc.c.commandId, unsaved) ==> pc.c.commandId !in launches)
    && (pc.AtLaunch? && !Unstored(pc.c.commandId, unsaved) ==> pc.c.commandId in acks)
  }

  ghost predicate LaunchValid(s: System) {
    LaunchesValid(s.launches, s.agent.db.acks, s.unsaved, s.pc)
  }

  lemma SaveKeepsAcks(a: A.Agent, e: RunEvent, ok: bool)
    ensures AfterSave(a, e, ok).db.acks == a.db.acks
  {
    hide Blank, IsUsageKind, L.ProjectRunState, L.SeqTaken;
  }

  lemma ReceiveKeepsLaunchValid(s: System, step: Step)
    requires LaunchValid(s) && step.Receive? && Enabled(s, step)
    ensures LaunchValid(Apply(s, step))
    ensures s.agent.db.acks.Keys <= Apply(s, step).agent.db.acks.Keys
  {
    hide Blank, Admit, MarkStopping, StartRun, Apply, Enabled;
    ReceiveOutcome(s, step);
  }

  /** More answers, and a start that goes on to its launch answered or is given up. */
  lemma MoreAnswers(launches: seq<string>, acks: map<string, Ack>, unsaved: set<string>, pc: Pc,
                    acks': map<string, Ack>, unsaved': set<string>, pc': Pc)
    requires LaunchesValid(launches, acks, unsaved, pc) && acks.Keys <= acks'.Keys && unsaved <= unsaved'
    requires IsStarting(pc') ==> pc'.AtLaunch? && IsStarting(pc) && pc'.c == pc.c
    requires pc'.AtLaunch? && !Unstored(pc'.c.commandId, unsaved') ==> pc'.c.commandId in acks'
    ensures LaunchesValid(launches, acks', unsaved', pc')
  {
    hide Blank;
  }

  lemma OneMoreLaunch(launches: seq<string>, acks: map<string, Ack>, unsaved: set<string>, pc: Pc)
    requires LaunchesValid(launches, acks, unsaved, pc) && pc.AtLaunch?
    ensures LaunchesValid(launches + [pc.c.commandId], acks, unsaved, Idle)
  {
    hide Unstored;
  }

  lemma AnswersKeepLaunchValid(s: System, step: Step)
    requires LaunchValid(s) && Enabled(s, step) && (step.AnswerStart? || step.Launch? || step.CancelStop?)
    ensures LaunchValid(Apply(s, step))
    ensures s.agent.db.acks.Keys <= Apply(s, step).agent.db.acks.Keys
  {
    hide Blank, LaunchesValid;
    var s' := Apply(s, step);
    if step.Launch? {
      OneMoreLaunch(s.launches, s.agent.db.acks, s.unsaved, s.pc);
    } else {
      MoreAnswers(s.launches, s.agent.db.acks, s.unsaved, s.pc, s'.agent.db.acks, s'.unsaved, s'.pc);
    }
  }

  lemma OtherStepsKeepAcks(s: System, step: Step)
    requires A.Valid(s.agent) && Enabled(s, step)
    requires !step.Receive? && !step.AnswerStart? && !step.Launch? && !step.CancelStop?
    ensures var s' := Apply(s, step);
      && s'.launches == s.launches && s'.unsaved == s.unsaved
      && (if step == SaveStart(false) then s'.pc == Idle && s.agent.db.acks.Keys <= s'.agent.db.acks.Keys
          else s'.agent.db.acks == s.agent.db.acks)
      && (s'.pc == s.pc || s'.pc == Idle
          || (IsStarting(s.pc) && !s.pc.AtLaunch? && IsStarting(s'.pc) && !s'.pc.AtLaunch? && s'.pc.c == s.pc.c))
  {
    hide A.Valid, A.Restarts, A.Stamp, AfterSave, A.FreshId, IsUsageKind;
    match step
    case SaveStart(ok) => SaveKeepsAcks(s.agent, s.pc.e, ok);
    case SaveEmitted(e, ok) => SaveKeepsAcks(s.agent, e, ok);
    case SaveTerminal(r, ok) => SaveKeepsAcks(s.agent, s.execs[r].phase.e, ok);
    case Restart(order, ids, at, restarted) => A.RestartKeepsValid(s.agent, order, ids, at, restarted);
    case _ =>
  }

  lemma StepKeepsLaunchValid(s: System, step: Step)
    requires LaunchValid(s) && A.Valid(s.agent) && Enabled(s, step)
    ensures LaunchValid(Apply(s, step))
    ensures s.agent.db.acks.Keys <= Apply(s, step).agent.db.acks.Keys
  {
    hide Blank, A.Valid, Apply, Enabled;
    match step
    case Receive(c, newRunId, expired, target) =>
      ReceiveKeepsLaunchValid(s, step);
    case AnswerStart(_) => AnswersKeepLaunchValid(s, step);
    case Launch => AnswersKeepLaunchValid(s, step);
    case CancelStop => AnswersKeepLaunchValid(s, step);
    case _ => OtherStepsKeepAcks(s, step);
  }
}
