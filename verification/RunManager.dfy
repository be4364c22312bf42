/** The agent's run manager: admission, session aliases, approvals, stops and the command-ack cache. */
module RunManager {
  import opened Text
  import opened Protocol

  datatype RunState = Starting | Running | AwaitingApproval | Stopping

  /** `approvals` maps a pending request to the decision buffered for it; `sessions` holds the aliases of the
      session the run works in. */
  datatype ActiveRun = ActiveRun(
    command: Command, state: RunState, stopping: bool, approvals: map<string, Option<string>>, sessions: set<string>)

  /** The fields the manager keeps under its lock, apart from the event counter. */
  datatype Proc = Proc(active: map<string, ActiveRun>, commands: map<string, Ack>, maxActive: nat)

  function AliasSet(sessionId: string): set<string> {
    if Blank(sessionId) then {} else {TrimSpace(sessionId)}
  }

  function AddSession(run: ActiveRun, sessionId: string): ActiveRun {
    run.(sessions := run.sessions + AliasSet(sessionId))
  }

  predicate HasSession(run: ActiveRun, sessionId: string) {
    && !Blank(sessionId)
    && (TrimSpace(sessionId) in run.sessions || TrimSpace(run.command.sessionId) == TrimSpace(sessionId))
  }

  predicate SessionBusy(active: map<string, ActiveRun>, sessionId: string) {
    exists id :: id in active && HasSession(active[id], sessionId)
  }

  datatype Admission = Admitted | Refused(status: string)

  function Admit(p: Proc, c: Command): Admission {
    if |p.active| >= p.maxActive then Refused("rejected")
    else if c.runId in p.active then Refused("duplicate")
    else if c.sessionId != "" && SessionBusy(p.active, c.sessionId) then Refused("rejected")
    else Admitted
  }

  function StartRun(p: Proc, c: Command): Proc {
    p.(active := p.active[c.runId := ActiveRun(c, Starting, false, map[], AliasSet(c.sessionId))])
  }

  function EndRun(p: Proc, runId: string): Proc {
    p.(active := p.active - {runId})
  }

  function CommandAck(c: Command, runId: string, status: string): Ack {
    Ack("", c.commandId, runId, status, 0)
  }

  /** `SaveCommandAck` skips a blank command id; the in-memory cache does not. */
  function SavedAcks(acks: map<string, Ack>, ack: Ack): map<string, Ack> {
    if Blank(ack.commandId) then acks else acks[ack.commandId := ack]
  }

  function Remember(p: Proc, ack: Ack): Proc {
    p.(commands := p.commands[ack.commandId := ack])
  }

  // ----- session updates reported by the runtime -----

  datatype SessionUpdate = SessionUpdate(sessionId: string, nativeId: string, projectId: string)

  predicate Decodable(p: Payload, key: string)
    requires p.Fields?
  {
    key in p.fields ==> p.fields[key].Str?
  }

  /** A payload that is no object, or whose ids are no strings, carries no update. */
  function DecodeSession(p: Payload): Option<SessionUpdate> {
    if !p.Fields? || !Decodable(p, "session_id") || !Decodable(p, "native_session_id") || !Decodable(p, "project_id") then None
    else Some(SessionUpdate(PayloadString(p, ["session_id"]), PayloadString(p, ["native_session_id"]),
      PayloadString(p, ["project_id"])))
  }

  function UpdateRun(run: ActiveRun, u: SessionUpdate): ActiveRun {
    var r := AddSession(AddSession(run, u.sessionId), u.nativeId);
    r.(command := r.command.(
      sessionId := OrElse(r.command.sessionId, u.sessionId), projectId := OrElse(r.command.projectId, u.projectId)))
  }

  function ApplySessionUpdate(p: Proc, e: RunEvent): Proc {
    if e.kind != "session.updated" || e.runId !in p.active || DecodeSession(e.payload).None? then p
    else p.(active := p.active[e.runId := UpdateRun(p.active[e.runId], DecodeSession(e.payload).value)])
  }

  // ----- stop, approvals and the end of a run -----

  /** The run a stop command means: the one with its run id, or else any active run of its session. */
  ghost predicate IsStopTarget(p: Proc, c: Command, target: Option<string>) {
    if c.runId in p.active then target == Some(c.runId)
    else if c.sessionId != "" && SessionBusy(p.active, c.sessionId) then
      target.Some? && target.value in p.active && HasSession(p.active[target.value], c.sessionId)
    else target == None
  }

  function MarkStopping(p: Proc, runId: string): Proc
    requires runId in p.active
  {
    p.(active := p.active[runId := p.active[runId].(state := Stopping, stopping := true)])
  }

  function SetState(p: Proc, runId: string, state: RunState): Proc {
    if runId in p.active then p.(active := p.active[runId := p.active[runId].(state := state)]) else p
  }

  function BeginApproval(p: Proc, runId: string, approvalId: string): Proc {
    if runId !in p.active then p
    else p.(active := p.active[runId := p.active[runId].(
      state := AwaitingApproval, approvals := p.active[runId].approvals[approvalId := None])])
  }

  function EndApproval(p: Proc, runId: string, approvalId: string): Proc {
    if runId !in p.active then p
    else
      var run := p.active[runId];
      p.(active := p.active[runId := run.(
        approvals := run.approvals - {approvalId}, state := if run.state == AwaitingApproval then Running else run.state)])
  }

  /** The first decision fills the request's one-place buffer; later ones are dropped. */
  function Decide(p: Proc, runId: string, approvalId: string, decision: string): Proc
    requires runId in p.active && approvalId in p.active[runId].approvals
  {
    var run := p.active[runId];
    if run.approvals[approvalId].Some? then p
    else p.(active := p.active[runId := run.(approvals := run.approvals[approvalId := Some(decision)])])
  }

  /** How the runtime call ended, as `execute` sees it. */
  datatype Ending = Completed | Errored | Canceled | DeadlineExceeded

  function FinishKind(ending: Ending, stopping: bool): string {
    match ending
    case Completed => "run.done"
    case Errored => "run.error"
    case DeadlineExceeded => "run.error"
    case Canceled => if stopping then "run.stopped" else "run.error"
  }

  // ----- the invariant of the admission rules -----

  /** Every alias is trimmed and non-blank, and a run's own session id is always among its aliases. */
  ghost predicate RunAliasesValid(run: ActiveRun) {
    && (forall a :: a in run.sessions ==> !Blank(a) && TrimSpace(a) == a)
    && AliasSet(run.command.sessionId) <= run.sessions
  }

  /** Never more runs than the limit, and no alias shared by two of them. */
  ghost predicate Exclusive(p: Proc) {
    && |p.active| <= p.maxActive
    && (forall id :: id in p.active ==> RunAliasesValid(p.active[id]))
    && (forall id, id' :: id in p.active && id' in p.active && id != id' ==>
      p.active[id].sessions !! p.active[id'].sessions)
  }

  lemma TrimSpaceIdempotent(s: string)
    ensures TrimSpace(TrimSpace(s)) == TrimSpace(s)
  {
  }

  lemma HasSessionIffAlias(run: ActiveRun, sessionId: string)
    requires RunAliasesValid(run)
    ensures HasSession(run, sessionId) <==> !Blank(sessionId) && TrimSpace(sessionId) in run.sessions
  {
    hide TrimSpace;
  }

  lemma AliasSetValid(sessionId: string)
    ensures forall a :: a in AliasSet(sessionId) ==> !Blank(a) && TrimSpace(a) == a
  {
    TrimSpaceIdempotent(sessionId);
  }

  lemma AdmittedIsApart(p: Proc, c: Command)
    requires Exclusive(p) && Admit(p, c) == Admitted
    ensures forall id :: id in p.active ==> p.active[id].sessions !! AliasSet(c.sessionId)
    ensures |p.active| < p.maxActive && c.runId !in p.active
  {
    hide TrimSpace;
    forall id | id in p.active
      ensures p.active[id].sessions !! AliasSet(c.sessionId)
    {
      HasSessionIffAlias(p.active[id], c.sessionId);
    }
  }

  /** An admitted run fits under the limit and shares its session with no other. */
  lemma StartKeepsExclusive(p: Proc, c: Command)
    requires Exclusive(p) && Admit(p, c) == Admitted
    ensures Exclusive(StartRun(p, c))
  {
    hide TrimSpace, Admit, AliasSet, Blank;
    AliasSetValid(c.sessionId);
    AdmittedIsApart(p, c);
    assert StartRun(p, c).active.Keys == p.active.Keys + {c.runId};
  }

  /** The other direction: a free slot, a new run id and a session no active run works in are always admitted. */
  lemma AdmitIff(p: Proc, c: Command)
    requires Exclusive(p)
    ensures Admit(p, c) == Admitted <==>
      && |p.active| < p.maxActive && c.runId !in p.active
      && forall id :: id in p.active ==> p.active[id].sessions !! AliasSet(c.sessionId)
  {
    hide TrimSpace;
    forall id | id in p.active
      ensures HasSession(p.active[id], c.sessionId) <==> !(p.active[id].sessions !! AliasSet(c.sessionId))
    {
      HasSessionIffAlias(p.active[id], c.sessionId);
    }
    BlankEmpty();
  }

  lemma BlankEmpty()
    ensures Blank("")
  {
  }

  /** The runtime never reports an id that another active run goes by. */
  ghost predicate ReportsOwnSession(p: Proc, e: RunEvent) {
    e.kind == "session.updated" && DecodeSession(e.payload).Some? ==>
      var u := DecodeSession(e.payload).value;
      forall id :: id in p.active && id != e.runId ==>
        p.active[id].sessions !! (AliasSet(u.sessionId) + AliasSet(u.nativeId))
  }

  /** The aliases after an update: the run's own grow by the reported ids, all others stay. */
  lemma UpdatedAliases(p: Proc, e: RunEvent)
    requires e.kind == "session.updated" && e.runId in p.active && DecodeSession(e.payload).Some?
    ensures var u, p' := DecodeSession(e.payload).value, ApplySessionUpdate(p, e);
      && p'.active.Keys == p.active.Keys && p'.maxActive == p.maxActive
      && p'.active[e.runId].sessions == p.active[e.runId].sessions + (AliasSet(u.sessionId) + AliasSet(u.nativeId))
      && p'.active[e.runId].command.sessionId == OrElse(p.active[e.runId].command.sessionId, u.sessionId)
      && forall id :: id in p.active && id != e.runId ==> p'.active[id] == p.active[id]
  {
    hide DecodeSession, AliasSet;
  }

  /** A session update keeps the runs apart exactly when it reports no other run's id. */
  lemma SessionUpdateKeepsExclusiveIff(p: Proc, e: RunEvent)
    requires Exclusive(p) && e.runId in p.active
    ensures Exclusive(ApplySessionUpdate(p, e)) <==> ReportsOwnSession(p, e)
  {
    hide TrimSpace, DecodeSession, ApplySessionUpdate, Blank, AliasSet;
    if e.kind == "session.updated" && DecodeSession(e.payload).Some? {
      var u, p' := DecodeSession(e.payload).value, ApplySessionUpdate(p, e);
      UpdatedAliases(p, e);
      AliasSetValid(u.sessionId);
      AliasSetValid(u.nativeId);
    } else {
      UnchangedByUpdate(p, e);
    }
  }

  lemma UnchangedByUpdate(p: Proc, e: RunEvent)
    requires e.kind != "session.updated" || DecodeSession(e.payload).None?
    ensures ApplySessionUpdate(p, e) == p
  {
    hide DecodeSession;
  }

  /** Every other change under the lock leaves the runs, their commands and their aliases alone or drops a run. */
  lemma ShrinkKeepsExclusive(p: Proc, p': Proc)
    requires Exclusive(p) && p'.maxActive == p.maxActive && p'.active.Keys <= p.active.Keys
    requires forall id :: id in p'.active ==>
      p'.active[id].sessions == p.active[id].sessions && p'.active[id].command == p.active[id].command
    ensures Exclusive(p')
  {
    hide TrimSpace;
    assert |p'.active.Keys| <= |p.active.Keys| by { SubsetSize(p'.active.Keys, p.active.Keys); }
  }

  lemma {:induction false} SubsetSize(a: set<string>, b: set<string>)
    requires a <= b
    ensures |a| <= |b|
  {
    if a != {} {
      var x :| x in a;
      SubsetSize(a - {x}, b - {x});
    }
  }

  // ----- approvals -----

  /** Asking for an approval and leaving it again restores a running run, unless something happened to it meanwhile. */
  lemma ApprovalRoundTrip(p: Proc, runId: string, approvalId: string)
    requires runId in p.active && p.active[runId].state == Running && approvalId !in p.active[runId].approvals
    ensures EndApproval(BeginApproval(p, runId, approvalId), runId, approvalId) == p
  {
    var run := p.active[runId];
    assert run.approvals[approvalId := None] - {approvalId} == run.approvals;
    assert p.active[runId := run] == p.active;
  }

  /** A stop that comes while the run waits for an approval is not lost when the approval is left. */
  lemma StopSurvivesApproval(p: Proc, runId: string, approvalId: string)
    requires runId in p.active
    ensures var p' := EndApproval(MarkStopping(BeginApproval(p, runId, approvalId), runId), runId, approvalId);
      runId in p'.active && p'.active[runId].state == Stopping && p'.active[runId].stopping
  {
  }

  /** The first decision stands, whatever is decided later. */
  lemma FirstDecisionStands(p: Proc, runId: string, approvalId: string, first: string, later: string)
    requires runId in p.active && approvalId in p.active[runId].approvals && p.active[runId].approvals[approvalId] == None
    ensures var p' := Decide(p, runId, approvalId, first);
      && runId in p'.active && approvalId in p'.active[runId].approvals
      && p'.active[runId].approvals[approvalId] == Some(first)
      && Decide(p', runId, approvalId, later) == p'
  {
  }
}
