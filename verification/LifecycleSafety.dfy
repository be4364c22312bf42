/** What every step of the command and run lifecycle keeps. */
module LifecycleSafety {
  import opened Text
  import opened Protocol
  import opened Lifecycle
  import Hub

  /** The steps. A rebuild is no transaction, so each of its statements is a step of its own. */
  datatype Step =
    | Save(id: string, command: Cmd, target: Option<string>, now: int)
    | Requeue(id: string, command: Cmd, holder: Option<string>, now: int)
    | ClaimOne(id: string, now: int)
    | Dispatched(id: string, now: int)
    | DispatchFailed(id: string)
    | Failed(id: string)
    | Expired(id: string)
    | Stopped(id: string)
    | Retry(id: string, expiresAt: int)
    | Acked(ack: Ack)
    | Event(i: Incoming)
    | ExpireAll(now: int)
    | Report(runId: string, at: int)
    | Miss(runId: string, was: string, at: int)
    | Link(runId: string, sessionId: string)
    | StartRebuild(runId: string)
    | ReplayCursor(e: RunEvent)
    | ReplaySession(runId: string, sessionId: string)
    | ReplayState(e: RunEvent)
    | ReplayCommand(e: RunEvent)

  ghost predicate Enabled(db: Db, step: Step) {
    match step
    case Save(id, c, target, now) =>
      StopsRun(c.kind) && Blank(c.runId) && !Blank(c.sessionId) ==> IsStopTarget(db.runs, c.sessionId, target)
    case Requeue(id, c, holder, now) => IsHolder(db.commands, c.idemKey, holder)
    case ClaimOne(id, now) => Claimable(db, id, now)
    case _ => true
  }

  function Apply(db: Db, step: Step): Db {
    match step
    case Save(id, c, target, now) => SaveCommand(db, id, c, target, now).db
    case Requeue(id, c, holder, now) =>
      if holder.Some? && holder.value !in db.commands then db else QueueApproval(db, id, c, holder, now).db
    case ClaimOne(id, now) => Claim(db, id, now)
    case Dispatched(id, now) => MarkDispatched(db, id, now)
    case DispatchFailed(id) => MarkDispatchFailed(db, id)
    case Failed(id) => MarkEnded(db, id, "failed")
    case Expired(id) => MarkEnded(db, id, "expired")
    case Stopped(id) => MarkEnded(db, id, "stopped")
    case Retry(id, expiresAt) => PrepareRetry(db, id, expiresAt).db
    case Acked(ack) => MarkCommandAck(db, ack).db
    case Event(i) => ApplyEvent(db, i).db
    case ExpireAll(now) => ExpireCommands(db, now)
    case Report(runId, at) => Reported(db, runId, at).db
    case Miss(runId, was, at) => Missing(db, runId, was, at)
    case Link(runId, sessionId) => LinkSession(db, runId, sessionId).db
    case StartRebuild(runId) => ClearRun(db, runId)
    case ReplayCursor(e) => AdvanceCursor(db, e).db
    case ReplaySession(runId, sessionId) => MoveRun(db, runId, sessionId).db
    case ReplayState(e) => ProjectRunState(db, e).db
    case ReplayCommand(e) => ProjectCommandState(db, e)
  }

  ghost predicate IsRun(db: Db, steps: seq<Step>)
    decreases |steps|
  {
    steps == [] || (Enabled(db, steps[0]) && IsRun(Apply(db, steps[0]), steps[1..]))
  }

  function Execute(db: Db, steps: seq<Step>): Db
    decreases |steps|
  {
    if steps == [] then db else Execute(Apply(db, steps[0]), steps[1..])
  }

  // ----- at most one active run per session -----

  /** The sessions occupied afterwards were occupied before, by the same runs. */
  ghost predicate NoNewActive(runs: map<string, Run>, runs': map<string, Run>) {
    forall id :: id in runs' && runs'[id].status in ACTIVE ==>
      id in runs && runs[id].status in ACTIVE && runs'[id].sessionId == runs[id].sessionId
  }

  lemma NoNewActiveKeeps(runs: map<string, Run>, runs': map<string, Run>)
    requires OneActive(runs) && NoNewActive(runs, runs')
    ensures OneActive(runs')
  {
  }

  lemma StopUndispatchedShrinks(db: Db, id: string, runId: string, k: string)
    ensures NoNewActive(db.runs, StopUndispatched(db, id, runId, k).runs)
  {
  }

  lemma CompleteStopKeepsRuns(db: Db, id: string, runId: string)
    ensures CompleteStop(db, id, runId).runs == db.runs
  {
  }

  lemma RequestStopKeeps(db: Db, id: string, c: Cmd, target: Option<string>, now: int)
    requires OneActive(db.runs)
    ensures OneActive(RequestStop(db, id, c, target, now).db.runs)
  {
    hide OneActive, TrimSpace, Blank, Undispatched, StopUndispatched, CompleteStop, RunsWith, NoNewActive;
    var bySession := Blank(c.runId) && !Blank(c.sessionId);
    var runId := if bySession && target.Some? then target.value else TrimSpace(c.runId);
    var db1 := if bySession && target.Some? then SetCommandRun(db, id, runId) else db;
    assert db1.runs == db.runs;
    CompleteStopKeepsRuns(db1, id, "");
    CompleteStopKeepsRuns(db1, id, runId);
    var u := Undispatched(db1, runId, now);
    if u.Some? {
      StopUndispatchedShrinks(db1, id, runId, u.value);
      NoNewActiveKeeps(db.runs, StopUndispatched(db1, id, runId, u.value).runs);
    }
  }

  lemma SaveKeeps(db: Db, id: string, command: Cmd, target: Option<string>, now: int)
    requires OneActive(db.runs)
    ensures OneActive(SaveCommand(db, id, command, target, now).db.runs)
  {
    hide OneActive, TrimSpace, RequestStop, MatchesIdempotency, KeyTaken, SessionFree, CreatesRun, StopsRun, QueuedRun;
    var c := command.(idemKey := TrimSpace(command.idemKey), status := "queued", createdAt := now,
      dispatchedAt := None, claimedUntil := None,
      expiresAt := if command.expiresAt.None? then Some(now + 3600) else command.expiresAt);
    RequestStopKeeps(db.(commands := db.commands[id := c]), id, c, target, now);
  }

  lemma EndRunsKeeps(runs: map<string, Run>, commandId: string, status: string)
    requires OneActive(runs)
    ensures OneActive(EndRunsOf(runs, commandId, status))
  {
    hide OneActive, TrimSpace, ToLower;
    NoNewActiveKeeps(runs, EndRunsOf(runs, commandId, status));
  }

  lemma AckKeeps(db: Db, ack: Ack)
    requires OneActive(db.runs)
    ensures OneActive(MarkCommandAck(db, ack).db.runs)
  {
    hide OneActive, TrimSpace, ToLower, Accepts, AckedStatus, EndRunsOf, CreatesRun, StopsRun, Settle, SetCommandRun,
      RunFits, Blank;
    if ack.commandId in db.commands {
      EndRunsKeeps(db.runs, ack.commandId, AckedStatus(ack));
      var c := db.commands[ack.commandId];
      var runId := OrElse(ack.runId, c.runId);
      NoNewActiveKeeps(db.runs, RunsWith(db.runs, runId, {"stopping"}, "stop_failed"));
      SettleKeepsRuns(db, ack.commandId, if Accepts(AckedStatus(ack)) then "done" else "stop_failed", runId);
    }
  }

  lemma SettleKeepsRuns(db: Db, id: string, to: string, runId: string)
    ensures SetCommandRun(Settle(db, id, to), id, runId).runs == db.runs
  {
  }

  lemma EventKeeps(db: Db, i: Incoming)
    requires OneActive(db.runs)
    ensures OneActive(ApplyEvent(db, i).db.runs)
  {
    hide OneActive, TrimSpace, Upsert, RunStatusFor, CommandStatusFor, Settle, ReportedSession;
    var e := i.event;
    var cursor := AdvanceCursor(db, e);
    var moved := MoveRun(cursor.db, e.runId, ReportedSession(i));
    var projected := ProjectRunState(moved.db, e);
    assert OneActive(cursor.db.runs) && OneActive(moved.db.runs) && OneActive(projected.db.runs);
    SettleKeeps(projected.db, e);
  }

  lemma SettleKeeps(db: Db, e: RunEvent)
    ensures ProjectCommandState(db, e).runs == db.runs
  {
    hide TrimSpace, CommandStatusFor;
  }

  lemma StepKeepsOneActive(db: Db, step: Step)
    requires OneActive(db.runs)
    ensures OneActive(Apply(db, step).runs)
  {
    hide OneActive, TrimSpace, SaveCommand, EndRunsOf, MarkCommandAck, ApplyEvent, SessionFree, CreatesRun, StopsRun, Settle,
      IsExpired, MissingStatus;
    match step
    case Save(id, c, target, now) => SaveKeeps(db, id, c, target, now);
    case Failed(id) => EndRunsKeeps(db.runs, id, "failed");
    case Expired(id) => EndRunsKeeps(db.runs, id, "expired");
    case Stopped(id) => EndRunsKeeps(db.runs, id, "stopped");
    case Acked(ack) => AckKeeps(db, ack);
    case Event(i) => EventKeeps(db, i);
    case ExpireAll(now) => NoNewActiveKeeps(db.runs, Apply(db, step).runs);
    case Miss(runId, was, at) => MissingKeeps(db, runId, was, at);
    case StartRebuild(runId) => NoNewActiveKeeps(db.runs, ClearRun(db, runId).runs);
    case ReplayCommand(e) => SettleKeeps(db, e);
    case _ =>
  }

  lemma MissingKeeps(db: Db, runId: string, was: string, at: int)
    requires OneActive(db.runs)
    ensures OneActive(Missing(db, runId, was, at).runs)
  {
    hide OneActive, TrimSpace;
    NoNewActiveKeeps(db.runs, Missing(db, runId, was, at).runs);
  }

  /** In every reachable state at most one run per non-empty session is active. */
  lemma {:induction false} OneActiveAlways(db: Db, steps: seq<Step>)
    requires OneActive(db.runs)
    ensures OneActive(Execute(db, steps).runs)
    decreases |steps|
  {
    hide OneActive, Apply;
    if steps != [] {
      StepKeepsOneActive(db, steps[0]);
      OneActiveAlways(Apply(db, steps[0]), steps[1..]);
    }
  }

  // ----- when the index rejects -----

  /** Giving one run a session and a status breaks the index exactly when that makes it active in a session where
      another run is. */
  lemma OneRunBreaksIff(runs: map<string, Run>, id: string, run: Run)
    requires OneActive(runs)
    ensures OneActive(runs[id := run]) <==> !(run.status in ACTIVE && run.sessionId != "" && Busy(runs, run.sessionId, id))
  {
    var runs' := runs[id := run];
    if run.status in ACTIVE && run.sessionId != "" && Busy(runs, run.sessionId, id) {
      var other :| other in runs && other != id && Occupies(runs[other], run.sessionId);
      assert Occupies(runs'[id], runs'[id].sessionId) && Occupies(runs'[other], runs'[id].sessionId);
    } else {
      forall a, b | a in runs' && b in runs' && a != b && Occupies(runs'[a], runs'[a].sessionId)
        ensures !Occupies(runs'[b], runs'[a].sessionId)
      {
        if a == id {
          assert runs'[b] == runs[b];
        } else if b == id {
          assert runs'[a] == runs[a];
          assert Occupies(run, runs[a].sessionId) ==> Busy(runs, run.sessionId, id);
        }
      }
    }
  }

  /** A new run-creating command that passes `SaveCommand`'s own check is rolled back by the index in one case only: its
      session id is made of white space, which the check takes for no session and the index for one. */
  lemma SaveRejectedByIndexIff(db: Db, id: string, c: Cmd, target: Option<string>, now: int)
    requires OneActive(db.runs) && CreatesRun(c.kind) && SessionFree(db.runs, c) && id !in db.commands
    requires Blank(c.idemKey) || !KeyTaken(db.commands, TrimSpace(c.idemKey))
    ensures !SaveCommand(db, id, c, target, now).ok <==>
      c.sessionId != "" && Blank(c.sessionId) && Busy(db.runs, c.sessionId, c.runId)
      && (c.runId in db.runs ==> db.runs[c.runId].status in ACTIVE)
  {
    hide OneActive, TrimSpace, RequestStop, MatchesIdempotency, KeyTaken, CreatesRun, StopsRun, Busy;
    var queued := c.(idemKey := TrimSpace(c.idemKey), status := "queued", createdAt := now,
      dispatchedAt := None, claimedUntil := None,
      expiresAt := if c.expiresAt.None? then Some(now + 3600) else c.expiresAt);
    var run := QueuedRun(db.runs, id, queued, now);
    OneRunBreaksIff(db.runs, c.runId, run);
    if c.runId in db.runs && db.runs[c.runId].status in ACTIVE && db.runs[c.runId].sessionId != "" {
      OwnSessionIsNotBusy(db.runs, c.runId);
    }
  }

  lemma OwnSessionIsNotBusy(runs: map<string, Run>, id: string)
    requires OneActive(runs) && id in runs && runs[id].status in ACTIVE && runs[id].sessionId != ""
    ensures !Busy(runs, runs[id].sessionId, id)
  {
  }

  /** So with a proper session id, or none, the index never undoes a `SaveCommand`. */
  lemma SaveIsNeverRolledBack(db: Db, id: string, c: Cmd, target: Option<string>, now: int)
    requires OneActive(db.runs) && CreatesRun(c.kind) && (c.sessionId == "" || !Blank(c.sessionId))
    ensures !SaveCommand(db, id, c, target, now).ok <==>
      if !Blank(c.idemKey) && KeyTaken(db.commands, TrimSpace(c.idemKey)) then
        !exists k :: k in db.commands && db.commands[k].idemKey == TrimSpace(c.idemKey) && MatchesIdempotency(db.commands[k], c)
      else !SessionFree(db.runs, c)
  {
    hide OneActive, RequestStop, KeyTaken, StopsRun, CreatesRun, SessionFree, TrimSpace, MatchesIdempotency, WriteRuns;
    if SessionFree(db.runs, c) && id !in db.commands && (Blank(c.idemKey) || !KeyTaken(db.commands, TrimSpace(c.idemKey))) {
      SaveRejectedByIndexIff(db, id, c, target, now);
    }
    SameMatches(db.commands, c, now);
  }

  lemma SameMatches(commands: map<string, Cmd>, c: Cmd, now: int)
    ensures var q := c.(idemKey := TrimSpace(c.idemKey), status := "queued", createdAt := now, dispatchedAt := None,
      claimedUntil := None, expiresAt := if c.expiresAt.None? then Some(now + 3600) else c.expiresAt);
      && (forall k :: k in commands ==> (MatchesIdempotency(commands[k], q) <==> MatchesIdempotency(commands[k], c)))
      && forall runs :: SessionFree(runs, q) <==> SessionFree(runs, c)
  {
    hide TrimSpace;
  }

  /** A retry that passes the check is rolled back exactly when the run has come to work in another session than its
      command names, or the command names none, and that session has another active run. */
  lemma RetryRejectedByIndexIff(db: Db, id: string, expiresAt: int)
    requires OneActive(db.runs) && id in db.commands && CreatesRun(db.commands[id].kind)
    requires SessionFree(db.runs, db.commands[id])
    ensures var c := db.commands[id];
      !PrepareRetry(db, id, expiresAt).ok <==>
      c.runId in db.runs && db.runs[c.runId].commandId == id && db.runs[c.runId].sessionId != ""
      && Busy(db.runs, db.runs[c.runId].sessionId, c.runId)
    ensures var c := db.commands[id];
      !PrepareRetry(db, id, expiresAt).ok && !Blank(c.sessionId) ==> db.runs[c.runId].sessionId != c.sessionId
  {
    hide OneActive, TrimSpace, BareKind, Busy;
    var c := db.commands[id];
    if c.runId in db.runs {
      OneRunBreaksIff(db.runs, c.runId, db.runs[c.runId].(status := "queued"));
    }
  }

  // ----- absorbing statuses -----

  /** A command's status if it has one. */
  function StatusOf(db: Db, id: string): Option<string> {
    if id in db.commands then Some(db.commands[id].status) else None
  }

  /** The terminal statuses that no step leaves. */
  predicate Absorbed(db: Db, id: string) {
    StatusOf(db, id) in {Some("done"), Some("stopped")}
  }

  predicate SameStatus(db: Db, db': Db, id: string) {
    StatusOf(db', id) == StatusOf(db, id)
  }

  lemma UpdatesKeep(db: Db, id: string, k: string, runId: string, from: set<string>, to: string)
    requires k in db.commands && db.commands[k].status in TERMINAL
    ensures SameStatus(db, Settle(db, id, to), k)
    ensures SameStatus(db, SetCommandRun(Settle(db, id, to), id, runId), k)
    ensures SameStatus(db, CompleteStop(db, id, runId), k)
    ensures db.commands[k].status !in from ==> SameStatus(db, SetStatus(db, id, from, to), k)
    ensures SameStatus(db, SetCommandRun(db, id, runId), k)
  {
  }

  lemma RequestStopKeepsTerminal(db: Db, id: string, c: Cmd, target: Option<string>, now: int, k: string)
    requires k in db.commands && db.commands[k].status in TERMINAL
    ensures SameStatus(db, RequestStop(db, id, c, target, now).db, k)
  {
    hide TrimSpace, OneActive, SetStatus, CompleteStop, SetCommandRun, Unclaimed, RunsWith;
    var bySession := Blank(c.runId) && !Blank(c.sessionId);
    var runId := if bySession && target.Some? then target.value else TrimSpace(c.runId);
    var db1 := if bySession && target.Some? then SetCommandRun(db, id, runId) else db;
    UpdatesKeep(db, id, k, runId, {}, "");
    UpdatesKeep(db1, id, k, "", {}, "");
    UpdatesKeep(db1, id, k, runId, {}, "");
    var u := Undispatched(db1, runId, now);
    if u.Some? {
      UpdatesKeep(db1, u.value, k, "", {"queued", "dispatch_failed"}, "stopped");
      var stopped := SetStatus(db1, u.value, {"queued", "dispatch_failed"}, "stopped");
      var ended := stopped.(runs := RunsWith(stopped.runs, runId, {"queued"}, "stopped"));
      UpdatesKeep(ended, id, k, runId, {}, "");
    }
  }

  lemma SaveKeepsTerminal(db: Db, id: string, command: Cmd, target: Option<string>, now: int, k: string)
    requires k in db.commands && db.commands[k].status in TERMINAL
    ensures SameStatus(db, SaveCommand(db, id, command, target, now).db, k)
  {
    hide TrimSpace, OneActive, RequestStop, MatchesIdempotency, KeyTaken, SessionFree, CreatesRun, StopsRun, QueuedRun;
    var c := command.(idemKey := TrimSpace(command.idemKey), status := "queued", createdAt := now,
      dispatchedAt := None, claimedUntil := None,
      expiresAt := if command.expiresAt.None? then Some(now + 3600) else command.expiresAt);
    if id !in db.commands {
      RequestStopKeepsTerminal(db.(commands := db.commands[id := c]), id, c, target, now, k);
    }
  }

  lemma AckStopKeepsTerminal(db: Db, ack: Ack, k: string)
    requires k in db.commands && db.commands[k].status in TERMINAL && ack.commandId in db.commands
    ensures SameStatus(db, AckStop(db, ack).db, k)
  {
    hide OneActive, Accepts, AckedStatus, RunsWith;
    var runId := OrElse(ack.runId, db.commands[ack.commandId].runId);
    UpdatesKeep(db, ack.commandId, k, runId, {}, if Accepts(AckedStatus(ack)) then "done" else "stop_failed");
  }

  lemma AckKeepsTerminal(db: Db, ack: Ack, k: string)
    requires k in db.commands && db.commands[k].status in TERMINAL
    ensures SameStatus(db, MarkCommandAck(db, ack).db, k)
  {
    hide OneActive, EndRunsOf, CreatesRun, StopsRun, AckedStatus, Accepts, RunsWith, AckStop;
    if ack.commandId in db.commands {
      AckStopKeepsTerminal(db, ack, k);
    }
  }

  lemma EventKeepsTerminal(db: Db, i: Incoming, k: string)
    requires k in db.commands && db.commands[k].status in TERMINAL
    ensures SameStatus(db, ApplyEvent(db, i).db, k)
  {
    hide TrimSpace, OneActive, Upsert, RunStatusFor, CommandStatusFor, ReportedSession;
    var e := i.event;
    var cursor := AdvanceCursor(db, e);
    var moved := MoveRun(cursor.db, e.runId, ReportedSession(i));
    assert SameStatus(db, moved.db, k);
    var projected := ProjectRunState(moved.db, e);
    assert SameStatus(db, projected.db, k);
  }

  /** The commands whose status no step but a requeue may change. */
  predicate Settled(db: Db, k: string) {
    StatusOf(db, k) in {Some("done"), Some("stopped"), Some("rejected")}
  }

  lemma DispatchKeepsTerminal(db: Db, step: Step, k: string)
    requires Settled(db, k) && (step.ClaimOne? || step.Dispatched? || step.DispatchFailed?)
    ensures SameStatus(db, Apply(db, step), k)
  {
  }

  lemma EndingKeepsTerminal(db: Db, id: string, status: string, k: string)
    requires Settled(db, k)
    ensures SameStatus(db, MarkEnded(db, id, status), k)
  {
    hide EndRunsOf;
  }

  lemma RetryKeepsTerminal(db: Db, id: string, expiresAt: int, k: string)
    requires Settled(db, k)
    ensures SameStatus(db, PrepareRetry(db, id, expiresAt).db, k)
  {
    hide OneActive, SessionFree, CreatesRun, StopsRun, TrimSpace, RunsWith;
  }

  lemma ReportKeepsTerminal(db: Db, step: Step, k: string)
    requires Settled(db, k) && (step.ExpireAll? || step.Report? || step.Miss? || step.Link?)
    ensures SameStatus(db, Apply(db, step), k)
  {
    hide OneActive, TrimSpace;
  }

  lemma ProjectCommandKeepsTerminal(db: Db, e: RunEvent, k: string)
    requires Settled(db, k)
    ensures SameStatus(db, ProjectCommandState(db, e), k)
  {
    hide TrimSpace, CommandStatusFor;
  }

  lemma ReplayKeepsTerminal(db: Db, step: Step, k: string)
    requires Settled(db, k)
    requires step.StartRebuild? || step.ReplayCursor? || step.ReplaySession? || step.ReplayState? || step.ReplayCommand?
    ensures SameStatus(db, Apply(db, step), k)
  {
    hide OneActive, Upsert, RunStatusFor, ProjectCommandState;
    if step.ReplayCommand? {
      ProjectCommandKeepsTerminal(db, step.e, k);
    }
  }

  /** No step changes `done` or `stopped`, and only the requeue of an approval decision changes `rejected`. */
  lemma StepKeepsTerminal(db: Db, step: Step, k: string)
    requires Enabled(db, step) && (Absorbed(db, k) || (StatusOf(db, k) == Some("rejected") && !step.Requeue?))
    ensures SameStatus(db, Apply(db, step), k)
  {
    hide OneActive, SaveCommand, MarkCommandAck, ApplyEvent, MarkEnded, PrepareRetry, QueueApproval, Claim, MarkDispatched,
      MarkDispatchFailed, ExpireCommands, Reported, Missing, LinkSession, Claimable, IsStopTarget, CreatesRun, StopsRun, TrimSpace,
      ClearRun, AdvanceCursor, MoveRun, ProjectRunState, ProjectCommandState;
    match step
    case Save(id, c, target, now) => SaveKeepsTerminal(db, id, c, target, now, k);
    case Requeue(id, c, holder, now) => RequeueKeepsAbsorbed(db, id, c, holder, now, k);
    case Failed(id) => EndingKeepsTerminal(db, id, "failed", k);
    case Expired(id) => EndingKeepsTerminal(db, id, "expired", k);
    case Stopped(id) => EndingKeepsTerminal(db, id, "stopped", k);
    case Retry(id, expiresAt) => RetryKeepsTerminal(db, id, expiresAt, k);
    case Acked(ack) => AckKeepsTerminal(db, ack, k);
    case Event(i) => EventKeepsTerminal(db, i, k);
    case ClaimOne(_, _) => DispatchKeepsTerminal(db, step, k);
    case Dispatched(_, _) => DispatchKeepsTerminal(db, step, k);
    case DispatchFailed(_) => DispatchKeepsTerminal(db, step, k);
    case ExpireAll(_) => ReportKeepsTerminal(db, step, k);
    case Report(_, _) => ReportKeepsTerminal(db, step, k);
    case Miss(_, _, _) => ReportKeepsTerminal(db, step, k);
    case Link(_, _) => ReportKeepsTerminal(db, step, k);
    case _ => ReplayKeepsTerminal(db, step, k);
  }

  lemma RequeueKeepsAbsorbed(db: Db, id: string, c: Cmd, holder: Option<string>, now: int, k: string)
    requires Absorbed(db, k) && (holder.Some? ==> holder.value in db.commands)
    ensures SameStatus(db, QueueApproval(db, id, c, holder, now).db, k)
  {
    hide TrimSpace;
    assert !Requeueable("done") && !Requeueable("stopped") by { FinalIsNotRequeueable(); }
  }

  lemma FinalIsNotRequeueable()
    ensures !Requeueable("done") && !Requeueable("stopped")
  {
    assert TrimSpace("done") == "done" && TrimSpace("stopped") == "stopped";
    assert ToLower("done") == "done" && ToLower("stopped") == "stopped";
  }

  lemma {:induction false} AbsorbedForEver(db: Db, steps: seq<Step>, id: string)
    requires IsRun(db, steps) && Absorbed(db, id)
    ensures SameStatus(db, Execute(db, steps), id)
    decreases |steps|
  {
    hide Apply, Enabled;
    if steps != [] {
      StepKeepsTerminal(db, steps[0], id);
      AbsorbedForEver(Apply(db, steps[0]), steps[1..], id);
    }
  }

  predicate HasRequeue(steps: seq<Step>) {
    exists i :: 0 <= i < |steps| && steps[i].Requeue?
  }

  lemma {:induction false} RejectedUntilRequeued(db: Db, steps: seq<Step>, id: string)
    requires IsRun(db, steps) && StatusOf(db, id) == Some("rejected") && !HasRequeue(steps)
    ensures SameStatus(db, Execute(db, steps), id)
    decreases |steps|
  {
    hide Apply, Enabled;
    if steps != [] {
      assert !steps[0].Requeue?;
      StepKeepsTerminal(db, steps[0], id);
      assert forall i :: 0 <= i < |steps| - 1 ==> steps[1..][i] == steps[i + 1];
      RejectedUntilRequeued(Apply(db, steps[0]), steps[1..], id);
    }
  }

  // ----- a stop before dispatch -----

  /** A stop of a run whose command was never sent, and is not just being claimed, stops that command on the spot. */
  lemma StopBeforeDispatch(db: Db, id: string, c: Cmd, target: Option<string>, now: int, k: string)
    requires id in db.commands && !Blank(c.runId) && Undispatched(db, TrimSpace(c.runId), now) == Some(k)
    ensures var tx := RequestStop(db, id, c, target, now);
      && tx.ok && StatusOf(tx.db, k) == Some("stopped") && tx.db.runs[TrimSpace(c.runId)].status == "stopped"
      && (k != id && db.commands[id].status !in TERMINAL ==> StatusOf(tx.db, id) == Some("done"))
  {
    hide TrimSpace, Unclaimed;
  }

  /** And from then on no claim ever hands that command out, over every run of steps. */
  lemma StoppedIsNeverClaimed(db: Db, steps: seq<Step>, k: string, now: int)
    requires IsRun(db, steps) && StatusOf(db, k) == Some("stopped")
    ensures !Claimable(Execute(db, steps), k, now) && !Redispatchable(Execute(db, steps), k, now)
    ensures forall n, claimed :: TakesOldest(Execute(db, steps), n, now, claimed) ==> k !in claimed
  {
    AbsorbedForEver(db, steps, k);
  }

  // ----- claims -----

  /** While a dispatch is delegated or finds no connection, its claim keeps every other claimant away for thirty
      seconds; exactly the other outcomes release it and leave the command in a status that says what happened. */
  lemma DispatchKeepsOrReleasesClaim(db: Db, id: string, now: int, later: int, checks: Checks, delivery: Hub.Status)
    requires Claimable(db, id, now)
    ensures var db' := ClaimAndDispatch(db, id, now, later, checks, delivery); var c' := db'.commands[id];
      && (c'.claimedUntil.Some? <==>
          delivery in {Hub.Delegated, Hub.Unavailable} && checks == Checks(true, true, true)
          && Dispatchable(db, id) && (c'.expiresAt.None? || c'.expiresAt.value >= later))
      && (c'.claimedUntil.Some? ==> c'.status == db.commands[id].status)
      && (c'.claimedUntil.Some? ==> forall t :: t <= now + 30 ==> !Claimable(db', id, t))
      && (c'.claimedUntil.None? ==> c'.status in {"dispatched", "dispatch_failed", "failed", "expired", "stopped"})
  {
    hide CreatesRun, EndRunsOf, TrimSpace;
  }

  // ----- what one step undoes -----

  /** The only run of the command, and it waits for the command to be sent. */
  ghost predicate WaitsFor(db: Db, r: string, id: string) {
    && id in db.commands && CreatesRun(db.commands[id].kind) && db.commands[id].runId == r && !Blank(id)
    && r in db.runs && db.runs[r].commandId == id && db.runs[r].status == "queued"
    && forall k :: k in db.runs && db.runs[k].commandId == id ==> k == r
  }

  lemma StatusWords(status: string)
    requires status in {"failed", "expired"}
    ensures ToLower(TrimSpace(status)) == status
  {
    assert TrimSpace(status) == status;
  }

  /** A retry undoes the failure or the expiry of a command that was never accepted: the command is queued and the runs
      are what they were. */
  lemma RetryUndoesFailure(db: Db, id: string, r: string, status: string, expiresAt: int)
    requires OneActive(db.runs) && WaitsFor(db, r, id) && db.commands[id].status in PENDING
    requires status in {"failed", "expired"} && SessionFree(db.runs, db.commands[id])
    ensures var ended := MarkEnded(db, id, status); var tx := PrepareRetry(ended, id, expiresAt);
      && StatusOf(ended, id) == Some(status) && r in ended.runs && ended.runs[r].status == status
      && tx.ok && StatusOf(tx.db, id) == Some("queued") && tx.db.runs == db.runs
  {
    hide TrimSpace, ToLower, BareKind, OneActive, Busy;
    StatusWords(status);
    var ended := MarkEnded(db, id, status);
    assert ended.runs == db.runs[r := db.runs[r].(status := status)];
    assert ended.runs[r := ended.runs[r].(status := "queued")] == db.runs;
    SessionStaysFree(db.runs, r, status, db.commands[id]);
  }

  lemma SessionStaysFree(runs: map<string, Run>, r: string, status: string, c: Cmd)
    requires r in runs && SessionFree(runs, c) && status !in ACTIVE
    ensures SessionFree(runs[r := runs[r].(status := status)], c)
  {
    hide TrimSpace;
  }

  /** An answered stop: accepted, it is done and the run is stopping; refused, both fail, and a retry puts the command
      back in the queue and the run back to work. */
  lemma StopAnswers(db: Db, ack: Ack, r: string, expiresAt: int)
    requires OneActive(db.runs) && ack.commandId in db.commands && StopsRun(db.commands[ack.commandId].kind)
    requires var c := db.commands[ack.commandId];
      c.runId == r && !Blank(r) && ack.runId in {"", r} && c.status !in TERMINAL
    requires r in db.runs && db.runs[r].status == "stopping"
    ensures var id, tx := ack.commandId, AckStop(db, ack);
      && tx.ok && r in tx.db.runs
      && (Accepts(AckedStatus(ack)) ==> StatusOf(tx.db, id) == Some("done") && tx.db.runs == db.runs)
      && (!Accepts(AckedStatus(ack)) ==>
        StatusOf(tx.db, id) == Some("stop_failed") && tx.db.runs[r].status == "stop_failed")
    ensures var id, tx := ack.commandId, AckStop(db, ack);
      !Accepts(AckedStatus(ack)) ==>
        var retried := PrepareRetry(tx.db, id, expiresAt);
        retried.ok && StatusOf(retried.db, id) == Some("queued") && retried.db.runs == db.runs[r := db.runs[r].(status := "running")]
  {
    hide TrimSpace, BareKind, OneActive, Busy, Accepts, AckedStatus;
    EmptyIsBlank();
    var run := db.runs[r];
    assert db.runs[r := run.(status := "stopping")] == db.runs;
    OneRunBreaksIff(db.runs, r, run.(status := "running"));
    if run.sessionId != "" {
      OwnSessionIsNotBusy(db.runs, r);
    }
    var failed := db.runs[r := run.(status := "stop_failed")];
    assert failed[r := failed[r].(status := "running")] == db.runs[r := run.(status := "running")];
    assert !CreatesRun(db.commands[ack.commandId].kind) by { StopCreatesNoRun(db.commands[ack.commandId].kind); }
  }

  lemma EmptyIsBlank()
    ensures Blank("")
  {
  }

  lemma StopCreatesNoRun(kind: string)
    requires StopsRun(kind)
    ensures !CreatesRun(kind)
  {
    hide BareKind;
  }

  // ----- the bulk steps -----

  /** Expiring everything at once treats each overdue command, and the runs waiting for it, as `MarkCommandExpired` would,
      and nothing else changes. */
  lemma ExpiryIsOneByOne(db: Db, now: int, id: string)
    requires id in db.commands && !Blank(id)
    ensures var all, one := ExpireCommands(db, now), MarkEnded(db, id, "expired");
      && id in all.commands && id in one.commands
      && all.commands[id] == (if IsExpired(db.commands[id], now) then one.commands[id] else db.commands[id])
      && forall r :: r in db.runs && db.runs[r].commandId == id ==>
        r in all.runs && r in one.runs
        && all.runs[r] == if IsExpired(db.commands[id], now) then one.runs[r] else db.runs[r]
  {
    hide TrimSpace, ToLower;
    StatusWords("expired");
  }

  lemma {:induction false} ReportsRefresh(db: Db, named: seq<string>, at: int, r: string)
    requires ReportAll(db, named, at).ok
    ensures var db' := ReportAll(db, named, at).db;
      r in named && r in db'.runs && Overdue(db'.runs[r], at) ==> db'.runs[r].status == "stopping"
  {
    hide OneActive;
    if named != [] {
      var init := named[..|named| - 1];
      assert named == init + [named[|named| - 1]];
      ReportsRefresh(db, init, at, r);
    }
  }

  /** Runs that are not listed keep their rows; listed ones are no longer overdue. */
  lemma {:induction false} MissingAreEnded(db: Db, missing: seq<Candidate>, at: int, r: string)
    ensures var db' := MissAll(db, missing, at);
      && db'.runs.Keys == db.runs.Keys
      && (r in db.runs && (forall m :: m in missing ==> m.runId != r) ==> db'.runs[r] == db.runs[r])
      && (r in db.runs && (exists m :: m in missing && m.runId == r) ==> !Overdue(db'.runs[r], at))
  {
    hide TrimSpace, Settle;
    if missing != [] {
      var init, last := missing[..|missing| - 1], missing[|missing| - 1];
      assert missing == init + [last];
      MissingAreEnded(db, init, at, r);
      SettleRuns(MissAll(db, init, at), last, at);
    }
  }

  lemma SettleRuns(db: Db, m: Candidate, at: int)
    ensures var db' := Missing(db, m.runId, m.status, at);
      && db'.runs.Keys == db.runs.Keys
      && (forall r :: r in db.runs && r != m.runId ==> db'.runs[r] == db.runs[r])
      && (m.runId in db.runs ==> !Overdue(db'.runs[m.runId], at))
  {
    hide TrimSpace;
  }

  /** After a heartbeat no run is overdue, except that a run which is stopping may be named by the agent and wait on. */
  lemma HeartbeatLeavesNoneOverdue(db: Db, named: seq<string>, at: int, now: int, missing: seq<Candidate>)
    requires ReportAll(db, named, at).ok
    requires ListsMissing(ReportAll(db, named, at).db.runs, Names(named), at, missing)
    ensures var db' := ExpireCommands(MissAll(ReportAll(db, named, at).db, missing, at), now);
      forall r :: r in db'.runs && Overdue(db'.runs[r], at) ==> r in named && db'.runs[r].status == "stopping"
  {
    hide TrimSpace, ReportAll, MissAll, IsExpired;
    var reported := ReportAll(db, named, at).db;
    var missed := MissAll(reported, missing, at);
    forall r | r in missed.runs && Overdue(missed.runs[r], at)
      ensures r in named && missed.runs[r].status == "stopping"
    {
      MissingAreEnded(reported, missing, at, r);
      ReportsRefresh(db, named, at, r);
      assert reported.runs[r] == missed.runs[r];
      var c := Candidate(r, reported.runs[r].status);
      assert c in missing <==> Overdue(reported.runs[r], at) && r !in named;
    }
  }
}
