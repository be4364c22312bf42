/** The lifecycle steps as the server's store executes them: statement by statement over its two tables. */
module LifecycleStore {
  import opened Text
  import opened Protocol
  import Hub
  import opened Lifecycle

  class Store {
    var commands: map<string, Cmd>
    var runs: map<string, Run>

    ghost function Snapshot(): Db
      reads this
    {
      Db(commands, runs)
    }

    constructor ()
      ensures Snapshot() == Db(map[], map[])
    {
      commands, runs := map[], map[];
    }

    /** One statement on the runs, as far as the index lets it. */
    method TryRuns(next: map<string, Run>) returns (ok: bool)
      modifies this`runs
      ensures Tx(Snapshot(), ok) == WriteRuns(old(Snapshot()), next)
    {
      ok := OneActive(next);
      if ok {
        runs := next;
      }
    }

    method SettleCommand(id: string, to: string)
      modifies this`commands
      ensures Snapshot() == Settle(old(Snapshot()), id, to)
    {
      if id in commands && commands[id].status !in TERMINAL {
        commands := commands[id := commands[id].(status := to, claimedUntil := None)];
      }
    }

    method UpdateStatus(id: string, from: set<string>, to: string)
      modifies this`commands
      ensures Snapshot() == SetStatus(old(Snapshot()), id, from, to)
    {
      if id in commands && commands[id].status in from {
        commands := commands[id := commands[id].(status := to, claimedUntil := None)];
      }
    }

    // ----- queueing -----

    method FindActive(sessionId: string, except: string) returns (found: Option<string>)
      ensures found.None? <==> !Busy(runs, sessionId, except)
    {
      var pending := runs.Keys;
      while pending != {}
        invariant pending <= runs.Keys
        invariant forall id :: id in runs && id !in pending && id != except ==> !Occupies(runs[id], sessionId)
        decreases pending
      {
        var id :| id in pending;
        if id != except && Occupies(runs[id], sessionId) {
          return Some(id);
        }
        pending := pending - {id};
      }
      return None;
    }

    /** `ORDER BY started_at DESC LIMIT 1` over the stoppable runs of a session. */
    method FindStoppable(sessionId: string) returns (target: Option<string>)
      ensures IsStopTarget(runs, sessionId, target)
    {
      target := None;
      var pending := runs.Keys;
      while pending != {}
        invariant pending <= runs.Keys
        invariant target.Some? ==> target.value in runs
        invariant target.Some? ==> runs[target.value].sessionId == sessionId && runs[target.value].status in STOPPABLE
        invariant forall id :: id in runs && id !in pending && runs[id].sessionId == sessionId && runs[id].status in STOPPABLE ==>
          target.Some? && runs[id].startedAt <= runs[target.value].startedAt
        decreases pending
      {
        var id :| id in pending;
        if runs[id].sessionId == sessionId && runs[id].status in STOPPABLE
          && (target.None? || runs[target.value].startedAt < runs[id].startedAt) {
          target := Some(id);
        }
        pending := pending - {id};
      }
    }

    method CompleteStopCommand(id: string, runId: string)
      modifies this`commands
      ensures Snapshot() == CompleteStop(old(Snapshot()), id, runId)
    {
      if id in commands && commands[id].status !in TERMINAL {
        var c := commands[id].(status := "done", claimedUntil := None);
        if runId != "" {
          c := c.(runId := runId);
        }
        commands := commands[id := c];
      }
    }

    method StopUndispatchedRun(id: string, runId: string, now: int) returns (stopped: bool)
      modifies this
      ensures stopped <==> Undispatched(old(Snapshot()), runId, now).Some?
      ensures Snapshot() == if stopped
        then StopUndispatched(old(Snapshot()), id, runId, Undispatched(old(Snapshot()), runId, now).value)
        else old(Snapshot())
    {
      hide TrimSpace;
      if runId !in runs || runs[runId].status != "queued" {
        return false;
      }
      var k := runs[runId].commandId;
      if Blank(k) {
        return false;
      }
      if k !in commands || commands[k].status !in {"queued", "dispatch_failed"} || !Unclaimed(commands[k], now) {
        return false;
      }
      UpdateStatus(k, {"queued", "dispatch_failed"}, "stopped");
      runs := runs[runId := runs[runId].(status := "stopped")];
      CompleteStopCommand(id, runId);
      return true;
    }

    method MarkStopRequested(id: string, c: Cmd, now: int) returns (ok: bool, ghost target: Option<string>)
      requires id in commands
      modifies this
      ensures Blank(c.runId) && !Blank(c.sessionId) ==> IsStopTarget(old(runs), c.sessionId, target)
      ensures Tx(Snapshot(), ok) == RequestStop(old(Snapshot()), id, c, target, now)
    {
      hide TrimSpace, Undispatched, OneActive, StopUndispatched, IsStopTarget, CompleteStop;
      var runId := TrimSpace(c.runId);
      target := None;
      if runId == "" && !Blank(c.sessionId) {
        var found := FindStoppable(c.sessionId);
        target := found;
        if found.None? {
          CompleteStopCommand(id, "");
          return true, target;
        }
        StopTargetIsRun(runs, c.sessionId, found.value);
        runId := found.value;
        if runId != "" {
          commands := commands[id := commands[id].(runId := runId)];
        }
      }
      if runId == "" {
        CompleteStopCommand(id, "");
        return true, target;
      }
      var stopped := StopUndispatchedRun(id, runId, now);
      if stopped {
        return true, target;
      }
      if runId in runs && runs[runId].status in STOPPABLE {
        ok := TryRuns(RunsWith(runs, runId, STOPPABLE, "stopping"));
        return ok, target;
      }
      CompleteStopCommand(id, runId);
      return true, target;
    }

    method SaveCommand(id: string, command: Cmd, now: int) returns (ok: bool, ghost target: Option<string>)
      modifies this
      ensures StopsRun(command.kind) && Blank(command.runId) && !Blank(command.sessionId) && id !in old(commands)
        && !(!Blank(command.idemKey) && KeyTaken(old(commands), TrimSpace(command.idemKey)))
        ==> IsStopTarget(old(runs), command.sessionId, target)
      ensures Tx(Snapshot(), ok) == Lifecycle.SaveCommand(old(Snapshot()), id, command, target, now)
    {
      hide TrimSpace, OneActive, RequestStop, BareKind, IsStopTarget, MatchesIdempotency;
      target := None;
      var c := command.(idemKey := TrimSpace(command.idemKey), status := "queued", createdAt := now,
        dispatchedAt := None, claimedUntil := None);
      if c.expiresAt.None? {
        c := c.(expiresAt := Some(now + 3600));
      }
      if c.idemKey != "" && KeyTaken(commands, c.idemKey) {
        ok := exists k :: k in commands && commands[k].idemKey == c.idemKey && MatchesIdempotency(commands[k], c);
        return ok, target;
      }
      if CreatesRun(c.kind) && !Blank(c.sessionId) {
        var active := FindActive(c.sessionId, c.runId);
        if active.Some? {
          return false, target;
        }
      }
      if id in commands {
        return true, target;
      }
      var commands0, runs0 := commands, runs;
      commands := commands[id := c];
      if CreatesRun(c.kind) {
        ok := TryRuns(runs[c.runId := QueuedRun(runs, id, c, now)]);
      } else if StopsRun(c.kind) {
        ok, target := MarkStopRequested(id, c, now);
      } else {
        ok := true;
      }
      if !ok {
        commands, runs := commands0, runs0;
      }
    }

    method PrepareCommandRetry(id: string, expiresAt: int) returns (ok: bool)
      modifies this
      ensures Tx(Snapshot(), ok) == PrepareRetry(old(Snapshot()), id, expiresAt)
    {
      hide TrimSpace, OneActive, BareKind;
      if id !in commands {
        return true;
      }
      var c := commands[id];
      if CreatesRun(c.kind) && !Blank(c.sessionId) {
        var active := FindActive(c.sessionId, c.runId);
        if active.Some? {
          return false;
        }
      }
      var commands0, runs0 := commands, runs;
      if c.status in RETRYABLE {
        commands := commands[id := c.(status := "queued", expiresAt := Some(expiresAt), claimedUntil := None)];
      }
      ok := true;
      if CreatesRun(c.kind) && c.runId in runs && runs[c.runId].commandId == id {
        ok := TryRuns(runs[c.runId := runs[c.runId].(status := "queued")]);
      } else if StopsRun(c.kind) && !Blank(c.runId) {
        ok := TryRuns(RunsWith(runs, c.runId, {"stale", "stop_failed"}, "running"));
      }
      if !ok {
        commands, runs := commands0, runs0;
      }
    }

    // ----- claims -----

    /** `ORDER BY created_at LIMIT n`: up to `limit` claimable commands, oldest first, each marked for 30 seconds. */
    method ClaimPendingCommands(limit: int, now: int) returns (claimed: seq<string>)
      modifies this`commands
      ensures TakesOldest(old(Snapshot()), if limit <= 0 || limit > 100 then 50 else limit, now, claimed)
      ensures Snapshot() == ClaimAll(old(Snapshot()), claimed, now)
    {
      var n := if limit <= 0 || limit > 100 then 50 else limit;
      claimed := [];
      var open := set id | id in commands && Claimable(Db(commands, runs), id, now);
      while open != {} && |claimed| < n
        invariant |claimed| <= n && commands == old(commands)
        invariant forall id :: Claimable(Snapshot(), id, now) <==> id in open || id in claimed
        invariant forall id :: id in claimed ==> id in commands && id !in open
        invariant forall i, j :: 0 <= i < j < |claimed| ==>
          claimed[i] != claimed[j] && NotNewer(commands, claimed[i], claimed[j])
        invariant forall id, k :: id in open && k in claimed ==> NotNewer(commands, k, id)
        decreases open
      {
        var id := Oldest(open);
        claimed := claimed + [id];
        open := open - {id};
      }
      commands := map id | id in commands ::
        if id in claimed then commands[id].(claimedUntil := Some(now + 30)) else commands[id];
    }

    method Oldest(ids: set<string>) returns (id: string)
      requires ids != {} && ids <= commands.Keys
      ensures id in ids && forall k :: k in ids ==> NotNewer(commands, id, k)
    {
      id :| id in ids;
      var pending := ids - {id};
      while pending != {}
        invariant id in ids && pending <= ids
        invariant forall k :: k in ids && k !in pending ==> commands[id].createdAt <= commands[k].createdAt
        decreases pending
      {
        var k :| k in pending;
        if commands[k].createdAt < commands[id].createdAt {
          id := k;
        }
        pending := pending - {k};
      }
    }

    method ClaimCommand(id: string, now: int) returns (claimed: bool)
      modifies this`commands
      ensures claimed <==> Claimable(old(Snapshot()), id, now)
      ensures Snapshot() == if claimed then Claim(old(Snapshot()), id, now) else old(Snapshot())
    {
      hide BareKind;
      claimed := Claimable(Db(commands, runs), id, now);
      if claimed {
        commands := commands[id := commands[id].(claimedUntil := Some(now + 30))];
      }
    }

    /** A message is only sent for a command that was claimed and passed every check, and the command's status tells
        what became of it. */
    method ClaimAndDispatchCommand(id: string, now: int, later: int, checks: Checks, delivery: Hub.Status)
      returns (sent: bool)
      modifies this
      ensures Snapshot() == ClaimAndDispatch(old(Snapshot()), id, now, later, checks, delivery)
      ensures sent ==> Claimable(old(Snapshot()), id, now) && checks == Checks(true, true, true) && delivery == Hub.Delivered
      ensures sent ==> id in commands && commands[id].status == "dispatched"
    {
      hide Claimable, Dispatchable, EndRunsOf;
      var claimed := ClaimCommand(id, now);
      if !claimed {
        return false;
      }
      ClaimedIsPending(old(Snapshot()), id, now);
      var expiresAt := commands[id].expiresAt;
      if !checks.access {
        MarkCommandEnded(id, "failed");
        return false;
      }
      if !Dispatchable(Db(commands, runs), id) {
        MarkCommandEnded(id, "stopped");
        return false;
      }
      if expiresAt.Some? && expiresAt.value < later {
        MarkCommandEnded(id, "expired");
        return false;
      }
      if !checks.allowed || !checks.encodes {
        MarkCommandEnded(id, "failed");
        return false;
      }
      match delivery
      case Delivered =>
        MarkCommandDispatched(id, later);
        return true;
      case QueueFull =>
        UpdateStatus(id, PENDING, "dispatch_failed");
        return false;
      case _ =>
        return false;
    }

    method MarkCommandDispatched(id: string, now: int)
      modifies this`commands
      ensures Snapshot() == MarkDispatched(old(Snapshot()), id, now)
    {
      if id in commands && commands[id].status in PENDING {
        commands := commands[id := commands[id].(status := "dispatched", dispatchedAt := Some(now), claimedUntil := None)];
      }
    }

    method MarkCommandEnded(id: string, status: string)
      modifies this
      ensures Snapshot() == MarkEnded(old(Snapshot()), id, status)
    {
      hide TrimSpace, ToLower;
      UpdateStatus(id, PENDING + {"failed", "expired"} + if status == "stopped" then {"stopped"} else {}, status);
      runs := EndRunsOf(runs, id, status);
    }

    // ----- answers and events -----

    method MarkCommandAck(ack: Ack) returns (ok: bool)
      modifies this
      ensures Tx(Snapshot(), ok) == Lifecycle.MarkCommandAck(old(Snapshot()), ack)
    {
      hide TrimSpace, ToLower, BareKind, OneActive;
      if ack.commandId == "" || ack.commandId !in commands {
        return true;
      }
      if StopsRun(commands[ack.commandId].kind) {
        ok := MarkStopCommandAck(ack);
        return;
      }
      var c, status := commands[ack.commandId], AckedStatus(ack);
      var accepted := Accepts(status);
      if c.status !in TERMINAL && RunFits(c, ack.runId) {
        var keeps := accepted && c.status in {"running", "awaiting_approval"};
        commands := commands[ack.commandId := c.(claimedUntil := None, status := if keeps then c.status else status)];
      }
      if !accepted {
        runs := EndRunsOf(runs, ack.commandId, status);
        return true;
      }
      var runId := if ack.runId != "" then ack.runId else c.runId;
      if !CreatesRun(c.kind) || runId == "" || runId !in runs || runs[runId].commandId != ack.commandId {
        return true;
      }
      ok := TryRuns(RunsWith(runs, runId, {"queued", "stale"}, "accepted"));
    }

    method MarkStopCommandAck(ack: Ack) returns (ok: bool)
      requires ack.commandId in commands
      modifies this
      ensures Tx(Snapshot(), ok) == AckStop(old(Snapshot()), ack)
    {
      hide TrimSpace, ToLower, OneActive;
      var accepted := Accepts(AckedStatus(ack));
      var c := commands[ack.commandId];
      var runId := if ack.runId != "" then ack.runId else c.runId;
      var commands0, runs0 := commands, runs;
      if c.status !in TERMINAL {
        c := c.(status := if accepted then "done" else "stop_failed", claimedUntil := None);
        if runId != "" {
          c := c.(runId := runId);
        }
        commands := commands[ack.commandId := c];
      }
      ok := true;
      if runId != "" {
        if accepted {
          ok := TryRuns(RunsWith(runs, runId, STOPPABLE, "stopping"));
        } else {
          runs := RunsWith(runs, runId, {"stopping"}, "stop_failed");
        }
      }
      if !ok {
        commands, runs := commands0, runs0;
      }
    }

    /** The transaction of one event: whole or not at all. */
    method ProjectEvent(i: Incoming) returns (ok: bool)
      modifies this
      ensures Tx(Snapshot(), ok) == ApplyEvent(old(Snapshot()), i)
    {
      hide TrimSpace, OneActive, RunStatusFor, CommandStatusFor, Upsert, Settle, ReportedSession;
      var e := i.event;
      var commands0, runs0 := commands, runs;
      ok := AdvanceRunEventCursor(e);
      if ok {
        ok := ProjectRuntimeSessionRunLink(e.runId, ReportedSession(i));
      }
      if ok {
        ok := ProjectRunStatus(e);
      }
      if !ok {
        commands, runs := commands0, runs0;
        return;
      }
      ProjectCommand(e);
    }

    method AdvanceRunEventCursor(e: RunEvent) returns (ok: bool)
      modifies this`runs
      ensures Tx(Snapshot(), ok) == AdvanceCursor(old(Snapshot()), e)
    {
      hide OneActive, Upsert;
      if e.runId == "" || e.seqNo == 0 {
        return true;
      }
      ok := TryRuns(runs[e.runId := Upsert(runs, e, "running")]);
    }

    method ProjectRunStatus(e: RunEvent) returns (ok: bool)
      modifies this`runs
      ensures Tx(Snapshot(), ok) == ProjectRunState(old(Snapshot()), e)
    {
      hide OneActive, Upsert, RunStatusFor;
      var status := RunStatusFor(e.kind);
      if e.runId == "" || status == "" {
        return true;
      }
      ok := TryRuns(runs[e.runId := Upsert(runs, e, status).(status := status)]);
    }

    /** The run of a rebuild gives up its status. */
    method MarkRebuilding(runId: string)
      modifies this`runs
      ensures Snapshot() == ClearRun(old(Snapshot()), runId)
    {
      if runId in runs {
        runs := runs[runId := runs[runId].(status := "rebuilding", lastAt := None)];
      }
    }

    /** Whatever session the run was in, it is in the reported one now, as far as the index lets it. */
    method ProjectRuntimeSessionRunLink(runId: string, sessionId: string) returns (ok: bool)
      modifies this`runs
      ensures Tx(Snapshot(), ok) == MoveRun(old(Snapshot()), runId, sessionId)
      ensures ok && sessionId != "" && runId in runs ==> runs[runId].sessionId == sessionId
    {
      hide OneActive;
      if sessionId == "" || runId !in runs {
        return true;
      }
      ok := TryRuns(runs[runId := runs[runId].(sessionId := sessionId)]);
    }

    method LinkRuntimeSession(runId: string, sessionId: string) returns (ok: bool)
      modifies this
      ensures ok ==> Tx(Snapshot(), ok) == LinkSession(old(Snapshot()), runId, sessionId)
      ensures !ok ==> !LinkSession(old(Snapshot()), runId, sessionId).ok && Snapshot() == old(Snapshot())
    {
      hide OneActive;
      if runId == "" || sessionId == "" {
        return true;
      }
      if runId in runs && runs[runId].sessionId == "" {
        ok := TryRuns(runs[runId := runs[runId].(sessionId := sessionId)]);
        if !ok {
          return;
        }
      }
      commands := map id | id in commands ::
        if commands[id].runId == runId && commands[id].sessionId == ""
        then commands[id].(sessionId := sessionId) else commands[id];
      return true;
    }

    method ProjectCommand(e: RunEvent)
      modifies this`commands
      ensures Snapshot() == ProjectCommandState(old(Snapshot()), e)
    {
      hide TrimSpace, RunStatusFor;
      var status := CommandStatusFor(e.kind);
      if e.runId == "" || status == "" {
        return;
      }
      var id := TrimSpace(e.commandId);
      if id == "" {
        if e.runId !in runs {
          return;
        }
        id := runs[e.runId].commandId;
      }
      if id == "" {
        return;
      }
      if id in commands && (commands[id].runId == "" || commands[id].runId == e.runId) {
        SettleCommand(id, status);
      }
    }

    // ----- expiry and heartbeats -----

    method ExpireAll(now: int)
      modifies this
      ensures Snapshot() == ExpireCommands(old(Snapshot()), now)
    {
      hide TrimSpace, EndRunsOf, PartlyExpired, IsExpired;
      var before := commands;
      var expired := set id | id in commands && IsExpired(commands[id], now);
      commands := ExpiredCommands(commands, now);
      NoneExpired(runs, before, now, expired);
      while expired != {}
        invariant commands == ExpiredCommands(before, now) && before == old(commands)
        invariant forall id :: id in expired ==> id in before && IsExpired(before[id], now)
        invariant PartlyExpired(old(runs), runs, before, now, expired)
        decreases expired
      {
        var id :| id in expired;
        ExpireRunsOf(old(runs), runs, before, now, expired, id);
        runs := EndRunsOf(runs, id, "expired");
        expired := expired - {id};
      }
      AllExpired(old(runs), runs, before, now);
    }

    /** Named runs are running, overdue ones that were not named have failed, and old commands expire. */
    method ReconcileHeartbeatRuns(named: seq<string>, at: int, now: int) returns (ok: bool, ghost missing: seq<Candidate>)
      modifies this
      ensures ok <==> ReportAll(old(Snapshot()), named, at).ok
      ensures !ok ==> Snapshot() == ReportAll(old(Snapshot()), named, at).db
      ensures ok ==> var reported := ReportAll(old(Snapshot()), named, at).db;
        && ListsMissing(reported.runs, Names(named), at, missing)
        && Snapshot() == ExpireCommands(MissAll(reported, missing, at), now)
    {
      hide Reported, Missing, ExpireCommands, OneActive;
      ok, missing := true, [];
      var i := 0;
      while i < |named|
        invariant 0 <= i <= |named| && ReportAll(old(Snapshot()), named[..i], at) == Tx(Snapshot(), true)
      {
        assert named[..i + 1][..i] == named[..i];
        ok := ReportRun(named[i], at);
        if !ok {
          ReportAllStops(old(Snapshot()), named, i + 1, at);
          return;
        }
        i := i + 1;
      }
      assert named[..i] == named;
      var stale := Candidates(Names(named), at);
      missing := stale;
      ghost var reported := Snapshot();
      i := 0;
      while i < |stale|
        invariant 0 <= i <= |stale| && Snapshot() == MissAll(reported, stale[..i], at)
      {
        assert stale[..i + 1][..i] == stale[..i];
        MissRun(stale[i], at);
        i := i + 1;
      }
      assert stale[..i] == stale;
      ExpireAll(now);
    }

    method ReportRun(runId: string, at: int) returns (ok: bool)
      modifies this`runs
      ensures Tx(Snapshot(), ok) == Reported(old(Snapshot()), runId, at)
    {
      hide OneActive;
      if runId in runs && runs[runId].status in STOPPABLE - {"stopping"} {
        ok := TryRuns(runs[runId := runs[runId].(status := "running", lastAt := Some(at))]);
      } else {
        ok := true;
      }
    }

    method Candidates(named: set<string>, at: int) returns (missing: seq<Candidate>)
      ensures ListsMissing(runs, named, at, missing)
    {
      hide Overdue;
      missing := [];
      var pending := runs.Keys;
      while pending != {}
        invariant pending <= runs.Keys
        invariant forall i, j :: 0 <= i < j < |missing| ==> missing[i].runId != missing[j].runId
        invariant forall m :: m in missing ==> m.runId !in pending
        invariant forall m :: m in missing <==>
          (m.runId in runs && m.runId !in pending && m.status == runs[m.runId].status
           && Overdue(runs[m.runId], at) && m.runId !in named)
        decreases pending
      {
        var r :| r in pending;
        pending := pending - {r};
        if Overdue(runs[r], at) && r !in named {
          missing := missing + [Candidate(r, runs[r].status)];
        }
      }
    }

    method MissRun(m: Candidate, at: int)
      modifies this
      ensures Snapshot() == Missing(old(Snapshot()), m.runId, m.status, at)
    {
      hide TrimSpace;
      var status := MissingStatus(m.status);
      if m.runId in runs && runs[m.runId].status in {"running", "awaiting_approval", "stopping"} {
        runs := runs[m.runId := runs[m.runId].(status := status, lastAt := Some(at))];
      }
      if m.runId in runs && !Blank(runs[m.runId].commandId) {
        SettleCommand(runs[m.runId].commandId, status);
      }
    }
  }

  /** The runs of every expired command but those in `left` have expired. */
  ghost predicate PartlyExpired(runs0: map<string, Run>, runs: map<string, Run>, commands: map<string, Cmd>, now: int,
                                left: set<string>)
  {
    && runs.Keys == runs0.Keys
    && forall r | r in runs0 ::
      var k := runs0[r].commandId;
      runs[r] == if !Blank(k) && k in commands && IsExpired(commands[k], now) && k !in left
          && runs0[r].status in {"queued", "accepted"}
        then runs0[r].(status := "expired") else runs0[r]
  }

  lemma NoneExpired(runs: map<string, Run>, commands: map<string, Cmd>, now: int, left: set<string>)
    requires forall k :: k in commands && IsExpired(commands[k], now) ==> k in left
    ensures PartlyExpired(runs, runs, commands, now, left)
  {
    hide IsExpired, Blank;
  }

  lemma ExpireRunsOf(runs0: map<string, Run>, runs: map<string, Run>, commands: map<string, Cmd>, now: int,
                     left: set<string>, id: string)
    requires PartlyExpired(runs0, runs, commands, now, left)
    requires id in left && id in commands && IsExpired(commands[id], now)
    ensures PartlyExpired(runs0, EndRunsOf(runs, id, "expired"), commands, now, left - {id})
  {
    hide IsExpired, TrimSpace, ToLower;
    ExpiredIsItself();
  }

  lemma AllExpired(runs0: map<string, Run>, runs: map<string, Run>, commands: map<string, Cmd>, now: int)
    requires PartlyExpired(runs0, runs, commands, now, {})
    ensures runs == ExpireCommands(Db(commands, runs0), now).runs
  {
    hide IsExpired, Blank;
  }

  lemma ClaimedIsPending(db: Db, id: string, now: int)
    requires Claimable(db, id, now)
    ensures id in db.commands && db.commands[id].status in PENDING
  {
    hide BareKind;
  }

  lemma StopTargetIsRun(runs: map<string, Run>, sessionId: string, t: string)
    requires IsStopTarget(runs, sessionId, Some(t))
    ensures t in runs
  {
  }

  lemma ExpiredIsItself()
    ensures ToLower(TrimSpace("expired")) == "expired"
  {
    assert TrimSpace("expired") == "expired";
    assert ToLower("expired") == "expired";
  }

  lemma {:induction false} ReportAllStops(db: Db, named: seq<string>, n: nat, at: int)
    requires n <= |named| && !ReportAll(db, named[..n], at).ok
    ensures ReportAll(db, named, at) == ReportAll(db, named[..n], at)
    decreases |named| - n
  {
    hide Reported;
    if n == |named| {
      assert named[..n] == named;
    } else {
      assert named[..n + 1][..n] == named[..n];
      ReportAllStops(db, named, n + 1, at);
    }
  }
}
