/** The server's `commands` and `runs` tables of one agent, and every step that changes a status in them. Times are
    numbers of seconds; an empty string stands for an absent id. */
module Lifecycle {
  import opened Text
  import opened Protocol
  import Hub

  datatype Cmd = Cmd(
    runId: string, sessionId: string, projectId: string, kind: string, content: int, idemKey: string, status: string,
    createdAt: int, dispatchedAt: Option<int>, expiresAt: Option<int>, claimedUntil: Option<int>)

  datatype Run = Run(commandId: string, sessionId: string, status: string, startedAt: int, lastAt: Option<int>)

  datatype Db = Db(commands: map<string, Cmd>, runs: map<string, Run>)

  /** The state after a step and whether it succeeded; a step that fails is rolled back whole. */
  datatype Tx = Tx(db: Db, ok: bool)

  const ACTIVE: set<string> := {"queued", "accepted", "running", "awaiting_approval", "stopping"}
  const STOPPABLE: set<string> := ACTIVE + {"stale"}
  const TERMINAL: set<string> := {"done", "expired", "failed", "rejected", "stopped"}
  const PENDING: set<string> := {"queued", "dispatch_failed", "dispatched"}
  const RETRYABLE: set<string> := PENDING + {"failed", "expired", "stop_failed"}
  const BLOCKED: set<string> := {"stopping", "stopped", "failed", "error", "expired", "rejected", "done", "stale", "stop_failed"}

  function BareKind(kind: string): string {
    if "command." <= kind then kind[8..] else kind
  }

  predicate CreatesRun(kind: string) {
    BareKind(kind) in {"new_session", "resume", "send"}
  }

  predicate StopsRun(kind: string) {
    BareKind(kind) == "stop"
  }

  // ----- the partial unique index over active runs -----

  predicate Occupies(r: Run, sessionId: string) {
    sessionId != "" && r.sessionId == sessionId && r.status in ACTIVE
  }

  /** At most one active run per non-empty session. */
  predicate OneActive(runs: map<string, Run>) {
    forall id, id' :: id in runs && id' in runs && id != id' && Occupies(runs[id], runs[id].sessionId) ==>
      !Occupies(runs[id'], runs[id].sessionId)
  }

  predicate Busy(runs: map<string, Run>, sessionId: string, except: string) {
    exists id :: id in runs && id != except && Occupies(runs[id], sessionId)
  }

  /** One statement that rewrites the runs: the index rejects it or lets it through. */
  function WriteRuns(db: Db, runs: map<string, Run>): Tx {
    if OneActive(runs) then Tx(db.(runs := runs), true) else Tx(db, false)
  }

  // ----- guarded updates of one row -----

  function SetStatus(db: Db, id: string, from: set<string>, to: string): Db {
    if id in db.commands && db.commands[id].status in from
    then db.(commands := db.commands[id := db.commands[id].(status := to, claimedUntil := None)]) else db
  }

  /** The update most steps use: a command in a terminal status stays there. */
  function Settle(db: Db, id: string, to: string): Db {
    if id in db.commands && db.commands[id].status !in TERMINAL
    then db.(commands := db.commands[id := db.commands[id].(status := to, claimedUntil := None)]) else db
  }

  function SetCommandRun(db: Db, id: string, runId: string): Db {
    if id in db.commands && runId != "" then db.(commands := db.commands[id := db.commands[id].(runId := runId)]) else db
  }

  function RunsWith(runs: map<string, Run>, id: string, from: set<string>, to: string): map<string, Run> {
    if id in runs && runs[id].status in from then runs[id := runs[id].(status := to)] else runs
  }

  function EndRun(r: Run, commandId: string, status: string): Run {
    if r.commandId == commandId
      && (r.status in {"queued", "accepted"} || (status == "stopped" && r.status == "stopping"))
    then r.(status := status) else r
  }

  /** `markRunForCommandTerminal` */
  function EndRunsOf(runs: map<string, Run>, commandId: string, status: string): map<string, Run> {
    var s := ToLower(TrimSpace(status));
    if Blank(commandId) || s !in {"failed", "expired", "rejected", "stopped"} then runs
    else (map id | id in runs :: EndRun(runs[id], commandId, s))
  }

  // ----- queueing -----

  predicate SameText(a: string, b: string) {
    TrimSpace(a) == TrimSpace(b)
  }

  predicate MatchesIdempotency(existing: Cmd, c: Cmd) {
    && SameText(existing.kind, c.kind) && SameText(existing.runId, c.runId) && SameText(existing.sessionId, c.sessionId)
    && SameText(existing.projectId, c.projectId) && existing.content == c.content
  }

  predicate KeyTaken(commands: map<string, Cmd>, key: string) {
    exists id :: id in commands && commands[id].idemKey == key
  }

  /** `ensureSessionHasNoActiveRun` */
  predicate SessionFree(runs: map<string, Run>, c: Cmd) {
    Blank(c.sessionId) || !Busy(runs, c.sessionId, c.runId)
  }

  function QueuedRun(runs: map<string, Run>, id: string, c: Cmd, now: int): Run {
    if c.runId in runs then
      var run := runs[c.runId];
      run.(commandId := OrElse(id, run.commandId), sessionId := OrElse(c.sessionId, run.sessionId))
    else Run(id, c.sessionId, "queued", now, None)
  }

  /** The run a stop by session means: the latest stoppable run of the session. */
  ghost predicate IsStopTarget(runs: map<string, Run>, sessionId: string, target: Option<string>) {
    match target
    case None => forall id :: id in runs && runs[id].sessionId == sessionId ==> runs[id].status !in STOPPABLE
    case Some(t) =>
      && t in runs && runs[t].sessionId == sessionId && runs[t].status in STOPPABLE
      && forall id :: id in runs && runs[id].sessionId == sessionId && runs[id].status in STOPPABLE ==>
        runs[id].startedAt <= runs[t].startedAt
  }

  predicate Unclaimed(c: Cmd, now: int) {
    c.claimedUntil.None? || c.claimedUntil.value < now
  }

  /** The command whose run a stop ends before it was ever sent, if there is one. */
  function Undispatched(db: Db, runId: string, now: int): Option<string> {
    if runId !in db.runs || db.runs[runId].status != "queued" || Blank(db.runs[runId].commandId) then None
    else
      var k := db.runs[runId].commandId;
      if k in db.commands && db.commands[k].status in {"queued", "dispatch_failed"} && Unclaimed(db.commands[k], now)
      then Some(k) else None
  }

  /** `stopUndispatchedRunTx` once it is known that there is something to stop. */
  function StopUndispatched(db: Db, id: string, runId: string, k: string): Db {
    var stopped := SetStatus(db, k, {"queued", "dispatch_failed"}, "stopped");
    var ended := stopped.(runs := RunsWith(stopped.runs, runId, {"queued"}, "stopped"));
    CompleteStop(ended, id, runId)
  }

  /** `completeStopCommandTx` */
  function CompleteStop(db: Db, id: string, runId: string): Db {
    if id in db.commands && db.commands[id].status !in TERMINAL then SetCommandRun(Settle(db, id, "done"), id, runId)
    else db
  }

  /** `markStopRequestedTx` on the command just inserted. */
  function RequestStop(db: Db, id: string, c: Cmd, target: Option<string>, now: int): Tx {
    var bySession := Blank(c.runId) && !Blank(c.sessionId);
    var runId := if bySession && target.Some? then target.value else TrimSpace(c.runId);
    var db1 := if bySession && target.Some? then SetCommandRun(db, id, runId) else db;
    if runId == "" then Tx(CompleteStop(db1, id, ""), true)
    else
      match Undispatched(db1, runId, now)
      case Some(k) => Tx(StopUndispatched(db1, id, runId, k), true)
      case None =>
        if runId in db1.runs && db1.runs[runId].status in STOPPABLE
        then WriteRuns(db1, RunsWith(db1.runs, runId, STOPPABLE, "stopping"))
        else Tx(CompleteStop(db1, id, runId), true)
  }

  /** `SaveCommand`: `target` is the run a stop by session finds. */
  function SaveCommand(db: Db, id: string, command: Cmd, target: Option<string>, now: int): Tx {
    var c := command.(idemKey := TrimSpace(command.idemKey), status := "queued", createdAt := now,
      dispatchedAt := None, claimedUntil := None,
      expiresAt := if command.expiresAt.None? then Some(now + 3600) else command.expiresAt);
    if c.idemKey != "" && KeyTaken(db.commands, c.idemKey) then
      Tx(db, exists k :: k in db.commands && db.commands[k].idemKey == c.idemKey && MatchesIdempotency(db.commands[k], c))
    else if CreatesRun(c.kind) && !SessionFree(db.runs, c) then Tx(db, false)
    else if id in db.commands then Tx(db, true)
    else
      var queued := db.(commands := db.commands[id := c]);
      var tx :=
        if CreatesRun(c.kind) then WriteRuns(queued, queued.runs[c.runId := QueuedRun(queued.runs, id, c, now)])
        else if StopsRun(c.kind) then RequestStop(queued, id, c, target, now)
        else Tx(queued, true);
      if tx.ok then tx else Tx(db, false)
  }

  predicate Requeueable(status: string) {
    ToLower(TrimSpace(status)) in {"queued", "dispatched", "dispatch_failed", "failed", "expired", "rejected"}
  }

  /** The command step of `QueueApprovalDecisionCommand`: a command with the same key is queued again with the new
      content, or a new one is inserted. `holder` is the row found under the key. */
  function QueueApproval(db: Db, id: string, command: Cmd, holder: Option<string>, now: int): Tx
    requires holder.Some? ==> holder.value in db.commands
  {
    var c := command.(idemKey := TrimSpace(command.idemKey), status := "queued", createdAt := now, dispatchedAt := None,
      claimedUntil := None, expiresAt := if command.expiresAt.None? then Some(now + 3600) else command.expiresAt);
    if holder.Some? then
      var found := db.commands[holder.value];
      if !Requeueable(found.status) then Tx(db, false)
      else Tx(db.(commands := db.commands[holder.value := c.(idemKey := found.idemKey, createdAt := found.createdAt,
        dispatchedAt := found.dispatchedAt)]), true)
    else if id in db.commands then Tx(db, true)
    else Tx(db.(commands := db.commands[id := c]), true)
  }

  ghost predicate IsHolder(commands: map<string, Cmd>, key: string, holder: Option<string>) {
    match holder
    case None => Blank(key) || !KeyTaken(commands, TrimSpace(key))
    case Some(k) => !Blank(key) && k in commands && commands[k].idemKey == TrimSpace(key)
  }

  // ----- claims and dispatch -----

  predicate Claimable(db: Db, id: string, now: int) {
    && id in db.commands
    && var c := db.commands[id];
    && c.status in PENDING
    && (c.expiresAt.None? || c.expiresAt.value > now)
    && Unclaimed(c, now)
    && !(CreatesRun(c.kind) && c.runId in db.runs && db.runs[c.runId].status in BLOCKED)
  }

  /** `ClaimDispatchCommands` also waits fifteen seconds after the last dispatch. */
  predicate Redispatchable(db: Db, id: string, now: int) {
    Claimable(db, id, now) && (db.commands[id].dispatchedAt.None? || db.commands[id].dispatchedAt.value < now - 15)
  }

  function Claim(db: Db, id: string, now: int): Db {
    if id in db.commands then db.(commands := db.commands[id := db.commands[id].(claimedUntil := Some(now + 30))]) else db
  }

  predicate NotNewer(commands: map<string, Cmd>, a: string, b: string) {
    a in commands && b in commands && commands[a].createdAt <= commands[b].createdAt
  }

  /** Up to `n` claimable commands, oldest first, none left out for a newer one. */
  ghost predicate TakesOldest(db: Db, n: nat, now: int, claimed: seq<string>) {
    && |claimed| <= n
    && (forall id :: id in claimed ==> Claimable(db, id, now))
    && (forall i, j :: 0 <= i < j < |claimed| ==>
      claimed[i] != claimed[j] && NotNewer(db.commands, claimed[i], claimed[j]))
    && (forall id :: Claimable(db, id, now) && id !in claimed ==> |claimed| == n)
    && (forall id, k :: Claimable(db, id, now) && id !in claimed && k in claimed ==> NotNewer(db.commands, k, id))
  }

  function ClaimAll(db: Db, claimed: seq<string>, now: int): Db {
    db.(commands := map id | id in db.commands ::
      if id in claimed then db.commands[id].(claimedUntil := Some(now + 30)) else db.commands[id])
  }

  function MarkDispatched(db: Db, id: string, now: int): Db {
    if id in db.commands && db.commands[id].status in PENDING
    then db.(commands := db.commands[id :=
      db.commands[id].(status := "dispatched", dispatchedAt := Some(now), claimedUntil := None)])
    else db
  }

  function MarkDispatchFailed(db: Db, id: string): Db {
    SetStatus(db, id, PENDING, "dispatch_failed")
  }

  /** `CommandDispatchable` */
  predicate Dispatchable(db: Db, id: string) {
    && id in db.commands
    && var c := db.commands[id];
      !CreatesRun(c.kind) || Blank(c.runId) || TrimSpace(c.runId) !in db.runs
        || db.runs[TrimSpace(c.runId)].status !in BLOCKED
  }

  /** What is checked before the message goes to the hub: access, capabilities and credential, encoding. */
  datatype Checks = Checks(access: bool, allowed: bool, encodes: bool)

  /** `claimAndDispatchCommand` and `dispatchCommand`: the command is claimed at `now`, its fate decided at `later`. */
  function ClaimAndDispatch(db: Db, id: string, now: int, later: int, checks: Checks, delivery: Hub.Status): Db {
    if !Claimable(db, id, now) then db
    else
      var claimed := Claim(db, id, now);
      var expiresAt := claimed.commands[id].expiresAt;
      if !checks.access then MarkEnded(claimed, id, "failed")
      else if !Dispatchable(claimed, id) then MarkEnded(claimed, id, "stopped")
      else if expiresAt.Some? && expiresAt.value < later then MarkEnded(claimed, id, "expired")
      else if !checks.allowed || !checks.encodes then MarkEnded(claimed, id, "failed")
      else
        match delivery
        case Delivered => MarkDispatched(claimed, id, later)
        case QueueFull => MarkDispatchFailed(claimed, id)
        case _ => claimed
  }

  /** `MarkCommandFailed`, `MarkCommandExpired` and `MarkCommandStopped` differ in the status only; the last one also
      rewrites a command that is stopped already. */
  function MarkEnded(db: Db, id: string, status: string): Db {
    var db1 := SetStatus(db, id,
      PENDING + {"failed", "expired"} + if status == "stopped" then {"stopped"} else {}, status);
    db1.(runs := EndRunsOf(db1.runs, id, status))
  }

  function PrepareRetry(db: Db, id: string, expiresAt: int): Tx {
    if id !in db.commands then Tx(db, true)
    else
      var c := db.commands[id];
      if CreatesRun(c.kind) && !SessionFree(db.runs, c) then Tx(db, false)
      else
        var db1 := if c.status in RETRYABLE
          then db.(commands := db.commands[id := c.(status := "queued", expiresAt := Some(expiresAt), claimedUntil := None)])
          else db;
        var tx :=
          if CreatesRun(c.kind) && c.runId in db1.runs && db1.runs[c.runId].commandId == id
          then WriteRuns(db1, db1.runs[c.runId := db1.runs[c.runId].(status := "queued")])
          else if StopsRun(c.kind) && !Blank(c.runId)
          then WriteRuns(db1, RunsWith(db1.runs, c.runId, {"stale", "stop_failed"}, "running"))
          else Tx(db1, true);
        if tx.ok then tx else Tx(db, false)
  }

  // ----- answers of the agent -----

  function AckedStatus(ack: Ack): string {
    var s := ToLower(TrimSpace(ack.status));
    if s in {"ok", "accepted", "duplicate"} then "accepted"
    else if s == "rejected" then "rejected"
    else if s in {"failed", "error"} then "failed"
    else if s == "" then "acked"
    else s
  }

  predicate Accepts(status: string) {
    ToLower(TrimSpace(status)) in {"accepted", "acked", "ok"}
  }

  predicate RunFits(c: Cmd, runId: string) {
    c.runId == "" || runId == "" || c.runId == runId
  }

  /** The command half of an ack. */
  function AckCommand(db: Db, ack: Ack): Db {
    var id, status := ack.commandId, AckedStatus(ack);
    if id !in db.commands || db.commands[id].status in TERMINAL || !RunFits(db.commands[id], ack.runId) then db
    else
      var c := db.commands[id];
      db.(commands := db.commands[id := c.(claimedUntil := None,
        status := if Accepts(status) && c.status in {"running", "awaiting_approval"} then c.status else status)])
  }

  /** `MarkCommandAck` for a command that stops no run: two statements, each committed on its own. */
  function AckRunCommand(db: Db, ack: Ack): Tx
    requires ack.commandId in db.commands
  {
    var c, status, db1 := db.commands[ack.commandId], AckedStatus(ack), AckCommand(db, ack);
    if !Accepts(status) then Tx(db1.(runs := EndRunsOf(db1.runs, ack.commandId, status)), true)
    else
      var runId := OrElse(ack.runId, c.runId);
      if !CreatesRun(c.kind) || runId == "" || runId !in db1.runs || db1.runs[runId].commandId != ack.commandId then Tx(db1, true)
      else WriteRuns(db1, RunsWith(db1.runs, runId, {"queued", "stale"}, "accepted"))
  }

  /** `markStopCommandAck`: one transaction. */
  function AckStop(db: Db, ack: Ack): Tx
    requires ack.commandId in db.commands
  {
    var c := db.commands[ack.commandId];
    var accepted := Accepts(AckedStatus(ack));
    var runId := OrElse(ack.runId, c.runId);
    var db1 := if c.status in TERMINAL then db
      else SetCommandRun(Settle(db, ack.commandId, if accepted then "done" else "stop_failed"), ack.commandId, runId);
    var tx := if runId == "" then Tx(db1, true)
      else if accepted then WriteRuns(db1, RunsWith(db1.runs, runId, STOPPABLE, "stopping"))
      else Tx(db1.(runs := RunsWith(db1.runs, runId, {"stopping"}, "stop_failed")), true);
    if tx.ok then tx else Tx(db, false)
  }

  function MarkCommandAck(db: Db, ack: Ack): Tx {
    if ack.commandId == "" || ack.commandId !in db.commands then Tx(db, true)
    else if StopsRun(db.commands[ack.commandId].kind) then AckStop(db, ack)
    else AckRunCommand(db, ack)
  }

  // ----- events of the agent -----

  /** An event with the session that the runtime session in its payload comes to, empty if there is none. */
  datatype Incoming = Incoming(event: RunEvent, reported: string)

  predicate IsSessionKind(kind: string) {
    kind in {"session.created", "session.resumed", "session.updated"}
  }

  /** The session an event puts its run into: only session events report one, and only for a run with a proper id. */
  function ReportedSession(i: Incoming): string {
    if IsSessionKind(i.event.kind) && !Blank(i.event.runId) then i.reported else ""
  }

  function RunStatusFor(kind: string): string {
    match kind
    case "run.started" => "running"
    case "run.awaiting_approval" => "awaiting_approval"
    case "run.done" => "done"
    case "run.completed" => "done"
    case "run.error" => "error"
    case "run.failed" => "error"
    case "run.stopped" => "stopped"
    case _ => ""
  }

  function CommandStatusFor(kind: string): string {
    if RunStatusFor(kind) == "error" then "failed" else RunStatusFor(kind)
  }

  /** Insert the run under `status`, or refresh the ids of the row that is there. */
  function Upsert(runs: map<string, Run>, e: RunEvent, status: string): Run {
    if e.runId in runs then
      var run := runs[e.runId];
      run.(commandId := OrElse(e.commandId, run.commandId), sessionId := OrElse(e.sessionId, run.sessionId),
        lastAt := Some(e.at))
    else Run(e.commandId, e.sessionId, status, e.at, Some(e.at))
  }

  /** `advanceRunEventCursorTx` */
  function AdvanceCursor(db: Db, e: RunEvent): Tx {
    if e.runId == "" || e.seqNo == 0 then Tx(db, true)
    else WriteRuns(db, db.runs[e.runId := Upsert(db.runs, e, "running")])
  }

  /** `projectRuntimeSessionRunLinkTx`: the reported session replaces the one the run had. */
  function MoveRun(db: Db, runId: string, sessionId: string): Tx {
    if sessionId == "" || runId !in db.runs then Tx(db, true)
    else WriteRuns(db, db.runs[runId := db.runs[runId].(sessionId := sessionId)])
  }

  /** `linkRuntimeSessionToRun`: a session the agent reports outside the events fills empty session ids only. */
  function LinkSession(db: Db, runId: string, sessionId: string): Tx {
    if runId == "" || sessionId == "" then Tx(db, true)
    else
      var tx := if runId in db.runs && db.runs[runId].sessionId == ""
        then WriteRuns(db, db.runs[runId := db.runs[runId].(sessionId := sessionId)]) else Tx(db, true);
      if !tx.ok then Tx(db, false)
      else Tx(tx.db.(commands := map id | id in tx.db.commands ::
        if tx.db.commands[id].runId == runId && tx.db.commands[id].sessionId == ""
        then tx.db.commands[id].(sessionId := sessionId) else tx.db.commands[id]), true)
  }

  /** `projectRunStateTx` */
  function ProjectRunState(db: Db, e: RunEvent): Tx {
    var status := RunStatusFor(e.kind);
    if e.runId == "" || status == "" then Tx(db, true)
    else WriteRuns(db, db.runs[e.runId := Upsert(db.runs, e, status).(status := status)])
  }

  /** `projectCommandStateFromRunEventTx` */
  function ProjectCommandState(db: Db, e: RunEvent): Db {
    var status := CommandStatusFor(e.kind);
    if e.runId == "" || status == "" then db
    else
      var id := if !Blank(e.commandId) then TrimSpace(e.commandId)
        else if e.runId in db.runs then db.runs[e.runId].commandId else "";
      if id != "" && id in db.commands && (db.commands[id].runId == "" || db.commands[id].runId == e.runId)
      then Settle(db, id, status) else db
  }

  /** The part of the `SaveRunEvent` transaction that touches the two tables. */
  function ApplyEvent(db: Db, i: Incoming): Tx {
    var cursor := AdvanceCursor(db, i.event);
    if !cursor.ok then Tx(db, false)
    else
      var moved := MoveRun(cursor.db, i.event.runId, ReportedSession(i));
      if !moved.ok then Tx(db, false)
      else
        var projected := ProjectRunState(moved.db, i.event);
        if !projected.ok then Tx(db, false) else Tx(ProjectCommandState(projected.db, i.event), true)
  }

  /** What `clearRunProjections` does to the row of the run. */
  function ClearRun(db: Db, runId: string): Db {
    if runId in db.runs
    then db.(runs := db.runs[runId := db.runs[runId].(status := "rebuilding", lastAt := None)]) else db
  }

  // ----- expiry and heartbeats -----

  predicate IsExpired(c: Cmd, now: int) {
    c.status in PENDING && c.expiresAt.Some? && c.expiresAt.value < now
  }

  function ExpiredCommands(commands: map<string, Cmd>, now: int): map<string, Cmd> {
    map id | id in commands ::
      if IsExpired(commands[id], now) then commands[id].(status := "expired", claimedUntil := None) else commands[id]
  }

  /** Runs still waiting for a command that expired end with it. */
  function ExpireCommands(db: Db, now: int): Db {
    Db(ExpiredCommands(db.commands, now),
      map id | id in db.runs ::
        var k := db.runs[id].commandId;
        if !Blank(k) && k in db.commands && IsExpired(db.commands[k], now) && db.runs[id].status in {"queued", "accepted"}
        then db.runs[id].(status := "expired") else db.runs[id])
  }

  /** A run the heartbeat names. */
  function Reported(db: Db, runId: string, at: int): Tx {
    if runId in db.runs && db.runs[runId].status in STOPPABLE - {"stopping"}
    then WriteRuns(db, db.runs[runId := db.runs[runId].(status := "running", lastAt := Some(at))])
    else Tx(db, true)
  }

  predicate Overdue(r: Run, at: int) {
    r.status in {"running", "awaiting_approval", "stopping"}
    && (if r.lastAt.Some? then r.lastAt.value else r.startedAt) <= at - 120
  }

  function MissingStatus(status: string): string {
    if status == "stopping" then "stop_failed" else "failed"
  }

  /** A run the heartbeat should have named; `was` is its status when it was looked up. */
  function Missing(db: Db, runId: string, was: string, at: int): Db {
    var db1 := if runId in db.runs && db.runs[runId].status in {"running", "awaiting_approval", "stopping"}
      then db.(runs := db.runs[runId := db.runs[runId].(status := MissingStatus(was), lastAt := Some(at))]) else db;
    if runId in db1.runs && !Blank(db1.runs[runId].commandId)
    then Settle(db1, db1.runs[runId].commandId, MissingStatus(was)) else db1
  }

  /** The runs the heartbeat names, one statement each; the first one the index refuses ends the heartbeat. */
  function ReportAll(db: Db, runIds: seq<string>, at: int): Tx {
    if runIds == [] then Tx(db, true)
    else
      var tx := ReportAll(db, runIds[..|runIds| - 1], at);
      if tx.ok then Reported(tx.db, runIds[|runIds| - 1], at) else tx
  }

  datatype Candidate = Candidate(runId: string, status: string)

  function MissAll(db: Db, missing: seq<Candidate>, at: int): Db {
    if missing == [] then db
    else
      var last := missing[|missing| - 1];
      Missing(MissAll(db, missing[..|missing| - 1], at), last.runId, last.status, at)
  }

  function Names(named: seq<string>): set<string> {
    set r | r in named
  }

  /** The overdue runs that the heartbeat did not name, each once. */
  ghost predicate ListsMissing(runs: map<string, Run>, named: set<string>, at: int, missing: seq<Candidate>) {
    && (forall i, j :: 0 <= i < j < |missing| ==> missing[i].runId != missing[j].runId)
    && (forall m :: m in missing <==>
      m.runId in runs && m.status == runs[m.runId].status && Overdue(runs[m.runId], at) && m.runId !in named)
  }
}
