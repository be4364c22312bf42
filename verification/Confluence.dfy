/** The agent's answer to a run-creating command and the events of its run travel apart: whichever comes first, the two
    tables end up the same. */
module Confluence {
  import opened Text
  import opened Protocol
  import opened Lifecycle
  import opened LifecycleSafety

  /** The command and its run know each other. */
  predicate Linked(db: Db, id: string, r: string) {
    && id != "" && id in db.commands && CreatesRun(db.commands[id].kind) && db.commands[id].runId == r
    && r != "" && r in db.runs && db.runs[r].commandId == id
  }

  /** An accepting answer to the command that names its run or none. */
  predicate IsAcceptedAck(ack: Ack, id: string, r: string) {
    ack.commandId == id && Accepts(AckedStatus(ack)) && ack.runId in {"", r}
  }

  /** An event of the run; it carries the command's id or none, and any session. */
  predicate IsEventOf(i: Incoming, id: string, r: string) {
    i.event.runId == r && i.event.commandId in {"", id}
  }

  // ----- the two steps in closed form -----

  function AckStatus(status: string, acked: string): string {
    if status in TERMINAL || status in {"running", "awaiting_approval"} then status else acked
  }

  function AckedCmd(c: Cmd, acked: string): Cmd {
    if c.status in TERMINAL then c else c.(status := AckStatus(c.status, acked), claimedUntil := None)
  }

  /** Another run is active in the session, so this one cannot become active. */
  predicate Shut(runs: map<string, Run>, r: string)
    requires r in runs
  {
    runs[r].sessionId != "" && Busy(runs, runs[r].sessionId, r)
  }

  function AckedRun(run: Run, shut: bool): Run {
    if run.status in {"queued", "stale"} && !shut then run.(status := "accepted") else run
  }

  lemma AckShape(db: Db, ack: Ack, id: string, r: string)
    requires OneActive(db.runs) && Linked(db, id, r) && IsAcceptedAck(ack, id, r)
    ensures MarkCommandAck(db, ack).db == Db(
      db.commands[id := AckedCmd(db.commands[id], AckedStatus(ack))],
      db.runs[r := AckedRun(db.runs[r], Shut(db.runs, r))])
  {
    hide TrimSpace, OneActive, Busy, AckedStatus, Accepts, BareKind;
    OneRunBreaksIff(db.runs, r, db.runs[r].(status := "accepted"));
    var run := db.runs[r];
    assert db.commands[id := db.commands[id]] == db.commands && db.runs[r := run] == db.runs;
  }

  function SeenCmd(c: Cmd, kind: string): Cmd {
    if CommandStatusFor(kind) == "" || c.status in TERMINAL then c
    else c.(status := CommandStatusFor(kind), claimedUntil := None)
  }

  /** The session the run is in once the cursor has moved: a numbered event that carries one brings it along. */
  function CarriedSession(run: Run, e: RunEvent): string {
    if e.seqNo != 0 then OrElse(e.sessionId, run.sessionId) else run.sessionId
  }

  /** And once the reported session has been taken over. */
  function MovedSession(run: Run, i: Incoming): string {
    OrElse(ReportedSession(i), CarriedSession(run, i.event))
  }

  /** The run after an event that is taken. */
  function SeenRun(run: Run, i: Incoming): Run {
    var e, status := i.event, RunStatusFor(i.event.kind);
    run.(lastAt := if e.seqNo != 0 || status != "" then Some(e.at) else run.lastAt,
         status := if status == "" then run.status else status,
         sessionId := if status == "" then MovedSession(run, i) else OrElse(e.sessionId, MovedSession(run, i)))
  }

  /** Another run is active in the session. */
  predicate Taken(runs: map<string, Run>, sessionId: string, r: string) {
    sessionId != "" && Busy(runs, sessionId, r)
  }

  /** The index refuses the event: it takes an active run through an occupied session, or makes the run active in one. */
  predicate IsRefused(runs: map<string, Run>, r: string, i: Incoming)
    requires r in runs
  {
    || (runs[r].status in ACTIVE && Taken(runs, CarriedSession(runs[r], i.event), r))
    || (runs[r].status in ACTIVE && Taken(runs, MovedSession(runs[r], i), r))
    || (RunStatusFor(i.event.kind) in ACTIVE && Taken(runs, SeenRun(runs[r], i).sessionId, r))
  }

  lemma SessionEventsHaveNoStatus(i: Incoming)
    ensures ReportedSession(i) != "" ==> RunStatusFor(i.event.kind) == ""
    ensures RunStatusFor(i.event.kind) !in {"queued", "stale"}
  {
    hide TrimSpace;
  }

  lemma CursorShape(db: Db, i: Incoming, id: string, r: string)
    requires OneActive(db.runs) && Linked(db, id, r) && IsEventOf(i, id, r)
    ensures var run := db.runs[r].(sessionId := CarriedSession(db.runs[r], i.event),
                                   lastAt := if i.event.seqNo != 0 then Some(i.event.at) else db.runs[r].lastAt);
      AdvanceCursor(db, i.event) ==
        if run.status in ACTIVE && Taken(db.runs, run.sessionId, r) then Tx(db, false)
        else Tx(db.(runs := db.runs[r := run]), true)
    ensures OneActive(AdvanceCursor(db, i.event).db.runs)
  {
    hide TrimSpace, OneActive, Busy, BareKind;
    var run := db.runs[r].(sessionId := CarriedSession(db.runs[r], i.event), lastAt := Some(i.event.at));
    OneRunBreaksIff(db.runs, r, run);
    if run.status in ACTIVE && db.runs[r].sessionId != "" {
      OwnSessionIsNotBusy(db.runs, r);
    }
    assert db.runs[r := db.runs[r]] == db.runs;
  }

  lemma BusyIgnoresSelf(runs: map<string, Run>, r: string, run: Run, sessionId: string)
    ensures Busy(runs[r := run], sessionId, r) == Busy(runs, sessionId, r)
  {
    if Busy(runs, sessionId, r) {
      var o :| o in runs && o != r && Occupies(runs[o], sessionId);
      assert runs[r := run][o] == runs[o];
    }
    if Busy(runs[r := run], sessionId, r) {
      var o :| o in runs[r := run] && o != r && Occupies(runs[r := run][o], sessionId);
      assert runs[o] == runs[r := run][o];
    }
  }

  lemma MoveShape(db: Db, r: string, sessionId: string)
    requires OneActive(db.runs) && r in db.runs
    ensures var run := db.runs[r].(sessionId := OrElse(sessionId, db.runs[r].sessionId));
      MoveRun(db, r, sessionId) ==
        if run.status in ACTIVE && Taken(db.runs, run.sessionId, r) then Tx(db, false)
        else Tx(db.(runs := db.runs[r := run]), true)
    ensures OneActive(MoveRun(db, r, sessionId).db.runs)
  {
    hide OneActive, Busy;
    var run := db.runs[r].(sessionId := OrElse(sessionId, db.runs[r].sessionId));
    OneRunBreaksIff(db.runs, r, run);
    if run.status in ACTIVE && db.runs[r].sessionId != "" {
      OwnSessionIsNotBusy(db.runs, r);
    }
    assert db.runs[r := db.runs[r]] == db.runs;
  }

  lemma StateShape(db: Db, e: RunEvent, r: string)
    requires OneActive(db.runs) && r != "" && r in db.runs && e.runId == r && e.commandId in {"", db.runs[r].commandId}
    ensures var status := RunStatusFor(e.kind);
      var run := db.runs[r].(status := status, sessionId := OrElse(e.sessionId, db.runs[r].sessionId), lastAt := Some(e.at));
      ProjectRunState(db, e) ==
        if status == "" then Tx(db, true)
        else if status in ACTIVE && Taken(db.runs, run.sessionId, r) then Tx(db, false)
        else Tx(db.(runs := db.runs[r := run]), true)
  {
    hide OneActive, Busy, RunStatusFor;
    OneRunBreaksIff(db.runs, r, db.runs[r].(status := RunStatusFor(e.kind),
      sessionId := OrElse(e.sessionId, db.runs[r].sessionId), lastAt := Some(e.at)));
  }

  /** The command an event settles. */
  function SeenId(e: RunEvent, id: string): string {
    if Blank(e.commandId) then id else TrimSpace(e.commandId)
  }

  function SeenCommands(commands: map<string, Cmd>, k: string, r: string, kind: string): map<string, Cmd> {
    if k != "" && k in commands && commands[k].runId in {"", r} then commands[k := SeenCmd(commands[k], kind)] else commands
  }

  lemma CommandShape(db: Db, e: RunEvent, id: string, r: string)
    requires r in db.runs && db.runs[r].commandId == id && r != "" && e.runId == r
    ensures ProjectCommandState(db, e) == db.(commands := SeenCommands(db.commands, SeenId(e, id), r, e.kind))
  {
    hide RunStatusFor, TrimSpace;
    var k := SeenId(e, id);
    if k in db.commands {
      assert db.commands[k := db.commands[k]] == db.commands;
    }
  }

  /** An event is refused whole or puts its run where it says and settles its command. */
  lemma EventShape(db: Db, i: Incoming, id: string, r: string)
    requires OneActive(db.runs) && Linked(db, id, r) && IsEventOf(i, id, r)
    ensures ApplyEvent(db, i).db ==
      if IsRefused(db.runs, r, i) then db
      else Db(SeenCommands(db.commands, SeenId(i.event, id), r, i.event.kind), db.runs[r := SeenRun(db.runs[r], i)])
  {
    hide TrimSpace, OneActive, Busy, BareKind, AdvanceCursor, MoveRun, ProjectRunState, ProjectCommandState, RunStatusFor,
      SeenCommands, SeenId, ReportedSession;
    var e := i.event;
    CursorShape(db, i, id, r);
    var db1 := AdvanceCursor(db, e).db;
    BusyIgnoresSelf(db.runs, r, db1.runs[r], MovedSession(db.runs[r], i));
    BusyIgnoresSelf(db.runs, r, db1.runs[r], SeenRun(db.runs[r], i).sessionId);
    MoveShape(db1, r, ReportedSession(i));
    var db2 := MoveRun(db1, r, ReportedSession(i)).db;
    BusyIgnoresSelf(db1.runs, r, db2.runs[r], SeenRun(db.runs[r], i).sessionId);
    StateShape(db2, e, r);
    var tx := ProjectRunState(db2, e);
    if !IsRefused(db.runs, r, i) {
      CommandShape(tx.db, e, id, r);
      assert tx.db.runs == db.runs[r := SeenRun(db.runs[r], i)];
    }
  }

  // ----- the diamond -----

  lemma AckKeepsLinked(db: Db, ack: Ack, id: string, r: string)
    requires OneActive(db.runs) && Linked(db, id, r) && IsAcceptedAck(ack, id, r)
    ensures var db' := MarkCommandAck(db, ack).db;
      OneActive(db'.runs) && Linked(db', id, r) && db'.runs[r].sessionId == db.runs[r].sessionId
  {
    hide OneActive, MarkCommandAck, AckedStatus, Accepts, BareKind, Busy;
    AckShape(db, ack, id, r);
    AckKeeps(db, ack);
  }

  lemma EventKeepsLinked(db: Db, i: Incoming, id: string, r: string)
    requires OneActive(db.runs) && Linked(db, id, r) && IsEventOf(i, id, r)
    ensures var db' := ApplyEvent(db, i).db; OneActive(db'.runs) && Linked(db', id, r)
    ensures db.runs[r].status != "stale" ==> ApplyEvent(db, i).db.runs[r].status != "stale"
  {
    hide OneActive, ApplyEvent, BareKind, Busy, RunStatusFor, IsRefused, SeenId;
    EventShape(db, i, id, r);
    EventKeeps(db, i);
    SessionEventsHaveNoStatus(i);
  }

  /** Taking an answer and seeing an event commute on one command. */
  lemma AckAndSightCommuteOnOne(c: Cmd, acked: string, kind: string)
    requires acked !in TERMINAL && CommandStatusFor(kind) in {"", "running", "awaiting_approval"} + TERMINAL
    ensures SeenCmd(AckedCmd(c, acked), kind) == AckedCmd(SeenCmd(c, kind), acked)
  {
    hide RunStatusFor, CommandStatusFor;
  }

  /** And on the table, whichever command the event settles. */
  lemma AckAndSightCommute(commands: map<string, Cmd>, id: string, r: string, acked: string, k: string, kind: string)
    requires id in commands && acked !in TERMINAL
    requires CommandStatusFor(kind) in {"", "running", "awaiting_approval"} + TERMINAL
    ensures var a, e := commands[id := AckedCmd(commands[id], acked)], SeenCommands(commands, k, r, kind);
      id in e && SeenCommands(a, k, r, kind) == e[id := AckedCmd(e[id], acked)]
  {
    hide CommandStatusFor, SeenCmd, AckStatus;
    AckAndSightCommuteOnOne(commands[id], acked, kind);
    var a, e := commands[id := AckedCmd(commands[id], acked)], SeenCommands(commands, k, r, kind);
    assert SeenCommands(a, k, r, kind).Keys == e.Keys == commands.Keys;
    assert AckedCmd(commands[id], acked).runId == commands[id].runId;
  }

  lemma AcceptedIsOpen(status: string)
    ensures Accepts(status) ==> status !in TERMINAL
  {
    if status in TERMINAL {
      assert TrimSpace(status) == status;
      assert ToLower(status) == status;
    }
  }

  lemma CommandStatuses(kind: string)
    ensures CommandStatusFor(kind) in {"", "running", "awaiting_approval"} + TERMINAL
  {
  }

  /** When answer and event do not commute: only on a stale run, which the answer makes active, with an event that changes
      the row without making the run active itself. Either the run's own session is free and the event takes it through
      one that is not, or its own session is taken and an event without a status takes it to a free one. */
  predicate Diverges(db: Db, i: Incoming, r: string)
    requires r in db.runs
  {
    var run, status := db.runs[r], RunStatusFor(i.event.kind);
    && run.status == "stale" && status !in ACTIVE && SeenRun(run, i) != run
    && if Shut(db.runs, r) then status == "" && !Taken(db.runs, MovedSession(run, i), r)
       else Taken(db.runs, CarriedSession(run, i.event), r) || Taken(db.runs, MovedSession(run, i), r)
  }

  /** The row of the run, with the answer first and with the event first. */
  lemma RunsCommuteIff(db: Db, i: Incoming, r: string)
    requires OneActive(db.runs) && r in db.runs
    ensures var shut, run := Shut(db.runs, r), db.runs[r];
      var acked, seen := AckedRun(run, shut), if IsRefused(db.runs, r, i) then run else SeenRun(run, i);
      var ackFirst := if IsRefused(db.runs[r := acked], r, i) then acked else SeenRun(acked, i);
      var eventFirst := AckedRun(seen, Shut(db.runs[r := seen], r));
      && (ackFirst == eventFirst <==> !Diverges(db, i, r))
      && (ackFirst == eventFirst && RunStatusFor(i.event.kind) != "" ==>
        (IsRefused(db.runs[r := acked], r, i) <==> IsRefused(db.runs, r, i)))
  {
    hide OneActive, Busy, RunStatusFor, ReportedSession;
    SessionEventsHaveNoStatus(i);
    var shut, run := Shut(db.runs, r), db.runs[r];
    if run.status in ACTIVE && run.sessionId != "" {
      OwnSessionIsNotBusy(db.runs, r);
    }
    var acked, seen := AckedRun(run, shut), if IsRefused(db.runs, r, i) then run else SeenRun(run, i);
    BusyIgnoresSelf(db.runs, r, acked, CarriedSession(run, i.event));
    BusyIgnoresSelf(db.runs, r, acked, MovedSession(run, i));
    BusyIgnoresSelf(db.runs, r, acked, SeenRun(run, i).sessionId);
    BusyIgnoresSelf(db.runs, r, seen, seen.sessionId);
  }

  lemma StatuslessSeesNothing(commands: map<string, Cmd>, k: string, r: string, kind: string)
    requires RunStatusFor(kind) == ""
    ensures SeenCommands(commands, k, r, kind) == commands
  {
    hide RunStatusFor;
    if k in commands {
      assert commands[k := commands[k]] == commands;
    }
  }

  /** The answer and an event of the run commute, commands and runs alike, if and only if the event does not diverge;
      on a run that is not stale it never does. */
  lemma AckAndEventCommuteIff(db: Db, ack: Ack, i: Incoming, id: string, r: string)
    requires OneActive(db.runs) && Linked(db, id, r)
    requires IsAcceptedAck(ack, id, r) && IsEventOf(i, id, r)
    ensures ApplyEvent(MarkCommandAck(db, ack).db, i).db == MarkCommandAck(ApplyEvent(db, i).db, ack).db
      <==> !Diverges(db, i, r)
    ensures db.runs[r].status != "stale" ==> !Diverges(db, i, r)
  {
    hide OneActive, ApplyEvent, MarkCommandAck, BareKind, Busy, RunStatusFor, Accepts, AckedStatus,
      SeenCommands, SeenCmd, AckedCmd, AckedRun, SeenRun, Shut, IsRefused, SeenId, Diverges, TrimSpace;
    AckShape(db, ack, id, r);
    EventShape(db, i, id, r);
    var a, e := MarkCommandAck(db, ack).db, ApplyEvent(db, i).db;
    AckKeepsLinked(db, ack, id, r);
    EventKeepsLinked(db, i, id, r);
    EventShape(a, i, id, r);
    AckShape(e, ack, id, r);
    CommandStatuses(i.event.kind);
    AcceptedIsOpen(AckedStatus(ack));
    var k := SeenId(i.event, id);
    AckAndSightCommute(db.commands, id, r, AckedStatus(ack), k, i.event.kind);
    RunsCommuteIff(db, i, r);
    var run := db.runs[r];
    var acked, seen := AckedRun(run, Shut(db.runs, r)), if IsRefused(db.runs, r, i) then run else SeenRun(run, i);
    assert a.runs == db.runs[r := acked];
    assert e.runs == db.runs[r := seen] by { assert db.runs[r := run] == db.runs; }
    var ae, ea := ApplyEvent(a, i).db, MarkCommandAck(e, ack).db;
    var aer := if IsRefused(a.runs, r, i) then acked else SeenRun(acked, i);
    assert ae.runs == db.runs[r := aer];
    assert ea.runs == db.runs[r := AckedRun(seen, Shut(e.runs, r))];
    if RunStatusFor(i.event.kind) == "" {
      StatuslessSeesNothing(db.commands, k, r, i.event.kind);
      StatuslessSeesNothing(a.commands, k, r, i.event.kind);
    }
    NotStale(db, i, r);
    assert aer == AckedRun(seen, Shut(e.runs, r)) <==> !Diverges(db, i, r);
    assert ae.runs == ea.runs <==> aer == AckedRun(seen, Shut(e.runs, r)) by {
      assert ae.runs[r] == aer && ea.runs[r] == AckedRun(seen, Shut(e.runs, r));
    }
    if ae.runs == ea.runs {
      assert ae.commands == ea.commands;
    }
  }

  lemma NotStale(db: Db, i: Incoming, r: string)
    requires r in db.runs
    ensures db.runs[r].status != "stale" ==> !Diverges(db, i, r)
  {
    hide RunStatusFor;
  }

  /** A stale run of a dispatched command, beside a run at work in the session "busy". */
  function StaleIn(sessionId: string): Db {
    Db(map["c" := Cmd("r", "", "", "send", 0, "", "dispatched", 0, None, None, None)],
       map["r" := Run("c", sessionId, "stale", 0, None), "o" := Run("", "busy", "running", 0, None)])
  }

  function DiffIn(sessionId: string): Incoming {
    Incoming(RunEvent("e", "r", "", "", sessionId, 1, "diff.created", NoPayload, 5), "")
  }

  function StatusOfRun(db: Db, r: string): string {
    if r in db.runs then db.runs[r].status else ""
  }

  lemma OkAccepts()
    ensures IsAcceptedAck(Ack("", "c", "r", "ok", 0), "c", "r") && CreatesRun("send")
  {
    assert TrimSpace("ok") == "ok" && ToLower("ok") == "ok";
    assert TrimSpace("accepted") == "accepted" && ToLower("accepted") == "accepted";
  }

  lemma BusyIsTaken(own: string)
    requires own != "busy"
    ensures var free, busy := StaleIn(own).runs, StaleIn("busy").runs;
      && OneActive(free) && OneActive(busy)
      && Taken(free, "busy", "r") && Taken(busy, "busy", "r") && !Taken(free, own, "r") && !Taken(busy, own, "r")
  {
    assert "o" in StaleIn(own).runs && "o" in StaleIn("busy").runs;
  }

  lemma WitnessFits(own: string, to: string)
    requires (own, to) in {("free", "busy"), ("busy", "free")}
    ensures var db, i := StaleIn(own), DiffIn(to);
      && OneActive(db.runs) && Linked(db, "c", "r") && IsEventOf(i, "c", "r") && Diverges(db, i, "r")
      && SeenRun(db.runs["r"], i) == Run("c", to, "stale", 0, Some(5)) && !IsRefused(db.runs, "r", i)
      && (Shut(db.runs, "r") <==> own == "busy") && (Taken(db.runs, to, "r") <==> to == "busy")
  {
    hide OneActive, Busy, TrimSpace, BareKind;
    OkAccepts();
    BusyIsTaken("free");
  }

  /** Both ways of diverging occur, and the run ends up accepted in one order and stale in the other. */
  lemma StaleRunDiverges(own: string, to: string)
    requires (own, to) in {("free", "busy"), ("busy", "free")}
    ensures var db, ack, i := StaleIn(own), Ack("", "c", "r", "ok", 0), DiffIn(to);
      && OneActive(db.runs) && Linked(db, "c", "r") && IsAcceptedAck(ack, "c", "r") && IsEventOf(i, "c", "r")
      && Diverges(db, i, "r")
      && StatusOfRun(ApplyEvent(MarkCommandAck(db, ack).db, i).db, "r") == (if own == "free" then "accepted" else "stale")
      && StatusOfRun(MarkCommandAck(ApplyEvent(db, i).db, ack).db, "r") == (if own == "free" then "stale" else "accepted")
  {
    hide ApplyEvent, MarkCommandAck, Accepts, AckedStatus, BareKind, OneActive, Busy, TrimSpace, Diverges, IsAcceptedAck,
      SeenCommands, SeenCmd, AckedCmd;
    OkAccepts();
    WitnessFits(own, to);
    var db, ack, i := StaleIn(own), Ack("", "c", "r", "ok", 0), DiffIn(to);
    AckShape(db, ack, "c", "r");
    EventShape(db, i, "c", "r");
    AckKeepsLinked(db, ack, "c", "r");
    EventKeepsLinked(db, i, "c", "r");
    var a, e := MarkCommandAck(db, ack).db, ApplyEvent(db, i).db;
    EventShape(a, i, "c", "r");
    AckShape(e, ack, "c", "r");
    BusyIgnoresSelf(db.runs, "r", a.runs["r"], to);
    BusyIgnoresSelf(db.runs, "r", e.runs["r"], to);
  }

  // ----- any point of a sequence -----

  function ApplyEvents(db: Db, events: seq<Incoming>): Db {
    if events == [] then db else ApplyEvent(ApplyEvents(db, events[..|events| - 1]), events[|events| - 1]).db
  }

  /** The events with the answer arriving after the first `at` of them. */
  function WithAckAt(db: Db, events: seq<Incoming>, ack: Ack, at: nat): Db
    requires at <= |events|
  {
    if at == |events| then MarkCommandAck(ApplyEvents(db, events), ack).db
    else ApplyEvent(WithAckAt(db, events[..|events| - 1], ack, at), events[|events| - 1]).db
  }

  /** None of the events from the first `from` on diverges where it arrives. */
  ghost predicate NoneDiverges(db: Db, events: seq<Incoming>, from: nat, r: string) {
    forall n :: from <= n < |events| ==>
      var before := ApplyEvents(db, events[..n]);
      r in before.runs && !Diverges(before, events[n], r)
  }

  lemma {:induction false} EventsKeepLinked(db: Db, events: seq<Incoming>, id: string, r: string)
    requires OneActive(db.runs) && Linked(db, id, r) && forall i :: i in events ==> IsEventOf(i, id, r)
    ensures var db' := ApplyEvents(db, events); OneActive(db'.runs) && Linked(db', id, r)
    ensures r in db.runs && r in ApplyEvents(db, events).runs
    ensures db.runs[r].status != "stale" ==> ApplyEvents(db, events).runs[r].status != "stale"
  {
    hide OneActive, ApplyEvent, Linked, IsEventOf;
    LinkedHasRun(db, id, r);
    if events != [] {
      var last := events[|events| - 1];
      assert last in events;
      EventsKeepLinked(db, events[..|events| - 1], id, r);
      EventKeepsLinked(ApplyEvents(db, events[..|events| - 1]), last, id, r);
      LinkedHasRun(ApplyEvents(db, events), id, r);
    }
  }

  lemma LinkedHasRun(db: Db, id: string, r: string)
    requires Linked(db, id, r)
    ensures r in db.runs && id in db.commands
  {
  }

  /** Inserting the accepted answer at any point leaves the same tables as inserting it at the end, as long as no event
      after that point diverges. */
  lemma {:induction false} AckAnywhere(db: Db, events: seq<Incoming>, ack: Ack, id: string, r: string, at: nat)
    requires at <= |events| && OneActive(db.runs) && Linked(db, id, r) && IsAcceptedAck(ack, id, r)
    requires forall i :: i in events ==> IsEventOf(i, id, r)
    requires NoneDiverges(db, events, at, r)
    ensures WithAckAt(db, events, ack, at) == MarkCommandAck(ApplyEvents(db, events), ack).db
  {
    hide OneActive, ApplyEvent, Linked, IsEventOf, MarkCommandAck, IsAcceptedAck, Diverges;
    if at < |events| {
      var init, last := events[..|events| - 1], events[|events| - 1];
      assert last in events;
      forall n | at <= n < |init|
        ensures var before := ApplyEvents(db, init[..n]); r in before.runs && !Diverges(before, init[n], r)
      {
        assert init[..n] == events[..n];
      }
      AckAnywhere(db, init, ack, id, r, at);
      EventsKeepLinked(db, init, id, r);
      AckAndEventCommuteIff(ApplyEvents(db, init), ack, last, id, r);
    }
  }

  /** For a run that is not stale that is every point of every sequence of its events. */
  lemma AckAnywhereUnlessStale(db: Db, events: seq<Incoming>, ack: Ack, id: string, r: string, at: nat)
    requires at <= |events| && OneActive(db.runs) && Linked(db, id, r) && IsAcceptedAck(ack, id, r)
    requires forall i :: i in events ==> IsEventOf(i, id, r)
    requires db.runs[r].status != "stale"
    ensures WithAckAt(db, events, ack, at) == MarkCommandAck(ApplyEvents(db, events), ack).db
  {
    hide OneActive, ApplyEvent, Linked, IsEventOf, MarkCommandAck, IsAcceptedAck, Diverges;
    forall n | at <= n < |events|
      ensures var before := ApplyEvents(db, events[..n]); r in before.runs && !Diverges(before, events[n], r)
    {
      EventsKeepLinked(db, events[..n], id, r);
      NotStale(ApplyEvents(db, events[..n]), events[n], r);
    }
    AckAnywhere(db, events, ack, id, r, at);
  }
}
