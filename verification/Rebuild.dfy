/** Rebuilding the projections of one run from its stored events. It is no transaction: the views are cleared and the run
    loses its status first, then the statements of one event after the other are committed each on its own, and the first
    one that fails ends the rebuild where it is. What can fail is a write of the run, which the index over active runs
    may refuse, and the check that a reported session belongs to the agent. */
module Rebuild {
  import opened Text
  import opened Protocol
  import opened Lifecycle
  import opened LifecycleSafety
  import opened Confluence
  import opened Projections

  /** What the runtime session in the payload of a session event comes to when the event is replayed: there is none, the
      agent has no such session, or it has. */
  datatype Report = Nothing | Foreign | Own(sessionId: string)

  /** The statement at which a rebuild stopped, if it did. */
  datatype Stop = End | AtCursor | AtSession | AtState

  /** `done` counts the events that were replayed completely. */
  datatype Outcome = Outcome(db: Db, view: View, done: nat, stop: Stop)

  function Reading(e: RunEvent, report: RunEvent -> Report): string {
    match report(e)
    case Own(s) => ReportedSession(Incoming(e, s))
    case _ => ""
  }

  predicate IsForeign(e: RunEvent, report: RunEvent -> Report) {
    IsSessionKind(e.kind) && report(e) == Foreign
  }

  ghost function ReplayOne(o: Outcome, e: RunEvent, report: RunEvent -> Report): Outcome {
    var cursor := AdvanceCursor(o.db, e);
    if !cursor.ok then o.(stop := AtCursor)
    else
      var advanced := Advance(o.view, e);
      var moved := MoveRun(cursor.db, e.runId, Reading(e, report));
      if IsForeign(e, report) || !moved.ok then o.(db := cursor.db, view := advanced, stop := AtSession)
      else
        var view := ProjectRows(advanced, e);
        var state := ProjectRunState(moved.db, e);
        if !state.ok then o.(db := moved.db, view := view, stop := AtState)
        else Outcome(ProjectCommandState(state.db, e), view, o.done + 1, End)
  }

  ghost function Replay(o: Outcome, events: seq<RunEvent>, report: RunEvent -> Report): Outcome {
    if events == [] then o
    else
      var before := Replay(o, events[..|events| - 1], report);
      if before.stop != End then before else ReplayOne(before, events[|events| - 1], report)
  }

  /** The events a rebuild replays, in the order it takes. */
  function Listed(stored: seq<RunEvent>): seq<RunEvent> {
    NotUsage(SortBySeq(stored))
  }

  /** `RebuildRunProjections`; without events to replay nothing changes. */
  ghost function Rebuilt(db: Db, v: View, runId: string, stored: seq<RunEvent>, report: RunEvent -> Report): Outcome {
    if Listed(stored) == [] then Outcome(db, v, 0, End)
    else Replay(Outcome(ClearRun(db, runId), EMPTY, 0, End), Listed(stored), report)
  }

  // ----- the row of the run, event by event -----

  function UpsertRow(row: Option<Run>, e: RunEvent, status: string): Run {
    if row.Some? then row.value.(commandId := OrElse(e.commandId, row.value.commandId),
      sessionId := OrElse(e.sessionId, row.value.sessionId), lastAt := Some(e.at))
    else Run(e.commandId, e.sessionId, status, e.at, Some(e.at))
  }

  function CursorRow(row: Option<Run>, e: RunEvent): Option<Run> {
    if e.seqNo == 0 then row else Some(UpsertRow(row, e, "running"))
  }

  function SessionRow(row: Option<Run>, sessionId: string): Option<Run> {
    if row.Some? && sessionId != "" then Some(row.value.(sessionId := sessionId)) else row
  }

  function StateRow(row: Option<Run>, e: RunEvent): Option<Run> {
    var status := RunStatusFor(e.kind);
    if status == "" then row else Some(UpsertRow(row, e, status).(status := status))
  }

  function MovedRow(row: Option<Run>, e: RunEvent, report: RunEvent -> Report): Option<Run> {
    SessionRow(CursorRow(row, e), Reading(e, report))
  }

  /** The row after these events, if nothing is refused. */
  function RowAfter(row: Option<Run>, events: seq<RunEvent>, report: RunEvent -> Report): Option<Run> {
    if events == [] then row
    else
      var before, e := RowAfter(row, events[..|events| - 1], report), events[|events| - 1];
      StateRow(MovedRow(before, e, report), e)
  }

  function RowOf(runs: map<string, Run>, r: string): Option<Run> {
    if r in runs then Some(runs[r]) else None
  }

  function WithRow(runs: map<string, Run>, r: string, row: Option<Run>): map<string, Run> {
    if row.Some? then runs[r := row.value] else runs
  }

  /** The run would be active beside another active run of its session. */
  predicate Clashes(runs: map<string, Run>, r: string, row: Option<Run>) {
    row.Some? && row.value.status in ACTIVE && Taken(runs, row.value.sessionId, r)
  }

  /** Where an event stops the rebuild, from the row it finds. */
  function StopOf(runs: map<string, Run>, r: string, row: Option<Run>, e: RunEvent, report: RunEvent -> Report): Stop {
    if Clashes(runs, r, CursorRow(row, e)) then AtCursor
    else if IsForeign(e, report) || Clashes(runs, r, MovedRow(row, e, report)) then AtSession
    else if Clashes(runs, r, StateRow(MovedRow(row, e, report), e)) then AtState
    else End
  }

  /** Event `k` would stop the rebuild at this statement: a condition on the runs and the events alone. */
  function StopAt(runs: map<string, Run>, r: string, row: Option<Run>, events: seq<RunEvent>, report: RunEvent -> Report, k: nat)
    : Stop
    requires k < |events|
  {
    StopOf(runs, r, RowAfter(row, events[..k], report), events[k], report)
  }

  // ----- one event -----

  /** A statement on the row of the run passes the index exactly when the new row does not clash. */
  lemma WritePasses(db: Db, r: string, row: Option<Run>)
    requires OneActive(db.runs) && row.Some?
    ensures WriteRuns(db, db.runs[r := row.value]) ==
      if Clashes(db.runs, r, row) then Tx(db, false) else Tx(db.(runs := db.runs[r := row.value]), true)
    ensures OneActive(WriteRuns(db, db.runs[r := row.value]).db.runs)
  {
    hide OneActive, Busy;
    OneRunBreaksIff(db.runs, r, row.value);
  }

  lemma OwnRowIsClear(runs: map<string, Run>, r: string)
    requires OneActive(runs)
    ensures !Clashes(runs, r, RowOf(runs, r)) && WithRow(runs, r, RowOf(runs, r)) == runs
  {
    hide OneActive, Busy;
    if r in runs && runs[r].status in ACTIVE && runs[r].sessionId != "" {
      OwnSessionIsNotBusy(runs, r);
    }
  }

  lemma ClashIgnoresOwnRow(runs: map<string, Run>, r: string, own: Option<Run>, row: Option<Run>)
    ensures Clashes(WithRow(runs, r, own), r, row) == Clashes(runs, r, row)
  {
    hide Busy;
    if own.Some? && row.Some? {
      BusyIgnoresSelf(runs, r, own.value, row.value.sessionId);
    }
  }

  lemma StopIgnoresOwnRow(runs: map<string, Run>, r: string, own: Option<Run>, row: Option<Run>, e: RunEvent,
                          report: RunEvent -> Report)
    ensures StopOf(WithRow(runs, r, own), r, row, e, report) == StopOf(runs, r, row, e, report)
  {
    hide Clashes, WithRow, CursorRow, MovedRow, StateRow, IsForeign;
    ClashIgnoresOwnRow(runs, r, own, CursorRow(row, e));
    ClashIgnoresOwnRow(runs, r, own, MovedRow(row, e, report));
    ClashIgnoresOwnRow(runs, r, own, StateRow(MovedRow(row, e, report), e));
  }

  lemma CursorPasses(db: Db, e: RunEvent, r: string)
    requires OneActive(db.runs) && e.runId == r && r != ""
    ensures var row := CursorRow(RowOf(db.runs, r), e);
      AdvanceCursor(db, e) ==
        if Clashes(db.runs, r, row) then Tx(db, false) else Tx(db.(runs := WithRow(db.runs, r, row)), true)
    ensures OneActive(AdvanceCursor(db, e).db.runs)
  {
    hide OneActive, Taken;
    OwnRowIsClear(db.runs, r);
    if e.seqNo != 0 {
      WritePasses(db, r, CursorRow(RowOf(db.runs, r), e));
    }
  }

  lemma MovePasses(db: Db, r: string, sessionId: string)
    requires OneActive(db.runs)
    ensures var row := SessionRow(RowOf(db.runs, r), sessionId);
      MoveRun(db, r, sessionId) ==
        if Clashes(db.runs, r, row) then Tx(db, false) else Tx(db.(runs := WithRow(db.runs, r, row)), true)
    ensures OneActive(MoveRun(db, r, sessionId).db.runs)
  {
    hide OneActive, Taken;
    OwnRowIsClear(db.runs, r);
    if sessionId != "" && r in db.runs {
      WritePasses(db, r, SessionRow(RowOf(db.runs, r), sessionId));
    }
  }

  lemma StatePasses(db: Db, e: RunEvent, r: string)
    requires OneActive(db.runs) && e.runId == r && r != ""
    ensures var row := StateRow(RowOf(db.runs, r), e);
      ProjectRunState(db, e) ==
        if Clashes(db.runs, r, row) then Tx(db, false) else Tx(db.(runs := WithRow(db.runs, r, row)), true)
    ensures OneActive(ProjectRunState(db, e).db.runs)
  {
    hide OneActive, Taken, RunStatusFor;
    OwnRowIsClear(db.runs, r);
    if RunStatusFor(e.kind) != "" {
      WritePasses(db, r, StateRow(RowOf(db.runs, r), e));
    }
  }

  /** The row a rebuild leaves when it stops at this statement of an event. */
  function StoppedRow(row: Option<Run>, e: RunEvent, report: RunEvent -> Report, stop: Stop): Option<Run> {
    match stop
    case AtCursor => row
    case AtSession => CursorRow(row, e)
    case AtState => MovedRow(row, e, report)
    case End => StateRow(MovedRow(row, e, report), e)
  }

  /** And the view. */
  ghost function StoppedView(v: View, e: RunEvent, stop: Stop): View {
    match stop
    case AtCursor => v
    case AtSession => Advance(v, e)
    case _ => Project(v, e)
  }

  lemma RowIsWritten(runs: map<string, Run>, r: string, row: Option<Run>)
    requires row.None? ==> r !in runs
    ensures RowOf(WithRow(runs, r, row), r) == row
  {
  }

  lemma WrittenTwice(runs: map<string, Run>, r: string, row: Option<Run>, row': Option<Run>)
    requires row.Some? ==> row'.Some?
    ensures WithRow(WithRow(runs, r, row), r, row') == WithRow(runs, r, row')
  {
  }

  lemma ReplayOneShape(o: Outcome, e: RunEvent, r: string, report: RunEvent -> Report)
    requires OneActive(o.db.runs) && e.runId == r && r != "" && !IsUsageKind(e.kind) && o.stop == End
    ensures var row, o' := RowOf(o.db.runs, r), ReplayOne(o, e, report);
      && OneActive(o'.db.runs)
      && o'.stop == StopOf(o.db.runs, r, row, e, report)
      && o'.done == (if o'.stop == End then o.done + 1 else o.done)
      && o'.db.runs == WithRow(o.db.runs, r, StoppedRow(row, e, report, o'.stop))
      && o'.view == StoppedView(o.view, e, o'.stop)
  {
    hide OneActive, AdvanceCursor, MoveRun, ProjectRunState, ProjectCommandState, Clashes, CursorRow, SessionRow, StateRow,
      WithRow, RowOf, Project, ProjectRows, Advance, IsUsageKind, Reading, IsForeign;
    var runs, row := o.db.runs, RowOf(o.db.runs, r);
    CursorPasses(o.db, e, r);
    var db1, row1 := AdvanceCursor(o.db, e).db, CursorRow(row, e);
    if AdvanceCursor(o.db, e).ok {
      RowsStay(row, e, report);
      RowIsThere(runs, r);
      RowIsWritten(runs, r, row1);
      MovePasses(db1, r, Reading(e, report));
      var row2 := MovedRow(row, e, report);
      ClashIgnoresOwnRow(runs, r, row1, row2);
      WrittenTwice(runs, r, row1, row2);
      var moved := MoveRun(db1, r, Reading(e, report));
      if moved.ok && !IsForeign(e, report) {
        RowIsWritten(runs, r, row2);
        StatePasses(moved.db, e, r);
        var row3 := StateRow(row2, e);
        ClashIgnoresOwnRow(runs, r, row2, row3);
        WrittenTwice(runs, r, row2, row3);
        ProjectIsBoth(o.view, e);
        SettleKeeps(ProjectRunState(moved.db, e).db, e);
      }
    } else {
      OwnRowIsClear(runs, r);
    }
  }

  /** No statement takes the row away. */
  lemma RowsStay(row: Option<Run>, e: RunEvent, report: RunEvent -> Report)
    ensures row.Some? ==> CursorRow(row, e).Some?
    ensures CursorRow(row, e).Some? ==> MovedRow(row, e, report).Some?
    ensures MovedRow(row, e, report).Some? ==> StateRow(MovedRow(row, e, report), e).Some?
  {
    hide RunStatusFor;
  }

  lemma RowIsThere(runs: map<string, Run>, r: string)
    ensures RowOf(runs, r).None? <==> r !in runs
  {
  }

  // ----- the whole rebuild -----

  /** All events are of the run, and none is a usage event. */
  predicate AreOf(events: seq<RunEvent>, r: string) {
    forall i :: 0 <= i < |events| ==> events[i].runId == r && !IsUsageKind(events[i].kind)
  }

  /** The row and the view after `done` events, and the part of the next one that came before it stopped the rebuild. */
  function RowAt(row: Option<Run>, events: seq<RunEvent>, report: RunEvent -> Report, done: nat, stop: Stop): Option<Run>
    requires done <= |events| && (stop != End ==> done < |events|)
  {
    if stop == End then RowAfter(row, events[..done], report)
    else StoppedRow(RowAfter(row, events[..done], report), events[done], report, stop)
  }

  ghost function ViewAt(events: seq<RunEvent>, done: nat, stop: Stop): View
    requires done <= |events| && (stop != End ==> done < |events|)
  {
    if stop == End then Fold(EMPTY, events[..done]) else StoppedView(Fold(EMPTY, events[..done]), events[done], stop)
  }

  /** What is known of a rebuild of `events` that began on `runs`. */
  ghost predicate IsOutcome(runs: map<string, Run>, r: string, events: seq<RunEvent>, report: RunEvent -> Report, o: Outcome) {
    var row := RowOf(runs, r);
    && OneActive(o.db.runs) && o.done <= |events| && (o.stop == End <==> o.done == |events|)
    && (forall k :: 0 <= k < o.done ==> StopAt(runs, r, row, events, report, k) == End)
    && (o.stop != End ==> StopAt(runs, r, row, events, report, o.done) == o.stop)
    && o.db.runs == WithRow(runs, r, RowAt(row, events, report, o.done, o.stop))
    && o.view == ViewAt(events, o.done, o.stop)
  }

  lemma {:induction false} RowsRemain(row: Option<Run>, events: seq<RunEvent>, report: RunEvent -> Report)
    ensures row.Some? ==> RowAfter(row, events, report).Some?
  {
    hide CursorRow, MovedRow, StateRow;
    if events != [] {
      RowsRemain(row, events[..|events| - 1], report);
      RowsStay(RowAfter(row, events[..|events| - 1], report), events[|events| - 1], report);
    }
  }

  /** A rebuild that has stopped stays where it is. */
  lemma StoppedStays(runs: map<string, Run>, r: string, events: seq<RunEvent>, report: RunEvent -> Report, o: Outcome)
    requires events != [] && o.stop != End && IsOutcome(runs, r, events[..|events| - 1], report, o)
    ensures IsOutcome(runs, r, events, report, o)
  {
    hide OneActive, WithRow, RowAfter, StopOf, StoppedRow, StoppedView, Fold;
    var init := events[..|events| - 1];
    assert forall k :: 0 <= k <= |init| ==> init[..k] == events[..k];
    assert forall k :: 0 <= k < |init| ==>
      StopAt(runs, r, RowOf(runs, r), init, report, k) == StopAt(runs, r, RowOf(runs, r), events, report, k);
  }

  lemma OneMore(runs: map<string, Run>, r: string, events: seq<RunEvent>, report: RunEvent -> Report, o: Outcome)
    requires events != [] && r != "" && AreOf(events, r)
    requires o.stop == End && IsOutcome(runs, r, events[..|events| - 1], report, o)
    ensures IsOutcome(runs, r, events, report, ReplayOne(o, events[|events| - 1], report))
  {
    hide OneActive, WithRow, RowOf, StopOf, StoppedRow, CursorRow, MovedRow, StateRow, ReplayOne, Project, Advance, IsUsageKind;
    var n, init, e := |events| - 1, events[..|events| - 1], events[|events| - 1];
    var first, row := RowOf(runs, r), RowAfter(RowOf(runs, r), init, report);
    var o' := ReplayOne(o, e, report);
    assert init[..n] == init && events[..n + 1] == events;
    assert forall k :: 0 <= k <= n ==> init[..k] == events[..k];
    assert forall k :: 0 <= k < n ==> StopAt(runs, r, first, init, report, k) == StopAt(runs, r, first, events, report, k);
    RowsRemain(first, init, report);
    RowIsThere(runs, r);
    RowIsWritten(runs, r, row);
    ReplayOneShape(o, e, r, report);
    StopIgnoresOwnRow(runs, r, row, row, e, report);
    StoppedRowRemains(row, e, report, o'.stop);
    WrittenTwice(runs, r, row, StoppedRow(row, e, report, o'.stop));
    NextRow(first, events, report);
  }

  lemma StoppedRowRemains(row: Option<Run>, e: RunEvent, report: RunEvent -> Report, stop: Stop)
    ensures row.Some? ==> StoppedRow(row, e, report, stop).Some?
  {
    hide CursorRow, MovedRow, StateRow;
    RowsStay(row, e, report);
  }

  lemma NextRow(row: Option<Run>, events: seq<RunEvent>, report: RunEvent -> Report)
    requires events != []
    ensures RowAfter(row, events, report) ==
      StoppedRow(RowAfter(row, events[..|events| - 1], report), events[|events| - 1], report, End)
  {
  }

  /** Whatever the tables and the events: a rebuild replays them up to the first one that stops it, leaves the row and the
      view of the events replayed, with what came before the stop, and keeps one active run per session. */
  lemma {:induction false} ReplayOutcome(db: Db, r: string, events: seq<RunEvent>, report: RunEvent -> Report)
    requires OneActive(db.runs) && r != "" && AreOf(events, r)
    ensures IsOutcome(db.runs, r, events, report, Replay(Outcome(db, EMPTY, 0, End), events, report))
  {
    hide OneActive, IsOutcome, ReplayOne, IsUsageKind;
    if events == [] {
      NothingReplayed(db, r, report);
    } else {
      var init := events[..|events| - 1];
      ReplayOutcome(db, r, init, report);
      var before := Replay(Outcome(db, EMPTY, 0, End), init, report);
      if before.stop != End {
        StoppedStays(db.runs, r, events, report, before);
      } else {
        OneMore(db.runs, r, events, report, before);
      }
    }
  }

  lemma NothingReplayed(db: Db, r: string, report: RunEvent -> Report)
    requires OneActive(db.runs)
    ensures IsOutcome(db.runs, r, [], report, Outcome(db, EMPTY, 0, End))
  {
    hide OneActive;
    OwnRowIsClear(db.runs, r);
    var nothing: seq<RunEvent> := [];
    assert nothing[..0] == nothing;
  }

  // ----- when a rebuild completes -----

  /** The row of the run as clearing leaves it. */
  function ClearedRow(runs: map<string, Run>, r: string): Option<Run> {
    if r in runs then Some(runs[r].(status := "rebuilding", lastAt := None)) else None
  }

  /** Where event `k` would stop the rebuild, in terms of the runs before it began. */
  function StopIn(runs: map<string, Run>, r: string, stored: seq<RunEvent>, report: RunEvent -> Report, k: nat): Stop
    requires k < |Listed(stored)|
  {
    StopAt(runs, r, ClearedRow(runs, r), Listed(stored), report, k)
  }

  predicate StoredOf(stored: seq<RunEvent>, r: string) {
    forall e :: e in stored ==> e.runId == r
  }

  lemma ClearKeepsOneActive(db: Db, r: string)
    requires OneActive(db.runs)
    ensures OneActive(ClearRun(db, r).runs)
    ensures RowOf(ClearRun(db, r).runs, r) == ClearedRow(db.runs, r)
    ensures ClearRun(db, r).runs == WithRow(db.runs, r, ClearedRow(db.runs, r))
  {
    hide OneActive;
    NoNewActiveKeeps(db.runs, ClearRun(db, r).runs);
  }

  lemma {:induction false} NotUsageIsClean(events: seq<RunEvent>)
    ensures forall e :: e in NotUsage(events) ==> e in events && !IsUsageKind(e.kind)
  {
    hide IsUsageKind;
    if events != [] {
      NotUsageIsClean(events[..|events| - 1]);
    }
  }

  lemma ListedAreOf(stored: seq<RunEvent>, r: string)
    requires StoredOf(stored, r)
    ensures AreOf(Listed(stored), r)
  {
    hide IsUsageKind, SortBySeq;
    NotUsageIsClean(SortBySeq(stored));
    forall i | 0 <= i < |Listed(stored)|
      ensures Listed(stored)[i].runId == r && !IsUsageKind(Listed(stored)[i].kind)
    {
      assert Listed(stored)[i] in Listed(stored);
      assert Listed(stored)[i] in multiset(SortBySeq(stored));
    }
  }

  /** The outcome in terms of the tables before the call. */
  ghost predicate Rebuilds(db: Db, r: string, stored: seq<RunEvent>, report: RunEvent -> Report, o: Outcome) {
    var events, row := Listed(stored), ClearedRow(db.runs, r);
    && OneActive(o.db.runs) && o.done <= |events| && (o.stop == End <==> o.done == |events|)
    && (forall k :: 0 <= k < o.done ==> StopIn(db.runs, r, stored, report, k) == End)
    && (o.stop != End ==> StopIn(db.runs, r, stored, report, o.done) == o.stop)
    && o.db.runs == WithRow(db.runs, r, RowAt(row, events, report, o.done, o.stop))
    && o.view == ViewAt(events, o.done, o.stop)
  }

  lemma RebuildOutcome(db: Db, v: View, r: string, stored: seq<RunEvent>, report: RunEvent -> Report)
    requires OneActive(db.runs) && r != "" && StoredOf(stored, r) && Listed(stored) != []
    ensures Rebuilds(db, r, stored, report, Rebuilt(db, v, r, stored, report))
  {
    hide OneActive, IsUsageKind, StopOf, RowAfter, Replay, Listed, ViewAt, ClearRun, ClearedRow, StoppedRow, WithRow;
    var events, row := Listed(stored), ClearedRow(db.runs, r);
    var cleared := ClearRun(db, r);
    ListedAreOf(stored, r);
    ClearKeepsOneActive(db, r);
    ReplayOutcome(cleared, r, events, report);
    var o := Rebuilt(db, v, r, stored, report);
    forall k | 0 <= k < |events|
      ensures StopAt(cleared.runs, r, row, events, report, k) == StopIn(db.runs, r, stored, report, k)
    {
      StopIgnoresOwnRow(db.runs, r, row, RowAfter(row, events[..k], report), events[k], report);
    }
    RowAtRemains(row, events, report, o.done, o.stop);
    WrittenTwice(db.runs, r, row, RowAt(row, events, report, o.done, o.stop));
  }

  lemma RowAtRemains(row: Option<Run>, events: seq<RunEvent>, report: RunEvent -> Report, done: nat, stop: Stop)
    requires done <= |events| && (stop != End ==> done < |events|)
    ensures row.Some? ==> RowAt(row, events, report, done, stop).Some?
  {
    hide RowAfter, StoppedRow;
    RowsRemain(row, events[..done], report);
    if stop != End {
      StoppedRowRemains(RowAfter(row, events[..done], report), events[done], report, stop);
    }
  }

  /** A rebuild completes if and only if no event stops it: none takes the run, while it is active or becomes active,
      into a session with another active run, and none reports a session the agent does not have. */
  lemma RebuildCompletesIff(db: Db, v: View, r: string, stored: seq<RunEvent>, report: RunEvent -> Report)
    requires OneActive(db.runs) && r != "" && StoredOf(stored, r) && Listed(stored) != []
    ensures Rebuilt(db, v, r, stored, report).stop == End <==>
      forall k :: 0 <= k < |Listed(stored)| ==> StopIn(db.runs, r, stored, report, k) == End
  {
    hide OneActive, StopIn, Listed, Rebuilt, RowAt, ViewAt;
    RebuildOutcome(db, v, r, stored, report);
  }

  // ----- the condition in closed form -----

  /** The last status any of the events sets. */
  function StatusAfter(before: string, events: seq<RunEvent>): string {
    if events == [] then before
    else OrElse(RunStatusFor(events[|events| - 1].kind), StatusAfter(before, events[..|events| - 1]))
  }

  /** The session once the cursor of the event has moved, and once its own session has been taken over. */
  function SessionAtCursor(before: string, e: RunEvent): string {
    if e.seqNo != 0 then OrElse(e.sessionId, before) else before
  }

  function SessionAtMove(before: string, e: RunEvent, report: RunEvent -> Report): string {
    OrElse(Reading(e, report), SessionAtCursor(before, e))
  }

  /** The last session any of the events carries or reports. */
  function SessionAfter(before: string, events: seq<RunEvent>, report: RunEvent -> Report): string {
    if events == [] then before
    else
      var e := events[|events| - 1];
      var moved := SessionAtMove(SessionAfter(before, events[..|events| - 1], report), e, report);
      if RunStatusFor(e.kind) == "" then moved else OrElse(e.sessionId, moved)
  }

  lemma {:induction false} RowInWords(row: Option<Run>, events: seq<RunEvent>, report: RunEvent -> Report)
    requires row.Some?
    ensures var after := RowAfter(row, events, report);
      && after.Some? && after.value.status == StatusAfter(row.value.status, events)
      && after.value.sessionId == SessionAfter(row.value.sessionId, events, report)
  {
    hide RunStatusFor, Reading;
    if events != [] {
      RowInWords(row, events[..|events| - 1], report);
    }
  }

  /** What event `k` must not do to a run that was in `session`: take it through a session with another active run while it
      is active, make it active in one, or report a session the agent does not have. */
  predicate Passes(runs: map<string, Run>, r: string, session: string, events: seq<RunEvent>, report: RunEvent -> Report, k: nat)
    requires k < |events|
  {
    var e, before := events[k], SessionAfter(session, events[..k], report);
    && !IsForeign(e, report)
    && (StatusAfter("rebuilding", events[..k]) in ACTIVE ==>
        !Taken(runs, SessionAtCursor(before, e), r) && !Taken(runs, SessionAtMove(before, e, report), r))
    && (RunStatusFor(e.kind) in ACTIVE ==> !Taken(runs, SessionAfter(session, events[..k + 1], report), r))
  }

  lemma PassesIff(runs: map<string, Run>, r: string, events: seq<RunEvent>, report: RunEvent -> Report, k: nat)
    requires r in runs && k < |events|
    ensures StopAt(runs, r, ClearedRow(runs, r), events, report, k) == End <==> Passes(runs, r, runs[r].sessionId, events, report, k)
  {
    hide Taken, RunStatusFor, Reading, IsForeign, RowAfter;
    var row := ClearedRow(runs, r);
    RowInWords(row, events[..k], report);
    assert events[..k + 1][..k] == events[..k] && events[..k + 1][k] == events[k];
    StatusWord(events[k].kind);
  }

  lemma StatusWord(kind: string)
    ensures RunStatusFor(kind) == "" ==> RunStatusFor(kind) !in ACTIVE
  {
    hide RunStatusFor;
  }

  /** For a run that has a row, as every run has that is rebuilt from the dashboard. */
  lemma RebuildCompletesInWords(db: Db, v: View, r: string, stored: seq<RunEvent>, report: RunEvent -> Report)
    requires OneActive(db.runs) && r != "" && r in db.runs && StoredOf(stored, r) && Listed(stored) != []
    ensures Rebuilt(db, v, r, stored, report).stop == End <==>
      forall k :: 0 <= k < |Listed(stored)| ==> Passes(db.runs, r, db.runs[r].sessionId, Listed(stored), report, k)
  {
    hide OneActive, Listed, Rebuilt, Passes, StopAt, ClearedRow;
    RebuildCompletesIff(db, v, r, stored, report);
    forall k | 0 <= k < |Listed(stored)|
      ensures StopIn(db.runs, r, stored, report, k) == End <==>
        Passes(db.runs, r, db.runs[r].sessionId, Listed(stored), report, k)
    {
      PassesIff(db.runs, r, Listed(stored), report, k);
    }
  }

  // ----- events of one session -----

  predicate InOneSession(events: seq<RunEvent>, sessionId: string, report: RunEvent -> Report) {
    forall i :: 0 <= i < |events| ==>
      events[i].sessionId in {"", sessionId} && Reading(events[i], report) in {"", sessionId} && !IsForeign(events[i], report)
  }

  lemma {:induction false} SessionStays(sessionId: string, events: seq<RunEvent>, report: RunEvent -> Report)
    requires InOneSession(events, sessionId, report)
    ensures SessionAfter(sessionId, events, report) == sessionId
  {
    hide Reading, RunStatusFor, IsForeign;
    if events != [] {
      SessionStays(sessionId, events[..|events| - 1], report);
    }
  }

  predicate Activates(e: RunEvent) {
    RunStatusFor(e.kind) in ACTIVE
  }

  lemma {:induction false} StaysInactive(before: string, events: seq<RunEvent>)
    requires before !in ACTIVE && forall i :: 0 <= i < |events| ==> !Activates(events[i])
    ensures StatusAfter(before, events) !in ACTIVE
  {
    hide RunStatusFor;
    if events != [] {
      StaysInactive(before, events[..|events| - 1]);
    }
  }

  lemma OneSessionPasses(runs: map<string, Run>, r: string, sessionId: string, events: seq<RunEvent>, report: RunEvent -> Report,
                         k: nat)
    requires k < |events| && InOneSession(events, sessionId, report)
    ensures Passes(runs, r, sessionId, events, report, k) <==>
      !Taken(runs, sessionId, r) || (!Activates(events[k]) && StatusAfter("rebuilding", events[..k]) !in ACTIVE)
  {
    hide Taken, RunStatusFor, Reading, IsForeign;
    SessionStays(sessionId, events[..k], report);
    SessionStays(sessionId, events[..k + 1], report);
  }

  /** When all stored events are of the run's session, the rebuild completes if and only if none of them makes the run
      active or no other run of the session is. */
  lemma OneSessionCompletesIff(db: Db, v: View, r: string, stored: seq<RunEvent>, report: RunEvent -> Report)
    requires OneActive(db.runs) && r != "" && r in db.runs && StoredOf(stored, r) && Listed(stored) != []
    requires InOneSession(Listed(stored), db.runs[r].sessionId, report)
    ensures Rebuilt(db, v, r, stored, report).stop == End <==>
      (forall e :: e in Listed(stored) ==> !Activates(e)) || !Taken(db.runs, db.runs[r].sessionId, r)
  {
    hide OneActive, Listed, Rebuilt, Passes, Activates, InOneSession, StatusAfter, Taken;
    var s, events := db.runs[r].sessionId, Listed(stored);
    RebuildCompletesInWords(db, v, r, stored, report);
    forall k | 0 <= k < |events|
      ensures Passes(db.runs, r, s, events, report, k) <==>
        !Taken(db.runs, s, r) || (!Activates(events[k]) && StatusAfter("rebuilding", events[..k]) !in ACTIVE)
    {
      OneSessionPasses(db.runs, r, s, events, report, k);
    }
    if forall e :: e in events ==> !Activates(e) {
      forall k | 0 <= k < |events|
        ensures StatusAfter("rebuilding", events[..k]) !in ACTIVE
      {
        StaysInactive("rebuilding", events[..k]);
      }
    }
  }

  lemma FirstStop(db: Db, r: string, stored: seq<RunEvent>, report: RunEvent -> Report, o: Outcome, k: nat)
    requires k < |Listed(stored)| && Rebuilds(db, r, stored, report, o)
    requires StopIn(db.runs, r, stored, report, k) != End
    requires forall j :: 0 <= j < k ==> StopIn(db.runs, r, stored, report, j) == End
    ensures o.done == k && o.stop == StopIn(db.runs, r, stored, report, k)
  {
    hide OneActive, StopIn, Listed, RowAt, ViewAt, WithRow;
  }

  /** Otherwise it stops at the run state of the first event that makes the run active; the run keeps the status it had
      reached, `rebuilding` if that event was the first with one. */
  lemma OneSessionStops(db: Db, v: View, r: string, stored: seq<RunEvent>, report: RunEvent -> Report, k: nat)
    requires OneActive(db.runs) && r != "" && r in db.runs && StoredOf(stored, r) && k < |Listed(stored)|
    requires InOneSession(Listed(stored), db.runs[r].sessionId, report) && Taken(db.runs, db.runs[r].sessionId, r)
    requires Activates(Listed(stored)[k]) && forall j :: 0 <= j < k ==> !Activates(Listed(stored)[j])
    ensures var o := Rebuilt(db, v, r, stored, report);
      && o.done == k && o.stop == AtState && o.view == Fold(EMPTY, Listed(stored)[..k + 1])
      && r in o.db.runs && o.db.runs[r].status == StatusAfter("rebuilding", Listed(stored)[..k])
  {
    hide OneActive, Listed, Rebuilt, Taken, Reading, RunStatusFor, InOneSession, IsForeign, Fold, Project, StopAt;
    var s, events, o := db.runs[r].sessionId, Listed(stored), Rebuilt(db, v, r, stored, report);
    RebuildOutcome(db, v, r, stored, report);
    forall j | 0 <= j <= k
      ensures StopIn(db.runs, r, stored, report, j) == End <==> j < k
    {
      PassesIff(db.runs, r, events, report, j);
      OneSessionPasses(db.runs, r, s, events, report, j);
      StaysInactive("rebuilding", events[..j]);
    }
    ActivationStops(db.runs, r, events, report, k);
    FirstStop(db, r, stored, report, o, k);
    RowInWords(ClearedRow(db.runs, r), events[..k], report);
    FoldOneMore(events, k);
  }

  lemma FoldOneMore(events: seq<RunEvent>, k: nat)
    requires k < |events|
    ensures Fold(EMPTY, events[..k + 1]) == Project(Fold(EMPTY, events[..k]), events[k])
  {
    assert events[..k + 1][..k] == events[..k];
  }

  lemma ActivationStops(runs: map<string, Run>, r: string, events: seq<RunEvent>, report: RunEvent -> Report, k: nat)
    requires r in runs && k < |events| && InOneSession(events, runs[r].sessionId, report)
    requires Taken(runs, runs[r].sessionId, r) && Activates(events[k]) && forall j :: 0 <= j < k ==> !Activates(events[j])
    ensures StopAt(runs, r, ClearedRow(runs, r), events, report, k) == AtState
  {
    hide Taken, RunStatusFor, Reading, IsForeign, RowAfter;
    StaysInactive("rebuilding", events[..k]);
    RowInWords(ClearedRow(runs, r), events[..k], report);
    SessionStays(runs[r].sessionId, events[..k], report);
  }

  // ----- a rebuild among the other steps -----

  lemma {:induction false} Append(db: Db, a: seq<Step>, b: seq<Step>)
    requires IsRun(db, a) && IsRun(Execute(db, a), b)
    ensures IsRun(db, a + b) && Execute(db, a + b) == Execute(Execute(db, a), b)
    decreases |a|
  {
    hide Enabled, Apply;
    if a == [] {
      assert a + b == b;
    } else {
      assert (a + b)[1..] == a[1..] + b;
      Append(Apply(db, a[0]), a[1..], b);
    }
  }

  lemma OneStep(db: Db, step: Step)
    requires Enabled(db, step)
    ensures IsRun(db, [step]) && Execute(db, [step]) == Apply(db, step)
  {
    hide Enabled, Apply;
    assert [step][1..] == [];
  }

  /** The statements of one event, up to the one that stops the rebuild. */
  function StatementsOf(e: RunEvent, report: RunEvent -> Report, stop: Stop): seq<Step> {
    match stop
    case AtCursor => []
    case AtSession => [ReplayCursor(e)]
    case AtState => [ReplayCursor(e)] + [ReplaySession(e.runId, Reading(e, report))]
    case End => [ReplayCursor(e)] + [ReplaySession(e.runId, Reading(e, report))] + [ReplayState(e)] + [ReplayCommand(e)]
  }

  lemma OneEventIsSteps(o: Outcome, e: RunEvent, report: RunEvent -> Report)
    requires o.stop == End
    ensures var o' := ReplayOne(o, e, report);
      IsRun(o.db, StatementsOf(e, report, o'.stop)) && Execute(o.db, StatementsOf(e, report, o'.stop)) == o'.db
  {
    hide AdvanceCursor, MoveRun, ProjectRunState, ProjectCommandState, Reading, IsForeign, Advance, ProjectRows, IsRun, Execute;
    var steps := StatementsOf(e, report, End);
    var db1 := Apply(o.db, steps[0]);
    var db2 := Apply(db1, steps[1]);
    var db3 := Apply(db2, steps[2]);
    NoSteps(o.db);
    OneStep(o.db, steps[0]);
    OneStep(db1, steps[1]);
    OneStep(db2, steps[2]);
    OneStep(db3, steps[3]);
    Append(o.db, [steps[0]], [steps[1]]);
    Append(o.db, [steps[0]] + [steps[1]], [steps[2]]);
    Append(o.db, [steps[0]] + [steps[1]] + [steps[2]], [steps[3]]);
  }

  lemma NoSteps(db: Db)
    ensures IsRun(db, []) && Execute(db, []) == db
  {
  }

  lemma {:induction false} ReplayIsSteps(o: Outcome, events: seq<RunEvent>, report: RunEvent -> Report) returns (steps: seq<Step>)
    requires o.stop == End
    ensures IsRun(o.db, steps) && Execute(o.db, steps) == Replay(o, events, report).db
  {
    hide ReplayOne, StatementsOf, IsRun, Execute;
    steps := [];
    NoSteps(o.db);
    if events != [] {
      var before := Replay(o, events[..|events| - 1], report);
      steps := ReplayIsSteps(o, events[..|events| - 1], report);
      if before.stop == End {
        var e := events[|events| - 1];
        var more := StatementsOf(e, report, ReplayOne(before, e, report).stop);
        OneEventIsSteps(before, e, report);
        Append(o.db, steps, more);
        steps := steps + more;
      }
    }
  }

  /** A rebuild is a run of lifecycle steps, so everything that those keep holds after each of its statements, whatever
      other steps come in between. */
  lemma RebuildIsSteps(db: Db, v: View, r: string, stored: seq<RunEvent>, report: RunEvent -> Report) returns (steps: seq<Step>)
    ensures IsRun(db, steps) && Execute(db, steps) == Rebuilt(db, v, r, stored, report).db
  {
    hide Replay, Listed, IsRun, Execute, ClearRun;
    steps := [];
    NoSteps(db);
    if Listed(stored) != [] {
      steps := ReplayIsSteps(Outcome(ClearRun(db, r), EMPTY, 0, End), Listed(stored), report);
      OneStep(db, StartRebuild(r));
      Append(db, [StartRebuild(r)], steps);
      steps := [StartRebuild(r)] + steps;
    }
  }
}
