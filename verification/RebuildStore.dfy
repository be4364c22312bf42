/** The rebuild as the store executes it: statement by statement, over the tables of the lifecycle and the views of a run. */
module RebuildStore {
  import opened Protocol
  import opened Lifecycle
  import opened Projections
  import opened Rebuild
  import LifecycleStore
  import ProjectionStore

  class Rebuilder {
    const tables: LifecycleStore.Store
    const views: ProjectionStore.RunViews

    constructor (tables: LifecycleStore.Store, views: ProjectionStore.RunViews)
      ensures this.tables == tables && this.views == views
    {
      this.tables, this.views := tables, views;
    }

    /** The stored events of the run, in the order of their sequence numbers and without usage. */
    method ListRunEvents(stored: seq<RunEvent>) returns (events: seq<RunEvent>)
      ensures events == Listed(stored)
    {
      hide IsUsageKind, SortBySeq;
      var sorted := SortBySeq(stored);
      events := [];
      var i := 0;
      while i < |sorted|
        invariant 0 <= i <= |sorted| && events == NotUsage(sorted[..i])
      {
        assert sorted[..i + 1][..i] == sorted[..i];
        if !IsUsageKind(sorted[i].kind) {
          events := events + [sorted[i]];
        }
        i := i + 1;
      }
      assert sorted[..i] == sorted;
    }

    /** The statements of one event; the first that fails is the last one executed. */
    method ReplayEvent(e: RunEvent, report: RunEvent -> Report, ghost done: nat) returns (stop: Stop)
      requires e.runId != ""
      modifies tables, views, views.rows
      ensures ReplayOne(Outcome(old(tables.Snapshot()), old(views.Snapshot()), done, End), e, report)
        == Outcome(tables.Snapshot(), views.Snapshot(), if stop == End then done + 1 else done, stop)
    {
      hide AdvanceCursor, MoveRun, ProjectRunState, ProjectCommandState, IsUsageKind, IsForeign, ProjectRows, Reading;
      var ok := tables.AdvanceRunEventCursor(e);
      if !ok {
        CursorFails(old(tables.Snapshot()), e);
        return AtCursor;
      }
      views.AdvanceCursor(e);
      if IsForeign(e, report) {
        return AtSession;
      }
      ok := tables.ProjectRuntimeSessionRunLink(e.runId, Reading(e, report));
      if !ok {
        MoveFails(AdvanceCursor(old(tables.Snapshot()), e).db, e.runId, Reading(e, report));
        return AtSession;
      }
      views.ProjectEventRows(e);
      ok := tables.ProjectRunStatus(e);
      if !ok {
        StateFails(MoveRun(AdvanceCursor(old(tables.Snapshot()), e).db, e.runId, Reading(e, report)).db, e);
        return AtState;
      }
      tables.ProjectCommand(e);
      return End;
    }

    /** What is found, whether it was rebuilt to the end, and how many events were replayed completely. */
    method RebuildRunProjections(runId: string, stored: seq<RunEvent>, report: RunEvent -> Report)
      returns (found: bool, eventCount: nat, stop: Stop)
      requires runId != "" && StoredOf(stored, runId)
      modifies tables, views, views.rows
      ensures found <==> Listed(stored) != []
      ensures Outcome(tables.Snapshot(), views.Snapshot(), eventCount, stop)
        == Rebuilt(old(tables.Snapshot()), old(views.Snapshot()), runId, stored, report)
    {
      hide IsUsageKind, Listed, ReplayOne;
      var events := ListRunEvents(stored);
      if events == [] {
        return false, 0, End;
      }
      ListedAreOf(stored, runId);
      views.ClearRunProjections();
      tables.MarkRebuilding(runId);
      ghost var o := Outcome(tables.Snapshot(), EMPTY, 0, End);
      eventCount := 0;
      while eventCount < |events|
        invariant 0 <= eventCount <= |events|
        invariant Replay(o, events[..eventCount], report) == Outcome(tables.Snapshot(), views.Snapshot(), eventCount, End)
      {
        assert events[..eventCount + 1][..eventCount] == events[..eventCount];
        stop := ReplayEvent(events[eventCount], report, eventCount);
        if stop != End {
          ReplayStops(o, events, eventCount + 1, report);
          return true, eventCount, stop;
        }
        eventCount := eventCount + 1;
      }
      assert events[..eventCount] == events;
      return true, eventCount, End;
    }
  }

  lemma CursorFails(db: Db, e: RunEvent)
    ensures !AdvanceCursor(db, e).ok ==> AdvanceCursor(db, e).db == db
  {
    hide OneActive;
  }

  lemma MoveFails(db: Db, runId: string, sessionId: string)
    ensures !MoveRun(db, runId, sessionId).ok ==> MoveRun(db, runId, sessionId).db == db
  {
    hide OneActive;
  }

  lemma StateFails(db: Db, e: RunEvent)
    ensures !ProjectRunState(db, e).ok ==> ProjectRunState(db, e).db == db
  {
    hide OneActive, RunStatusFor;
  }

  lemma {:induction false} ReplayStops(o: Outcome, events: seq<RunEvent>, n: nat, report: RunEvent -> Report)
    requires n <= |events| && Replay(o, events[..n], report).stop != End
    ensures Replay(o, events, report) == Replay(o, events[..n], report)
    decreases |events| - n
  {
    hide ReplayOne;
    if n == |events| {
      assert events[..n] == events;
    } else {
      assert events[..n + 1][..n] == events[..n];
      ReplayStops(o, events, n + 1, report);
    }
  }
}
