/** What a rebuild makes of the live views of a run. The live views are those of the stored events in the order in which
    they arrived; a rebuild replays them in sequence, as far as it gets. */
module RebuildLaws {
  import opened Text
  import opened Protocol
  import opened Lifecycle
  import opened LifecycleSafety
  import opened Confluence
  import opened Projections
  import L = ProjectionLaws
  import opened Rebuild

  /** How many events left their rows, and how many their cursor. */
  function RowsOf(o: Outcome): nat {
    if o.stop == AtState then o.done + 1 else o.done
  }

  function CursorsOf(o: Outcome): nat {
    if o.stop in {AtSession, AtState} then o.done + 1 else o.done
  }

  /** Nothing stops the rebuild before the last event has left its rows. */
  ghost predicate Reaches(runs: map<string, Run>, r: string, stored: seq<RunEvent>, report: RunEvent -> Report) {
    var n := |Listed(stored)|;
    forall k :: 0 <= k < n ==>
      StopIn(runs, r, stored, report, k) == End || (k == n - 1 && StopIn(runs, r, stored, report, k) == AtState)
  }

  /** The events whose rows the rebuild has written. */
  function Replayed(o: Outcome, stored: seq<RunEvent>): seq<RunEvent>
    requires RowsOf(o) <= |Listed(stored)|
  {
    Listed(stored)[..RowsOf(o)]
  }

  // ----- the list of events -----

  lemma {:induction false} NotUsageSelects(events: seq<RunEvent>)
    ensures NotUsage(events) == L.Select(events, (e: RunEvent) => !IsUsageKind(e.kind))
  {
    hide IsUsageKind;
    if events != [] {
      NotUsageSelects(events[..|events| - 1]);
    }
  }

  lemma {:induction false} SelectTwice(events: seq<RunEvent>, p: RunEvent -> bool, q: RunEvent -> bool)
    requires forall e :: q(e) ==> p(e)
    ensures L.Select(L.Select(events, p), q) == L.Select(events, q)
  {
    if events != [] {
      var init, last := events[..|events| - 1], events[|events| - 1];
      SelectTwice(init, p, q);
      if p(last) {
        L.SelectAppend(L.Select(init, p), last, q);
      }
    }
  }

  lemma {:induction false} SelectKeepsOrder(events: seq<RunEvent>, p: RunEvent -> bool)
    requires L.InSeqOrder(events)
    ensures L.InSeqOrder(L.Select(events, p))
  {
    if events != [] {
      var init, last := events[..|events| - 1], events[|events| - 1];
      SelectKeepsOrder(init, p);
      var picked := L.Select(init, p);
      forall i | 0 <= i < |picked|
        ensures picked[i].seqNo <= last.seqNo
      {
        assert picked[i] in init;
      }
    }
  }

  lemma {:induction false} SelectKeepsDistinct(events: seq<RunEvent>, p: RunEvent -> bool)
    requires L.DistinctSeqs(events)
    ensures L.DistinctSeqs(L.Select(events, p))
  {
    if events != [] {
      var init, last := events[..|events| - 1], events[|events| - 1];
      SelectKeepsDistinct(init, p);
      var picked := L.Select(init, p);
      forall i | 0 <= i < |picked|
        ensures picked[i].seqNo != last.seqNo
      {
        assert picked[i] in init;
        var j :| 0 <= j < |init| && init[j] == picked[i];
      }
    }
  }

  /** What is listed: the stored events that are no usage, each once, in sequence. */
  lemma ListedIsSorted(stored: seq<RunEvent>)
    requires L.DistinctSeqs(stored)
    ensures L.InSeqOrder(Listed(stored)) && L.TakenFrom(Listed(stored), stored)
    ensures forall e :: e in stored && !IsUsageKind(e.kind) ==> e in Listed(stored)
    ensures forall p: RunEvent -> bool :: (forall e :: p(e) ==> !IsUsageKind(e.kind)) ==>
      L.Select(Listed(stored), p) == SortBySeq(L.Select(stored, p))
  {
    hide IsUsageKind, SortBySeq, L.Select;
    var sorted := SortBySeq(stored);
    assert multiset(sorted) == multiset(stored);
    L.PermutationIsDistinct(stored, sorted);
    L.SameMembers(stored, sorted);
    L.SortSorts(stored);
    NotUsageSelects(sorted);
    var clean := (e: RunEvent) => !IsUsageKind(e.kind);
    SelectKeepsOrder(sorted, clean);
    SelectKeepsDistinct(sorted, clean);
    forall p: RunEvent -> bool | forall e :: p(e) ==> !IsUsageKind(e.kind)
      ensures L.Select(Listed(stored), p) == SortBySeq(L.Select(stored, p))
    {
      SelectTwice(sorted, clean, p);
      L.SelectSort(stored, p);
    }
  }

  lemma PrefixTaken(stored: seq<RunEvent>, n: nat)
    requires L.DistinctSeqs(stored) && n <= |Listed(stored)|
    ensures L.TakenFrom(Listed(stored)[..n], stored)
  {
    hide Listed;
    ListedIsSorted(stored);
    assert forall e :: e in Listed(stored)[..n] ==> e in Listed(stored);
  }

  /** The whole list leaves the steps, the timeline and the cursor of the stored events. */
  lemma ListedFold(stored: seq<RunEvent>)
    requires L.DistinctSeqs(stored)
    ensures var live, full := Fold(EMPTY, stored), Fold(EMPTY, Listed(stored));
      full.steps == live.steps && full.timeline == live.timeline && full.lastSeq == live.lastSeq
  {
    hide Fold, NotUsage, SortBySeq;
    L.UsageLeavesNoTrace(EMPTY, SortBySeq(stored));
    assert multiset(SortBySeq(stored)) == multiset(stored);
    L.OrderDoesNotMatter(stored, SortBySeq(stored));
  }

  // ----- how far a rebuild gets -----

  lemma OutcomeInCounts(o: Outcome, db: Db, r: string, stored: seq<RunEvent>, report: RunEvent -> Report)
    requires Rebuilds(db, r, stored, report, o)
    ensures RowsOf(o) <= CursorsOf(o) <= |Listed(stored)| && CursorsOf(o) <= RowsOf(o) + 1
    ensures var rows := Fold(EMPTY, Replayed(o, stored));
      && o.view == rows.(lastSeq := o.view.lastSeq)
      && (RowsOf(o) == CursorsOf(o) ==> o.view == rows)
      && (RowsOf(o) < CursorsOf(o) ==> o.view == Advance(rows, Listed(stored)[RowsOf(o)]))
  {
    hide OneActive, StopIn, RowAt, WithRow, Listed, Fold, Project;
    if o.stop == AtState {
      FoldOneMore(Listed(stored), o.done);
    }
  }

  lemma RowsIffReaches(o: Outcome, db: Db, r: string, stored: seq<RunEvent>, report: RunEvent -> Report)
    requires Rebuilds(db, r, stored, report, o)
    ensures RowsOf(o) == |Listed(stored)| <==> Reaches(db.runs, r, stored, report)
  {
    hide OneActive, StopIn, RowAt, WithRow, Listed, ViewAt;
    if Reaches(db.runs, r, stored, report) && o.stop != End {
      assert StopIn(db.runs, r, stored, report, o.done) == o.stop;
    }
  }

  /** The events of the list leave ever greater cursors. */
  lemma {:induction false} CursorOfPrefix(events: seq<RunEvent>, n: nat, r: string)
    requires L.InSeqOrder(events) && L.DistinctSeqs(events) && AreOf(events, r) && r != "" && 0 < n <= |events|
    ensures Fold(EMPTY, events[..n]).lastSeq == events[n - 1].seqNo
  {
    hide IsUsageKind, StepOf, UpsertStep, ProjectMessages, TouchesTools, UpsertToolCall, TimelineOf, UpsertTimeline;
    var init := events[..n - 1];
    assert events[..n][..n - 1] == init;
    if n > 1 {
      CursorOfPrefix(events, n - 1, r);
    }
  }

  lemma StopAtSessionIsSessionEvent(runs: map<string, Run>, r: string, row: Option<Run>, e: RunEvent, report: RunEvent -> Report)
    requires StopOf(runs, r, row, e, report) == AtSession
    ensures IsSessionKind(e.kind) && StepOf(e).Some?
  {
    hide Taken, RunStatusFor;
  }

  /** The rows of a session event are among the steps. */
  lemma SessionStepIsMissing(events: seq<RunEvent>, n: nat, r: string)
    requires L.DistinctSeqs(events) && AreOf(events, r) && r != "" && n < |events| && StepOf(events[n]).Some?
    ensures Fold(EMPTY, events[..n]).steps != Fold(EMPTY, events).steps
  {
    hide IsUsageKind, StepOf, Fold, NewStep;
    var e := events[n];
    var k := StepKey(e.seqNo, StepOf(e).value.kind);
    L.FoldCollects(events);
    L.FoldCollects(events[..n]);
    assert e in events && L.StepEntry(e).Some? && L.StepEntry(e).value.0 == k;
    assert k in Fold(EMPTY, events).steps;
    assert forall i :: 0 <= i < n ==> events[i].seqNo != e.seqNo;
  }

  /** A rebuild that does not get to the last rows leaves fewer steps or a lower cursor. */
  lemma ShortViewDiffers(o: Outcome, db: Db, r: string, stored: seq<RunEvent>, report: RunEvent -> Report)
    requires r != "" && L.DistinctSeqs(stored) && StoredOf(stored, r)
    requires Rebuilds(db, r, stored, report, o) && RowsOf(o) < |Listed(stored)|
    ensures var full := Fold(EMPTY, Listed(stored)); o.view.steps != full.steps || o.view.lastSeq != full.lastSeq
  {
    hide OneActive, RowAt, WithRow, Listed, Fold, IsUsageKind, StepOf, StopOf, RowAfter, ClearedRow;
    var events, n := Listed(stored), |Listed(stored)|;
    ListedIsSorted(stored);
    ListedAreOf(stored, r);
    OutcomeInCounts(o, db, r, stored, report);
    var m := RowsOf(o);
    assert events[..n] == events;
    CursorOfPrefix(events, n, r);
    assert events[m].seqNo <= events[n - 1].seqNo;
    if m > 0 {
      CursorOfPrefix(events, m, r);
      assert events[m - 1].seqNo <= events[n - 1].seqNo;
    } else {
      NothingFolded(events);
    }
    if m < CursorsOf(o) && m == n - 1 {
      StopAtSessionIsSessionEvent(db.runs, r, RowAfter(ClearedRow(db.runs, r), events[..m], report), events[m], report);
      SessionStepIsMissing(events, m, r);
    }
  }

  lemma NothingFolded(events: seq<RunEvent>)
    ensures Fold(EMPTY, events[..0]) == EMPTY
  {
  }

  // ----- when the rebuilt view is the live one -----

  /** A rebuild gives the live steps, timeline and cursor, whatever the order of arrival, if and only if nothing stops it
      before the last event has left its rows. */
  lemma RebuildEqualsLive(db: Db, v: View, r: string, stored: seq<RunEvent>, report: RunEvent -> Report)
    requires OneActive(db.runs) && r != "" && L.DistinctSeqs(stored) && StoredOf(stored, r) && Listed(stored) != []
    ensures var live, rebuilt := Fold(EMPTY, stored), Rebuilt(db, v, r, stored, report).view;
      Reaches(db.runs, r, stored, report) <==>
        rebuilt.steps == live.steps && rebuilt.timeline == live.timeline && rebuilt.lastSeq == live.lastSeq
  {
    hide OneActive, Fold, Listed, Rebuilt, Rebuilds, Reaches;
    var o := Rebuilt(db, v, r, stored, report);
    RebuildOutcome(db, v, r, stored, report);
    OutcomeInCounts(o, db, r, stored, report);
    RowsIffReaches(o, db, r, stored, report);
    ListedFold(stored);
    if Reaches(db.runs, r, stored, report) {
      assert Replayed(o, stored) == Listed(stored);
    } else {
      ShortViewDiffers(o, db, r, stored, report);
    }
  }

  /** It leaves the live messages if and only if it got to every user message and the assistant's words read the same in
      sequence, as far as it got, as they arrived. */
  lemma MessagesAgreeIff(db: Db, v: View, r: string, stored: seq<RunEvent>, report: RunEvent -> Report)
    requires OneActive(db.runs) && r != "" && L.DistinctSeqs(stored) && StoredOf(stored, r) && Listed(stored) != []
    ensures var live, o := Fold(EMPTY, stored), Rebuilt(db, v, r, stored, report);
      && RowsOf(o) <= |Listed(stored)|
      && (o.view.messages == live.messages <==>
          L.HasUserMessages(Replayed(o, stored), stored) && L.SameReading(L.Speech(stored), L.Speech(Replayed(o, stored))))
  {
    hide OneActive, Fold, Listed, Rebuilt, Rebuilds, L.SameReading, L.HasUserMessages, L.Speech;
    var o := Rebuilt(db, v, r, stored, report);
    RebuildOutcome(db, v, r, stored, report);
    OutcomeInCounts(o, db, r, stored, report);
    PrefixTaken(stored, RowsOf(o));
    L.MessagesAgreeIff(stored, Replayed(o, stored));
  }

  lemma SpeechIsNotUsage(e: RunEvent)
    ensures L.IsSpeech(e) ==> !IsUsageKind(e.kind)
  {
    hide IsUsageKind, PayloadText;
    L.SpeechIsNotUsage();
  }

  /** All the words in sequence, once a rebuild gets to the last rows. */
  lemma WordsInSequence(stored: seq<RunEvent>)
    requires L.DistinctSeqs(stored)
    ensures L.Speech(Listed(stored)) == SortBySeq(L.Speech(stored))
    ensures forall k :: L.Touching(Listed(stored), k) == SortBySeq(L.Touching(stored, k))
    ensures L.HasUserMessages(Listed(stored), stored)
  {
    hide Listed, SortBySeq, L.Select, IsUsageKind, L.IsSpeech, TouchesTools, ToolId;
    ListedIsSorted(stored);
    forall e
      ensures L.IsSpeech(e) ==> !IsUsageKind(e.kind)
    {
      SpeechIsNotUsage(e);
    }
    forall k
      ensures L.Touching(Listed(stored), k) == SortBySeq(L.Touching(stored, k))
    {
      var p := (e: RunEvent) => L.Projected(e) && TouchesTools(e) && ToolId(e) == k;
      assert forall e :: p(e) ==> !IsUsageKind(e.kind);
    }
  }

  /** The assistant's text is the live one if and only if the last final text and what was streamed after it come to the
      same, in sequence as far as the rebuild got, and as they arrived. */
  lemma AssistantTextAgreesIff(db: Db, v: View, r: string, stored: seq<RunEvent>, report: RunEvent -> Report)
    requires OneActive(db.runs) && r != "" && StoredOf(stored, r) && Listed(stored) != []
    ensures var live, o := Fold(EMPTY, stored), Rebuilt(db, v, r, stored, report);
      && RowsOf(o) <= |Listed(stored)|
      && (L.TextOf(o.view.messages) == L.TextOf(live.messages) <==>
          L.SpokenText(L.Speech(stored)) == L.SpokenText(L.Speech(Replayed(o, stored))))
  {
    hide OneActive, Fold, Listed, Rebuilt, Rebuilds, L.Speech, L.SpokenText, L.TextOf;
    var o := Rebuilt(db, v, r, stored, report);
    RebuildOutcome(db, v, r, stored, report);
    OutcomeInCounts(o, db, r, stored, report);
    L.TextIsSpoken(stored);
    L.TextIsSpoken(Replayed(o, stored));
  }

  /** So a final text that came last, and is the last one the rebuild gets to, stands whatever the order before it. */
  lemma FinalTextSurvives(db: Db, v: View, r: string, stored: seq<RunEvent>, report: RunEvent -> Report)
    requires OneActive(db.runs) && r != "" && StoredOf(stored, r) && Listed(stored) != []
    requires var o := Rebuilt(db, v, r, stored, report);
      && RowsOf(o) <= |Listed(stored)|
      && var heard, read := L.Speech(stored), L.Speech(Replayed(o, stored));
        heard != [] && read != [] && heard[|heard| - 1] == read[|read| - 1] && L.IsFinal(heard[|heard| - 1])
    ensures L.TextOf(Rebuilt(db, v, r, stored, report).view.messages) == L.TextOf(Fold(EMPTY, stored).messages)
  {
    hide OneActive, Fold, Listed, Rebuilt, Rebuilds, L.Speech, L.SpokenText, L.TextOf, L.IsFinal, Replayed;
    var o := Rebuilt(db, v, r, stored, report);
    AssistantTextAgreesIff(db, v, r, stored, report);
    L.FinalWordIsText(L.Speech(stored));
    L.FinalWordIsText(L.Speech(Replayed(o, stored)));
  }

  /** The row of one tool call is the live one if and only if the events that touch it come to the same, in sequence as far
      as the rebuild got, and as they arrived. */
  lemma ToolCallAgreesIff(db: Db, v: View, r: string, stored: seq<RunEvent>, report: RunEvent -> Report, k: ToolKey)
    requires OneActive(db.runs) && r != "" && L.DistinctSeqs(stored) && StoredOf(stored, r) && Listed(stored) != []
    ensures var live, o := Fold(EMPTY, stored), Rebuilt(db, v, r, stored, report);
      && RowsOf(o) <= |Listed(stored)|
      && (L.RowUnder(o.view.tools, k) == L.RowUnder(live.tools, k) <==>
          L.SameCall(L.Touching(stored, k), L.Touching(Replayed(o, stored), k)))
  {
    hide OneActive, Fold, Listed, Rebuilt, Rebuilds, L.Touching, L.SameCall;
    var o := Rebuilt(db, v, r, stored, report);
    RebuildOutcome(db, v, r, stored, report);
    OutcomeInCounts(o, db, r, stored, report);
    PrefixTaken(stored, RowsOf(o));
    L.ToolCallAgreesIff(stored, Replayed(o, stored), k);
  }

  /** What was heard is what is read in sequence. */
  ghost predicate ReadsInSequence(stored: seq<RunEvent>) {
    && L.SameReading(L.Speech(stored), SortBySeq(L.Speech(stored)))
    && forall k :: L.SameCall(L.Touching(stored, k), SortBySeq(L.Touching(stored, k)))
  }

  /** The whole view is the live one if and only if nothing stops the rebuild before the last event has left its rows, the
      assistant's words read the same in sequence as they arrived, and every tool call comes to the same row. */
  lemma RebuildEqualsLiveIff(db: Db, v: View, r: string, stored: seq<RunEvent>, report: RunEvent -> Report)
    requires OneActive(db.runs) && r != "" && L.DistinctSeqs(stored) && StoredOf(stored, r) && Listed(stored) != []
    ensures Rebuilt(db, v, r, stored, report).view == Fold(EMPTY, stored) <==>
      Reaches(db.runs, r, stored, report) && ReadsInSequence(stored)
  {
    hide OneActive, Fold, Listed, Rebuilt, Rebuilds, Reaches, L.Speech, L.Touching, L.SameReading, L.SameCall, L.HasUserMessages,
      SortBySeq;
    var o, live := Rebuilt(db, v, r, stored, report), Fold(EMPTY, stored);
    RebuildEqualsLive(db, v, r, stored, report);
    if Reaches(db.runs, r, stored, report) {
      RebuildOutcome(db, v, r, stored, report);
      RowsIffReaches(o, db, r, stored, report);
      assert Replayed(o, stored) == Listed(stored);
      MessagesAgreeIff(db, v, r, stored, report);
      WordsInSequence(stored);
      forall k
        ensures L.RowUnder(o.view.tools, k) == L.RowUnder(live.tools, k) <==>
          L.SameCall(L.Touching(stored, k), SortBySeq(L.Touching(stored, k)))
      {
        ToolCallAgreesIff(db, v, r, stored, report, k);
      }
      SameToolsIff(o.view.tools, live.tools);
    }
  }

  lemma SameToolsIff(a: map<ToolKey, ToolRow>, b: map<ToolKey, ToolRow>)
    ensures a == b <==> forall k :: L.RowUnder(a, k) == L.RowUnder(b, k)
  {
    if forall k :: L.RowUnder(a, k) == L.RowUnder(b, k) {
      forall k
        ensures k in a <==> k in b
        ensures k in a && k in b ==> a[k] == b[k]
      {
        assert L.RowUnder(a, k) == L.RowUnder(b, k);
      }
    }
  }

  /** Events that arrived in sequence always read so. */
  lemma InSequenceReads(stored: seq<RunEvent>)
    requires L.InSeqOrder(L.Speech(stored)) && forall k :: L.InSeqOrder(L.Touching(stored, k))
    ensures ReadsInSequence(stored)
  {
    hide SortBySeq, L.Speech, L.Touching, L.SameReading, L.SameCall;
    L.SortKeepsOrder(L.Speech(stored));
    L.ReadsLikeItself(L.Speech(stored));
    forall k
      ensures L.SameCall(L.Touching(stored, k), SortBySeq(L.Touching(stored, k)))
    {
      L.SortKeepsOrder(L.Touching(stored, k));
      L.ReadsLikeItself(L.Touching(stored, k));
    }
  }

  // ----- rebuilding again -----

  lemma SameStops(runs: map<string, Run>, runs': map<string, Run>, r: string, events: seq<RunEvent>,
                  report: RunEvent -> Report, k: nat)
    requires r in runs && r in runs' && k < |events| && runs' == runs[r := runs'[r]]
    requires runs'[r].sessionId == runs[r].sessionId
    ensures StopAt(runs', r, ClearedRow(runs', r), events, report, k) == StopAt(runs, r, ClearedRow(runs, r), events, report, k)
  {
    hide StopOf;
    var row, row' := ClearedRow(runs, r), ClearedRow(runs', r);
    SimilarRows(row, row', events[..k], report);
    SimilarStops(runs, r, RowAfter(row, events[..k], report), RowAfter(row', events[..k], report), events[k], report);
    StopIgnoresOwnRow(runs, r, Some(runs'[r]), RowAfter(row', events[..k], report), events[k], report);
  }

  /** Rows that agree in what the index looks at. */
  predicate Similar(row: Option<Run>, row': Option<Run>) {
    row.Some? && row'.Some? && row.value.status == row'.value.status && row.value.sessionId == row'.value.sessionId
  }

  lemma {:induction false} SimilarRows(row: Option<Run>, row': Option<Run>, events: seq<RunEvent>, report: RunEvent -> Report)
    requires Similar(row, row')
    ensures Similar(RowAfter(row, events, report), RowAfter(row', events, report))
  {
    hide RunStatusFor, Reading;
    if events != [] {
      SimilarRows(row, row', events[..|events| - 1], report);
    }
  }

  lemma SimilarStops(runs: map<string, Run>, r: string, row: Option<Run>, row': Option<Run>, e: RunEvent, report: RunEvent -> Report)
    requires Similar(row, row')
    ensures StopOf(runs, r, row, e, report) == StopOf(runs, r, row', e, report)
  {
    hide RunStatusFor, Reading, Taken, IsForeign;
  }

  /** Where the run is after a rebuild, whether or not it completed. */
  lemma RowAfterRebuild(db: Db, r: string, stored: seq<RunEvent>, report: RunEvent -> Report, o: Outcome)
    requires r in db.runs && Rebuilds(db, r, stored, report, o)
    ensures r in o.db.runs && o.db.runs == db.runs[r := o.db.runs[r]]
    ensures o.stop == End ==> o.db.runs[r].sessionId == SessionAfter(db.runs[r].sessionId, Listed(stored), report)
  {
    hide OneActive, StopIn, ViewAt, Listed, StoppedRow;
    var row, events := ClearedRow(db.runs, r), Listed(stored);
    RowAtRemains(row, events, report, o.done, o.stop);
    assert events[..|events|] == events;
    if o.stop == End {
      RowInWords(row, events, report);
    }
  }

  /** A rebuild that completed completes again if and only if the run, coming from the session it ended up in, passes every
      event once more. */
  lemma AgainCompletesIff(db: Db, v: View, r: string, stored: seq<RunEvent>, report: RunEvent -> Report)
    requires OneActive(db.runs) && r != "" && r in db.runs && StoredOf(stored, r) && Listed(stored) != []
    requires Rebuilt(db, v, r, stored, report).stop == End
    ensures var once := Rebuilt(db, v, r, stored, report);
      Rebuilt(once.db, once.view, r, stored, report).stop == End <==>
        forall k :: 0 <= k < |Listed(stored)| ==>
          Passes(db.runs, r, SessionAfter(db.runs[r].sessionId, Listed(stored), report), Listed(stored), report, k)
  {
    hide OneActive, Listed, Rebuilt, Rebuilds, Passes, Taken;
    var once, events := Rebuilt(db, v, r, stored, report), Listed(stored);
    var session := SessionAfter(db.runs[r].sessionId, events, report);
    RebuildOutcome(db, v, r, stored, report);
    RowAfterRebuild(db, r, stored, report, once);
    OutcomeIsOneActive(db, r, stored, report, once);
    RebuildCompletesInWords(once.db, once.view, r, stored, report);
    forall k | 0 <= k < |events|
      ensures Passes(once.db.runs, r, session, events, report, k) == Passes(db.runs, r, session, events, report, k)
    {
      PassIgnoresOwnRow(db.runs, r, once.db.runs[r], session, events, report, k);
    }
  }

  lemma OutcomeIsOneActive(db: Db, r: string, stored: seq<RunEvent>, report: RunEvent -> Report, o: Outcome)
    requires Rebuilds(db, r, stored, report, o)
    ensures OneActive(o.db.runs)
  {
    hide OneActive, StopIn, RowAt, WithRow, Listed, ViewAt;
  }

  lemma PassIgnoresOwnRow(runs: map<string, Run>, r: string, run: Run, session: string, events: seq<RunEvent>,
                          report: RunEvent -> Report, k: nat)
    requires k < |events|
    ensures Passes(runs[r := run], r, session, events, report, k) == Passes(runs, r, session, events, report, k)
  {
    hide Busy, RunStatusFor, Reading, IsForeign;
    var e, before := events[k], SessionAfter(session, events[..k], report);
    BusyIgnoresSelf(runs, r, run, SessionAtCursor(before, e));
    BusyIgnoresSelf(runs, r, run, SessionAtMove(before, e, report));
    BusyIgnoresSelf(runs, r, run, SessionAfter(session, events[..k + 1], report));
  }

  /** Rebuilding twice is rebuilding once, completed or not, whenever the first one leaves the run in the session it found
      it in. */
  lemma RebuildTwice(db: Db, v: View, r: string, stored: seq<RunEvent>, report: RunEvent -> Report)
    requires OneActive(db.runs) && r != "" && r in db.runs && StoredOf(stored, r) && Listed(stored) != []
    requires var once := Rebuilt(db, v, r, stored, report);
      r in once.db.runs && once.db.runs[r].sessionId == db.runs[r].sessionId
    ensures var once := Rebuilt(db, v, r, stored, report); var twice := Rebuilt(once.db, once.view, r, stored, report);
      twice.view == once.view && twice.done == once.done && twice.stop == once.stop
  {
    hide OneActive, Listed, Rebuilt, StopAt, ClearedRow;
    var once := Rebuilt(db, v, r, stored, report);
    RebuildOutcome(db, v, r, stored, report);
    RowAfterRebuild(db, r, stored, report, once);
    RebuildOutcome(once.db, once.view, r, stored, report);
    var twice := Rebuilt(once.db, once.view, r, stored, report);
    forall k | 0 <= k < |Listed(stored)|
      ensures StopIn(once.db.runs, r, stored, report, k) == StopIn(db.runs, r, stored, report, k)
    {
      SameStops(db.runs, once.db.runs, r, Listed(stored), report, k);
    }
    SameOutcome(db, once.db, r, stored, report, once, twice);
  }

  lemma SameOutcome(db: Db, db': Db, r: string, stored: seq<RunEvent>, report: RunEvent -> Report, o: Outcome, o': Outcome)
    requires Rebuilds(db, r, stored, report, o) && Rebuilds(db', r, stored, report, o')
    requires forall k :: 0 <= k < |Listed(stored)| ==> StopIn(db'.runs, r, stored, report, k) == StopIn(db.runs, r, stored, report, k)
    ensures o'.view == o.view && o'.done == o.done && o'.stop == o.stop
  {
    hide OneActive, StopIn, RowAt, WithRow, Listed, ViewAt;
  }

  /** Run a starts and finishes outside any session and is then reported to be in one in which run b is active. */
  function Wandered(): seq<RunEvent> {
    [Life("run.started", 1), Life("run.done", 2), Life("session.updated", 3)]
  }

  function InBusy(e: RunEvent): Report {
    if e.kind == "session.updated" then Own("s") else Nothing
  }

  function BesideB(): Db {
    Db(map[], map["a" := Run("", "", "done", 0, None), "b" := Run("", "s", "running", 0, None)])
  }

  lemma SortedStays(events: seq<RunEvent>)
    requires L.InSeqOrder(events) && forall e :: e in events ==> !IsUsageKind(e.kind)
    ensures Listed(events) == events
  {
    hide IsUsageKind, SortBySeq;
    L.SortKeepsOrder(events);
    AllKept(events);
  }

  lemma {:induction false} AllKept(events: seq<RunEvent>)
    requires forall e :: e in events ==> !IsUsageKind(e.kind)
    ensures NotUsage(events) == events
  {
    hide IsUsageKind;
    if events != [] {
      AllKept(events[..|events| - 1]);
      assert events[|events| - 1] in events;
    }
  }

  lemma WanderedIsListed()
    ensures Listed(Wandered()) == Wandered() && StoredOf(Wandered(), "a")
  {
    hide IsUsageKind, Listed;
    LifeIsNotUsage();
    SortedStays(Wandered());
  }

  lemma WanderedSessions(k: nat)
    requires k <= 3
    ensures SessionAfter("", Wandered()[..k], InBusy) == (if k == 3 then "s" else "")
    ensures SessionAfter("s", Wandered()[..k], InBusy) == "s"
    ensures StatusAfter("rebuilding", Wandered()[..k]) == ["rebuilding", "running", "done", "done"][k]
  {
    assert TrimSpace("a") == "a";
    assert Wandered()[..1][..0] == [] && Wandered()[..2][..1] == Wandered()[..1] && Wandered()[..3][..2] == Wandered()[..2];
    assert Wandered()[..0] == [] && Wandered()[..1][0] == Life("run.started", 1);
  }

  lemma WanderedPasses(session: string, k: nat)
    requires session in {"", "s"} && k < 3
    ensures Passes(BesideB().runs, "a", session, Wandered(), InBusy, k) <==> session == "" || k == 2
  {
    hide SessionAfter, StatusAfter, Busy;
    assert TrimSpace("a") == "a";
    WanderedSessions(k);
    WanderedSessions(k + 1);
    BIsThere();
  }

  lemma BIsThere()
    ensures OneActive(BesideB().runs) && Taken(BesideB().runs, "s", "a")
  {
    assert Occupies(BesideB().runs["b"], "s");
  }

  /** Such a run is rebuilt to the end once, and no second time. */
  lemma SecondRebuildStops(v: View)
    ensures var once := Rebuilt(BesideB(), v, "a", Wandered(), InBusy);
      once.stop == End && Rebuilt(once.db, once.view, "a", Wandered(), InBusy).stop != End
  {
    hide OneActive, Rebuilt, Listed, Passes, StoredOf;
    WanderedIsListed();
    BIsThere();
    RebuildCompletesInWords(BesideB(), v, "a", Wandered(), InBusy);
    forall k | 0 <= k < 3
      ensures Passes(BesideB().runs, "a", "", Wandered(), InBusy, k)
    {
      WanderedPasses("", k);
    }
    AgainCompletesIff(BesideB(), v, "a", Wandered(), InBusy);
    WanderedSessions(3);
    assert Wandered()[..3] == Wandered();
    WanderedPasses("s", 0);
  }

  // ----- a finished run beside a newer one -----

  function Send(runId: string): Cmd {
    Cmd(runId, "s", "", "send", 0, "", "queued", 0, None, None, None)
  }

  function Life(kind: string, seqNo: nat): RunEvent {
    RunEvent(kind, "a", "", "", "", seqNo, kind, NoPayload, 0)
  }

  function Silent(e: RunEvent): Report {
    Nothing
  }

  /** Run a is queued, starts and finishes; then run b is queued in the same session. */
  function Succession(): seq<Step> {
    [Save("ca", Send("a"), None, 0), Event(Incoming(Life("run.started", 1), "")),
     Event(Incoming(Life("run.done", 2), "")), Save("cb", Send("b"), None, 0)]
  }

  function Lived(): seq<RunEvent> {
    [Life("run.started", 1), Life("run.done", 2)]
  }

  lemma SessionWord()
    ensures TrimSpace("s") == "s" && TrimSpace("") == "" && CreatesRun("send") && !StopsRun("send")
  {
  }

  lemma QueueSend(db: Db, id: string, r: string)
    requires OneActive(db.runs) && id !in db.commands && r !in db.runs && !Busy(db.runs, "s", r)
    ensures var step := Save(id, Send(r), None, 0);
      && Enabled(db, step)
      && Apply(db, step) == Db(db.commands[id := Send(r).(expiresAt := Some(3600))], db.runs[r := Run(id, "s", "queued", 0, None)])
  {
    hide OneActive, Busy, TrimSpace, BareKind, CreatesRun, StopsRun, RequestStop;
    SessionWord();
    OneRunBreaksIff(db.runs, r, Run(id, "s", "queued", 0, None));
  }

  lemma LifeIsTaken(db: Db, e: RunEvent)
    requires OneActive(db.runs) && Linked(db, "ca", "a") && db.runs.Keys == {"a"} && db.runs["a"].sessionId == "s"
    requires e == Life("run.started", 1) || e == Life("run.done", 2)
    ensures var db' := ApplyEvent(db, Incoming(e, "")).db;
      && OneActive(db'.runs) && Linked(db', "ca", "a") && db'.commands.Keys == db.commands.Keys
      && db'.runs == map["a" := db.runs["a"].(status := RunStatusFor(e.kind), lastAt := Some(0))]
  {
    hide OneActive, ApplyEvent, BareKind, SeenCmd;
    EventShape(db, Incoming(e, ""), "ca", "a");
    EventKeepsLinked(db, Incoming(e, ""), "ca", "a");
    assert forall s :: !Busy(db.runs, s, "a");
  }

  lemma LivedIsListed()
    ensures Listed(Lived()) == Lived()
  {
    hide IsUsageKind, Listed;
    LifeIsNotUsage();
    SortedStays(Lived());
  }

  lemma LivedIsStored()
    ensures StoredOf(Lived(), "a") && AreOf(Lived(), "a") && L.DistinctSeqs(Lived()) && L.InSeqOrder(Lived())
    ensures InOneSession(Lived(), "s", Silent) && Activates(Lived()[0])
  {
    hide IsUsageKind, TrimSpace;
    LifeIsNotUsage();
  }

  lemma LivedCursors()
    ensures Fold(EMPTY, Lived()[..1]).lastSeq == 1 && Fold(EMPTY, Lived()).lastSeq == 2
  {
    hide Fold, IsUsageKind;
    LivedIsStored();
    CursorOfPrefix(Lived(), 1, "a");
    CursorOfPrefix(Lived(), 2, "a");
    assert Lived()[..2] == Lived();
  }

  lemma LifeIsNotUsage()
    ensures !IsUsageKind("run.started") && !IsUsageKind("run.done") && !IsUsageKind("session.updated")
  {
    assert TrimSpace("run.started") == "run.started" && TrimSpace("run.done") == "run.done";
    assert TrimSpace("session.updated") == "session.updated";
    assert ToLower("run.started")[3] == '.' && ToLower("run.done")[3] == '.' && ToLower("session.updated")[7] == '.';
  }

  /** Four ordinary steps from empty tables after which a rebuild of the finished run stops at its first event: the run is
      left without its status and without everything that came after `run.started`. */
  lemma NewerRunStopsRebuild(v: View)
    ensures IsRun(Db(map[], map[]), Succession())
    ensures var db := Execute(Db(map[], map[]), Succession());
      && OneActive(db.runs) && "a" in db.runs && db.runs["a"].status == "done"
      && var o := Rebuilt(db, v, "a", Lived(), Silent);
        && o.done == 0 && o.stop == AtState && "a" in o.db.runs && o.db.runs["a"].status == "rebuilding"
        && o.view.lastSeq == 1 && Fold(EMPTY, Lived()).lastSeq == 2
  {
    hide OneActive, IsRun, Execute, Rebuilt, Fold, Succession, Lived;
    var db := AfterSuccession();
    RebuildIsStuck(db, v);
    LivedCursors();
  }

  lemma RebuildIsStuck(db: Db, v: View)
    requires OneActive(db.runs)
    requires db.runs == map["a" := Run("ca", "s", "done", 0, Some(0)), "b" := Run("cb", "s", "queued", 0, None)]
    ensures var o := Rebuilt(db, v, "a", Lived(), Silent);
      && o.done == 0 && o.stop == AtState && "a" in o.db.runs && o.db.runs["a"].status == "rebuilding"
      && o.view == Fold(EMPTY, Lived()[..1])
  {
    hide OneActive, Rebuilt, Fold, Listed, Lived, StoredOf, InOneSession, Activates;
    LivedIsListed();
    LivedIsStored();
    assert |Lived()| == 2 by { LivedIsTwo(); }
    assert Occupies(db.runs["b"], "s");
    OneSessionStops(db, v, "a", Lived(), Silent, 0);
  }

  lemma LivedIsTwo()
    ensures |Lived()| == 2
  {
  }

  lemma AfterSuccession() returns (db: Db)
    ensures IsRun(Db(map[], map[]), Succession()) && db == Execute(Db(map[], map[]), Succession())
    ensures OneActive(db.runs)
    ensures db.runs == map["a" := Run("ca", "s", "done", 0, Some(0)), "b" := Run("cb", "s", "queued", 0, None)]
  {
    hide OneActive, ApplyEvent, SaveCommand, BareKind, Linked;
    var db0 := Db(map[], map[]);
    var steps := Succession();
    NothingActive();
    QueueSend(db0, "ca", "a");
    StepKeepsOneActive(db0, steps[0]);
    var db1 := Apply(db0, steps[0]);
    QueuedIsLinked(db1);
    LifeIsTaken(db1, Life("run.started", 1));
    var db2 := Apply(db1, steps[1]);
    LifeIsTaken(db2, Life("run.done", 2));
    var db3 := Apply(db2, steps[2]);
    assert !Busy(db3.runs, "s", "b");
    QueueSend(db3, "cb", "b");
    StepKeepsOneActive(db3, steps[3]);
    db := Apply(db3, steps[3]);
    assert steps[1..][1..][1..][1..] == [];
    assert steps[1..][0] == steps[1] && steps[1..][1..][0] == steps[2] && steps[1..][1..][1..][0] == steps[3];
  }

  lemma NothingActive()
    ensures OneActive(map[]) && !Busy(map[], "s", "a")
  {
  }

  lemma QueuedIsLinked(db: Db)
    requires "ca" in db.commands && db.commands["ca"] == Send("a").(expiresAt := Some(3600))
    requires "a" in db.runs && db.runs["a"].commandId == "ca"
    ensures Linked(db, "ca", "a")
  {
    hide BareKind;
    SessionWord();
  }
}
