/** What the views of a run promise: the order of arrival does not matter where it must not, messages and tool calls have a
    closed form that tells when two replays agree, and both sides hold the same. */
module ProjectionLaws {
  import opened Text
  import opened Protocol
  import opened Projections

  predicate Projected(e: RunEvent) {
    e.runId != "" && !IsUsageKind(e.kind)
  }

  /** The sequence numbers are positive and no two events share one. */
  predicate DistinctSeqs(events: seq<RunEvent>) {
    && (forall i :: 0 <= i < |events| ==> events[i].seqNo > 0)
    && (forall i, j :: 0 <= i < j < |events| ==> events[i].seqNo != events[j].seqNo)
  }

  // ----- views that collect one row per event -----

  /** The map holds exactly the rows the events stand for. */
  ghost predicate Collected<K, V>(m: map<K, V>, events: seq<RunEvent>, f: RunEvent -> Option<(K, V)>) {
    && (forall e :: e in events && f(e).Some? ==> f(e).value.0 in m && m[f(e).value.0] == f(e).value.1)
    && (forall k :: k in m ==> exists e :: e in events && f(e).Some? && f(e).value.0 == k)
  }

  lemma CollectedIsUnique<K, V>(m: map<K, V>, m': map<K, V>, events: seq<RunEvent>, events': seq<RunEvent>,
                                f: RunEvent -> Option<(K, V)>)
    requires Collected(m, events, f) && Collected(m', events', f)
    requires forall e :: e in events <==> e in events'
    ensures m == m'
  {
    forall k
      ensures k in m <==> k in m'
      ensures k in m && k in m' ==> m[k] == m'[k]
    {
      if k in m {
        var e :| e in events && f(e).Some? && f(e).value.0 == k;
        assert e in events';
      }
      if k in m' {
        var e :| e in events' && f(e).Some? && f(e).value.0 == k;
        assert e in events;
      }
    }
  }

  lemma CollectOneMore<K, V>(m: map<K, V>, events: seq<RunEvent>, e: RunEvent, f: RunEvent -> Option<(K, V)>)
    requires Collected(m, events, f)
    requires f(e).Some? ==> forall e' :: e' in events && f(e').Some? ==> f(e').value.0 != f(e).value.0
    ensures Collected(if f(e).Some? then m[f(e).value.0 := f(e).value.1] else m, events + [e], f)
  {
    var m' := if f(e).Some? then m[f(e).value.0 := f(e).value.1] else m;
    forall k | k in m'
      ensures exists x :: x in events + [e] && f(x).Some? && f(x).value.0 == k
    {
      if k in m {
        var x :| x in events && f(x).Some? && f(x).value.0 == k;
        assert x in events + [e];
      } else {
        assert e in events + [e];
      }
    }
  }

  function StepEntry(e: RunEvent): Option<(StepKey, StepRow)> {
    if !Projected(e) || StepOf(e).None? then None
    else Some((StepKey(e.seqNo, StepOf(e).value.kind), NewStep(e, StepOf(e).value)))
  }

  function TimelineEntry(e: RunEvent): Option<(TimelineKey, TimelineRow)> {
    if Projected(e) then TimelineOf(e) else None
  }

  lemma EntriesCarrySeq(e: RunEvent, x: RunEvent)
    requires e.seqNo != x.seqNo
    ensures StepEntry(e).Some? && StepEntry(x).Some? ==> StepEntry(e).value.0 != StepEntry(x).value.0
    ensures TimelineEntry(e).Some? && TimelineEntry(x).Some? ==> TimelineEntry(e).value.0 != TimelineEntry(x).value.0
  {
    hide IsUsageKind, TimelineOf;
  }

  lemma LastIsNew(events: seq<RunEvent>, x: RunEvent)
    requires DistinctSeqs(events) && events != [] && x in events[..|events| - 1]
    ensures x.seqNo != events[|events| - 1].seqNo
  {
    var i :| 0 <= i < |events| - 1 && events[i] == x;
  }

  lemma {:induction false} FoldCollects(events: seq<RunEvent>)
    requires DistinctSeqs(events)
    ensures Collected(Fold(EMPTY, events).steps, events, StepEntry)
    ensures Collected(Fold(EMPTY, events).timeline, events, TimelineEntry)
  {
    hide StepEntry, TimelineEntry, Project, Collected;
    if events == [] {
      NothingCollected();
    } else {
      var init, e := events[..|events| - 1], events[|events| - 1];
      var v := Fold(EMPTY, init);
      FoldCollects(init);
      forall x | x in init
        ensures StepEntry(x).Some? && StepEntry(e).Some? ==> StepEntry(x).value.0 != StepEntry(e).value.0
        ensures TimelineEntry(x).Some? && TimelineEntry(e).Some? ==> TimelineEntry(x).value.0 != TimelineEntry(e).value.0
      {
        LastIsNew(events, x);
        EntriesCarrySeq(x, e);
      }
      CollectOneMore(v.steps, init, e, StepEntry);
      CollectOneMore(v.timeline, init, e, TimelineEntry);
      assert events == init + [e];
      KeysComeFromEvents(v.steps, init, e, StepEntry);
      KeysComeFromEvents(v.timeline, init, e, TimelineEntry);
      ProjectAdds(v, e);
    }
  }

  lemma NothingCollected()
    ensures Collected(EMPTY.steps, [], StepEntry) && Collected(EMPTY.timeline, [], TimelineEntry)
  {
  }

  lemma KeysComeFromEvents<K, V>(m: map<K, V>, events: seq<RunEvent>, e: RunEvent, f: RunEvent -> Option<(K, V)>)
    requires Collected(m, events, f)
    requires f(e).Some? ==> forall x :: x in events && f(x).Some? ==> f(x).value.0 != f(e).value.0
    ensures f(e).Some? ==> f(e).value.0 !in m
  {
  }

  /** An event with a new number adds its rows unchanged. */
  lemma ProjectAdds(v: View, e: RunEvent)
    requires StepEntry(e).Some? ==> StepEntry(e).value.0 !in v.steps
    requires TimelineEntry(e).Some? ==> TimelineEntry(e).value.0 !in v.timeline
    ensures Project(v, e).steps ==
      if StepEntry(e).Some? then v.steps[StepEntry(e).value.0 := StepEntry(e).value.1] else v.steps
    ensures Project(v, e).timeline ==
      if TimelineEntry(e).Some? then v.timeline[TimelineEntry(e).value.0 := TimelineEntry(e).value.1] else v.timeline
  {
    hide IsUsageKind, TimelineOf, StepOf, NewStep, ProjectMessages, UpsertToolCall, TouchesTools;
  }

  ghost predicate IsMaxSeq(events: seq<RunEvent>, n: nat) {
    && (forall e :: e in events && Projected(e) ==> e.seqNo <= n)
    && (n != 0 ==> exists e :: e in events && Projected(e) && e.seqNo == n)
  }

  lemma {:induction false} FoldMaxSeq(events: seq<RunEvent>)
    ensures IsMaxSeq(events, Fold(EMPTY, events).lastSeq)
  {
    hide IsUsageKind, TimelineOf, StepOf, ProjectMessages, UpsertToolCall, TouchesTools, UpsertStep, UpsertTimeline;
    if events != [] {
      var init, e := events[..|events| - 1], events[|events| - 1];
      FoldMaxSeq(init);
      assert events == init + [e];
      var n, n' := Fold(EMPTY, init).lastSeq, Fold(EMPTY, events).lastSeq;
      if n' != 0 {
        if n' == n {
          var x :| x in init && Projected(x) && x.seqNo == n;
          assert x in events;
        } else {
          assert e in events;
        }
      }
    }
  }

  /** Whatever the order in which the events of a run arrive, its steps, its timeline and its cursor come out the same. */
  lemma OrderDoesNotMatter(events: seq<RunEvent>, events': seq<RunEvent>)
    requires DistinctSeqs(events) && multiset(events) == multiset(events')
    ensures Fold(EMPTY, events).steps == Fold(EMPTY, events').steps
    ensures Fold(EMPTY, events).timeline == Fold(EMPTY, events').timeline
    ensures Fold(EMPTY, events).lastSeq == Fold(EMPTY, events').lastSeq
  {
    hide IsUsageKind, Project, StepEntry, TimelineEntry;
    SameMembers(events, events');
    PermutationIsDistinct(events, events');
    FoldCollects(events);
    FoldCollects(events');
    CollectedIsUnique(Fold(EMPTY, events).steps, Fold(EMPTY, events').steps, events, events', StepEntry);
    CollectedIsUnique(Fold(EMPTY, events).timeline, Fold(EMPTY, events').timeline, events, events', TimelineEntry);
    FoldMaxSeq(events);
    FoldMaxSeq(events');
  }

  lemma SameMembers(a: seq<RunEvent>, b: seq<RunEvent>)
    requires multiset(a) == multiset(b)
    ensures forall e :: e in a <==> e in b
  {
    forall e
      ensures e in a <==> e in b
    {
      assert e in a <==> e in multiset(a);
      assert e in b <==> e in multiset(b);
    }
  }

  lemma {:induction false} CountTwice(a: seq<RunEvent>, i: nat, j: nat)
    requires i < j < |a| && a[i] == a[j]
    ensures multiset(a)[a[i]] >= 2
  {
    assert a == a[..j] + a[j..];
    assert a[i] == a[..j][i] && a[j] == a[j..][0];
  }

  lemma {:induction false} CountOnce(a: seq<RunEvent>, e: RunEvent)
    requires DistinctSeqs(a)
    ensures multiset(a)[e] <= 1
  {
    if a != [] {
      var init, last := a[..|a| - 1], a[|a| - 1];
      assert a == init + [last];
      CountOnce(init, e);
    }
  }

  lemma PermutationIsDistinct(a: seq<RunEvent>, b: seq<RunEvent>)
    requires DistinctSeqs(a) && multiset(a) == multiset(b)
    ensures DistinctSeqs(b)
  {
    SameMembers(a, b);
    forall i, j | 0 <= i < j < |b|
      ensures b[i].seqNo != b[j].seqNo
    {
      assert b[i] in a && b[j] in a;
      if b[i] == b[j] {
        CountTwice(b, i, j);
        CountOnce(a, b[i]);
      }
    }
    forall i | 0 <= i < |b|
      ensures b[i].seqNo > 0
    {
      assert b[i] in a;
    }
  }

  // ----- sorting and selecting -----

  /** The events that satisfy `p`, in order. */
  function Select(events: seq<RunEvent>, p: RunEvent -> bool): (r: seq<RunEvent>)
    ensures forall e :: e in r <==> e in events && p(e)
  {
    if events == [] then []
    else
      var rest, last := Select(events[..|events| - 1], p), events[|events| - 1];
      assert forall e :: e in events <==> e in events[..|events| - 1] || e == last;
      if p(last) then rest + [last] else rest
  }

  predicate InSeqOrder(events: seq<RunEvent>) {
    forall i, j :: 0 <= i < j < |events| ==> events[i].seqNo <= events[j].seqNo
  }

  lemma InsertAtEnd(sorted: seq<RunEvent>, e: RunEvent)
    requires sorted == [] || sorted[|sorted| - 1].seqNo <= e.seqNo
    ensures InsertBySeq(sorted, e) == sorted + [e]
  {
  }

  lemma {:induction false} SortKeepsOrder(events: seq<RunEvent>)
    requires InSeqOrder(events)
    ensures SortBySeq(events) == events
  {
    hide InsertBySeq;
    if events != [] {
      var init, last := events[..|events| - 1], events[|events| - 1];
      SortKeepsOrder(init);
      InsertAtEnd(init, last);
      assert events == init + [last];
    }
  }

  lemma {:induction false} InsertAddsOne(sorted: seq<RunEvent>, e: RunEvent, x: RunEvent)
    requires x in InsertBySeq(sorted, e)
    ensures x in sorted || x == e
  {
    if sorted != [] && sorted[|sorted| - 1].seqNo > e.seqNo && x in InsertBySeq(sorted[..|sorted| - 1], e) {
      InsertAddsOne(sorted[..|sorted| - 1], e, x);
    }
  }

  lemma AppendKeepsOrder(events: seq<RunEvent>, last: RunEvent)
    requires InSeqOrder(events) && forall i :: 0 <= i < |events| ==> events[i].seqNo <= last.seqNo
    ensures InSeqOrder(events + [last])
  {
  }

  lemma {:induction false} InsertSorts(sorted: seq<RunEvent>, e: RunEvent)
    requires InSeqOrder(sorted)
    ensures InSeqOrder(InsertBySeq(sorted, e))
  {
    if sorted == [] {
    } else if sorted[|sorted| - 1].seqNo <= e.seqNo {
      AppendKeepsOrder(sorted, e);
    } else {
      var init, last := sorted[..|sorted| - 1], sorted[|sorted| - 1];
      InsertSorts(init, e);
      var r := InsertBySeq(init, e);
      forall i | 0 <= i < |r|
        ensures r[i].seqNo <= last.seqNo
      {
        InsertAddsOne(init, e, r[i]);
      }
      AppendKeepsOrder(r, last);
    }
  }

  lemma {:induction false} SortSorts(events: seq<RunEvent>)
    ensures InSeqOrder(SortBySeq(events))
  {
    if events != [] {
      SortSorts(events[..|events| - 1]);
      InsertSorts(SortBySeq(events[..|events| - 1]), events[|events| - 1]);
    }
  }

  lemma {:induction false} UsageLeavesNoTrace(v: View, events: seq<RunEvent>)
    ensures Fold(v, NotUsage(events)) == Fold(v, events)
  {
    hide IsUsageKind;
    if events != [] {
      var init, last := events[..|events| - 1], events[|events| - 1];
      UsageLeavesNoTrace(v, init);
      if !IsUsageKind(last.kind) {
        assert (NotUsage(init) + [last])[..|NotUsage(init)|] == NotUsage(init);
      }
    }
  }

  // ----- streamed text -----

  /** The events that reach the assistant's row: deltas with text, and every final one. */
  predicate IsSpeech(e: RunEvent) {
    e.runId != ""
    && (e.kind == "assistant.message.done" || (e.kind == "assistant.message.delta" && PayloadText(e.payload) != ""))
  }

  function Speech(events: seq<RunEvent>): seq<RunEvent> {
    Select(events, IsSpeech)
  }

  /** The texts one after the other. */
  function Texts(speech: seq<RunEvent>): string {
    if speech == [] then "" else Texts(speech[..|speech| - 1]) + PayloadText(speech[|speech| - 1].payload)
  }

  /** A final event with text. */
  predicate IsFinal(e: RunEvent) {
    e.kind == "assistant.message.done" && PayloadText(e.payload) != ""
  }

  /** One after the index of the last final text, or 0 when there is none. */
  function AfterFinal(speech: seq<RunEvent>): (n: nat)
    ensures n <= |speech|
    ensures forall i :: n <= i < |speech| ==> !IsFinal(speech[i])
    ensures n > 0 ==> IsFinal(speech[n - 1])
  {
    if speech == [] then 0
    else if IsFinal(speech[|speech| - 1]) then |speech|
    else AfterFinal(speech[..|speech| - 1])
  }

  /** The last final text, or nothing, followed by every text streamed after it. */
  function SpokenText(speech: seq<RunEvent>): string {
    var n := AfterFinal(speech);
    (if n > 0 then PayloadText(speech[n - 1].payload) else "") + Texts(speech[n..])
  }

  /** When the last final event came. */
  function LastDone(speech: seq<RunEvent>): Option<int> {
    if speech == [] then None
    else if speech[|speech| - 1].kind == "assistant.message.done" then Some(speech[|speech| - 1].at)
    else LastDone(speech[..|speech| - 1])
  }

  /** The row that `speech` leaves. */
  ghost predicate IsSpokenRow(row: MessageRow, speech: seq<RunEvent>)
    requires speech != []
  {
    var last := speech[|speech| - 1];
    && row.content == SpokenText(speech)
    && row.seqEnd == last.seqNo && row.payload == last.payload && row.startedAt == speech[0].at
    && row.status == (if last.kind == "assistant.message.done" then "done" else "streaming")
    && row.finishedAt == LastDone(speech)
  }

  /** At most one row of the assistant, opened by the first word and closed by the last. */
  ghost predicate SpeaksOnce(messages: map<MessageKey, MessageRow>, speech: seq<RunEvent>) {
    && (forall k :: k in messages && k.role == "assistant" ==> speech != [] && k.seqStart == speech[0].seqNo)
    && (speech != [] ==>
      var k := MessageKey(speech[0].seqNo, "assistant");
      k in messages && IsSpokenRow(messages[k], speech))
  }

  lemma SpokenTextGrows(speech: seq<RunEvent>, e: RunEvent)
    requires IsSpeech(e)
    ensures SpokenText(speech + [e]) ==
      if IsFinal(e) then PayloadText(e.payload)
      else SpokenText(speech) + PayloadText(e.payload)
  {
    hide PayloadText;
    var more := speech + [e];
    assert more[..|speech|] == speech;
    if IsFinal(e) {
      assert more[|more|..] == [];
    } else {
      var n := AfterFinal(speech);
      assert AfterFinal(more) == n;
      assert more[n..] == speech[n..] + [e];
      assert (speech[n..] + [e])[..|speech| - n] == speech[n..];
      if n > 0 { assert more[n - 1] == speech[n - 1]; }
    }
  }

  lemma LastDoneGrows(speech: seq<RunEvent>, e: RunEvent)
    ensures LastDone(speech + [e]) == if e.kind == "assistant.message.done" then Some(e.at) else LastDone(speech)
  {
    assert (speech + [e])[..|speech|] == speech;
  }

  lemma FirstWord(messages: map<MessageKey, MessageRow>, e: RunEvent)
    requires SpeaksOnce(messages, []) && IsSpeech(e)
    ensures SpeaksOnce(ProjectMessages(messages, e), [e])
  {
    hide PayloadText, SpokenText, LastDone;
    assert LastMessage(messages, "assistant").None?;
    SpokenTextGrows([], e);
    LastDoneGrows([], e);
    NothingSpoken();
    assert [] + [e] == [e];
  }

  lemma LaterWord(messages: map<MessageKey, MessageRow>, speech: seq<RunEvent>, e: RunEvent)
    requires speech != [] && SpeaksOnce(messages, speech) && IsSpeech(e)
    ensures SpeaksOnce(ProjectMessages(messages, e), speech + [e])
  {
    hide PayloadText, SpokenText, LastDone;
    var k := MessageKey(speech[0].seqNo, "assistant");
    assert LastMessage(messages, "assistant") == Some(k);
    SpokenTextGrows(speech, e);
    LastDoneGrows(speech, e);
    assert (speech + [e])[0] == speech[0];
  }

  /** A word that comes while a row is open goes to that row, any other word opens one. */
  lemma WordIsSpoken(messages: map<MessageKey, MessageRow>, speech: seq<RunEvent>, e: RunEvent)
    requires SpeaksOnce(messages, speech) && IsSpeech(e)
    ensures SpeaksOnce(ProjectMessages(messages, e), speech + [e])
  {
    hide SpeaksOnce, ProjectMessages;
    if speech == [] {
      FirstWord(messages, e);
      assert speech + [e] == [e];
    } else {
      LaterWord(messages, speech, e);
    }
  }

  lemma NothingSpoken()
    ensures SpokenText([]) == "" && LastDone([]) == None
  {
    var nothing: seq<RunEvent> := [];
    assert nothing[0..] == nothing;
  }

  lemma OtherMessagesKeep(messages: map<MessageKey, MessageRow>, speech: seq<RunEvent>, e: RunEvent)
    requires SpeaksOnce(messages, speech) && !IsSpeech(e) && e.runId != ""
    ensures SpeaksOnce(ProjectMessages(messages, e), speech)
  {
    hide PayloadText, SpokenText;
  }

  lemma SpeechIsNotUsage()
    ensures !IsUsageKind("assistant.message.delta") && !IsUsageKind("assistant.message.done")
  {
    assert TrimSpace("assistant.message.delta") == "assistant.message.delta";
    assert TrimSpace("assistant.message.done") == "assistant.message.done";
    assert ToLower("assistant.message.delta")[9] == '.';
    assert ToLower("assistant.message.done")[9] == '.';
  }

  /** For every sequence of events, in whatever order and with whatever numbers: at most one assistant row, and in it
      the last final text followed by everything streamed after it. */
  lemma {:induction false} StreamedText(events: seq<RunEvent>)
    ensures SpeaksOnce(Fold(EMPTY, events).messages, Speech(events))
  {
    hide IsUsageKind, TimelineOf, StepOf, UpsertToolCall, TouchesTools, UpsertStep, UpsertTimeline, ProjectMessages, IsSpokenRow;
    if events != [] {
      var init, e := events[..|events| - 1], events[|events| - 1];
      StreamedText(init);
      SpeechIsNotUsage();
      var messages := Fold(EMPTY, init).messages;
      if IsSpeech(e) {
        WordIsSpoken(messages, Speech(init), e);
      } else if e.runId != "" {
        OtherMessagesKeep(messages, Speech(init), e);
      }
    }
  }

  // ----- tool calls -----

  /** The events that reach the row of one tool call. */
  function Touching(events: seq<RunEvent>, k: ToolKey): seq<RunEvent> {
    Select(events, e => Projected(e) && TouchesTools(e) && ToolId(e) == k)
  }

  function NameOf(e: RunEvent): string {
    PayloadString(e.payload, ["tool_name", "name", "tool"])
  }

  function ApprovalOf(e: RunEvent): string {
    PayloadString(e.payload, ["approval_id"])
  }

  /** The last value that is not empty. */
  function LastNonEmpty(events: seq<RunEvent>, f: RunEvent -> string): string {
    if events == [] then ""
    else OrElse(f(events[|events| - 1]), LastNonEmpty(events[..|events| - 1], f))
  }

  predicate Finishes(e: RunEvent) {
    ToolStatus(e.kind) in {"done", "output"}
  }

  /** When the call was last finished. */
  function LastFinish(events: seq<RunEvent>): Option<int> {
    if events == [] then None
    else if Finishes(events[|events| - 1]) then Some(events[|events| - 1].at)
    else LastFinish(events[..|events| - 1])
  }

  /** The row begins with the first event and takes status, arguments and output from the last one; name and approval
      are the last ones given, and a call once finished keeps a finish time. */
  ghost predicate IsToolRow(row: ToolRow, touching: seq<RunEvent>)
    requires touching != []
  {
    var last := touching[|touching| - 1];
    && row.seqStart == touching[0].seqNo && row.startedAt == touching[0].at
    && row.seqEnd == last.seqNo && row.status == ToolStatus(last.kind)
    && row.arguments == PayloadObject(last.payload, ["arguments", "args"])
    && row.output == PayloadObject(last.payload, ["output", "result", "text"])
    && row.name == LastNonEmpty(touching, NameOf) && row.approvalId == LastNonEmpty(touching, ApprovalOf)
    && row.finishedAt == LastFinish(touching)
  }

  lemma TouchGrows(tools: map<ToolKey, ToolRow>, touching: seq<RunEvent>, e: RunEvent)
    requires ToolId(e) in tools <==> touching != []
    requires touching != [] ==> IsToolRow(tools[ToolId(e)], touching)
    ensures var k := ToolId(e);
      k in UpsertToolCall(tools, e) && IsToolRow(UpsertToolCall(tools, e)[k], touching + [e])
  {
    hide PayloadString, PayloadObject, ToolStatus, ToolId;
    var more := touching + [e];
    assert more[..|touching|] == touching && more[|more| - 1] == e;
    assert LastNonEmpty(more, NameOf) == OrElse(NameOf(e), LastNonEmpty(touching, NameOf));
    assert LastNonEmpty(more, ApprovalOf) == OrElse(ApprovalOf(e), LastNonEmpty(touching, ApprovalOf));
    assert LastFinish(more) == if Finishes(e) then Some(e.at) else LastFinish(touching);
  }

  /** For every sequence of events, in whatever order: a tool call has a row exactly when an event touched it, and the row
      is that of its touching events. */
  lemma {:induction false} ToolCallClosedForm(events: seq<RunEvent>, k: ToolKey)
    ensures var tools, touching := Fold(EMPTY, events).tools, Touching(events, k);
      (k in tools <==> touching != []) && (touching != [] ==> IsToolRow(tools[k], touching))
  {
    hide IsUsageKind, TimelineOf, StepOf, UpsertToolCall, TouchesTools, UpsertStep, UpsertTimeline, ProjectMessages, IsToolRow, ToolId;
    if events != [] {
      var init, e := events[..|events| - 1], events[|events| - 1];
      ToolCallClosedForm(init, k);
      var tools := Fold(EMPTY, init).tools;
      if ToolId(e) == k {
        TouchGrows(tools, Touching(init, k), e);
      } else {
        OtherToolsKeep(tools, e, k);
      }
    }
  }

  lemma OtherToolsKeep(tools: map<ToolKey, ToolRow>, e: RunEvent, k: ToolKey)
    requires ToolId(e) != k
    ensures k in UpsertToolCall(tools, e) <==> k in tools
    ensures k in tools ==> UpsertToolCall(tools, e)[k] == tools[k]
  {
    hide PayloadString, PayloadObject, ToolStatus, ToolId;
  }

  // ----- exactly when two replays agree on messages and tool calls -----

  lemma SelectAppend(events: seq<RunEvent>, e: RunEvent, p: RunEvent -> bool)
    ensures Select(events + [e], p) == if p(e) then Select(events, p) + [e] else Select(events, p)
  {
    assert (events + [e])[..|events|] == events;
  }

  lemma InsertBefore(init: seq<RunEvent>, last: RunEvent, e: RunEvent)
    requires last.seqNo > e.seqNo
    ensures InsertBySeq(init + [last], e) == InsertBySeq(init, e) + [last]
  {
    assert (init + [last])[..|init|] == init;
  }

  lemma {:induction false} SelectInsert(sorted: seq<RunEvent>, e: RunEvent, p: RunEvent -> bool)
    requires InSeqOrder(sorted)
    ensures Select(InsertBySeq(sorted, e), p) == if p(e) then InsertBySeq(Select(sorted, p), e) else Select(sorted, p)
  {
    hide InsertBySeq, Select;
    if sorted == [] {
      InsertAtEnd([], e);
      NothingSelected(p);
      SelectAppend([], e, p);
    } else {
      var init, last := sorted[..|sorted| - 1], sorted[|sorted| - 1];
      assert sorted == init + [last];
      if last.seqNo <= e.seqNo {
        InsertAtEnd(sorted, e);
        SelectAppend(sorted, e, p);
        var picked := Select(sorted, p);
        if picked != [] {
          assert picked[|picked| - 1] in sorted;
        }
        InsertAtEnd(picked, e);
      } else {
        SelectInsert(init, e, p);
        InsertBefore(init, last, e);
        SelectAppend(init, last, p);
        SelectAppend(InsertBySeq(init, e), last, p);
        InsertBefore(Select(init, p), last, e);
      }
    }
  }

  lemma NothingSelected(p: RunEvent -> bool)
    ensures Select([], p) == []
  {
  }

  /** Sorting and selecting commute. */
  lemma {:induction false} SelectSort(events: seq<RunEvent>, p: RunEvent -> bool)
    ensures Select(SortBySeq(events), p) == SortBySeq(Select(events, p))
  {
    hide InsertBySeq;
    if events != [] {
      var init, last := events[..|events| - 1], events[|events| - 1];
      SelectSort(init, p);
      SortSorts(init);
      SelectInsert(SortBySeq(init), last, p);
      var picked := Select(init, p);
      assert (picked + [last])[..|picked|] == picked;
    }
  }

  /** The row of a user message. */
  function UserEntry(e: RunEvent): Option<(MessageKey, MessageRow)> {
    if !Projected(e) || e.kind != "user.message" then None
    else Some((MessageKey(e.seqNo, "user"), MessageRow(e.seqNo, PayloadText(e.payload), e.payload, "done", e.at, Some(e.at))))
  }

  function UserRows(messages: map<MessageKey, MessageRow>): map<MessageKey, MessageRow> {
    map k | k in messages && k.role != "assistant" :: messages[k]
  }

  lemma ProjectAddsUserRow(v: View, e: RunEvent)
    requires UserEntry(e).Some? ==> UserEntry(e).value.0 !in v.messages
    ensures UserRows(Project(v, e).messages) ==
      if UserEntry(e).Some? then UserRows(v.messages)[UserEntry(e).value.0 := UserEntry(e).value.1] else UserRows(v.messages)
  {
    hide IsUsageKind, TimelineOf, StepOf, UpsertStep, UpsertTimeline, UpsertToolCall, TouchesTools, PayloadText;
  }

  lemma {:induction false} UserRowsCollect(events: seq<RunEvent>)
    requires DistinctSeqs(events)
    ensures Collected(UserRows(Fold(EMPTY, events).messages), events, UserEntry)
  {
    hide Project, Collected, IsUsageKind, PayloadText;
    if events == [] {
      NoUserRows();
    } else {
      var init, e := events[..|events| - 1], events[|events| - 1];
      var v := Fold(EMPTY, init);
      UserRowsCollect(init);
      forall x | x in init
        ensures UserEntry(x).Some? && UserEntry(e).Some? ==> UserEntry(x).value.0 != UserEntry(e).value.0
      {
        LastIsNew(events, x);
      }
      CollectOneMore(UserRows(v.messages), init, e, UserEntry);
      assert events == init + [e];
      KeysComeFromEvents(UserRows(v.messages), init, e, UserEntry);
      ProjectAddsUserRow(v, e);
    }
  }

  lemma NoUserRows()
    ensures Collected(UserRows(EMPTY.messages), [], UserEntry)
  {
  }

  /** What the assistant's row shows is the same for both orders of the words. */
  ghost predicate SameReading(heard: seq<RunEvent>, read: seq<RunEvent>) {
    heard == []
    || (&& read != [] && heard[0] == read[0] && heard[|heard| - 1] == read[|read| - 1]
        && SpokenText(heard) == SpokenText(read) && LastDone(heard) == LastDone(read))
  }

  /** What the row of a tool call shows is the same for both orders of its events. */
  predicate SameCall(live: seq<RunEvent>, sorted: seq<RunEvent>) {
    live == []
    || (&& sorted != [] && live[0] == sorted[0] && live[|live| - 1] == sorted[|sorted| - 1]
        && LastNonEmpty(live, NameOf) == LastNonEmpty(sorted, NameOf)
        && LastNonEmpty(live, ApprovalOf) == LastNonEmpty(sorted, ApprovalOf) && LastFinish(live) == LastFinish(sorted))
  }

  /** Some of the events, in any order. */
  ghost predicate TakenFrom(part: seq<RunEvent>, events: seq<RunEvent>) {
    DistinctSeqs(events) && DistinctSeqs(part) && forall e :: e in part ==> e in events
  }

  /** Some of these events, told apart by their numbers. */
  ghost predicate PartOf(part: seq<RunEvent>, events: seq<RunEvent>) {
    && (forall e :: e in part ==> e in events)
    && forall x, y :: x in events && y in part && x.seqNo == y.seqNo ==> x == y
  }

  lemma SelectedPart(part: seq<RunEvent>, events: seq<RunEvent>, p: RunEvent -> bool)
    requires TakenFrom(part, events)
    ensures PartOf(part, events) && PartOf(Select(part, p), Select(events, p))
  {
    forall x, y | x in events && y in part && x.seqNo == y.seqNo
      ensures x == y
    {
      assert y in events;
      var i :| 0 <= i < |events| && events[i] == x;
      var j :| 0 <= j < |events| && events[j] == y;
    }
  }

  /** Every user message of the one list is in the other. */
  ghost predicate HasUserMessages(part: seq<RunEvent>, events: seq<RunEvent>) {
    forall e :: e in events && UserEntry(e).Some? ==> e in part
  }

  lemma UserRowsEqualIff(events: seq<RunEvent>, part: seq<RunEvent>)
    requires TakenFrom(part, events)
    ensures UserRows(Fold(EMPTY, part).messages) == UserRows(Fold(EMPTY, events).messages) <==> HasUserMessages(part, events)
  {
    hide Fold, UserRows, IsUsageKind, PayloadText;
    var m, m' := UserRows(Fold(EMPTY, events).messages), UserRows(Fold(EMPTY, part).messages);
    UserRowsCollect(events);
    UserRowsCollect(part);
    SelectedPart(part, events, IsSpeech);
    if HasUserMessages(part, events) {
      MoreCollected(m', part, events);
      CollectedIsUnique(m, m', events, events, UserEntry);
    }
    if m == m' {
      forall e | e in events && UserEntry(e).Some?
        ensures e in part
      {
        var x :| x in part && UserEntry(x).Some? && UserEntry(x).value.0 == UserEntry(e).value.0;
        assert x.seqNo == e.seqNo;
      }
    }
  }

  lemma MoreCollected(m: map<MessageKey, MessageRow>, part: seq<RunEvent>, events: seq<RunEvent>)
    requires Collected(m, part, UserEntry) && HasUserMessages(part, events) && forall e :: e in part ==> e in events
    ensures Collected(m, events, UserEntry)
  {
    hide UserEntry;
    forall k | k in m
      ensures exists e :: e in events && UserEntry(e).Some? && UserEntry(e).value.0 == k
    {
      var e :| e in part && UserEntry(e).Some? && UserEntry(e).value.0 == k;
      assert e in events;
    }
  }

  lemma MessagesEqualIff(m: map<MessageKey, MessageRow>, m': map<MessageKey, MessageRow>, heard: seq<RunEvent>, read: seq<RunEvent>)
    requires SpeaksOnce(m, heard) && SpeaksOnce(m', read) && PartOf(read, heard)
    ensures m == m' <==> UserRows(m) == UserRows(m') && SameReading(heard, read)
  {
    hide SpokenText, LastDone;
    if UserRows(m) == UserRows(m') && SameReading(heard, read) {
      NoneOfNone(read, heard);
      forall k
        ensures k in m <==> k in m'
        ensures k in m && k in m' ==> m[k] == m'[k]
      {
        assert k.role != "assistant" ==> (k in UserRows(m) <==> k in m) && (k in UserRows(m') <==> k in m');
      }
    }
    if m == m' && heard != [] {
      assert MessageKey(heard[0].seqNo, "assistant") in m';
      assert heard[0] in heard && read[0] in read && heard[|heard| - 1] in heard && read[|read| - 1] in read;
    }
  }

  /** Replaying some of the events in another order leaves the same messages if and only if all user messages are among them
      and the assistant's words read the same: same first and last word, same text, same time of the last final one. */
  lemma MessagesAgreeIff(events: seq<RunEvent>, part: seq<RunEvent>)
    requires TakenFrom(part, events)
    ensures Fold(EMPTY, part).messages == Fold(EMPTY, events).messages <==>
      HasUserMessages(part, events) && SameReading(Speech(events), Speech(part))
  {
    hide Fold, SpeaksOnce, UserRows, SameReading, Select, UserEntry, PartOf, HasUserMessages;
    UserRowsEqualIff(events, part);
    StreamedText(events);
    StreamedText(part);
    SelectedPart(part, events, IsSpeech);
    MessagesEqualIff(Fold(EMPTY, events).messages, Fold(EMPTY, part).messages, Speech(events), Speech(part));
  }

  lemma ReadsLikeItself(events: seq<RunEvent>)
    ensures SameReading(events, events) && SameCall(events, events)
  {
  }

  /** The assistant's text, as far as there is any. */
  ghost function TextOf(messages: map<MessageKey, MessageRow>): string {
    var last := LastMessage(messages, "assistant");
    if last.Some? then messages[last.value].content else ""
  }

  /** Whatever the events: the assistant's text is what its words come to. */
  lemma TextIsSpoken(events: seq<RunEvent>)
    ensures TextOf(Fold(EMPTY, events).messages) == SpokenText(Speech(events))
  {
    hide Fold, SpokenText, Select;
    StreamedText(events);
    NothingSpoken();
    var messages, speech := Fold(EMPTY, events).messages, Speech(events);
    if speech != [] {
      assert MessageKey(speech[0].seqNo, "assistant") in messages;
    }
  }

  lemma FinalWordIsText(speech: seq<RunEvent>)
    requires speech != [] && IsFinal(speech[|speech| - 1])
    ensures SpokenText(speech) == PayloadText(speech[|speech| - 1].payload)
  {
    hide PayloadText;
    assert speech[|speech|..] == [];
  }

  function RowUnder(tools: map<ToolKey, ToolRow>, k: ToolKey): Option<ToolRow> {
    if k in tools then Some(tools[k]) else None
  }

  /** Replaying some of the events in another order leaves the same row of a tool call if and only if those that touch it
      come to the same: same first and last event, same last name, approval and finish. */
  lemma ToolCallAgreesIff(events: seq<RunEvent>, part: seq<RunEvent>, k: ToolKey)
    requires TakenFrom(part, events)
    ensures RowUnder(Fold(EMPTY, part).tools, k) == RowUnder(Fold(EMPTY, events).tools, k) <==>
      SameCall(Touching(events, k), Touching(part, k))
  {
    hide Fold, Select, PartOf, IsToolRow;
    ToolCallClosedForm(events, k);
    ToolCallClosedForm(part, k);
    var p := (e: RunEvent) => Projected(e) && TouchesTools(e) && ToolId(e) == k;
    SelectedPart(part, events, p);
    NoneOfNone(Touching(part, k), Touching(events, k));
    if Touching(part, k) != [] {
      RowsEqualIff(Fold(EMPTY, events).tools[k], Fold(EMPTY, part).tools[k], Touching(events, k), Touching(part, k));
    }
  }

  lemma NoneOfNone(part: seq<RunEvent>, events: seq<RunEvent>)
    requires PartOf(part, events)
    ensures events == [] ==> part == []
  {
    assert part == [] || part[0] in part;
  }

  lemma RowsEqualIff(row: ToolRow, row': ToolRow, live: seq<RunEvent>, part: seq<RunEvent>)
    requires live != [] && part != [] && PartOf(part, live) && IsToolRow(row, live) && IsToolRow(row', part)
    ensures row == row' <==> SameCall(live, part)
  {
    hide PayloadObject, ToolStatus, LastNonEmpty, LastFinish;
    assert live[0] in live && part[0] in part && live[|live| - 1] in live && part[|part| - 1] in part;
  }

  // ----- the two sides agree -----

  predicate OfRun(events: seq<RunEvent>, r: string) {
    forall i :: 0 <= i < |events| ==> events[i].runId == r
  }

  ghost predicate SidesAgree(events: seq<RunEvent>) {
    FoldLocal(LocalView(map[], map[]), events) == LocalView(Fold(EMPTY, events).messages, Fold(EMPTY, events).tools)
  }

  lemma EventAgrees(v: View, e: RunEvent)
    requires !Blank(e.runId)
    ensures var l := ProjectLocal(LocalView(v.messages, v.tools), e);
      l == LocalView(Project(v, e).messages, Project(v, e).tools)
  {
    hide IsUsageKind, TimelineOf, StepOf, UpsertToolCall, UpsertStep, UpsertTimeline, AppendMessage, FinishMessage,
      UpsertMessage, TerminalIsToolCall, TrimSpace;
    assert e.runId != "" by { EmptyIsBlank(); }
  }

  lemma EmptyIsBlank()
    ensures Blank("")
  {
  }

  lemma {:induction false} FoldsAgree(events: seq<RunEvent>, r: string)
    requires OfRun(events, r) && (r == "" || !Blank(r))
    ensures SidesAgree(events)
  {
    hide ProjectLocal, Project, Blank;
    if events != [] {
      var init, e := events[..|events| - 1], events[|events| - 1];
      FoldsAgree(init, r);
      if r == "" {
        NoRunNoTrace(Fold(EMPTY, init), e);
      } else {
        EventAgrees(Fold(EMPTY, init), e);
      }
    }
  }

  lemma NoRunNoTrace(v: View, e: RunEvent)
    requires e.runId == ""
    ensures Project(v, e) == v && ProjectLocal(LocalView(v.messages, v.tools), e) == LocalView(v.messages, v.tools)
  {
    hide IsUsageKind, AppendMessage, FinishMessage, UpsertMessage, UpsertToolCall, TrimSpace;
    EmptyIsBlank();
  }

  /** Agent and server hold the same messages and tool calls of a run, whatever its events, exactly when the run id is
      not made of white space: the agent takes such an id for none and the server does not. */
  lemma SidesAgreeIff(r: string)
    ensures (forall events :: OfRun(events, r) ==> SidesAgree(events)) <==> r == "" || !Blank(r)
  {
    hide Blank, SidesAgree, OfRun;
    if r == "" || !Blank(r) {
      forall events | OfRun(events, r)
        ensures SidesAgree(events)
      {
        FoldsAgree(events, r);
      }
    } else {
      BlankRunsDisagree(r);
    }
  }

  lemma BlankRunsDisagree(r: string)
    requires r != "" && Blank(r)
    ensures var events := [RunEvent("e", r, "", "", "", 1, "user.message", NoPayload, 0)];
      OfRun(events, r) && !SidesAgree(events)
  {
    hide TimelineOf, StepOf, UpsertTimeline, UpsertStep, TrimSpace;
    var e := RunEvent("e", r, "", "", "", 1, "user.message", NoPayload, 0);
    var events := [e];
    assert events[..0] == [];
    assert !IsUsageKind("user.message") by { UserMessageIsNotUsage(); }
    assert MessageKey(1, "user") in Fold(EMPTY, events).messages;
    assert FoldLocal(LocalView(map[], map[]), events) == LocalView(map[], map[]);
  }

  lemma UserMessageIsNotUsage()
    ensures !IsUsageKind("user.message")
  {
    assert TrimSpace("user.message") == "user.message";
    assert ToLower("user.message")[4] == '.';
  }

  predicate IsDelta(e: RunEvent) {
    e.runId != "" && e.kind == "assistant.message.delta" && PayloadText(e.payload) != ""
  }

  lemma TwoDeltas(a: RunEvent, b: RunEvent)
    requires IsDelta(a) && IsDelta(b)
    ensures Speech([a, b]) == [a, b] && SpokenText([a, b]) == PayloadText(a.payload) + PayloadText(b.payload)
  {
    hide PayloadText;
    assert [a, b][..1] == [a] && [a][..0] == [] && [a, b][0..] == [a, b];
    assert Select([], IsSpeech) == [] && Select([a], IsSpeech) == [a];
    assert AfterFinal([]) == 0 && AfterFinal([a]) == 0 && AfterFinal([a, b]) == 0;
    assert Texts([]) == "" && Texts([a]) == PayloadText(a.payload);
  }

  lemma TwoSort(a: RunEvent, b: RunEvent)
    requires a.seqNo < b.seqNo
    ensures SortBySeq([b, a]) == [a, b]
  {
    assert [b, a][..1] == [b] && [b][..0] == [];
    assert SortBySeq([b]) == [b];
    assert InsertBySeq([], a) == [a];
    assert InsertBySeq([b], a) == [a] + [b];
  }

  /** Messages do depend on the order of arrival: two deltas that overtake each other read one way as they arrived and the
      other way in sequence. */
  lemma OvertakenTextDiffers(a: RunEvent, b: RunEvent)
    requires IsDelta(a) && IsDelta(b) && a.seqNo < b.seqNo
    ensures TextOf(Fold(EMPTY, [b, a]).messages) == PayloadText(b.payload) + PayloadText(a.payload)
    ensures TextOf(Fold(EMPTY, SortBySeq([b, a])).messages) == PayloadText(a.payload) + PayloadText(b.payload)
  {
    hide PayloadText, Fold, SpokenText, Speech, SortBySeq, TextOf;
    TwoSort(a, b);
    TwoDeltas(a, b);
    TwoDeltas(b, a);
    TextIsSpoken([b, a]);
    TextIsSpoken([a, b]);
  }
}
