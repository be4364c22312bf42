/** The views of one run that are folded from its event log: steps, messages, tool calls, timeline and cursor. The agent
    keeps messages and tool calls of its own; both sides use the same row operations. Generated row ids are injective
    in what they are made of, so rows are keyed by that. */
module Projections {
  import opened Text
  import opened Protocol

  datatype StepKey = StepKey(seqStart: nat, kind: string)
  datatype StepRow = StepRow(
    seqEnd: nat, title: string, status: string, payload: Payload, startedAt: int, finishedAt: Option<int>)

  datatype MessageKey = MessageKey(seqStart: nat, role: string)
  datatype MessageRow = MessageRow(
    seqEnd: nat, content: string, payload: Payload, status: string, startedAt: int, finishedAt: Option<int>)

  /** A tool call goes by the id in its payload, or by its first event when there is none. */
  datatype ToolKey = Named(id: string) | Anonymous(seqNo: nat, kind: string)
  datatype ToolRow = ToolRow(
    seqStart: nat, seqEnd: nat, name: string, arguments: Option<Json>, output: Option<Json>, status: string,
    approvalId: string, startedAt: int, finishedAt: Option<int>)

  datatype TimelineKey = TimelineKey(seqNo: nat, kind: string, itemId: string, phase: string)
  datatype TimelineRow = TimelineRow(
    sessionId: string, projectId: string, runtime: string, threadId: string, turnId: string, itemType: string,
    role: string, text: string, status: string, payload: Payload, at: int)

  datatype View = View(
    steps: map<StepKey, StepRow>, messages: map<MessageKey, MessageRow>, tools: map<ToolKey, ToolRow>,
    timeline: map<TimelineKey, TimelineRow>, lastSeq: nat)

  const EMPTY: View := View(map[], map[], map[], map[], 0)

  function When(at: int, valid: bool): Option<int> {
    if valid then Some(at) else None
  }

  // ----- messages -----

  ghost predicate IsLastMessage(messages: map<MessageKey, MessageRow>, role: string, k: MessageKey) {
    k in messages && k.role == role
    && forall k' :: k' in messages && k'.role == role ==> k'.seqStart <= k.seqStart
  }

  lemma {:induction false} HasLastMessage(messages: map<MessageKey, MessageRow>, role: string, k: MessageKey)
    requires k in messages && k.role == role
    ensures exists k' :: IsLastMessage(messages, role, k')
    decreases |messages|
  {
    if !IsLastMessage(messages, role, k) {
      var rest := messages - {k};
      var k' :| k' in messages && k'.role == role && k'.seqStart > k.seqStart;
      assert messages.Keys == rest.Keys + {k};
      HasLastMessage(rest, role, k');
      var last :| IsLastMessage(rest, role, last);
      assert IsLastMessage(messages, role, last);
    }
  }

  /** `lastRunMessage`: the row of a role that starts last. */
  ghost function LastMessage(messages: map<MessageKey, MessageRow>, role: string): (r: Option<MessageKey>)
    ensures r.None? <==> forall k :: k in messages ==> k.role != role
    ensures r.Some? ==> IsLastMessage(messages, role, r.value)
  {
    if exists k :: k in messages && k.role == role then
      var some :| some in messages && some.role == role;
      HasLastMessage(messages, role, some);
      var k :| IsLastMessage(messages, role, k);
      Some(k)
    else None
  }

  function UpsertMessage(messages: map<MessageKey, MessageRow>, e: RunEvent, role: string, status: string, finished: bool)
    : map<MessageKey, MessageRow>
  {
    var k := MessageKey(e.seqNo, role);
    var content, finishedAt := PayloadText(e.payload), When(e.at, finished);
    messages[k := if k in messages
      then messages[k].(seqEnd := e.seqNo, content := OrElse(content, messages[k].content), payload := e.payload,
        status := status, finishedAt := finishedAt)
      else MessageRow(e.seqNo, content, e.payload, status, e.at, finishedAt)]
  }

  /** A delta with text is appended to the assistant's row, which the first one opens. */
  ghost function AppendMessage(messages: map<MessageKey, MessageRow>, e: RunEvent): map<MessageKey, MessageRow> {
    var content, last := PayloadText(e.payload), LastMessage(messages, "assistant");
    if content == "" then messages
    else if last.Some? then
      var row := messages[last.value];
      messages[last.value := row.(seqEnd := e.seqNo, content := row.content + content, payload := e.payload, status := "streaming")]
    else UpsertMessage(messages, e, "assistant", "streaming", false)
  }

  /** The final text replaces what was streamed, unless it is empty. */
  ghost function FinishMessage(messages: map<MessageKey, MessageRow>, e: RunEvent): map<MessageKey, MessageRow> {
    var content, last := PayloadText(e.payload), LastMessage(messages, "assistant");
    if last.Some? then
      var row := messages[last.value];
      messages[last.value := row.(seqEnd := e.seqNo, content := OrElse(content, row.content), payload := e.payload,
        status := "done", finishedAt := Some(e.at))]
    else UpsertMessage(messages, e, "assistant", "done", true)
  }

  // ----- tool calls -----

  function ToolStatus(kind: string): string {
    match kind
    case "tool.call.done" => "done"
    case "tool.output" => "output"
    case "terminal.output" => "output"
    case "approval.requested" => "awaiting_approval"
    case _ => "running"
  }

  function ToolId(e: RunEvent): ToolKey {
    var id := PayloadString(e.payload, ["tool_call_id", "call_id", "id"]);
    if id != "" then Named(id) else Anonymous(e.seqNo, e.kind)
  }

  /** Absent arguments and output are written as JSON null, so they overwrite earlier ones. */
  function UpsertToolCall(tools: map<ToolKey, ToolRow>, e: RunEvent): map<ToolKey, ToolRow> {
    var k, status := ToolId(e), ToolStatus(e.kind);
    var name := PayloadString(e.payload, ["tool_name", "name", "tool"]);
    var arguments := PayloadObject(e.payload, ["arguments", "args"]);
    var output := PayloadObject(e.payload, ["output", "result", "text"]);
    var approvalId := PayloadString(e.payload, ["approval_id"]);
    var finishedAt := When(e.at, status in {"done", "output"});
    tools[k := if k in tools
      then tools[k].(seqEnd := e.seqNo, name := OrElse(name, tools[k].name), arguments := arguments, output := output,
        status := status, approvalId := OrElse(approvalId, tools[k].approvalId),
        finishedAt := if finishedAt.Some? then finishedAt else tools[k].finishedAt)
      else ToolRow(e.seqNo, e.seqNo, name, arguments, output, status, approvalId, e.at, finishedAt)]
  }

  predicate TerminalIsToolCall(p: Payload) {
    PayloadString(p, ["tool_call_id", "call_id", "id"]) != ""
    && PayloadObject(p, ["output", "result", "stdout", "stderr"]).Some?
  }

  predicate TouchesTools(e: RunEvent) {
    e.kind in {"tool.call.started", "tool.call.delta", "tool.call.done", "tool.output", "approval.requested"}
    || (e.kind == "terminal.output" && TerminalIsToolCall(e.payload))
  }

  // ----- steps -----

  function StepTitle(e: RunEvent): string {
    OrElse(PayloadString(e.payload, ["title", "status", "name"]), e.kind)
  }

  function StepStatus(e: RunEvent): string {
    OrElse(PayloadString(e.payload, ["status"]), "done")
  }

  datatype StepSpec = StepSpec(kind: string, title: string, status: string, finished: bool)

  /** The one step an event stands for, if any. */
  function StepOf(e: RunEvent): Option<StepSpec> {
    match e.kind
    case "assistant.message.delta" => None
    case "assistant.message.done" => None
    case "user.message" => None
    case "tool.call.started" => None
    case "tool.call.delta" => None
    case "tool.call.done" => None
    case "tool.output" => None
    case "approval.requested" => Some(StepSpec("approval", "Approval requested", "pending", false))
    case "run.started" => Some(StepSpec("run", "Run started", "running", false))
    case "run.done" => Some(StepSpec("run", "Run completed", "done", true))
    case "run.completed" => Some(StepSpec("run", "Run completed", "done", true))
    case "run.error" => Some(StepSpec("run", "Run failed", "error", true))
    case "run.failed" => Some(StepSpec("run", "Run failed", "error", true))
    case "run.stopped" => Some(StepSpec("run", "Run stopped", "stopped", true))
    case _ =>
      if e.kind == "run.status" && PayloadString(e.payload, ["status"]) == "codex.approval.unsupported" then
        Some(StepSpec("approval", "Approval unsupported", "unsupported", true))
      else if e.kind in {"terminal.output", "diff.created", "run.status",
                         "session.created", "session.updated", "session.resumed"} then
        Some(StepSpec(e.kind, StepTitle(e), StepStatus(e), true))
      else Some(StepSpec(e.kind, StepTitle(e), "done", true))
  }

  function NewStep(e: RunEvent, s: StepSpec): StepRow {
    StepRow(e.seqNo, s.title, s.status, e.payload, e.at, When(e.at, s.finished))
  }

  function UpsertStep(steps: map<StepKey, StepRow>, e: RunEvent, s: StepSpec): map<StepKey, StepRow> {
    var k := StepKey(e.seqNo, s.kind);
    steps[k := if k in steps then NewStep(e, s).(startedAt := steps[k].startedAt) else NewStep(e, s)]
  }

  // ----- timeline -----

  /** `runtimeTimelineFromEvent`: events that say nothing of a runtime have no place on the timeline. */
  function TimelineOf(e: RunEvent): (r: Option<(TimelineKey, TimelineRow)>)
    ensures r.Some? ==> r.value.0.seqNo == e.seqNo && r.value.1.runtime != ""
  {
    var threadId := PayloadString(e.payload, ["thread_id", "native_session_id"]);
    var turnId := PayloadString(e.payload, ["turn_id"]);
    var itemId := PayloadString(e.payload, ["item_id", "tool_call_id", "id"]);
    var status := PayloadString(e.payload, ["status"]);
    var named := PayloadString(e.payload, ["runtime"]);
    var runtime :=
      if named == "" && (threadId != "" || turnId != "" || itemId != "" || "codex." <= status) then "codex.cli" else named;
    var role :=
      if e.kind == "user.message" then "user"
      else if e.kind in {"assistant.message.delta", "assistant.message.done"} then "assistant" else "";
    if runtime == "" then None
    else Some((TimelineKey(e.seqNo, e.kind, itemId, PayloadString(e.payload, ["phase"])),
      TimelineRow(e.sessionId, e.projectId, runtime, threadId, turnId,
        PayloadString(e.payload, ["item_type", "tool_name", "tool"]), role, PayloadText(e.payload), status, e.payload, e.at)))
  }

  function UpsertTimeline(timeline: map<TimelineKey, TimelineRow>, k: TimelineKey, row: TimelineRow)
    : map<TimelineKey, TimelineRow>
  {
    timeline[k := if k !in timeline then row
      else
        var found := timeline[k];
        row.(sessionId := OrElse(row.sessionId, found.sessionId), projectId := OrElse(row.projectId, found.projectId),
          threadId := OrElse(row.threadId, found.threadId), turnId := OrElse(row.turnId, found.turnId),
          itemType := OrElse(row.itemType, found.itemType), role := OrElse(row.role, found.role),
          text := OrElse(row.text, found.text), status := OrElse(row.status, found.status))]
  }

  // ----- one event -----

  ghost function ProjectMessages(messages: map<MessageKey, MessageRow>, e: RunEvent): map<MessageKey, MessageRow> {
    match e.kind
    case "assistant.message.delta" => AppendMessage(messages, e)
    case "assistant.message.done" => FinishMessage(messages, e)
    case "user.message" => UpsertMessage(messages, e, "user", "done", true)
    case _ => messages
  }

  /** What the server's transaction for one event does to the views of its run. */
  ghost function Project(v: View, e: RunEvent): View {
    if e.runId == "" || IsUsageKind(e.kind) then v
    else
      var timeline := TimelineOf(e);
      View(
        if StepOf(e).Some? then UpsertStep(v.steps, e, StepOf(e).value) else v.steps,
        ProjectMessages(v.messages, e),
        if TouchesTools(e) then UpsertToolCall(v.tools, e) else v.tools,
        if timeline.Some? then UpsertTimeline(v.timeline, timeline.value.0, timeline.value.1) else v.timeline,
        if e.seqNo > v.lastSeq then e.seqNo else v.lastSeq)
  }

  /** The cursor of an event, on the row of its run. */
  function Advance(v: View, e: RunEvent): View {
    if e.runId != "" && e.seqNo > v.lastSeq then v.(lastSeq := e.seqNo) else v
  }

  /** The rows of an event, without its cursor. */
  ghost function ProjectRows(v: View, e: RunEvent): View {
    Project(v, e).(lastSeq := v.lastSeq)
  }

  lemma ProjectIsBoth(v: View, e: RunEvent)
    requires !IsUsageKind(e.kind)
    ensures ProjectRows(Advance(v, e), e) == Project(v, e)
  {
    hide IsUsageKind, StepOf, UpsertStep, ProjectMessages, TouchesTools, UpsertToolCall, TimelineOf, UpsertTimeline;
  }

  ghost function Fold(v: View, events: seq<RunEvent>): View {
    if events == [] then v else Project(Fold(v, events[..|events| - 1]), events[|events| - 1])
  }

  // ----- the agent's own views -----

  datatype LocalView = LocalView(messages: map<MessageKey, MessageRow>, tools: map<ToolKey, ToolRow>)

  /** `projectRunView` on the agent. */
  ghost function ProjectLocal(v: LocalView, e: RunEvent): LocalView {
    if Blank(e.runId) || IsUsageKind(e.kind) then v
    else
      match e.kind
      case "assistant.message.delta" => v.(messages := AppendMessage(v.messages, e))
      case "assistant.message.done" => v.(messages := FinishMessage(v.messages, e))
      case "user.message" => v.(messages := UpsertMessage(v.messages, e, "user", "done", true))
      case "terminal.output" => if TerminalIsToolCall(e.payload) then v.(tools := UpsertToolCall(v.tools, e)) else v
      case _ =>
        if e.kind in {"tool.call.started", "tool.call.delta", "tool.call.done", "tool.output", "approval.requested"}
        then v.(tools := UpsertToolCall(v.tools, e)) else v
  }

  ghost function FoldLocal(v: LocalView, events: seq<RunEvent>): LocalView {
    if events == [] then v else ProjectLocal(FoldLocal(v, events[..|events| - 1]), events[|events| - 1])
  }

  // ----- rebuilding -----

  /** The stored events of a run in the order `seq, received_at`: a stable sort by sequence number. */
  function InsertBySeq(sorted: seq<RunEvent>, e: RunEvent): (r: seq<RunEvent>)
    ensures multiset(r) == multiset(sorted) + multiset{e}
  {
    if sorted == [] then [e]
    else if sorted[|sorted| - 1].seqNo <= e.seqNo then
      assert sorted + [e] == sorted + [e];
      sorted + [e]
    else
      assert sorted == sorted[..|sorted| - 1] + [sorted[|sorted| - 1]];
      InsertBySeq(sorted[..|sorted| - 1], e) + [sorted[|sorted| - 1]]
  }

  function SortBySeq(events: seq<RunEvent>): (r: seq<RunEvent>)
    ensures multiset(r) == multiset(events)
  {
    if events == [] then []
    else
      assert events == events[..|events| - 1] + [events[|events| - 1]];
      InsertBySeq(SortBySeq(events[..|events| - 1]), events[|events| - 1])
  }

  function NotUsage(events: seq<RunEvent>): seq<RunEvent> {
    if events == [] then []
    else
      var rest, last := NotUsage(events[..|events| - 1]), events[|events| - 1];
      if IsUsageKind(last.kind) then rest else rest + [last]
  }
}
